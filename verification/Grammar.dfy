/** The reference reading of expressions: a recursive-descent parser with one level
    for each operator priority, every level grouping to the left. */
module Grammar {
  import opened Outcomes
  import opened Isa
  import opened Listing
  import opened Syntax

  datatype Parse<+T> = Ok(value: T, rest: seq<Token>) | Err

  /** Operator priority as a level, 1 binding tightest; 0 for other tokens.  The
      priority value in op_priority is 10 * level + 11. */
  function Level(kind: int): (l: nat)
    ensures l <= 7
  {
    if kind == 29 then 1
    else if 26 <= kind <= 28 then 2
    else if kind == 24 || kind == 25 then 3
    else if kind == 30 then 5
    else if 12 <= kind <= 21 || kind == 31 then 6
    else if kind == 22 || kind == 23 then 7
    else 0
  }

  function Opcode(kind: int): int {
    match kind
    case 12 => OP_LT
    case 13 => OP_LT
    case 14 => OP_GT
    case 15 => OP_GT
    case 16 => OP_EQ
    case 17 => OP_NE
    case 18 => OP_NE
    case 19 => OP_LE
    case 20 => OP_GE
    case 21 => OP_GE
    case 22 => OP_AND
    case 23 => OP_OR
    case 24 => OP_ADD
    case 25 => OP_SUB
    case 26 => OP_DIV
    case 27 => OP_IDIV
    case 28 => OP_MUL
    case 29 => OP_PWR
    case 30 => OP_CAT
    case 31 => OP_MATCHES
    case _ => 0
  }

  predicate IsReserved(word: string) {
    word in {"BEFORE", "BY", "DO", "ELSE", "FROM", "GO", "IN", "LOCKED", "NEXT", "ON", "REPEAT", "SETTING",
             "THEN", "TO", "UNTIL", "WHILE"}
  }

  /** Whether a colon before this token is the concatenation operator. */
  predicate ColonApplies(next: Token) {
    if next.kind == TKN_NAME then !IsReserved(Upper(next.text))
    else next.kind in {TKN_NAME_LBR, TKN_NUM, TKN_HEXNUM, TKN_STRING, TKN_FLOAT, TKN_AT_NAME, TKN_AT,
                       TKN_LBR, TKN_PLUS, TKN_MINUS, TKN_LCBR}
  }

  /** The level of the operator that comes next, 0 if the expression ends here. */
  function OpLevel(ts: seq<Token>): (l: nat)
    ensures l <= 7 && (l > 0 ==> ts != [])
  {
    if ts == [] then 0
    else if ts[0].kind == TKN_COLON && !ColonApplies(Look(ts[1..])) then 0
    else Level(ts[0].kind)
  }

  /** is_field_ref(): the position of the token that closes the < at ts[0], by
      counting field and round brackets; None where the < is an operator. */
  function Closing(ts: seq<Token>, n: nat, i: nat, j: nat): (r: Option<nat>)
    requires n <= |ts| && j >= 1
    ensures r.Some? ==> n <= r.value < |ts| && ts[r.value].kind in {TKN_GT, TKN_GE, TKN_NEX}
    decreases |ts| - n
  {
    if n == |ts| || ts[n].kind == TKN_END then None
    else
      var k := ts[n].kind;
      if k == TKN_LT then Closing(ts, n + 1, i, if i == 0 then j + 1 else j)
      else if k == TKN_GT || k == TKN_GE || k == TKN_NEX then
        if i == 0 && j == 1 then Some(n) else Closing(ts, n + 1, i, if i == 0 then j - 1 else j)
      else if k == TKN_LBR then Closing(ts, n + 1, i + 1, j)
      else if k == TKN_RBR then
        if i == 0 then None else Closing(ts, n + 1, i - 1, j)
      else if i == 0 && (k == TKN_AND || k == TKN_OR || IsWord(ts[n], "THEN")) then None
      else Closing(ts, n + 1, i, j)
  }

  datatype FieldRef = Operator | Crash | Field(marked: seq<Token>)

  /** The role of the < at ts[0].  A field reference comes back with its closing
      token marked; a closing >= or >< would need a token to be split, which the
      source can only do for ><=. */
  function Classify(ts: seq<Token>): (r: FieldRef)
    requires ts != []
    ensures r.Field? ==> |r.marked| == |ts| && forall i :: 0 <= i < |ts| ==>
              (ts[i].kind == TKN_END <==> r.marked[i].kind == TKN_END)
              && (NameToken(r.marked[i]) ==> r.marked[i] == ts[i])
  {
    match Closing(ts, 1, 0, 1)
    case None => Operator
    case Some(n) =>
      var next := if ts[n].kind == TKN_GE || ts[n].kind == TKN_NEX then ts[n] else Look(ts[n + 1..]);
      if n != 2 && next.kind in {TKN_NUM, TKN_HEXNUM, TKN_FLOAT} then Operator
      else if ts[n].kind == TKN_GE then Crash
      else if ts[n].kind == TKN_NEX then
        if Look(ts[n + 1..]).text == "=" && ts[n + 1].kind != TKN_END then
          Field(ts[n := ts[n].(kind := TKN_END_FIELD)][n + 1 := Token(TKN_LE, "<=")])
        else Crash
      else Field(ts[n := ts[n].(kind := TKN_END_FIELD)])
  }

  function ParseExpr(ts: seq<Token>): (r: Parse<Expr>)
    ensures r.Ok? ==> |r.rest| < |ts|
    decreases |ts|, 20
  {
    ParseLevel(7, ts)
  }

  /** An operand of level k - 1, then any operators of level k with theirs. */
  function ParseLevel(k: nat, ts: seq<Token>): (r: Parse<Expr>)
    requires k <= 7
    ensures r.Ok? ==> |r.rest| < |ts|
    decreases |ts|, 10 + k
  {
    if k == 0 then ParseItem(false, ts)
    else match ParseLevel(k - 1, ts)
      case Err => Err
      case Ok(e, rest) => LoopLevel(k, e, rest)
  }

  function LoopLevel(k: nat, e: Expr, ts: seq<Token>): (r: Parse<Expr>)
    requires 1 <= k <= 7
    ensures r.Ok? ==> |r.rest| <= |ts|
    decreases |ts|, 10 + k
  {
    if OpLevel(ts) != k then Ok(e, ts)
    else match ParseLevel(k - 1, ts[1..])
      case Err => Err
      case Ok(right, rest) => LoopLevel(k, Bin(Opcode(ts[0].kind), e, right), rest)
  }

  /** A signed operand with its extractions.  A minus is folded into a number. */
  function ParseItem(minus: bool, ts: seq<Token>): (r: Parse<Expr>)
    ensures r.Ok? ==> |r.rest| < |ts|
    decreases |ts|, 5
  {
    if ts == [] then Err
    else if ts[0].kind == TKN_PLUS then ParseItem(minus, ts[1..])
    else if ts[0].kind == TKN_MINUS then ParseItem(!minus, ts[1..])
    else match ParsePrimary(minus, ts)
      case Err => Err
      case Ok(base, rest) => FinishItem(minus && ts[0].kind != TKN_NUM, base, rest)
  }

  /** Extractions are applied first, then a minus that is still pending. */
  function FinishItem(minus: bool, base: Expr, ts: seq<Token>): (r: Parse<Expr>)
    ensures r.Ok? ==> |r.rest| <= |ts|
    decreases |ts|, 4
  {
    match ParsePostfix(base, ts)
    case Err => Err
    case Ok(e, rest) => Ok(if minus then App(OP_NEG, One(e)) else e, rest)
  }

  function ParsePrimary(minus: bool, ts: seq<Token>): (r: Parse<Expr>)
    requires ts != []
    ensures r.Ok? ==> |r.rest| < |ts|
    decreases |ts|, 4
  {
    var t := ts[0];
    if t.kind == TKN_NAME then
      if IsWord(t, "IF") then ParseIf(ts[1..])
      else if Look(ts[1..]).kind == TKN_OBJREF then Err
      else Ok(Var(t.text), ts[1..])
    else if t.kind == TKN_NUM then
      Ok(Num(if minus then -DecimalValue(t.text) else DecimalValue(t.text)), ts[1..])
    else if t.kind == TKN_STRING then
      if IsByteText(t.text) then Ok(Str(t.text), ts[1..]) else Err
    else if t.kind == TKN_LBR then
      match ParseExpr(ts[1..])
      case Err => Err
      case Ok(e, rest) => if Look(rest).kind == TKN_RBR then Ok(e, rest[1..]) else Err
    else Err
  }

  /** The rest of IF condition THEN value ELSE value */
  function ParseIf(ts: seq<Token>): (r: Parse<Expr>)
    ensures r.Ok? ==> |r.rest| <= |ts|
    decreases |ts|, 22
  {
    match ParseExpr(ts)
    case Err => Err
    case Ok(c, rest) => ParseValues(c, rest)
  }

  function ParseValues(c: Expr, ts: seq<Token>): (r: Parse<Expr>)
    ensures r.Ok? ==> |r.rest| <= |ts|
    decreases |ts|, 21
  {
    if ts == [] || !IsWord(ts[0], "THEN") then Err
    else match ParseExpr(ts[1..])
      case Err => Err
      case Ok(a, rest) =>
        if rest == [] || !IsWord(rest[0], "ELSE") then Err
        else match ParseExpr(rest[1..])
          case Err => Err
          case Ok(b, rest') => Ok(IfThen(c, a, b), rest')
  }

  /** A comma and an expression, or nothing. */
  function ParseMore(ts: seq<Token>): (r: Parse<Option<Expr>>)
    ensures r.Ok? ==> |r.rest| <= |ts|
    decreases |ts|, 21
  {
    if Look(ts).kind != TKN_COMMA then Ok(None, ts)
    else match ParseExpr(ts[1..])
      case Err => Err
      case Ok(e, rest) => Ok(Some(e), rest)
  }

  datatype Bounds = Bounds(first: Expr, second: Option<Expr>, third: Option<Expr>)

  /** One to three expressions separated by commas. */
  function ParseBounds(ts: seq<Token>): (r: Parse<Bounds>)
    ensures r.Ok? ==> |r.rest| < |ts| && (r.value.third.Some? ==> r.value.second.Some?)
    decreases |ts|, 22
  {
    match ParseExpr(ts)
    case Err => Err
    case Ok(a, rest) =>
      match ParseMore(rest)
      case Err => Err
      case Ok(b, rest') =>
        match ParseMore(rest')
        case Err => Err
        case Ok(c, rest'') => Ok(Bounds(a, b, c), rest'')
  }

  /** x[a], x[a,b] and x[a,b,c] */
  function Extraction(e: Expr, b: Bounds): Expr {
    if b.second.None? then App(OP_SUBSTRE, Two(e, b.first))
    else if b.third.None? then App(OP_SUBSTR, Three(e, b.first, b.second.value))
    else App(OP_FIELD, Four(e, b.first, b.second.value, b.third.value))
  }

  function OrZero(o: Option<Expr>): Expr {
    if o.Some? then o.value else Num(0)
  }

  /** x<f>, x<f,v> and x<f,v,s>; a missing position is zero. */
  function FieldOf(e: Expr, b: Bounds): Expr {
    App(OP_EXTRACT, Four(e, b.first, OrZero(b.second), OrZero(b.third)))
  }

  function ParsePostfix(e: Expr, ts: seq<Token>): (r: Parse<Expr>)
    ensures r.Ok? ==> |r.rest| <= |ts|
    decreases |ts|, 3
  {
    if ts == [] then Ok(e, ts)
    else if ts[0].kind == TKN_LSQBR then
      match ParseBounds(ts[1..])
      case Err => Err
      case Ok(b, rest) =>
        if Look(rest).kind == TKN_RSQBR then ParsePostfix(Extraction(e, b), rest[1..]) else Err
    else if ts[0].kind == TKN_LT then
      match Classify(ts)
      case Operator => Ok(e, ts)
      case Crash => Err
      case Field(marked) =>
        match ParseBounds(marked[1..])
        case Err => Err
        case Ok(b, rest) =>
          if Look(rest).kind == TKN_END_FIELD then ParsePostfix(FieldOf(e, b), rest[1..]) else Err
    else Ok(e, ts)
  }
}
