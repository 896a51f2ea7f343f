/** How tokens are read into statements.  The current token has been taken off the
    sequence; acc is what has been read of the enclosing block. */
module StatementGrammar {
  import opened Isa
  import opened Syntax
  import opened Grammar
  import opened Programs

  /** The current token with what follows it, after a label; Bad where the source fails. */
  datatype Start = Start(acc: Block, t: Token, ts: seq<Token>) | Bad

  function Size(t: Token, ts: seq<Token>): nat {
    |ts| + if t.kind == TKN_END then 0 else 1
  }

  /** check_for_label() */
  function TakeLabel(acc: Block, t: Token, ts: seq<Token>): (r: Start)
    ensures r.Start? ==> |r.ts| <= |ts| && Size(r.t, r.ts) <= Size(t, ts)
  {
    if t.kind == TKN_NAME && Look(ts).kind == TKN_COLON then AfterLabel(Seq(acc, LabelMark(t.text)), Tail(ts))
    else if t.kind == TKN_LABEL then
      if t.text == "" then Bad else AfterLabel(Seq(acc, LabelMark(LabelText(t.text))), ts)
    else if t.kind == TKN_NUM || t.kind == TKN_FLOAT then
      AfterLabel(Seq(acc, LabelMark(t.text)), if Look(ts).kind == TKN_COLON then Tail(ts) else ts)
    else Start(acc, t, ts)
  }

  /** A label token may include its colon. */
  function LabelText(text: string): string
    requires text != ""
  {
    if text[|text| - 1] == ':' then text[..|text| - 1] else text
  }

  /** What follows a label may be a remark. */
  function AfterLabel(acc: Block, ts: seq<Token>): (r: Start)
    ensures r.Start? ==> |r.ts| <= |ts| && Size(r.t, r.ts) <= |ts|
  {
    var t := Look(ts);
    if t.kind == TKN_END then Start(acc, t, Tail(ts))
    else if t.text == "" then Bad
    else if t.text[0] == '*' || t.text[0] == '!' then SkipRemark(acc, t, Tail(ts))
    else Start(acc, t, Tail(ts))
  }

  /** st_remark() */
  function SkipRemark(acc: Block, t: Token, ts: seq<Token>): (r: Start)
    ensures r.Start? && |r.ts| <= |ts| && r.t.kind == TKN_END
    decreases Size(t, ts)
  {
    if t.kind == TKN_END then Start(acc, t, ts) else SkipRemark(acc, Look(ts), Tail(ts))
  }

  /** proc_statement_group(): statements separated by semicolons. */
  function ParseGroup(acc: Block, t: Token, ts: seq<Token>): (r: Parse<Block>)
    ensures r.Ok? ==> |r.rest| <= |ts|
    decreases Size(t, ts), 3
  {
    match ParseStmt(acc, t, ts)
    case Err => Err
    case Ok(b, rest) =>
      if Look(rest).kind != TKN_SEMICOLON then Ok(b, rest)
      else ParseGroup(b, Look(Tail(rest)), Tail(Tail(rest)))
  }

  predicate IsSetOperator(kind: int) {
    || kind == TKN_EQ || kind == TKN_ADDEQ || kind == TKN_SUBEQ
    || kind == TKN_CATEQ || kind == TKN_MULTEQ || kind == TKN_DIVEQ
  }

  /** proc_statement().  Field, substring, array and @variable assignments are not modelled. */
  function ParseStmt(acc: Block, t: Token, ts: seq<Token>): (r: Parse<Block>)
    ensures r.Ok? ==> |r.rest| <= |ts|
    decreases Size(t, ts), 2
  {
    if t.kind == TKN_END then Ok(acc, ts)
    else if t.kind == TKN_SEMICOLON then ParseStmt(acc, Look(ts), Tail(ts))
    else if t.kind != TKN_NAME then Err
    else if IsSetOperator(Look(ts).kind) then
      match ParseSet(t.text, Look(ts).kind, Tail(ts))
      case Err => Err
      case Ok(s, rest) => Ok(Seq(acc, s), rest)
    else if Look(ts).kind == TKN_LSQBR || Look(ts).kind == TKN_LT || Look(ts).kind == TKN_OBJREF then Err
    else if IsWord(t, "END") then ParseEnd(acc, ts)
    else
      match ParseKeyword(t, ts)
      case Err => Err
      case Ok(s, rest) => Ok(Seq(acc, s), rest)
  }

  /** st_end(): nothing but line ends may follow. */
  function ParseEnd(acc: Block, ts: seq<Token>): (r: Parse<Block>)
    ensures r.Ok? ==> |r.rest| <= |ts|
    decreases |ts|
  {
    if ts == [] then Ok(acc, ts) else if ts[0].kind != TKN_END then Err else ParseEnd(acc, ts[1..])
  }

  function SetOpcode(kind: int): int {
    if kind == TKN_ADDEQ then OP_ADD
    else if kind == TKN_SUBEQ then OP_SUB
    else if kind == TKN_MULTEQ then OP_MUL
    else if kind == TKN_DIVEQ then OP_DIV
    else if kind == TKN_CATEQ then OP_APPEND
    else OP_STOR
  }

  /** Whether a constant that ends the line has a store opcode of its own. */
  predicate IsShort(kind: int, t: Token) {
    || (kind == TKN_EQ && t.kind == TKN_NUM && t.text == "0")
    || (kind == TKN_EQ && t.kind == TKN_STRING && t.text == "")
    || ((kind == TKN_ADDEQ || kind == TKN_SUBEQ) && t.kind == TKN_NUM && t.text == "1")
  }

  /** process_operator() */
  function ParseSet(name: string, kind: int, ts: seq<Token>): (r: Parse<Stmt>)
    ensures r.Ok? ==> |r.rest| <= |ts|
  {
    if IsShort(kind, Look(ts)) && Look(Tail(ts)).kind == TKN_END then
      Ok(Set(name, SetOpcode(kind),
             if Look(ts).kind == TKN_STRING then Str("") else Num(DecimalValue(Look(ts).text)), true),
         Tail(ts))
    else
      match ParseExpr(ts)
      case Err => Err
      case Ok(e, rest) => Ok(Set(name, SetOpcode(kind), e, false), rest)
  }

  /** is_statement(), for the statements that are modelled. */
  function ParseKeyword(t: Token, ts: seq<Token>): (r: Parse<Stmt>)
    ensures r.Ok? ==> |r.rest| <= |ts|
    decreases |ts| + 1, 0
  {
    if IsWord(t, "LOOP") then Ok(LoopMark, ts)
    else if IsWord(t, "REPEAT") then Ok(RepeatMark, ts)
    else if IsWord(t, "EXIT") then Ok(Leave(false), ts)
    else if IsWord(t, "CONTINUE") then Ok(Leave(true), ts)
    else if IsWord(t, "WHILE") then ParseTest(false, ts)
    else if IsWord(t, "UNTIL") then ParseTest(true, ts)
    else if IsWord(t, "IF") then ParseIfStmt(ts)
    else if IsWord(t, "BEGIN") then ParseCase(ts)
    else if IsWord(t, "GOTO") then ParseGoto(ts)
    else if IsWord(t, "GO") then ParseGoto(if IsWord(Look(ts), "TO") then Tail(ts) else ts)
    else ParseFileKeyword(t, ts)
  }

  function ParseFileKeyword(t: Token, ts: seq<Token>): (r: Parse<Stmt>)
    ensures r.Ok? ==> |r.rest| <= |ts|
    decreases |ts|, 16
  {
    if IsWord(t, "DELETE") then ParseDelete(0, ts)
    else if IsWord(t, "DELETEU") then ParseDelete(OP_ULOCK, ts)
    else if IsWord(t, "READ") then ParseRead(0, ts)
    else if IsWord(t, "READL") then ParseRead(OP_LLOCK, ts)
    else if IsWord(t, "READU") then ParseRead(OP_ULOCK, ts)
    else if IsWord(t, "RECORDLOCKL") then ParseRecordLock(OP_LLOCK, ts)
    else if IsWord(t, "RECORDLOCKU") then ParseRecordLock(OP_ULOCK, ts)
    else Err
  }

  /** st_while_until_common(); DO may follow. */
  function ParseTest(until: bool, ts: seq<Token>): (r: Parse<Stmt>)
    ensures r.Ok? ==> |r.rest| <= |ts|
  {
    match ParseExpr(ts)
    case Err => Err
    case Ok(e, rest) => Ok(Test(until, e), if IsWord(Look(rest), "DO") then Tail(rest) else rest)
  }

  /** get_label_name() */
  function ParseGoto(ts: seq<Token>): (r: Parse<Stmt>)
    ensures r.Ok? ==> |r.rest| <= |ts|
  {
    var t := Look(ts);
    if t.kind == TKN_LABEL then
      if t.text == "" then Err else Ok(Goto(if t.text[0] == ':' then t.text[1..] else t.text), Tail(ts))
    else if t.kind == TKN_NAME || t.kind == TKN_NUM || t.kind == TKN_FLOAT || t.kind == TKN_NAME_LBR then
      Ok(Goto(t.text), if Look(Tail(ts)).kind == TKN_COLON then Tail(Tail(ts)) else Tail(ts))
    else Err
  }

  /** proc_line_prefetched(): an optional label, then statements. */
  function ParsePrefetched(acc: Block, t: Token, ts: seq<Token>): (r: Parse<Block>)
    ensures r.Ok? ==> |r.rest| <= |ts|
    decreases Size(t, ts), 4
  {
    match TakeLabel(acc, t, ts)
    case Bad => Err
    case Start(acc', t', ts') =>
      match ParseGroup(acc', t', ts')
      case Err => Err
      case Ok(b, rest) => Ok(b, EndLine(rest))
  }

  /** An end-of-line token in the look-ahead is skipped. */
  function EndLine(ts: seq<Token>): (us: seq<Token>)
    ensures |us| <= |ts|
  {
    if Look(ts).kind == TKN_END then Tail(ts) else ts
  }

  /** proc_line() */
  function ParseLine(acc: Block, ts: seq<Token>): (r: Parse<Block>)
    ensures r.Ok? ==> |r.rest| <= |Tail(ts)|
    decreases |ts|, 5
  {
    ParsePrefetched(acc, Look(ts), Tail(ts))
  }

  /** The lines of a multi-line clause, up to its END.  The first label of a line is
      looked for here, so that a labelled END is found. */
  function ParseBody(acc: Block, ts: seq<Token>): (r: Parse<Block>)
    ensures r.Ok? ==> |r.rest| <= |ts|
    decreases |ts|, 6
  {
    if ts == [] then Err
    else match TakeLabel(acc, ts[0], ts[1..])
      case Bad => Err
      case Start(acc', t', ts') =>
        if IsWord(t', "END") then Ok(acc', ts')
        else match ParsePrefetched(acc', t', ts')
          case Err => Err
          case Ok(b, rest) => ParseBody(b, rest)
  }

  /** The conditioned statements after THEN, ELSE, ERROR or LOCKED. */
  function ParseClause(ts: seq<Token>): (r: Parse<Block>)
    ensures r.Ok? ==> |r.rest| <= |ts|
    decreases |ts|, 7
  {
    if Look(ts).kind == TKN_END then ParseBody(Empty, Tail(ts)) else ParseGroup(Empty, Look(ts), Tail(ts))
  }

  /** An optional clause introduced by a word. */
  function ParseOptional(word: string, ts: seq<Token>): (r: Parse<Clause>)
    ensures r.Ok? ==> |r.rest| <= |ts|
    decreases |ts|, 8
  {
    if !IsWord(Look(ts), word) then Ok(Absent, ts)
    else match ParseClause(Tail(ts))
      case Err => Err
      case Ok(b, rest) => Ok(Clause(b), rest)
  }

  function ParseIfStmt(ts: seq<Token>): (r: Parse<Stmt>)
    ensures r.Ok? ==> |r.rest| <= |ts|
    decreases |ts|, 10
  {
    match ParseExpr(ts)
    case Err => Err
    case Ok(c, rest) => ParseBranches(c, EndLine(rest))
  }

  /** if_back_end(): THEN, ELSE or both. */
  function ParseBranches(c: Expr, ts: seq<Token>): (r: Parse<Stmt>)
    ensures r.Ok? ==> |r.rest| <= |ts| && r.value.If? && r.value.cond == c
    decreases |ts|, 9
  {
    if IsWord(Look(ts), "THEN") then ParseThen(c, Tail(ts))
    else if IsWord(Look(ts), "ELSE") then
      match ParseClause(Tail(ts))
      case Err => Err
      case Ok(b, rest) => Ok(If(c, Absent, Clause(b)), rest)
    else Err
  }

  /** The THEN clause, and the ELSE clause if there is one. */
  function ParseThen(c: Expr, ts: seq<Token>): (r: Parse<Stmt>)
    ensures r.Ok? ==> |r.rest| <= |ts| && r.value.If? && r.value.cond == c && r.value.thn.Clause?
    decreases |ts|, 9
  {
    match ParseClause(ts)
    case Err => Err
    case Ok(a, rest) =>
      match ParseOptional("ELSE", EndLine(rest))
      case Err => Err
      case Ok(b, rest') => Ok(If(c, Clause(a), b), rest')
  }

  /** st_begin(): BEGIN CASE to END CASE */
  function ParseCase(ts: seq<Token>): (r: Parse<Stmt>)
    ensures r.Ok? ==> |r.rest| <= |ts|
    decreases |ts|, 10
  {
    if !IsWord(Look(ts), "CASE") || Look(Tail(ts)).kind != TKN_END then Err
    else match ParseArms(NoArms, Tail(Tail(ts)))
      case Err => Err
      case Ok(arms, rest) =>
        if rest == [] || !IsWord(Look(Tail(rest)), "CASE") then Err else Ok(Case(arms), Tail(Tail(rest)))
  }

  /** The elements up to the END, or up to the end of the source. */
  function ParseArms(arms: Arms, ts: seq<Token>): (r: Parse<Arms>)
    ensures r.Ok? ==> |r.rest| <= |ts|
    decreases |ts|, 9
  {
    if IsWord(Look(ts), "END") || ts == [] then Ok(arms, ts)
    else if !IsWord(Look(ts), "CASE") then Err
    else match ParseArm(arms, Tail(ts))
      case Err => Err
      case Ok(more, rest) => ParseArms(more, rest)
  }

  /** One more element: its condition and its statements. */
  function ParseArm(arms: Arms, ts: seq<Token>): (r: Parse<Arms>)
    ensures r.Ok? ==> |r.rest| <= |ts|
    decreases |ts|, 8
  {
    match ParseExpr(ts)
    case Err => Err
    case Ok(e, rest) =>
      match ParseFirst(rest)
      case Err => Err
      case Ok(b, rest') =>
        match ParseElement(b, EndLine(rest'))
        case Err => Err
        case Ok(body, rest'') => Ok(Arm(arms, e, body), rest'')
  }

  /** Statements on the same line as CASE, after a semicolon. */
  function ParseFirst(ts: seq<Token>): (r: Parse<Block>)
    ensures r.Ok? ==> |r.rest| <= |ts|
    decreases |ts|, 7
  {
    if Look(ts).kind == TKN_SEMICOLON then
      if Look(Tail(ts)).kind == TKN_END then Ok(Empty, Tail(ts))
      else ParseGroup(Empty, Look(Tail(ts)), Tail(Tail(ts)))
    else if Look(ts).kind == TKN_END then Ok(Empty, ts)
    else Err
  }

  /** The lines of an element, up to the next CASE or END. */
  function ParseElement(acc: Block, ts: seq<Token>): (r: Parse<Block>)
    ensures r.Ok? ==> |r.rest| <= |ts|
    decreases |ts|, 6
  {
    if IsWord(Look(ts), "CASE") || IsWord(Look(ts), "END") || ts == [] then Ok(acc, ts)
    else match ParseLine(acc, ts)
      case Err => Err
      case Ok(b, rest) => ParseElement(b, EndLine(rest))
  }

  /** A scalar variable */
  function ParseName(ts: seq<Token>): (r: Parse<Expr>)
    ensures r.Ok? ==> |r.rest| <= |ts|
  {
    if Look(ts).kind == TKN_NAME then Ok(Var(Look(ts).text), Tail(ts)) else Err
  }

  /** DELETE file, id */
  function ParseDelete(lock: nat, ts: seq<Token>): (r: Parse<Stmt>)
    ensures r.Ok? ==> |r.rest| <= |ts|
    decreases |ts|, 15
  {
    match ParseExpr(ts)
    case Err => Err
    case Ok(f, rest) => ParseKey(Call(lock, OP_DELETE, false, false), One(f), rest)
  }

  /** RECORDLOCKU file, id */
  function ParseRecordLock(lock: nat, ts: seq<Token>): (r: Parse<Stmt>)
    ensures r.Ok? ==> |r.rest| <= |ts|
    decreases |ts|, 15
  {
    match ParseName(ts)
    case Err => Err
    case Ok(f, rest) => ParseKey(Call(lock, OP_LOCKREC, true, false), One(f), rest)
  }

  /** READ var FROM file, id */
  function ParseRead(lock: nat, ts: seq<Token>): (r: Parse<Stmt>)
    ensures r.Ok? ==> |r.rest| <= |ts|
    decreases |ts|, 15
  {
    match ParseName(ts)
    case Err => Err
    case Ok(v, rest) =>
      if !IsWord(Look(rest), "FROM") then Err
      else match ParseName(Tail(rest))
        case Err => Err
        case Ok(f, rest') => ParseKey(Call(lock, OP_READ, lock > 0, true), Two(v, f), rest')
  }

  /** A comma, the record id, and the clauses. */
  function ParseKey(call: Call, args: Exprs, ts: seq<Token>): (r: Parse<Stmt>)
    ensures r.Ok? ==> |r.rest| <= |ts|
    decreases |ts|, 14
  {
    if Look(ts).kind != TKN_COMMA then Err
    else match ParseExpr(Tail(ts))
      case Err => Err
      case Ok(k, rest) => ParseFile(call, Args(args, k), rest)
  }

  /** back_end(): the clauses of a file operation. */
  function ParseFile(call: Call, args: Exprs, ts: seq<Token>): (r: Parse<Stmt>)
    ensures r.Ok? ==> |r.rest| <= |ts|
    decreases |ts|, 13
  {
    match ParseOnError(EndLine(ts))
    case Err => Err
    case Ok(onError, rest) =>
      match ParseLocked(call, rest)
      case Err => Err
      case Ok(locked, rest') => ParseChoice(call, args, onError, locked, rest')
  }

  function ParseOnError(ts: seq<Token>): (r: Parse<Clause>)
    ensures r.Ok? ==> |r.rest| <= |ts|
    decreases |ts|, 9
  {
    if IsWord(Look(ts), "ON") && IsWord(Look(Tail(ts)), "ERROR") then ParseOptional("ERROR", Tail(ts))
    else Ok(Absent, ts)
  }

  function ParseLocked(call: Call, ts: seq<Token>): (r: Parse<Clause>)
    ensures r.Ok? ==> |r.rest| <= |ts|
    decreases |ts|, 9
  {
    if call.canLock then ParseOptional("LOCKED", EndLine(ts)) else Ok(Absent, ts)
  }

  function ParseChoice(call: Call, args: Exprs, onError: Clause, locked: Clause, ts: seq<Token>): (r: Parse<Stmt>)
    ensures r.Ok? ==> |r.rest| <= |ts| && r.value.File? && r.value.call == call && r.value.args == args
    ensures r.Ok? ==> r.value.onError == onError && r.value.locked == locked
    decreases |ts|, 10
  {
    if !call.thenElse then Ok(File(call, args, onError, locked, Absent, Absent), ts)
    else if IsWord(Look(EndLine(ts)), "ELSE") then
      match ParseClause(Tail(EndLine(ts)))
      case Err => Err
      case Ok(b, rest) => Ok(File(call, args, onError, locked, Absent, Clause(b)), rest)
    else if IsWord(Look(EndLine(ts)), "THEN") then
      ParseSuccess(call, args, onError, locked, Tail(EndLine(ts)))
    else Err
  }

  function ParseSuccess(call: Call, args: Exprs, onError: Clause, locked: Clause, ts: seq<Token>): (r: Parse<Stmt>)
    ensures r.Ok? ==> |r.rest| <= |ts| && r.value.File? && r.value.call == call && r.value.args == args
    ensures r.Ok? ==> r.value.onError == onError && r.value.locked == locked && r.value.thn.Clause?
    decreases |ts|, 9
  {
    match ParseClause(ts)
    case Err => Err
    case Ok(a, rest) =>
      match ParseOptional("ELSE", EndLine(rest))
      case Err => Err
      case Ok(b, rest') => Ok(File(call, args, onError, locked, Clause(a), b), rest')
  }

  /** The loop of comp(): lines up to the end of the source. */
  function ParseLines(acc: Block, ts: seq<Token>): (r: Parse<Block>)
    ensures r.Ok? ==> r.rest == []
    decreases |ts|
  {
    if ts == [] then Ok(acc, ts)
    else match ParseLine(acc, ts)
      case Err => Err
      case Ok(b, rest) => ParseLines(b, rest)
  }
}
