/** Expressions as they are written, and what each way of writing means: the other way
    round from reading, with a table of operators of its own. */
module Phrases {
  import opened Outcomes
  import opened Isa
  import opened Listing
  import opened Syntax
  import opened Names
  import opened Grammar

  /** Digits may have leading zeros.  A Dyadic has its operator's token, since most
      operators can be written in several ways. */
  datatype Phrase =
    | Digits(zeros: nat, n: nat)
    | Quoted(s: string)
    | Named(name: string)
    | Group(inner: Phrase)
    | Signed(minus: bool, inner: Phrase)
    | Dyadic(sign: Token, l: Phrase, r: Phrase)
    | Choice(c: Phrase, a: Phrase, b: Phrase)
    | Slice(base: Phrase, at: Positions)
    | Element(base: Phrase, at: Positions)

  datatype Positions = At1(a: Phrase) | At2(a: Phrase, b: Phrase) | At3(a: Phrase, b: Phrase, c: Phrase)

  /** An operator: its opcode, and how loosely it binds */
  datatype Sign = Sign(op: int, rank: nat)

  /** **, then * and the divisions, then + and -, then the colon, then comparisons and
      MATCHES, then & and ! */
  function SignOf(kind: int): Option<Sign> {
    match kind
    case 29 => Some(Sign(OP_PWR, 1))
    case 28 => Some(Sign(OP_MUL, 2))
    case 27 => Some(Sign(OP_IDIV, 2))
    case 26 => Some(Sign(OP_DIV, 2))
    case 25 => Some(Sign(OP_SUB, 3))
    case 24 => Some(Sign(OP_ADD, 3))
    case 30 => Some(Sign(OP_CAT, 5))
    case 31 => Some(Sign(OP_MATCHES, 6))
    case 12 => Some(Sign(OP_LT, 6))
    case 13 => Some(Sign(OP_LT, 6))
    case 14 => Some(Sign(OP_GT, 6))
    case 15 => Some(Sign(OP_GT, 6))
    case 16 => Some(Sign(OP_EQ, 6))
    case 17 => Some(Sign(OP_NE, 6))
    case 18 => Some(Sign(OP_NE, 6))
    case 19 => Some(Sign(OP_LE, 6))
    case 20 => Some(Sign(OP_GE, 6))
    case 21 => Some(Sign(OP_GE, 6))
    case 22 => Some(Sign(OP_AND, 7))
    case 23 => Some(Sign(OP_OR, 7))
    case _ => None
  }

  function Word(text: string): Token {
    Token(TKN_NAME, text)
  }

  const OpenBracket := Token(TKN_LBR, "(")
  const CloseBracket := Token(TKN_RBR, ")")
  const OpenSquare := Token(TKN_LSQBR, "[")
  const CloseSquare := Token(TKN_RSQBR, "]")
  const OpenAngle := Token(TKN_LT, "<")
  const CloseAngle := Token(TKN_GT, ">")
  const Comma := Token(TKN_COMMA, ",")

  function Zeros(n: nat): string {
    seq(n, i => '0')
  }

  function Print(w: Phrase): (ts: seq<Token>)
    ensures ts != []
  {
    match w
    case Digits(zeros, n) => [Token(TKN_NUM, Zeros(zeros) + Decimal(n))]
    case Quoted(s) => [Token(TKN_STRING, s)]
    case Named(name) => [Word(name)]
    case Group(e) => [OpenBracket] + Print(e) + [CloseBracket]
    case Signed(minus, e) => [if minus then Token(TKN_MINUS, "-") else Token(TKN_PLUS, "+")] + Print(e)
    case Dyadic(sign, l, r) => Print(l) + [sign] + Print(r)
    case Choice(c, a, b) => [Word("IF")] + Print(c) + [Word("THEN")] + Print(a) + [Word("ELSE")] + Print(b)
    case Slice(e, at) => Print(e) + [OpenSquare] + PrintAt(at) + [CloseSquare]
    case Element(e, at) => Print(e) + [OpenAngle] + PrintAt(at) + [CloseAngle]
  }

  function PrintAt(at: Positions): seq<Token> {
    match at
    case At1(a) => Print(a)
    case At2(a, b) => Print(a) + [Comma] + Print(b)
    case At3(a, b, c) => Print(a) + [Comma] + Print(b) + [Comma] + Print(c)
  }

  /** What is written.  Signs in front of an item cancel or not; what is left of them
      belongs to a number itself, and negates anything else. */
  function Tree(w: Phrase): Expr {
    Item(w, false)
  }

  function Item(w: Phrase, minus: bool): Expr
    decreases w, 1
  {
    match w
    case Signed(m, e) => Item(e, m != minus)
    case Dyadic(sign, l, r) =>
      App(if SignOf(sign.kind).Some? then SignOf(sign.kind).value.op else 0, Two(Item(l, false), Item(r, false)))
    case _ => if minus && !StartsWithDigits(w) then App(OP_NEG, One(Bare(w, minus))) else Bare(w, minus)
  }

  predicate StartsWithDigits(w: Phrase) {
    match w
    case Digits(_, _) => true
    case Slice(e, _) => StartsWithDigits(e)
    case Element(e, _) => StartsWithDigits(e)
    case _ => false
  }

  /** An item without its sign, which only a number takes */
  function Bare(w: Phrase, minus: bool): Expr
    decreases w, 0
  {
    match w
    case Digits(_, n) =>
      var v: int := n;
      Num(if minus then -v else v)
    case Quoted(s) => Str(s)
    case Named(name) => Var(name)
    case Group(e) => Item(e, false)
    case Choice(c, a, b) => IfThen(Item(c, false), Item(a, false), Item(b, false))
    case Slice(e, at) =>
      var x := Bare(e, minus);
      match at {
        case At1(a) => App(OP_SUBSTRE, Two(x, Item(a, false)))
        case At2(a, b) => App(OP_SUBSTR, Three(x, Item(a, false), Item(b, false)))
        case At3(a, b, c) => App(OP_FIELD, Four(x, Item(a, false), Item(b, false), Item(c, false)))
      }
    case Element(e, at) =>
      var x := Bare(e, minus);
      match at {
        case At1(a) => App(OP_EXTRACT, Four(x, Item(a, false), Num(0), Num(0)))
        case At2(a, b) => App(OP_EXTRACT, Four(x, Item(a, false), Item(b, false), Num(0)))
        case At3(a, b, c) => App(OP_EXTRACT, Four(x, Item(a, false), Item(b, false), Item(c, false)))
      }
    case _ => Num(0)
  }

  /** How loosely a phrase holds together: items 0, IF expressions loosest of all */
  function Rank(w: Phrase): nat {
    match w
    case Dyadic(sign, _, _) => if SignOf(sign.kind).Some? then SignOf(sign.kind).value.rank else 8
    case Choice(_, _, _) => 8
    case _ => 0
  }

  /** Names that are no words of the language where an expression is read */
  predicate Free(name: string) {
    Upper(name) !in {"BEFORE", "BY", "DO", "ELSE", "FROM", "GO", "IF", "IN", "LOCKED", "NEXT", "ON", "REPEAT",
                     "SETTING", "THEN", "TO", "UNTIL", "WHILE"}
  }

  /** Operators group to the left; a tighter one needs no brackets. */
  predicate Sound(w: Phrase) {
    match w
    case Digits(_, _) => true
    case Quoted(s) => IsByteText(s)
    case Named(name) => Free(name)
    case Group(e) => Sound(e)
    case Signed(_, e) => Sound(e) && Rank(e) == 0
    case Dyadic(sign, l, r) =>
      && SignOf(sign.kind).Some? && Upper(sign.text) != "THEN"
      && Sound(l) && Sound(r) && Rank(l) <= Rank(w) && Rank(r) < Rank(w)
    case Choice(c, a, b) => Sound(c) && Sound(a) && Sound(b)
    case Slice(e, at) => Sound(e) && Rank(e) == 0 && !e.Signed? && SoundAt(at)
    case Element(e, at) => Sound(e) && Rank(e) == 0 && !e.Signed? && SoundAt(at) && ShieldedAt(at)
  }

  predicate SoundAt(at: Positions) {
    match at
    case At1(a) => Sound(a)
    case At2(a, b) => Sound(a) && Sound(b)
    case At3(a, b, c) => Sound(a) && Sound(b) && Sound(c)
  }

  /** Nothing outside brackets that would end the search for the closing > */
  predicate Shielded(w: Phrase) {
    match w
    case Digits(_, _) => true
    case Quoted(s) => Upper(s) != "THEN"
    case Named(_) => true
    case Group(_) => true
    case Signed(_, e) => Shielded(e)
    case Dyadic(sign, l, r) => sign.kind !in {12, 14, 18, 20, 22, 23} && Shielded(l) && Shielded(r)
    case Choice(_, _, _) => false
    case Slice(e, at) => Shielded(e) && ShieldedAt(at)
    case Element(e, at) => Shielded(e) && ShieldedAt(at)
  }

  predicate ShieldedAt(at: Positions) {
    match at
    case At1(a) => Shielded(a)
    case At2(a, b) => Shielded(a) && Shielded(b)
    case At3(a, b, c) => Shielded(a) && Shielded(b) && Shielded(c)
  }

  /** No > or >= to the end of the line */
  predicate NoCloser(ts: seq<Token>) {
    ts == [] || ts[0].kind == TKN_END || (ts[0].kind !in {14, 18, 20} && NoCloser(ts[1..]))
  }

  const Closed := Token(TKN_END_FIELD, ">")

  /** Followed by us, each < is what it is meant to be: an operator has no > after it on
      its line, and a field reference is not followed by a number. */
  predicate Clear(w: Phrase, us: seq<Token>) {
    match w
    case Group(e) => Clear(e, [CloseBracket] + us)
    case Signed(_, e) => Clear(e, us)
    case Dyadic(sign, l, r) =>
      && Clear(l, [sign] + Print(r) + us) && Clear(r, us)
      && (sign.kind == TKN_LT ==> NoCloser(Print(r) + us))
    case Choice(c, a, b) =>
      && Clear(c, [Word("THEN")] + Print(a) + ([Word("ELSE")] + Print(b) + us))
      && Clear(a, [Word("ELSE")] + Print(b) + us) && Clear(b, us)
    case Slice(e, at) => Clear(e, [OpenSquare] + PrintAt(at) + [CloseSquare] + us) && ClearAt(at, [CloseSquare] + us)
    case Element(e, at) =>
      && Clear(e, [OpenAngle] + PrintAt(at) + [CloseAngle] + us) && ClearAt(at, [Closed] + us)
      && Look(us).kind !in {TKN_NUM, TKN_HEXNUM, TKN_FLOAT}
    case _ => true
  }

  predicate ClearAt(at: Positions, us: seq<Token>) {
    match at
    case At1(a) => Clear(a, us)
    case At2(a, b) => Clear(a, [Comma] + Print(b) + us) && Clear(b, us)
    case At3(a, b, c) =>
      Clear(a, [Comma] + Print(b) + [Comma] + Print(c) + us) && Clear(b, [Comma] + Print(c) + us) && Clear(c, us)
  }

  /** A token with which an expression cannot go on */
  predicate Stops(us: seq<Token>) {
    us == [] || (SignOf(us[0].kind).None? && us[0].kind != TKN_LSQBR && us[0].kind != TKN_OBJREF)
  }

  // Reading

  /** No operator of level k or tighter, and no extraction, comes next. */
  predicate Ends(k: nat, us: seq<Token>) {
    && (OpLevel(us) == 0 || OpLevel(us) > k)
    && Look(us).kind != TKN_LSQBR && Look(us).kind != TKN_OBJREF
    && (us != [] && us[0].kind == TKN_LT ==> Classify(us).Operator?)
  }

  lemma StopsEnds(us: seq<Token>, k: nat)
    requires Stops(us)
    ensures Ends(k, us)
  {
  }

  lemma SameSign(kind: int)
    ensures SignOf(kind).Some? ==> Level(kind) == SignOf(kind).value.rank && Opcode(kind) == SignOf(kind).value.op
    ensures SignOf(kind).None? ==> Level(kind) == 0
  {
  }

  /** The first token of an item */
  lemma {:induction false} StartsItem(w: Phrase)
    requires Sound(w) && Rank(w) < 8
    ensures ColonApplies(Print(w)[0])
  {
    match w
    case Signed(_, e) =>
    case Dyadic(_, l, _) => StartsItem(l);
    case Slice(e, _) => StartsItem(e);
    case Element(e, _) => StartsItem(e);
    case _ =>
  }

  /** What follows the left operand ends it. */
  lemma SignEnds(w: Phrase, us: seq<Token>)
    requires Sound(w) && w.Dyadic? && Clear(w, us)
    ensures var next := [w.sign] + Print(w.r) + us; OpLevel(next) == Rank(w) && Ends(Rank(w) - 1, next)
  {
    hide Print, Clear, Sound, Classify, ColonApplies;
    assert Sound(w.r) && Rank(w.r) < 8 && SignOf(w.sign.kind).Some? by { DyadicParts(w, us); }
    var next := [w.sign] + Print(w.r) + us;
    SameSign(w.sign.kind);
    StartsItem(w.r);
    assert next[1..] == Print(w.r) + us;
    if w.sign.kind == TKN_LT {
      DyadicParts(w, us);
      NotClosed(next);
    }
  }

  lemma DyadicParts(w: Phrase, us: seq<Token>)
    requires Sound(w) && w.Dyadic? && Clear(w, us)
    ensures SignOf(w.sign.kind).Some? && Sound(w.l) && Sound(w.r) && Rank(w.l) <= Rank(w) <= 7 && Rank(w.r) < Rank(w)
    ensures Clear(w.l, [w.sign] + Print(w.r) + us) && Clear(w.r, us)
    ensures w.sign.kind == TKN_LT ==> NoCloser(Print(w.r) + us)
  {
  }

  lemma NotClosed(ts: seq<Token>)
    requires ts != [] && NoCloser(ts[1..])
    ensures Classify(ts) == Operator
  {
    NeverCloses(ts, 1, 0, 1);
  }

  lemma {:induction false} NeverCloses(ts: seq<Token>, n: nat, i: nat, j: nat)
    requires n <= |ts| && j >= 1 && NoCloser(ts[n..])
    ensures Closing(ts, n, i, j) == None
    decreases |ts| - n
  {
    if n < |ts| && ts[n].kind != TKN_END {
      assert ts[n..][1..] == ts[n + 1..];
      assert ts[n..][0] == ts[n];
      NeverCloses(ts, n + 1, i, j);
      NeverCloses(ts, n + 1, i + 1, j);
      NeverCloses(ts, n + 1, i, j + 1);
      if i > 0 {
        NeverCloses(ts, n + 1, i - 1, j);
      }
    }
  }

  // Searching for the closing >

  /** These tokens stand at n. */
  predicate At(ts: seq<Token>, n: nat, part: seq<Token>) {
    n + |part| <= |ts| && ts[n..n + |part|] == part
  }

  lemma AtSplit(ts: seq<Token>, n: nat, a: seq<Token>, b: seq<Token>)
    requires At(ts, n, a + b)
    ensures At(ts, n, a) && At(ts, n + |a|, b)
  {
    var s := ts[n..n + |a + b|];
    assert ts[n..n + |a|] == s[..|a|] == a;
    assert ts[n + |a|..n + |a| + |b|] == s[|a|..] == b;
  }

  lemma AtOne(ts: seq<Token>, n: nat, t: Token)
    requires At(ts, n, [t])
    ensures n < |ts| && ts[n] == t
  {
    assert ts[n..n + 1][0] == t;
  }

  /** The search passes over these tokens at bracket depth i. */
  ghost predicate Passes(part: seq<Token>, i: nat) {
    forall ts: seq<Token>, n: nat, j: nat {:trigger At(ts, n, part), Closing(ts, n, i, j)} ::
      At(ts, n, part) && j >= 1 ==> Closing(ts, n, i, j) == Closing(ts, n + |part|, i, j)
  }

  lemma PassBoth(a: seq<Token>, b: seq<Token>, i: nat)
    requires Passes(a, i) && Passes(b, i)
    ensures Passes(a + b, i)
  {
    hide Closing;
    forall ts: seq<Token>, n: nat, j: nat | At(ts, n, a + b) && j >= 1
      ensures Closing(ts, n, i, j) == Closing(ts, n + |a + b|, i, j)
    {
      AtSplit(ts, n, a, b);
      assert Closing(ts, n, i, j) == Closing(ts, n + |a|, i, j) == Closing(ts, n + |a| + |b|, i, j);
    }
  }

  lemma PassOne(t: Token, i: nat)
    requires t.kind != TKN_END && t.kind != TKN_LBR && t.kind != TKN_RBR
    requires i == 0 ==> t.kind !in {12, 14, 18, 20, 22, 23} && Upper(t.text) != "THEN"
    ensures Passes([t], i)
  {
    forall ts: seq<Token>, n: nat, j: nat | At(ts, n, [t]) && j >= 1
      ensures Closing(ts, n, i, j) == Closing(ts, n + 1, i, j)
    {
      AtOne(ts, n, t);
    }
  }

  lemma PassBrackets(part: seq<Token>, i: nat)
    requires Passes(part, i + 1)
    ensures Passes([OpenBracket] + part + [CloseBracket], i)
  {
    forall ts: seq<Token>, n: nat, j: nat | At(ts, n, [OpenBracket] + part + [CloseBracket]) && j >= 1
      ensures Closing(ts, n, i, j) == Closing(ts, n + |part| + 2, i, j)
    {
      AtSplit(ts, n, [OpenBracket] + part, [CloseBracket]);
      AtSplit(ts, n, [OpenBracket], part);
      AtOne(ts, n, OpenBracket);
      AtOne(ts, n + 1 + |part|, CloseBracket);
      assert Closing(ts, n, i, j) == Closing(ts, n + 1, i + 1, j) == Closing(ts, n + 1 + |part|, i + 1, j);
    }
  }

  lemma PassAngles(part: seq<Token>, i: nat)
    requires Passes(part, i)
    ensures Passes([OpenAngle] + part + [CloseAngle], i)
  {
    hide Closing;
    forall ts: seq<Token>, n: nat, j: nat | At(ts, n, [OpenAngle] + part + [CloseAngle]) && j >= 1
      ensures Closing(ts, n, i, j) == Closing(ts, n + |part| + 2, i, j)
    {
      AtSplit(ts, n, [OpenAngle] + part, [CloseAngle]);
      AtSplit(ts, n, [OpenAngle], part);
      AtOne(ts, n, OpenAngle);
      AtOne(ts, n + 1 + |part|, CloseAngle);
      var j' := if i == 0 then j + 1 else j;
      AngleStep(ts, n, i, j);
      AngleStep(ts, n + 1 + |part|, i, j');
    }
  }

  lemma AngleStep(ts: seq<Token>, n: nat, i: nat, j: nat)
    requires n < |ts| && j >= 1
    ensures ts[n] == OpenAngle ==> Closing(ts, n, i, j) == Closing(ts, n + 1, i, if i == 0 then j + 1 else j)
    ensures ts[n] == CloseAngle && (i == 0 ==> j > 1) ==>
      Closing(ts, n, i, j) == Closing(ts, n + 1, i, if i == 0 then j - 1 else j)
  {
  }

  lemma PlainTexts(zeros: nat, n: nat)
    ensures Upper("[") == "[" && Upper("]") == "]" && Upper(",") == "," && Upper("-") == "-" && Upper("+") == "+"
    ensures Upper(Zeros(zeros) + Decimal(n)) != "THEN"
  {
    var s := Zeros(zeros) + Decimal(n);
    assert s[|s| - 1] == Decimal(n)[|Decimal(n)| - 1];
    assert "THEN"[3] == 'N';
    assert Upper(s)[|s| - 1] == s[|s| - 1];
  }

  /** The search passes over a phrase, inside round brackets over any. */
  lemma {:induction false} PassPhrase(w: Phrase, i: nat)
    requires Sound(w) && (i == 0 ==> Shielded(w))
    ensures Passes(Print(w), i)
    decreases w
  {
    hide Passes, Upper;
    match w
    case Digits(zeros, k) =>
      PlainTexts(zeros, k);
      PassOne(Token(TKN_NUM, Zeros(zeros) + Decimal(k)), i);
    case Quoted(s) => PassOne(Token(TKN_STRING, s), i);
    case Named(name) => PassOne(Word(name), i);
    case Group(e) =>
      PassPhrase(e, i + 1);
      PassBrackets(Print(e), i);
    case Signed(minus, e) =>
      var t := if minus then Token(TKN_MINUS, "-") else Token(TKN_PLUS, "+");
      PlainTexts(0, 0);
      PassOne(t, i);
      PassPhrase(e, i);
      PassBoth([t], Print(e), i);
    case Dyadic(sign, l, r) =>
      SignPlain(w);
      PassPhrase(l, i);
      PassOne(sign, i);
      PassPhrase(r, i);
      PassThree(Print(l), [sign], Print(r), i);
    case Choice(c, a, b) =>
      PassPhrase(c, i);
      PassPhrase(a, i);
      PassPhrase(b, i);
      PassChoice(Print(c), Print(a), Print(b), i);
    case Slice(e, at) =>
      PassPhrase(e, i);
      PassPositions(at, i);
      PassSlice(Print(e), PrintAt(at), i);
    case Element(e, at) =>
      PassPhrase(e, i);
      PassPositions(at, i);
      PassElement(Print(e), PrintAt(at), i);
  }

  lemma PassThree(a: seq<Token>, b: seq<Token>, c: seq<Token>, i: nat)
    requires Passes(a, i) && Passes(b, i) && Passes(c, i)
    ensures Passes(a + b + c, i)
  {
    hide Passes;
    PassBoth(a, b, i);
    PassBoth(a + b, c, i);
  }

  lemma PassSlice(e: seq<Token>, at: seq<Token>, i: nat)
    requires Passes(e, i) && Passes(at, i)
    ensures Passes(e + [OpenSquare] + at + [CloseSquare], i)
  {
    hide Passes, Upper;
    PlainTexts(0, 0);
    PassOne(OpenSquare, i);
    PassOne(CloseSquare, i);
    PassBoth(e, [OpenSquare], i);
    PassBoth(e + [OpenSquare], at, i);
    PassBoth(e + [OpenSquare] + at, [CloseSquare], i);
  }

  lemma PassElement(e: seq<Token>, at: seq<Token>, i: nat)
    requires Passes(e, i) && Passes(at, i)
    ensures Passes(e + [OpenAngle] + at + [CloseAngle], i)
  {
    hide Passes;
    PassAngles(at, i);
    PassBoth(e, [OpenAngle] + at + [CloseAngle], i);
    assert e + ([OpenAngle] + at + [CloseAngle]) == e + [OpenAngle] + at + [CloseAngle];
  }

  lemma SignPlain(w: Phrase)
    requires Sound(w) && w.Dyadic?
    ensures w.sign.kind != TKN_END && w.sign.kind != TKN_LBR && w.sign.kind != TKN_RBR && Upper(w.sign.text) != "THEN"
  {
  }

  lemma PassChoice(c: seq<Token>, a: seq<Token>, b: seq<Token>, i: nat)
    requires i > 0 && Passes(c, i) && Passes(a, i) && Passes(b, i)
    ensures Passes([Word("IF")] + c + [Word("THEN")] + a + [Word("ELSE")] + b, i)
  {
    hide Passes;
    PassOne(Word("IF"), i);
    PassOne(Word("THEN"), i);
    PassOne(Word("ELSE"), i);
    PassBoth([Word("IF")], c, i);
    PassBoth([Word("IF")] + c, [Word("THEN")], i);
    PassBoth([Word("IF")] + c + [Word("THEN")], a, i);
    PassBoth([Word("IF")] + c + [Word("THEN")] + a, [Word("ELSE")], i);
    PassBoth([Word("IF")] + c + [Word("THEN")] + a + [Word("ELSE")], b, i);
  }

  lemma PassPositions(at: Positions, i: nat)
    requires SoundAt(at) && (i == 0 ==> ShieldedAt(at))
    ensures Passes(PrintAt(at), i)
    decreases at
  {
    hide Passes, Print, Sound, Shielded;
    PlainTexts(0, 0);
    PassOne(Comma, i);
    match at
    case At1(a) => PassPhrase(a, i);
    case At2(a, b) =>
      PassPhrase(a, i);
      PassPhrase(b, i);
      PassBoth(Print(a), [Comma], i);
      PassBoth(Print(a) + [Comma], Print(b), i);
    case At3(a, b, c) =>
      PassPhrase(a, i);
      PassPhrase(b, i);
      PassPhrase(c, i);
      PassBoth(Print(a), [Comma], i);
      PassBoth(Print(a) + [Comma], Print(b), i);
      PassBoth(Print(a) + [Comma] + Print(b), [Comma], i);
      PassBoth(Print(a) + [Comma] + Print(b) + [Comma], Print(c), i);
  }

  /** The > that is found is the right one. */
  lemma CloserFound(at: Positions, us: seq<Token>)
    requires SoundAt(at) && ShieldedAt(at) && Look(us).kind !in {TKN_NUM, TKN_HEXNUM, TKN_FLOAT}
    ensures var ts := [OpenAngle] + PrintAt(at) + [CloseAngle] + us; var n := 1 + |PrintAt(at)|;
      && Classify(ts) == Field(ts[n := Closed])
      && ts[n := Closed][1..] == PrintAt(at) + ([Closed] + us)
  {
    hide Passes, PrintAt, Closing;
    var part := PrintAt(at);
    var ts, n := [OpenAngle] + part + [CloseAngle] + us, 1 + |part|;
    PassPositions(at, 0);
    assert ts[1..n] == part && ts[n] == CloseAngle && ts[n + 1..] == us;
    Crossed(ts, 1, part);
    CloserHere(ts, n);
  }

  lemma Crossed(ts: seq<Token>, n: nat, part: seq<Token>)
    requires Passes(part, 0) && At(ts, n, part)
    ensures Closing(ts, n, 0, 1) == Closing(ts, n + |part|, 0, 1)
  {
  }

  lemma CloserHere(ts: seq<Token>, n: nat)
    requires n < |ts| && ts[n] == CloseAngle
    ensures Closing(ts, n, 0, 1) == Some(n)
  {
  }

  // Reading back

  lemma {:induction false} DigitsBack(zeros: nat, n: nat)
    ensures DecimalValue(Zeros(zeros) + Decimal(n)) == n
    decreases n, zeros
  {
    var s := Zeros(zeros) + Decimal(n);
    if n >= 10 {
      assert s[..|s| - 1] == Zeros(zeros) + Decimal(n / 10);
      DigitsBack(zeros, n / 10);
    } else {
      assert s[..|s| - 1] == Zeros(zeros);
      ZerosBack(zeros);
    }
  }

  lemma {:induction false} ZerosBack(zeros: nat)
    ensures DecimalValue(Zeros(zeros)) == 0
  {
    if zeros > 0 {
      assert Zeros(zeros)[..zeros - 1] == Zeros(zeros - 1);
      ZerosBack(zeros - 1);
    }
  }

  /** A level that meets no operator of its own leaves what it has read. */
  lemma {:induction false} Lift(k: nat, ts: seq<Token>, e: Expr, us: seq<Token>)
    requires k <= 7 && ParseItem(false, ts) == Ok(e, us) && (OpLevel(us) == 0 || OpLevel(us) > k)
    ensures ParseLevel(k, ts) == Ok(e, us)
    decreases k
  {
    hide ParseItem;
    if k > 0 {
      Lift(k - 1, ts, e, us);
    }
  }

  /** The tokens of an item after its primary */
  function Trail(w: Phrase): seq<Token> {
    match w
    case Slice(e, at) => Trail(e) + [OpenSquare] + PrintAt(at) + [CloseSquare]
    case Element(e, at) => Trail(e) + [OpenAngle] + PrintAt(at) + [CloseAngle]
    case _ => []
  }

  function Head(w: Phrase): Phrase {
    match w
    case Slice(e, _) => Head(e)
    case Element(e, _) => Head(e)
    case _ => w
  }

  predicate IsItem(w: Phrase) {
    Sound(w) && Rank(w) == 0 && !w.Signed?
  }

  lemma ReadBrackets(e: Phrase, minus: bool, us: seq<Token>)
    requires Sound(e) && Clear(e, [CloseBracket] + us)
    ensures ParsePrimary(minus, Print(Group(e)) + us) == Ok(Bare(Group(e), minus), us)
    decreases Group(e), 0
  {
    hide Print, Clear, ParseExpr, Classify;
    var ts := [OpenBracket] + Print(e) + [CloseBracket] + us;
    assert Print(Group(e)) == [OpenBracket] + Print(e) + [CloseBracket] by { GroupPrint(e); }
    assert ts[1..] == Print(e) + ([CloseBracket] + us) && ts[0] == OpenBracket;
    StopsEnds([CloseBracket] + us, 7);
    ReadPhrase(e, [CloseBracket] + us);
    assert ([CloseBracket] + us)[1..] == us;
  }

  lemma GroupPrint(e: Phrase)
    ensures Print(Group(e)) == [OpenBracket] + Print(e) + [CloseBracket]
  {
  }

  /** What an item with an extraction is made of */
  function Tip(w: Phrase): seq<Token>
    requires w.Slice? || w.Element?
  {
    if w.Slice? then [OpenSquare] + PrintAt(w.at) + [CloseSquare] else [OpenAngle] + PrintAt(w.at) + [CloseAngle]
  }

  lemma LastPart(w: Phrase, us: seq<Token>)
    requires (w.Slice? || w.Element?) && IsItem(w) && Clear(w, us)
    ensures IsItem(w.base) && Clear(w.base, Tip(w) + us) && SoundAt(w.at)
    ensures Print(w) + us == Print(w.base) + (Tip(w) + us) && Print(w)[0] == Print(w.base)[0]
    ensures Trail(w) + us == Trail(w.base) + (Tip(w) + us)
    ensures Head(w) == Head(w.base) && (StartsWithDigits(w) <==> StartsWithDigits(w.base))
    ensures Look(Tip(w) + us).kind != TKN_OBJREF
    ensures w.Slice? ==> ClearAt(w.at, [CloseSquare] + us)
    ensures w.Element? ==>
              ShieldedAt(w.at) && ClearAt(w.at, [Closed] + us) && Look(us).kind !in {TKN_NUM, TKN_HEXNUM, TKN_FLOAT}
  {
    hide Print, PrintAt, Trail, Clear, ClearAt;
    LastTokens(w, us);
    ClearLast(w, us);
  }

  lemma LastTokens(w: Phrase, us: seq<Token>)
    requires w.Slice? || w.Element?
    ensures Print(w) + us == Print(w.base) + (Tip(w) + us) && Print(w)[0] == Print(w.base)[0]
    ensures Trail(w) + us == Trail(w.base) + (Tip(w) + us)
    ensures Look(Tip(w) + us).kind != TKN_OBJREF
  {
    hide Print, PrintAt, Trail;
    LastUnfolds(w);
    Five(Print(w.base), [OpenSquare], PrintAt(w.at), [CloseSquare], us);
    Five(Print(w.base), [OpenAngle], PrintAt(w.at), [CloseAngle], us);
    Five(Trail(w.base), [OpenSquare], PrintAt(w.at), [CloseSquare], us);
    Five(Trail(w.base), [OpenAngle], PrintAt(w.at), [CloseAngle], us);
  }

  lemma LastUnfolds(w: Phrase)
    requires w.Slice? || w.Element?
    ensures w.Slice? ==> Print(w) == Print(w.base) + [OpenSquare] + PrintAt(w.at) + [CloseSquare]
    ensures w.Element? ==> Print(w) == Print(w.base) + [OpenAngle] + PrintAt(w.at) + [CloseAngle]
    ensures w.Slice? ==> Trail(w) == Trail(w.base) + [OpenSquare] + PrintAt(w.at) + [CloseSquare]
    ensures w.Element? ==> Trail(w) == Trail(w.base) + [OpenAngle] + PrintAt(w.at) + [CloseAngle]
  {
    hide PrintAt;
  }

  lemma Five<T>(a: seq<T>, b: seq<T>, c: seq<T>, d: seq<T>, e: seq<T>)
    ensures a + b + c + d + e == a + (b + c + d + e)
  {
  }

  lemma ClearLast(w: Phrase, us: seq<Token>)
    requires (w.Slice? || w.Element?) && Clear(w, us)
    ensures Clear(w.base, Tip(w) + us)
    ensures w.Slice? ==> ClearAt(w.at, [CloseSquare] + us)
    ensures w.Element? ==> ClearAt(w.at, [Closed] + us) && Look(us).kind !in {TKN_NUM, TKN_HEXNUM, TKN_FLOAT}
  {
    hide Print, PrintAt, ClearAt;
  }

  /** The primary of an item */
  lemma ReadFirst(w: Phrase, minus: bool, us: seq<Token>)
    requires IsItem(w) && Clear(w, us) && Look(us).kind != TKN_OBJREF
    ensures ParsePrimary(minus, Print(w) + us) == Ok(Bare(Head(w), minus), Trail(w) + us)
    ensures Print(w)[0].kind != TKN_PLUS && Print(w)[0].kind != TKN_MINUS
    ensures Print(w)[0].kind == TKN_NUM <==> StartsWithDigits(w)
    decreases w, 1
  {
    hide Clear, Classify, ParsePrimary, Bare, IsItem, Print, Trail, Tip, Head, StartsWithDigits, Rank, Sound, Decimal;
    if w.Slice? || w.Element? {
      LastPart(w, us);
      ReadFirst(w.base, minus, Tip(w) + us);
    } else {
      Primary(w, us);
      if w.Group? {
        ReadBrackets(w.inner, minus, us);
      } else {
        if w.Digits? {
          DigitsBack(w.zeros, w.n);
        }
        OnePrimary(w, minus, us);
      }
    }
  }

  lemma Primary(w: Phrase, us: seq<Token>)
    requires IsItem(w) && Clear(w, us) && !w.Slice? && !w.Element?
    ensures w.Group? || w.Digits? || w.Quoted? || w.Named?
    ensures Sound(w) && Head(w) == w && Trail(w) == [] && Trail(w) + us == us && (StartsWithDigits(w) <==> w.Digits?)
    ensures Print(w)[0].kind in {TKN_LBR, TKN_NUM, TKN_STRING, TKN_NAME} && (Print(w)[0].kind == TKN_NUM <==> w.Digits?)
    ensures w.Group? ==> Sound(w.inner) && Clear(w.inner, [CloseBracket] + us)
  {
  }

  /** A primary of one token */
  lemma OnePrimary(w: Phrase, minus: bool, us: seq<Token>)
    requires Sound(w) && (w.Digits? || w.Quoted? || w.Named?) && Look(us).kind != TKN_OBJREF
    requires w.Digits? ==> DecimalValue(Zeros(w.zeros) + Decimal(w.n)) == w.n
    ensures ParsePrimary(minus, Print(w) + us) == Ok(Bare(w, minus), us) && [] + us == us
  {
    hide DecimalValue, Decimal;
    assert (Print(w) + us)[1..] == us;
  }

  /** The extractions of an item */
  lemma ReadTrail(w: Phrase, minus: bool, us: seq<Token>)
    requires IsItem(w) && Clear(w, us)
    ensures ParsePostfix(Bare(Head(w), minus), Trail(w) + us) == ParsePostfix(Bare(w, minus), us)
    decreases w, 1
  {
    hide Clear, Classify, ParsePostfix, Bare, IsItem, Print, PrintAt, Trail, Head, StartsWithDigits, Rank, Sound;
    if w.Slice? || w.Element? {
      LastPart(w, us);
      ReadTrail(w.base, minus, Tip(w) + us);
      if w.Slice? {
        ReadSlice(w.base, w.at, minus, us);
      } else {
        ReadElement(w.base, w.at, minus, us);
      }
    } else {
      Primary(w, us);
    }
  }

  function BoundsOf(at: Positions): Bounds {
    match at
    case At1(a) => Bounds(Tree(a), None, None)
    case At2(a, b) => Bounds(Tree(a), Some(Tree(b)), None)
    case At3(a, b, c) => Bounds(Tree(a), Some(Tree(b)), Some(Tree(c)))
  }

  lemma ReadSlice(e: Phrase, at: Positions, minus: bool, us: seq<Token>)
    requires SoundAt(at) && ClearAt(at, [CloseSquare] + us)
    ensures ParsePostfix(Bare(e, minus), [OpenSquare] + PrintAt(at) + [CloseSquare] + us)
         == ParsePostfix(Bare(Slice(e, at), minus), us)
    decreases at, 1
  {
    hide PrintAt, ClearAt, ParseBounds, Classify;
    var ts := [OpenSquare] + PrintAt(at) + [CloseSquare] + us;
    assert ts[1..] == PrintAt(at) + ([CloseSquare] + us) && ts[0] == OpenSquare;
    ReadPositions(at, CloseSquare, us);
    assert ([CloseSquare] + us)[1..] == us;
    assert Extraction(Bare(e, minus), BoundsOf(at)) == Bare(Slice(e, at), minus);
  }

  lemma ReadElement(e: Phrase, at: Positions, minus: bool, us: seq<Token>)
    requires SoundAt(at) && ShieldedAt(at) && ClearAt(at, [Closed] + us)
    requires Look(us).kind !in {TKN_NUM, TKN_HEXNUM, TKN_FLOAT}
    ensures ParsePostfix(Bare(e, minus), [OpenAngle] + PrintAt(at) + [CloseAngle] + us)
         == ParsePostfix(Bare(Element(e, at), minus), us)
    decreases at, 1
  {
    hide PrintAt, ClearAt, ParseBounds, Classify;
    var ts := [OpenAngle] + PrintAt(at) + [CloseAngle] + us;
    CloserFound(at, us);
    assert ts[0] == OpenAngle;
    ReadPositions(at, Closed, us);
    assert ([Closed] + us)[1..] == us;
    assert FieldOf(Bare(e, minus), BoundsOf(at)) == Bare(Element(e, at), minus);
  }

  lemma ReadPositions(at: Positions, closer: Token, us: seq<Token>)
    requires SoundAt(at) && ClearAt(at, [closer] + us) && (closer == CloseSquare || closer == Closed)
    ensures ParseBounds(PrintAt(at) + ([closer] + us)) == Ok(BoundsOf(at), [closer] + us)
    decreases at, 0
  {
    hide Print, Clear, ParseExpr, ParseMore, Sound, Classify;
    var end := [closer] + us;
    match at
    case At1(a) =>
      ReadPhrase(a, end);
      NoMoreHere(end);
    case At2(a, b) =>
      assert PrintAt(at) + end == Print(a) + ([Comma] + Print(b) + end);
      ReadPhrase(a, [Comma] + Print(b) + end);
      ReadNext(b, end);
      NoMoreHere(end);
    case At3(a, b, c) =>
      var more := [Comma] + Print(c) + end;
      ThreeShape(Print(a), Print(b), Print(c), end);
      ReadPhrase(a, [Comma] + Print(b) + more);
      ReadNext(b, more);
      ReadNext(c, end);
  }

  lemma ThreeShape(a: seq<Token>, b: seq<Token>, c: seq<Token>, end: seq<Token>)
    ensures a + [Comma] + b + [Comma] + c + end == a + ([Comma] + b + ([Comma] + c + end))
    ensures [Comma] + b + [Comma] + c + end == [Comma] + b + ([Comma] + c + end)
  {
  }

  lemma NoMoreHere(ts: seq<Token>)
    requires Look(ts).kind != TKN_COMMA
    ensures ParseMore(ts) == Ok(None, ts)
  {
  }

  lemma ReadNext(b: Phrase, us: seq<Token>)
    requires Sound(b) && Clear(b, us) && Stops(us)
    ensures ParseMore([Comma] + Print(b) + us)
         == match Ok(Tree(b), us) case Err => Err case Ok(e, rest) => Ok(Some(e), rest)
    decreases b, 30
  {
    hide Print, Clear, ParseExpr, Sound, Stops;
    var ts := [Comma] + Print(b) + us;
    assert ts[1..] == Print(b) + us && Look(ts) == Comma;
    ReadPhrase(b, us);
  }

  /** Any phrase, where an expression is read */
  lemma ReadPhrase(w: Phrase, us: seq<Token>)
    requires Sound(w) && Clear(w, us) && Stops(us)
    ensures ParseExpr(Print(w) + us) == Ok(Tree(w), us)
    decreases w, 20
  {
    hide Print, Clear, ParseLevel, Sound, Stops, Ends;
    StopsEnds(us, 7);
    if w.Choice? {
      ReadChoice(w.c, w.a, w.b, us);
    } else {
      RankBound(w);
      ReadLevel(w, 7, us);
    }
  }

  lemma RankBound(w: Phrase)
    requires Sound(w) && !w.Choice?
    ensures Rank(w) <= 7
  {
  }

  lemma ReadChoice(c: Phrase, a: Phrase, b: Phrase, us: seq<Token>)
    requires Sound(Choice(c, a, b)) && Clear(Choice(c, a, b), us) && Stops(us)
    ensures ParseExpr(Print(Choice(c, a, b)) + us) == Ok(Tree(Choice(c, a, b)), us)
    decreases Choice(c, a, b), 2
  {
    hide Print, Clear, ParseExpr, Sound, Classify, ParseLevel, ParseIf, Stops, Item, Upper;
    var w := Choice(c, a, b);
    var els := [Word("ELSE")] + Print(b) + us;
    var thn := [Word("THEN")] + Print(a) + els;
    var ts := [Word("IF")] + (Print(c) + thn);
    ChoiceParts(c, a, b, us);
    ReadPhrase(c, thn);
    ReadPhrase(a, els);
    ReadPhrase(b, us);
    IfReads(Print(c), Print(a), Print(b), Tree(c), Tree(a), Tree(b), us);
    assert ts[1..] == Print(c) + thn;
    StopsEnds(us, 7);
    ItemOfIf(ts, Tree(w), us);
    Lift(7, ts, Tree(w), us);
    ExprLevel(ts);
  }

  lemma ChoiceParts(c: Phrase, a: Phrase, b: Phrase, us: seq<Token>)
    requires Sound(Choice(c, a, b)) && Clear(Choice(c, a, b), us)
    ensures var els := [Word("ELSE")] + Print(b) + us;
      var thn := [Word("THEN")] + Print(a) + els;
      && Sound(c) && Sound(a) && Sound(b) && Clear(c, thn) && Clear(a, els) && Clear(b, us)
      && Print(Choice(c, a, b)) + us == [Word("IF")] + (Print(c) + thn)
      && Stops(thn) && Stops(els)
    ensures Tree(Choice(c, a, b)) == IfThen(Tree(c), Tree(a), Tree(b))
  {
    hide Print, Clear, Sound, Item;
    ChoiceClear(c, a, b, us);
    ChoiceUnfolds(c, a, b);
    IfShape(Print(c), Print(a), Print(b), us);
  }

  lemma IfShape(c: seq<Token>, a: seq<Token>, b: seq<Token>, us: seq<Token>)
    ensures [Word("IF")] + c + [Word("THEN")] + a + [Word("ELSE")] + b + us
         == [Word("IF")] + (c + ([Word("THEN")] + a + ([Word("ELSE")] + b + us)))
  {
  }

  lemma ChoiceUnfolds(c: Phrase, a: Phrase, b: Phrase)
    ensures Print(Choice(c, a, b))
         == [Word("IF")] + Print(c) + [Word("THEN")] + Print(a) + [Word("ELSE")] + Print(b)
    ensures Tree(Choice(c, a, b)) == IfThen(Tree(c), Tree(a), Tree(b))
  {
    assert Tree(Choice(c, a, b)) == Bare(Choice(c, a, b), false);
  }

  lemma ChoiceClear(c: Phrase, a: Phrase, b: Phrase, us: seq<Token>)
    requires Sound(Choice(c, a, b)) && Clear(Choice(c, a, b), us)
    ensures Sound(c) && Sound(a) && Sound(b)
    ensures Clear(c, [Word("THEN")] + Print(a) + ([Word("ELSE")] + Print(b) + us))
    ensures Clear(a, [Word("ELSE")] + Print(b) + us) && Clear(b, us)
  {
    hide Print;
  }

  lemma IfReads(c: seq<Token>, a: seq<Token>, b: seq<Token>, e: Expr, x: Expr, y: Expr, us: seq<Token>)
    requires var els := [Word("ELSE")] + b + us; var thn := [Word("THEN")] + a + els;
      ParseExpr(c + thn) == Ok(e, thn) && ParseExpr(a + els) == Ok(x, els) && ParseExpr(b + us) == Ok(y, us)
    ensures ParseIf(c + ([Word("THEN")] + a + ([Word("ELSE")] + b + us))) == Ok(IfThen(e, x, y), us)
  {
    hide ParseExpr;
    var els := [Word("ELSE")] + b + us;
    var thn := [Word("THEN")] + a + els;
    assert thn[1..] == a + els && els[1..] == b + us;
    assert Upper("THEN") == "THEN" && Upper("ELSE") == "ELSE";
  }

  lemma ExprLevel(ts: seq<Token>)
    ensures ParseExpr(ts) == ParseLevel(7, ts)
  {
  }

  lemma ItemOfIf(ts: seq<Token>, e: Expr, us: seq<Token>)
    requires ts != [] && ts[0] == Word("IF") && ParseIf(ts[1..]) == Ok(e, us) && Ends(7, us)
    ensures ParseItem(false, ts) == Ok(e, us)
  {
    hide ParseIf, Classify, ParsePostfix;
    assert Upper("IF") == "IF";
    EndsLess(us);
    EndsPostfix(e, us);
  }

  lemma EndsLess(us: seq<Token>)
    requires Ends(7, us)
    ensures Ends(0, us)
  {
  }

  /** An item with its signs */
  lemma ReadItem(w: Phrase, minus: bool, us: seq<Token>)
    requires Sound(w) && Rank(w) == 0 && Clear(w, us) && Ends(0, us)
    ensures ParseItem(minus, Print(w) + us) == Ok(Item(w, minus), us)
    decreases w, 2
  {
    if w.Signed? {
      var ts := Print(w) + us;
      assert ts[1..] == Print(w.inner) + us;
      ReadItem(w.inner, minus != w.minus, us);
    } else {
      hide Clear, Classify, ParsePrimary, ParsePostfix, Bare, Print, Trail;
      ReadFirst(w, minus, us);
      ReadTrail(w, minus, us);
      assert (Print(w) + us)[0] == Print(w)[0];
      EndsPostfix(Bare(w, minus), us);
    }
  }

  lemma EndsPostfix(e: Expr, us: seq<Token>)
    requires Ends(0, us)
    ensures ParsePostfix(e, us) == Ok(e, us)
  {
    hide Classify;
  }

  lemma ReadLevel(w: Phrase, k: nat, us: seq<Token>)
    requires Sound(w) && Rank(w) <= k <= 7 && Clear(w, us) && Ends(k, us)
    ensures ParseLevel(k, Print(w) + us) == Ok(Tree(w), us)
    decreases w, 4 + 2 * k
  {
    hide Print, Clear, Sound, Classify, ParseItem;
    if k == 0 {
      ReadItem(w, false, us);
    } else {
      ReadThen(w, k, us);
    }
  }

  lemma ReadThen(w: Phrase, k: nat, us: seq<Token>)
    requires Sound(w) && Rank(w) <= k && 1 <= k <= 7 && Clear(w, us) && Ends(k - 1, us)
    ensures ParseLevel(k, Print(w) + us) == LoopLevel(k, Tree(w), us)
    decreases w, 3 + 2 * k
  {
    hide Print, Clear, Sound, Classify, ParseItem, Item, LoopLevel, Opcode, Level, ColonApplies, SignOf;
    if Rank(w) < k {
      ReadLevel(w, k - 1, us);
    } else {
      DyadicParts(w, us);
      SignEnds(w, us);
      SameSign(w.sign.kind);
      DyadicPrint(w, us);
      ReadThen(w.l, k, [w.sign] + Print(w.r) + us);
      ReadLevel(w.r, k - 1, us);
      RightRead(k, Tree(w.l), w.sign, Print(w.r), Tree(w.r), us);
    }
  }

  /** An operator of level k and its right operand */
  lemma RightRead(k: nat, e: Expr, sign: Token, r: seq<Token>, right: Expr, us: seq<Token>)
    requires 1 <= k <= 7 && OpLevel([sign] + r + us) == k && ParseLevel(k - 1, r + us) == Ok(right, us)
    ensures LoopLevel(k, e, [sign] + r + us) == LoopLevel(k, Bin(Opcode(sign.kind), e, right), us)
  {
    hide ParseLevel, OpLevel, Opcode;
    var next := [sign] + r + us;
    assert next[1..] == r + us && next[0] == sign;
  }

  lemma DyadicPrint(w: Phrase, us: seq<Token>)
    requires w.Dyadic? && SignOf(w.sign.kind).Some?
    ensures Print(w) + us == Print(w.l) + ([w.sign] + Print(w.r) + us)
    ensures Tree(w) == Bin(SignOf(w.sign.kind).value.op, Tree(w.l), Tree(w.r))
  {
  }
}
