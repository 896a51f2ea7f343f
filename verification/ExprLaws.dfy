/** Every expression can be written and is read back, and what the signs in front of one do
    to its value. */
module ExprLaws {
  import opened Bytes
  import opened Isa
  import opened Syntax
  import opened Grammar
  import opened Phrases
  import opened Machines
  import opened Meanings

  /** A token for an operator of two operands */
  function SignToken(op: int): Token {
    if op == OP_ADD then Token(24, "+")
    else if op == OP_SUB then Token(25, "-")
    else if op == OP_MUL then Token(28, "*")
    else if op == OP_DIV then Token(26, "/")
    else if op == OP_IDIV then Token(27, "//")
    else if op == OP_PWR then Token(29, "**")
    else if op == OP_CAT then Token(30, ":")
    else if op == OP_EQ then Token(16, "=")
    else if op == OP_NE then Token(17, "#")
    else if op == OP_LT then Token(13, "LT")
    else if op == OP_GT then Token(14, ">")
    else if op == OP_LE then Token(19, "<=")
    else if op == OP_GE then Token(20, ">=")
    else if op == OP_AND then Token(22, "AND")
    else if op == OP_OR then Token(23, "OR")
    else Token(31, "MATCHES")
  }

  /** A way to write an expression, with brackets around every operand */
  function Show(e: Expr): Phrase {
    match e
    case Num(n) => if n < 0 then Signed(true, Digits(0, -n)) else Digits(0, n)
    case Str(s) => Quoted(s)
    case Var(name) => Named(name)
    case IfThen(c, a, b) => Choice(Show(c), Show(a), Show(b))
    case App(op, Args(NoArgs, x)) => Signed(true, Group(Show(x)))
    case App(op, Args(Args(NoArgs, x), y)) =>
      if op == OP_SUBSTRE then Slice(Group(Show(x)), At1(Show(y)))
      else Dyadic(SignToken(op), Group(Show(x)), Group(Show(y)))
    case App(op, Args(Args(Args(NoArgs, x), y), z)) => Slice(Group(Show(x)), At2(Show(y), Show(z)))
    case App(op, Args(Args(Args(Args(NoArgs, x), y), z), t)) =>
      if op == OP_FIELD then Slice(Group(Show(x)), At3(Show(y), Show(z), Show(t)))
      else Element(Group(Show(x)), At3(Group(Show(y)), Group(Show(z)), Group(Show(t))))
    case _ => Digits(0, 0)
  }

  predicate FreeNames(e: Expr) {
    match e
    case Var(name) => Free(name)
    case App(_, args) => FreeArgs(args)
    case IfThen(c, a, b) => FreeNames(c) && FreeNames(a) && FreeNames(b)
    case _ => true
  }

  predicate FreeArgs(args: Exprs) {
    args.Args? ==> FreeArgs(args.init) && FreeNames(args.last)
  }

  /** The operands of an operator, by their number */
  lemma Operands(op: int, args: Exprs)
    requires FormedExpr(App(op, args)) && FreeArgs(args)
    ensures match args
      case Args(NoArgs, x) => op == OP_NEG && FormedExpr(x) && FreeNames(x)
      case Args(Args(NoArgs, x), y) =>
        && FormedExpr(x) && FormedExpr(y) && FreeNames(x) && FreeNames(y)
        && (op == OP_SUBSTRE || (SignOf(SignToken(op).kind).Some? && SignOf(SignToken(op).kind).value.op == op))
      case Args(Args(Args(NoArgs, x), y), z) =>
        && op == OP_SUBSTR && FormedExpr(x) && FormedExpr(y) && FormedExpr(z)
        && FreeNames(x) && FreeNames(y) && FreeNames(z)
      case Args(Args(Args(Args(NoArgs, x), y), z), t) =>
        && (op == OP_FIELD || op == OP_EXTRACT) && FormedExpr(x) && FormedExpr(y) && FormedExpr(z) && FormedExpr(t)
        && FreeNames(x) && FreeNames(y) && FreeNames(z) && FreeNames(t)
      case _ => false
  {
    hide FormedExpr, FreeNames, SignToken;
    FormedParts(op, args);
    TakeOne(args);
    var a1 := args.init;
    if a1.Args? {
      TakeOne(a1);
      if a1.init.Args? {
        TakeOne(a1.init);
        if a1.init.init.Args? {
          TakeOne(a1.init.init);
        }
      }
    }
    if Arity(op) == 2 && op != OP_SUBSTRE {
      SignKnown(op);
    }
  }

  lemma FormedParts(op: int, args: Exprs)
    requires FormedExpr(App(op, args))
    ensures 0 < Arity(op) == ArgCount(args) && FormedArgs(args)
  {
  }

  lemma TakeOne(args: Exprs)
    requires args.Args? && FormedArgs(args) && FreeArgs(args)
    ensures FormedExpr(args.last) && FreeNames(args.last) && FormedArgs(args.init) && FreeArgs(args.init)
    ensures ArgCount(args) == ArgCount(args.init) + 1 && (ArgCount(args.init) == 0 <==> args.init.NoArgs?)
  {
  }

  lemma SignKnown(op: int)
    requires Arity(op) == 2 && op != OP_SUBSTRE
    ensures SignOf(SignToken(op).kind).Some? && SignOf(SignToken(op).kind).value.op == op
  {
  }

  lemma {:induction false} ShowSound(e: Expr)
    requires FormedExpr(e) && FreeNames(e)
    ensures Sound(Show(e)) && Tree(Show(e)) == e
    decreases e
  {
    match e
    case Num(n) =>
      if n < 0 {
        MinusTree(Digits(0, -n));
      } else {
        PlainTree(Digits(0, n));
      }
    case Str(s) => PlainTree(Quoted(s));
    case Var(name) => PlainTree(Named(name));
    case IfThen(c, a, b) =>
      ShowSound(c);
      ShowSound(a);
      ShowSound(b);
      PlainTree(Show(e));
    case App(op, args) =>
      Operands(op, args);
      ShowApp(op, args);
  }

  lemma PlainTree(w: Phrase)
    requires !w.Signed? && !w.Dyadic?
    ensures Tree(w) == Bare(w, false)
  {
  }

  lemma DyadicTree(sign: Token, l: Phrase, r: Phrase)
    requires SignOf(sign.kind).Some?
    ensures Tree(Dyadic(sign, l, r)) == Bin(SignOf(sign.kind).value.op, Tree(l), Tree(r))
  {
  }

  lemma MinusTree(w: Phrase)
    requires !w.Signed? && !w.Dyadic?
    ensures Tree(Signed(true, w))
         == if StartsWithDigits(w) then Bare(w, true) else App(OP_NEG, One(Bare(w, true)))
  {
    hide Bare;
    assert Tree(Signed(true, w)) == Phrases.Item(w, true);
  }

  lemma GroupTree(w: Phrase)
    ensures Tree(Group(w)) == Tree(w) && Bare(Group(w), true) == Tree(w) && Bare(Group(w), false) == Tree(w)
  {
    PlainTree(Group(w));
  }

  lemma ShowApp(op: int, args: Exprs)
    requires FormedExpr(App(op, args)) && FreeArgs(args)
    ensures Sound(Show(App(op, args))) && Tree(Show(App(op, args))) == App(op, args)
    decreases args
  {
    hide FormedExpr, FreeNames, FreeArgs, SignToken;
    Operands(op, args);
    var e := App(op, args);
    match args
    case Args(NoArgs, x) =>
      ShowSound(x);
      GroupTree(Show(x));
      MinusTree(Group(Show(x)));
    case Args(Args(NoArgs, x), y) =>
      ShowSound(x);
      ShowSound(y);
      GroupTree(Show(x));
      GroupTree(Show(y));
      if op != OP_SUBSTRE {
        SignTokens(op);
      } else {
        PlainTree(Show(e));
      }
    case Args(Args(Args(NoArgs, x), y), z) =>
      ShowSound(x);
      ShowSound(y);
      ShowSound(z);
      GroupTree(Show(x));
      PlainTree(Show(e));
    case Args(Args(Args(Args(NoArgs, x), y), z), t) =>
      ShowSound(x);
      ShowSound(y);
      ShowSound(z);
      ShowSound(t);
      GroupTree(Show(x));
      GroupTree(Show(y));
      GroupTree(Show(z));
      GroupTree(Show(t));
      PlainTree(Show(e));
      FourShown(op, x, y, z, t);
  }

  lemma FourShown(op: int, x: Expr, y: Expr, z: Expr, t: Expr)
    requires Sound(Show(x)) && Sound(Show(y)) && Sound(Show(z)) && Sound(Show(t))
    ensures Sound(Show(App(op, Four(x, y, z, t))))
  {
    hide Sound, Shielded, SoundAt, ShieldedAt;
    GroupSound(Show(x));
    GroupSound(Show(y));
    GroupSound(Show(z));
    GroupSound(Show(t));
    ThreeSound(Group(Show(y)), Group(Show(z)), Group(Show(t)));
    ThreeSound(Show(y), Show(z), Show(t));
    PartSound(Group(Show(x)), At3(Group(Show(y)), Group(Show(z)), Group(Show(t))));
    PartSound(Group(Show(x)), At3(Show(y), Show(z), Show(t)));
    ShowFour(op, x, y, z, t);
  }

  lemma ShowFour(op: int, x: Expr, y: Expr, z: Expr, t: Expr)
    ensures Show(App(op, Four(x, y, z, t)))
         == if op == OP_FIELD then Slice(Group(Show(x)), At3(Show(y), Show(z), Show(t)))
            else Element(Group(Show(x)), At3(Group(Show(y)), Group(Show(z)), Group(Show(t))))
  {
  }

  lemma GroupSound(w: Phrase)
    requires Sound(w)
    ensures Sound(Group(w)) && Shielded(Group(w)) && Rank(Group(w)) == 0
  {
  }

  lemma ThreeSound(a: Phrase, b: Phrase, c: Phrase)
    requires Sound(a) && Sound(b) && Sound(c)
    ensures SoundAt(At3(a, b, c))
    ensures Shielded(a) && Shielded(b) && Shielded(c) ==> ShieldedAt(At3(a, b, c))
  {
    hide Sound, Shielded;
  }

  lemma PartSound(e: Phrase, at: Positions)
    requires Sound(e) && Rank(e) == 0 && !e.Signed? && SoundAt(at)
    ensures Sound(Slice(e, at)) && (ShieldedAt(at) ==> Sound(Element(e, at)))
  {
    hide SoundAt, ShieldedAt;
  }

  lemma SignTokens(op: int)
    ensures Upper(SignToken(op).text) != "THEN" && SignToken(op).kind != TKN_LT
    ensures SignOf(SignToken(op).kind).Some? ==> 1 <= SignOf(SignToken(op).kind).value.rank
  {
    assert Upper("+") == "+" && Upper("-") == "-" && Upper("*") == "*" && Upper("/") == "/" && Upper("//") == "//";
    assert Upper("**") == "**" && Upper(":") == ":" && Upper("=") == "=" && Upper("#") == "#" && Upper("LT") == "LT";
    assert Upper(">") == ">" && Upper("<=") == "<=" && Upper(">=") == ">=" && Upper("AND") == "AND";
    assert Upper("OR") == "OR" && |Upper("MATCHES")| == 7;
  }

  predicate NoNumber(us: seq<Token>) {
    Look(us).kind !in {TKN_NUM, TKN_HEXNUM, TKN_FLOAT}
  }

  lemma {:induction false} ShowClear(e: Expr, us: seq<Token>)
    requires FormedExpr(e) && FreeNames(e) && NoNumber(us)
    ensures Clear(Show(e), us)
    decreases e
  {
    match e
    case App(op, args) => AppClear(op, args, us);
    case IfThen(c, a, b) =>
      ShowClear(c, [Word("THEN")] + Print(Show(a)) + ([Word("ELSE")] + Print(Show(b)) + us));
      ShowClear(a, [Word("ELSE")] + Print(Show(b)) + us);
      ShowClear(b, us);
    case _ =>
  }

  lemma AppClear(op: int, args: Exprs, us: seq<Token>)
    requires FormedExpr(App(op, args)) && FreeArgs(args) && NoNumber(us)
    ensures Clear(Show(App(op, args)), us)
    decreases args, 1
  {
    hide FormedExpr, FreeNames, FreeArgs, SignToken, Print, PrintAt;
    Operands(op, args);
    match args
    case Args(NoArgs, x) => ShowClear(x, [CloseBracket] + us);
    case Args(Args(NoArgs, x), y) =>
      if op == OP_SUBSTRE {
        ShowClear(x, [CloseBracket] + ([OpenSquare] + PrintAt(At1(Show(y))) + [CloseSquare] + us));
        ShowClear(y, [CloseSquare] + us);
      } else {
        SignTokens(op);
        ShowClear(x, [CloseBracket] + ([SignToken(op)] + Print(Group(Show(y))) + us));
        ShowClear(y, [CloseBracket] + us);
      }
    case Args(Args(Args(NoArgs, x), y), z) =>
      ShowClear(x, [CloseBracket] + ([OpenSquare] + PrintAt(At2(Show(y), Show(z))) + [CloseSquare] + us));
      ShowClear(y, [Comma] + Print(Show(z)) + ([CloseSquare] + us));
      ShowClear(z, [CloseSquare] + us);
    case Args(Args(Args(Args(NoArgs, x), y), z), t) =>
      if op == OP_FIELD {
        var end := [CloseSquare] + us;
        ShowClear(x, [CloseBracket] + ([OpenSquare] + PrintAt(At3(Show(y), Show(z), Show(t))) + [CloseSquare] + us));
        ShowClear(y, [Comma] + Print(Show(z)) + [Comma] + Print(Show(t)) + end);
        ShowClear(z, [Comma] + Print(Show(t)) + end);
        ShowClear(t, end);
      } else {
        ElementClear(x, y, z, t, us);
      }
  }

  lemma ElementClear(x: Expr, y: Expr, z: Expr, t: Expr, us: seq<Token>)
    requires FormedExpr(x) && FormedExpr(y) && FormedExpr(z) && FormedExpr(t)
    requires FreeNames(x) && FreeNames(y) && FreeNames(z) && FreeNames(t) && NoNumber(us)
    ensures Clear(Element(Group(Show(x)), At3(Group(Show(y)), Group(Show(z)), Group(Show(t)))), us)
    decreases Four(x, y, z, t), 0
  {
    hide FormedExpr, FreeNames, Print, PrintAt;
    var y', z', t' := Group(Show(y)), Group(Show(z)), Group(Show(t));
    var at, end := At3(y', z', t'), [Closed] + us;
    ShowClear(x, [CloseBracket] + ([OpenAngle] + PrintAt(at) + [CloseAngle] + us));
    ShowClear(y, [CloseBracket] + ([Comma] + Print(z') + [Comma] + Print(t') + end));
    ShowClear(z, [CloseBracket] + ([Comma] + Print(t') + end));
    ShowClear(t, [CloseBracket] + end);
    hide FormedExpr, FreeNames, Show;
    GroupsClear(Show(x), Show(y), Show(z), Show(t), us);
  }

  lemma GroupsClear(x: Phrase, y: Phrase, z: Phrase, t: Phrase, us: seq<Token>)
    requires var y', z', t' := Group(y), Group(z), Group(t); var at, end := At3(y', z', t'), [Closed] + us;
      && Clear(x, [CloseBracket] + ([OpenAngle] + PrintAt(at) + [CloseAngle] + us))
      && Clear(y, [CloseBracket] + ([Comma] + Print(z') + [Comma] + Print(t') + end))
      && Clear(z, [CloseBracket] + ([Comma] + Print(t') + end)) && Clear(t, [CloseBracket] + end) && NoNumber(us)
    ensures Clear(Element(Group(x), At3(Group(y), Group(z), Group(t))), us)
  {
    hide Print, PrintAt, Clear, ClearAt;
    var y', z', t' := Group(y), Group(z), Group(t);
    var at, end := At3(y', z', t'), [Closed] + us;
    GroupClear(x, [OpenAngle] + PrintAt(at) + [CloseAngle] + us);
    GroupClear(y, [Comma] + Print(z') + [Comma] + Print(t') + end);
    GroupClear(z, [Comma] + Print(t') + end);
    GroupClear(t, end);
    ThreeClear(y', z', t', end);
    ElementIsClear(Group(x), at, us);
  }

  lemma GroupClear(w: Phrase, us: seq<Token>)
    requires Clear(w, [CloseBracket] + us)
    ensures Clear(Group(w), us)
  {
  }

  lemma ThreeClear(a: Phrase, b: Phrase, c: Phrase, us: seq<Token>)
    requires Clear(a, [Comma] + Print(b) + [Comma] + Print(c) + us) && Clear(b, [Comma] + Print(c) + us) && Clear(c, us)
    ensures ClearAt(At3(a, b, c), us)
  {
    hide Clear, Print;
  }

  lemma ElementIsClear(e: Phrase, at: Positions, us: seq<Token>)
    requires Clear(e, [OpenAngle] + PrintAt(at) + [CloseAngle] + us) && ClearAt(at, [Closed] + us) && NoNumber(us)
    ensures Clear(Element(e, at), us)
  {
    hide ClearAt, PrintAt;
  }

  /** Every expression whose operators have their operands is read from what is written
      for it, whatever follows that cannot continue an expression. */
  lemma ReadBack(e: Expr, us: seq<Token>)
    requires FormedExpr(e) && FreeNames(e) && Stops(us) && NoNumber(us)
    ensures ParseExpr(Print(Show(e)) + us) == Ok(e, us)
  {
    hide FormedExpr, FreeNames, Print, Clear, Sound, Show, ParseExpr, Stops, NoNumber;
    ShowSound(e);
    ShowClear(e, us);
    ReadPhrase(Show(e), us);
  }

  /** IF inside an expression has the value of the side that its condition selects. */
  lemma ChoiceChooses(rt: Runtime, c: Phrase, a: Phrase, b: Phrase, us: seq<Token>, env: Env)
    requires Sound(Choice(c, a, b)) && Clear(Choice(c, a, b), us) && Stops(us)
    ensures var r := ParseExpr(Print(Choice(c, a, b)) + us);
      && r.Ok? && r.rest == us
      && Eval(rt, r.value, env) == Eval(rt, if Truth(rt, Eval(rt, Tree(c), env)) then Tree(a) else Tree(b), env)
  {
    hide Print, Clear, Sound, ParseExpr, Stops;
    ReadPhrase(Choice(c, a, b), us);
    PlainTree(Choice(c, a, b));
  }

  // Signs

  /** What is left of a number in 32 bits: the one in range that differs by a multiple of
      their number */
  lemma WrapIs(n: int) returns (q: int)
    ensures Fits32(Wrap32(n)) && n == Wrap32(n) + q * 0x1_0000_0000
  {
    hide LE, UnLE;
    Widths();
    UnLEOfLE(n, 4);
    var u := UnLE(LE(n, 4));
    q :| n == u + q * 0x1_0000_0000;
    q := if Wrap32(n) == u then q else q + 1;
  }

  lemma OneInRange(a: int, b: int, k: int)
    requires Fits32(a) && Fits32(b) && a == b + k * 0x1_0000_0000
    ensures a == b
  {
  }

  lemma Negated(n: int)
    ensures Wrap32(-n) == Wrap32(-Wrap32(n))
  {
    hide Wrap32;
    var q1 := WrapIs(n);
    var q2 := WrapIs(-n);
    var q3 := WrapIs(-Wrap32(n));
    OneInRange(Wrap32(-n), Wrap32(-Wrap32(n)), q3 - q1 - q2);
  }

  /** A minus negates the value of the item that follows, number or not. */
  lemma MinusNegates(rt: Runtime, w: Phrase, env: Env)
    requires IsItem(w) && (StartsWithDigits(w) ==> w.Digits?)
    ensures Eval(rt, Tree(Signed(true, w)), env) == Apply(rt, OP_NEG, [Eval(rt, Tree(w), env)])
  {
    hide Wrap32, Bare;
    MinusTree(w);
    PlainTree(w);
    if w.Digits? {
      Negated(w.n);
      DigitsBare(w);
    } else {
      BareUnsigned(w);
      OneArg(rt, Bare(w, false), env);
    }
  }

  lemma DigitsBare(w: Phrase)
    requires w.Digits?
    ensures Bare(w, true) == Num(-(w.n as int)) && Bare(w, false) == Num(w.n)
  {
  }

  lemma OneArg(rt: Runtime, e: Expr, env: Env)
    ensures EvalArgs(rt, One(e), env) == [Eval(rt, e, env)]
  {
    assert EvalArgs(rt, NoArgs, env) == [];
  }

  /** Only a number takes the sign. */
  lemma {:induction false} BareUnsigned(w: Phrase)
    requires !StartsWithDigits(w)
    ensures Bare(w, true) == Bare(w, false)
  {
    match w
    case Slice(e, _) => BareUnsigned(e);
    case Element(e, _) => BareUnsigned(e);
    case _ =>
  }

  /** Except that the extractions of a number are made from the negative number. */
  lemma MinusInNumber(n: nat, zeros: nat, at: Positions)
    ensures Tree(Signed(true, Slice(Digits(zeros, n), at)))
         == match at
            case At1(a) => App(OP_SUBSTRE, Two(Num(-(n as int)), Tree(a)))
            case At2(a, b) => App(OP_SUBSTR, Three(Num(-(n as int)), Tree(a), Tree(b)))
            case At3(a, b, c) => App(OP_FIELD, Four(Num(-(n as int)), Tree(a), Tree(b), Tree(c)))
  {
    MinusTree(Slice(Digits(zeros, n), at));
  }

  /** Two minuses cancel, and a plus does nothing. */
  lemma SignsCancel(w: Phrase)
    ensures Tree(Signed(true, Signed(true, w))) == Tree(w) && Tree(Signed(false, w)) == Tree(w)
  {
    assert Tree(Signed(true, Signed(true, w))) == Phrases.Item(Signed(true, w), true) == Phrases.Item(w, false);
  }
}
