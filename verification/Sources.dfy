/** Whole sources as they are written, and what their statements do, said on the tokens. */
module Sources {
  import opened Outcomes
  import opened Isa
  import opened Syntax
  import opened Programs
  import opened Grammar
  import opened StatementGrammar
  import opened Generate
  import opened Storages
  import opened Phrases
  import opened Scripts
  import opened ReadingBack
  import opened Heading
  import opened Headings
  import opened Compilation
  import opened Machines
  import opened Meanings
  import opened ExprLaws
  import opened Names
  import opened Allowances

  function PrintSource(coms: seq<Com>, ls: Lines): seq<Token> {
    PrintHead(coms) + PrintLines(ls)
  }

  /** A source that is written is read as what was written: its COMMON statements into the
      table, and its lines into statements. */
  lemma SourceReads(coms: seq<Com>, ls: Lines)
    requires LinesOk(ls, []) && forall i :: 0 <= i < |coms| ==> SlashesOk(coms[i].block)
    ensures var tokens := PrintSource(coms, ls);
      match DeclaredAll(NoVariables, coms)
      case None => ReadHead(tokens, NoVariables) == None
      case Some(st) =>
        && Initial(tokens) == Ctx(st, 0)
        && ParseLines(Empty, Body(tokens)) == Ok(LinesTree(Empty, ls), [])
  {
    hide LinesOk, PrintLines, PrintHead, SlashesOk, DeclaredAll, ParseLines, ReadHead, LinesTree, Upper;
    LinesStart(ls);
    HeadReads(coms, PrintLines(ls), NoVariables);
    ReadLines(Empty, ls);
  }

  // Assignments

  /** The statement at the beginning of these tokens */
  function First(ts: seq<Token>): Parse<Block>
    requires ts != []
  {
    ParseStmt(Empty, ts[0], ts[1..])
  }

  const PlusEq := Token(TKN_ADDEQ, "+=")
  const MinusEq := Token(TKN_SUBEQ, "-=")
  const Equals := Token(TKN_EQ, "=")
  const Plus := Token(TKN_PLUS, "+")
  const Minus := Token(TKN_MINUS, "-")
  const OneToken := Token(TKN_NUM, "1")

  lemma DigitOne()
    ensures Print(Digits(0, 1)) == [OneToken] && Tree(Digits(0, 1)) == Num(1)
  {
    assert Decimal(1) == [Digit(1)] && Digit(1) == '1' && Zeros(0) == [];
    assert Zeros(0) + Decimal(1) == "1";
    PlainTree(Digits(0, 1));
  }

  lemma ReadSet(name: string, sign: Token, e: Phrase, us: seq<Token>)
    requires SetOf(sign.kind).Some? && Sound(e) && Clear(e, us) && Stops(us)
    ensures First([Word(name), sign] + Print(e) + us)
         == Ok(Seq(Empty, Set(name, SetOf(sign.kind).value, Tree(e), Last(us) && Short(sign, e))), us)
  {
    hide Print, Sound, Clear, Stops, Tree, Short, ParseStmt;
    var ts := [Word(name), sign] + Print(e) + us;
    assert ts[1..] == [sign] + Print(e) + us;
    ReadAssign(Empty, name, sign, e, us);
  }

  /** At the end of a line, name += 1 takes an integer to the next and name -= 1 to the one
      before it, as name = name + 1 and name = name - 1 do. */
  lemma OneMore(rt: Runtime, name: string, us: seq<Token>, n: int, f: nat, env: Env, w: int)
    requires Last(us) && Free(name) && Lookup(env, name) == Number(n) && Fits32(n)
    ensures var up := First([Word(name), PlusEq, OneToken] + us);
      var add := First([Word(name), Equals, Word(name), Plus, OneToken] + us);
      && up.Ok? && add.Ok? && up.rest == add.rest == us
      && (Fits32(n + 1) ==>
          ExecBlock(rt, up.value, f, env, w) == ExecBlock(rt, add.value, f, env, w)
          == Done(Normal, env[name := Number(n + 1)], w))
  {
    StepReads(name, true, us);
    if Fits32(n + 1) {
      StepRuns(rt, name, true, n, f, env, w);
    }
  }

  lemma OneLess(rt: Runtime, name: string, us: seq<Token>, n: int, f: nat, env: Env, w: int)
    requires Last(us) && Free(name) && Lookup(env, name) == Number(n) && Fits32(n)
    ensures var down := First([Word(name), MinusEq, OneToken] + us);
      var sub := First([Word(name), Equals, Word(name), Minus, OneToken] + us);
      && down.Ok? && sub.Ok? && down.rest == sub.rest == us
      && (Fits32(n - 1) ==>
          ExecBlock(rt, down.value, f, env, w) == ExecBlock(rt, sub.value, f, env, w)
          == Done(Normal, env[name := Number(n - 1)], w))
  {
    StepReads(name, false, us);
    if Fits32(n - 1) {
      StepRuns(rt, name, false, n, f, env, w);
    }
  }

  lemma StepReads(name: string, up: bool, us: seq<Token>)
    requires Last(us) && Free(name)
    ensures var sign, plus := if up then PlusEq else MinusEq, if up then Plus else Minus;
      var op := if up then OP_ADD else OP_SUB;
      && First([Word(name), sign, OneToken] + us) == Ok(Seq(Empty, Set(name, op, Num(1), true)), us)
      && First([Word(name), Equals, Word(name), plus, OneToken] + us)
         == Ok(Seq(Empty, Set(name, OP_STOR, App(op, Two(Var(name), Num(1))), false)), us)
  {
    hide ParseStmt, Upper;
    var sign, plus := if up then PlusEq else MinusEq, if up then Plus else Minus;
    var sum := Dyadic(plus, Named(name), Digits(0, 1));
    DigitOne();
    assert [Word(name), sign] + [OneToken] + us == [Word(name), sign, OneToken] + us;
    ReadSet(name, sign, Digits(0, 1), us);
    SumSound(name, plus, us);
    assert [Word(name), Equals] + Print(sum) + us == [Word(name), Equals, Word(name), plus, OneToken] + us;
    ReadSet(name, Equals, sum, us);
  }

  lemma SumSound(name: string, plus: Token, us: seq<Token>)
    requires Free(name) && (plus == Plus || plus == Minus) && Last(us)
    ensures var sum := Dyadic(plus, Named(name), Digits(0, 1));
      && Sound(sum) && Clear(sum, us) && Stops(us) && Print(sum) == [Word(name), plus, OneToken]
      && Tree(sum) == App(if plus == Plus then OP_ADD else OP_SUB, Two(Var(name), Num(1)))
  {
    DigitOne();
    Capitals("+");
    Capitals("-");
    PlainTree(Named(name));
    DyadicTree(plus, Named(name), Digits(0, 1));
  }

  lemma StepRuns(rt: Runtime, name: string, up: bool, n: int, f: nat, env: Env, w: int)
    requires Lookup(env, name) == Number(n) && Fits32(n) && Fits32(if up then n + 1 else n - 1)
    ensures var op := if up then OP_ADD else OP_SUB;
      var done := Done(Normal, env[name := Number(if up then n + 1 else n - 1)], w);
      && ExecBlock(rt, Seq(Empty, Set(name, op, Num(1), true)), f, env, w) == done
      && ExecBlock(rt, Seq(Empty, Set(name, OP_STOR, App(op, Two(Var(name), Num(1))), false)), f, env, w) == done
  {
    hide ExecStmt, Lookup;
    var op := if up then OP_ADD else OP_SUB;
    var s, t := Set(name, op, Num(1), true), Set(name, OP_STOR, App(op, Two(Var(name), Num(1))), false);
    var v := Number(if up then n + 1 else n - 1);
    Alone(rt, s, f, env, w);
    Alone(rt, t, f, env, w);
    ShortStored(rt, op, n, env);
    SumValue(rt, name, op, n, env);
    SetRuns(rt, name, op, Num(1), true, v, f, env, w);
    SetRuns(rt, name, OP_STOR, App(op, Two(Var(name), Num(1))), false, v, f, env, w);
  }

  /** A block of one statement */
  lemma Alone(rt: Runtime, s: Stmt, f: nat, env: Env, w: int)
    ensures ExecBlock(rt, Seq(Empty, s), f, env, w) == ExecStmt(rt, s, f, env, w)
  {
    hide ExecBlock, ExecStmt, ThenStmt;
    SeqRuns(rt, Empty, s, f, env, w);
    ThenRuns(rt, s, f, env, w);
  }

  lemma SetRuns(rt: Runtime, name: string, op: int, e: Expr, short: bool, v: Value, f: nat, env: Env, w: int)
    requires Stored(rt, op, e, short, Lookup(env, name), env) == v
    ensures ExecStmt(rt, Set(name, op, e, short), f, env, w) == Done(Normal, env[name := v], w)
  {
    hide Stored;
  }

  lemma ShortStored(rt: Runtime, op: int, n: int, env: Env)
    requires op == OP_ADD || op == OP_SUB
    requires Fits32(n) && Fits32(if op == OP_ADD then n + 1 else n - 1)
    ensures Stored(rt, op, Num(1), true, Number(n), env) == Number(if op == OP_ADD then n + 1 else n - 1)
  {
  }

  lemma SumValue(rt: Runtime, name: string, op: int, n: int, env: Env)
    requires (op == OP_ADD || op == OP_SUB) && Lookup(env, name) == Number(n)
    requires Fits32(n) && Fits32(if op == OP_ADD then n + 1 else n - 1)
    ensures forall was ::
      Stored(rt, OP_STOR, App(op, Two(Var(name), Num(1))), false, was, env)
      == Number(if op == OP_ADD then n + 1 else n - 1)
  {
    hide Wrap32, Lookup;
    Wrap32Exact(1);
    assert EvalArgs(rt, NoArgs, env) == [];
    assert EvalArgs(rt, One(Var(name)), env) == [Number(n)];
    assert EvalArgs(rt, Two(Var(name), Num(1)), env) == [Number(n), Number(1)];
  }
}
