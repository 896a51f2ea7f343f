/** A program that counts: that its source is read, accepted and compiled to code which
    counts. */
module Counting {
  import opened Outcomes
  import opened Bytes
  import opened Isa
  import opened Listing
  import opened Syntax
  import opened Programs
  import opened Names
  import opened StatementGrammar
  import opened Generate
  import opened Storages
  import opened Structure
  import opened Phrases
  import opened Scripts
  import opened ReadingBack
  import opened Heading
  import opened Headings
  import opened Compilation
  import Acceptance
  import opened Machines
  import opened Meanings
  import opened Prelude
  import opened Correctness
  import opened Allowances
  import opened ExprLaws
  import opened Sources
  import opened StatementLaws
  import opened LoopLaws

  const Less := Token(TKN_LT, "<")

  function Upto(k: nat): Token {
    Token(TKN_NUM, Decimal(k))
  }

  /** LOOP, WHILE N < k, N += 1, REPEAT */
  function CountTo(k: nat): seq<Token> {
    [Word("LOOP"), EndToken,
     Word("WHILE"), Word("N"), Less, Upto(k), EndToken,
     Word("N"), PlusEq, OneToken, EndToken,
     Word("REPEAT"), EndToken]
  }

  function CountingLines(k: nat): Lines {
    MoreLines(Single(While(false, Dyadic(Less, Named("N"), Digits(0, k)), false)),
              MoreLines(Single(Assign("N", PlusEq, Digits(0, 1))), NoLines))
  }

  function CountingBody(k: nat): Block {
    Seq(Seq(Empty, Test(false, App(OP_LT, Two(Var("N"), Num(k))))), Set("N", OP_ADD, Num(1), true))
  }

  lemma CountingPrint(k: nat)
    ensures CountTo(k) == PrintLines(Looped(CountingLines(k)))
  {
    hide PrintCmd, PrintLines;
    var test, step := While(false, Dyadic(Less, Named("N"), Digits(0, k)), false), Assign("N", PlusEq, Digits(0, 1));
    var end := MoreLines(Single(RepeatCmd), NoLines);
    var body := MoreLines(Single(test), MoreLines(Single(step), end));
    assert Looped(CountingLines(k)) == MoreLines(Single(LoopCmd), body) by {
      assert Repeated(MoreLines(Single(step), NoLines)) == MoreLines(Single(step), Repeated(NoLines));
    }
    CountingWords(k);
    LinePrints(LoopCmd, body);
    LinePrints(test, MoreLines(Single(step), end));
    LinePrints(step, end);
    LinePrints(RepeatCmd, NoLines);
  }

  lemma CountingWords(k: nat)
    ensures PrintCmd(LoopCmd) == [Word("LOOP")] && PrintCmd(RepeatCmd) == [Word("REPEAT")]
    ensures PrintCmd(While(false, Dyadic(Less, Named("N"), Digits(0, k)), false))
         == [Word("WHILE"), Word("N"), Less, Upto(k)]
    ensures PrintCmd(Assign("N", PlusEq, Digits(0, 1))) == [Word("N"), PlusEq, OneToken]
    ensures PrintLines(NoLines) == []
  {
    DigitOne();
    assert Zeros(0) == [] && [] + Decimal(k) == Decimal(k);
    assert Print(Dyadic(Less, Named("N"), Digits(0, k))) == [Word("N"), Less, Upto(k)];
  }

  lemma LinePrints(c: Cmd, more: Lines)
    ensures PrintLines(MoreLines(Single(c), more)) == PrintCmd(c) + ([EndToken] + PrintLines(more))
  {
    hide PrintCmd;
    assert PrintCmds(MoreCmds(c, NoCmds)) == PrintCmd(c) + [];
    assert [] + (PrintCmd(c) + [] + ([EndToken] + PrintLines(more))) == PrintCmd(c) + ([EndToken] + PrintLines(more));
  }

  lemma CountingTree(k: nat)
    ensures NestWhole(LinesTree(Empty, CountingLines(k)), true) == Some(CountingBody(k))
  {
    hide LinesTree, NestBlock;
    CountingFlat(Empty, k);
    NestLast(CountingBody(k), true);
    NestLast(CountingBody(k).init, true);
    NestNothing();
  }

  lemma CountingFlat(acc: Block, k: nat)
    ensures LinesTree(acc, CountingLines(k))
         == Seq(Seq(acc, Test(false, App(OP_LT, Two(Var("N"), Num(k))))), Set("N", OP_ADD, Num(1), true))
  {
    hide CmdTree;
    var test, step := While(false, Dyadic(Less, Named("N"), Digits(0, k)), false), Assign("N", PlusEq, Digits(0, 1));
    OneCmd(acc, test);
    LinesOne(Seq(acc, CmdTree(test, true)), step);
    CountingTrees(k);
  }

  lemma LinesOne(acc: Block, c: Cmd)
    ensures LinesTree(acc, MoreLines(Single(c), NoLines)) == Seq(acc, CmdTree(c, true))
  {
    OneCmd(acc, c);
    hide CmdsTree, CmdTree;
  }

  lemma NestNothing()
    ensures NestBlock(Empty, true) == Some(Partial([], Empty))
  {
  }

  lemma CountingTrees(k: nat)
    ensures CmdTree(While(false, Dyadic(Less, Named("N"), Digits(0, k)), false), true)
         == Test(false, App(OP_LT, Two(Var("N"), Num(k))))
    ensures CmdTree(Assign("N", PlusEq, Digits(0, 1)), true) == Set("N", OP_ADD, Num(1), true)
  {
    DigitOne();
    DyadicTree(Less, Named("N"), Digits(0, k));
    PlainTree(Named("N"));
    PlainTree(Digits(0, k));
    DigitsBare(Digits(0, k));
  }

  lemma CountingOk(k: nat)
    ensures LinesOk(Looped(CountingLines(k)), [])
  {
    hide LinesOk, LineOk, PrintLines;
    var test, step := While(false, Dyadic(Less, Named("N"), Digits(0, k)), false), Assign("N", PlusEq, Digits(0, 1));
    var end := MoreLines(Single(RepeatCmd), NoLines);
    var body := MoreLines(Single(test), MoreLines(Single(step), end));
    assert Looped(CountingLines(k)) == MoreLines(Single(LoopCmd), body) by {
      assert Repeated(MoreLines(Single(step), NoLines)) == MoreLines(Single(step), Repeated(NoLines));
    }
    CountingWords(k);
    LinePrints(test, MoreLines(Single(step), end));
    LinePrints(step, end);
    LinePrints(RepeatCmd, NoLines);
    LinePrints(LoopCmd, body);
    assert PrintLines(end)[0] == Word("REPEAT") && PrintLines(body)[0] == Word("WHILE");
    assert PrintLines(MoreLines(Single(step), end))[0] == Word("N");
    NoLinesOk();
    CountingFits(k, PrintLines(end), PrintLines(MoreLines(Single(step), end)), PrintLines(body));
    LineFits(RepeatCmd, NoLines);
    LineFits(step, end);
    LineFits(test, MoreLines(Single(step), end));
    LineFits(LoopCmd, body);
  }

  lemma NoLinesOk()
    ensures LinesOk(NoLines, []) && Fresh([])
  {
  }

  lemma LineFits(c: Cmd, more: Lines)
    requires CmdOk(c, [EndToken] + PrintLines(more)) && Fresh(PrintLines(more)) && LinesOk(more, [])
    ensures LinesOk(MoreLines(Single(c), more), [])
  {
    hide CmdOk, PrintLines, Fresh;
    assert PrintLines(more) + [] == PrintLines(more);
    assert CmdsOk(MoreCmds(c, NoCmds), [EndToken] + PrintLines(more));
  }

  lemma CountingFits(k: nat, us: seq<Token>, vs: seq<Token>, ws: seq<Token>)
    requires us != [] && us[0] == Word("REPEAT") && vs != [] && vs[0] == Word("N") && ws != [] && ws[0] == Word("WHILE")
    ensures Fresh(us) && Fresh(vs) && Fresh(ws)
    ensures CmdOk(LoopCmd, [EndToken] + ws) && CmdOk(RepeatCmd, [EndToken])
    ensures CmdOk(While(false, Dyadic(Less, Named("N"), Digits(0, k)), false), [EndToken] + vs)
    ensures CmdOk(Assign("N", PlusEq, Digits(0, 1)), [EndToken] + us)
  {
    Capitals("REPEAT");
    Capitals("N");
    Capitals("WHILE");
    LineEndFacts([EndToken] + vs);
    LessOk(k, [EndToken] + vs);
    hide Upper, PhraseOk;
    WhileFits(false, Dyadic(Less, Named("N"), Digits(0, k)), [EndToken] + vs);
    OneOk([EndToken] + us);
  }

  lemma OneOk(us: seq<Token>)
    requires Stops(us)
    ensures PhraseOk(Digits(0, 1), us)
  {
  }

  lemma LessOk(k: nat, us: seq<Token>)
    requires us != [] && us[0] == EndToken
    ensures PhraseOk(Dyadic(Less, Named("N"), Digits(0, k)), us)
  {
    var l, r := Named("N"), Digits(0, k);
    Capitals("N");
    Capitals("<");
    assert Sound(l) && Sound(r) && Clear(l, [Less] + Print(r) + us) && Clear(r, us);
    assert (Print(r) + us)[1..] == us && Print(r)[0].kind == TKN_NUM;
    assert NoCloser(us) && NoCloser(Print(r) + us);
  }

  /** From any number up to k, in 32 bits, the program counts to k. */
  lemma {:induction false} Counts(rt: Runtime, k: nat, n: nat, f: nat, env: Env, w: int)
    requires n <= k && Fits32(k) && Lookup(env, "N") == Number(n) && f > k - n
    ensures var p := ProgramOf(CountTo(k));
      p.Some? && ExecBlock(rt, p.value, f, env, w) == Done(Normal, env["N" := Number(k)], w)
    decreases k - n
  {
    hide LinesOk, ParseLines, PrintLines, NestWhole, ExecBlock, Looped, CountingLines, CountingBody;
    CountingPrint(k);
    CountingOk(k);
    CountingTree(k);
    LoopRounds(rt, CountingLines(k), CountingBody(k), f - 1, env, w);
    OneRound(rt, k, n, f, env, w);
    if n < k {
      var env' := env["N" := Number(n + 1)];
      Counts(rt, k, n + 1, f - 1, env', w);
      assert env'["N" := Number(k)] == env["N" := Number(k)];
    } else {
      assert env["N" := Number(k)] == env;
    }
  }

  lemma OneRound(rt: Runtime, k: nat, n: nat, f: nat, env: Env, w: int)
    requires n <= k && Fits32(k) && Lookup(env, "N") == Number(n)
    ensures ExecBlock(rt, CountingBody(k), f, env, w)
         == if n < k then Done(Normal, env["N" := Number(n + 1)], w) else Done(Break, env, w)
  {
    hide ExecBlock, Eval, Stored;
    var test := Test(false, App(OP_LT, Two(Var("N"), Num(k))));
    SeqRuns(rt, Seq(Empty, test), Set("N", OP_ADD, Num(1), true), f, env, w);
    Alone(rt, test, f, env, w);
    LessValue(rt, k, n, env);
    if n < k {
      ShortStored(rt, OP_ADD, n, env);
      SetRuns(rt, "N", OP_ADD, Num(1), true, Number(n + 1), f, env, w);
    }
  }

  lemma LessValue(rt: Runtime, k: nat, n: nat, env: Env)
    requires Fits32(k) && Lookup(env, "N") == Number(n)
    ensures Truth(rt, Eval(rt, App(OP_LT, Two(Var("N"), Num(k))), env)) <==> n < k
  {
    hide Wrap32, Lookup;
    Wrap32Exact(k);
    assert EvalArgs(rt, NoArgs, env) == [];
    assert EvalArgs(rt, One(Var("N")), env) == [Number(n)];
    assert EvalArgs(rt, Two(Var("N"), Num(k)), env) == [Number(n), Number(k)];
  }

  lemma CountingSource(k: nat)
    ensures var ts := CountTo(k);
      && ReadHead(ts, NoVariables) == Some((NoVariables, ts)) && ParseLines(Empty, ts).Ok?
      && NestWhole(ParseLines(Empty, ts).value, false) == Some(Seq(Empty, Loop(CountingBody(k))))
  {
    hide LinesOk, ParseLines, PrintLines, NestWhole, Looped, CountingLines, CountingBody;
    CountingPrint(k);
    CountingOk(k);
    CountingTree(k);
    ReadLines(Empty, Looped(CountingLines(k)));
    LoopNests(CountingLines(k), CountingBody(k));
    Capitals("LOOP");
    HeadStops(CountTo(k), NoVariables);
  }

  lemma CountingAccepted(k: nat)
    ensures Accepted(CountTo(k))
  {
    hide ParseLines, ReadHead, NestWhole, Accepted, CountTo, Acceptance.LabelsInOrder;
    CountingSource(k);
    Acceptance.AcceptedExactly(CountTo(k));
    CountingLabels(k);
    CountingVariables(k);
  }

  lemma CountingLabels(k: nat)
    ensures ParseLines(Empty, CountTo(k)).Ok?
    ensures Acceptance.LabelsInOrder(BlockLabs(ParseLines(Empty, CountTo(k)).value))
  {
    hide ParseLines, LinesTree, LinesOk, PrintLines, CountTo, Looped, CountingLines;
    var open := Seq(Empty, LoopMark);
    CountingPrint(k);
    CountingOk(k);
    ReadLines(Empty, Looped(CountingLines(k)));
    LoopedFirst(CountingLines(k));
    RepeatedTree(open, CountingLines(k));
    CountingFlat(open, k);
    var test, step := Test(false, App(OP_LT, Two(Var("N"), Num(k)))), Set("N", OP_ADD, Num(1), true);
    StillNone(Empty, LoopMark);
    StillNone(open, test);
    StillNone(Seq(open, test), step);
    StillNone(Seq(Seq(open, test), step), RepeatMark);
  }

  lemma StillNone(b: Block, s: Stmt)
    requires BlockLabs(b) == NoLabs && StmtLabs(s) == NoLabs
    ensures BlockLabs(Seq(b, s)) == NoLabs
  {
  }

  lemma CountingVariables(k: nat)
    ensures AfterBlock(Seq(Empty, Loop(CountingBody(k))), Ctx(NoVariables, 0)).vars.count < 0x1_0000
    ensures Writable(NoVariables)
  {
    var c := Ctx(NoVariables, 0);
    var test, step := Test(false, App(OP_LT, Two(Var("N"), Num(k)))), Set("N", OP_ADD, Num(1), true);
    var c1 := Opened(c);
    assert AfterBlock(Seq(Empty, Loop(CountingBody(k))), c) == AfterBlock(CountingBody(k), c1);
    TestTouches("N", k, c1);
    assert AfterBlock(Seq(Empty, test), c1) == AfterStmt(test, AfterBlock(Empty, c1)) == AfterStmt(test, c1);
    assert AfterBlock(CountingBody(k), c1) == AfterStmt(step, AfterStmt(test, c1));
  }

  lemma TestTouches(name: string, k: nat, c: Ctx)
    ensures AfterStmt(Test(false, App(OP_LT, Two(Var(name), Num(k)))), c) == Touched(c, name)
  {
    hide Touched;
    assert AfterArgs(NoArgs, c) == c;
    assert AfterArgs(One(Var(name)), c) == AfterE(Var(name), c) == Touched(c, name);
    assert AfterArgs(Two(Var(name), Num(k)), c) == AfterE(Num(k), Touched(c, name)) == Touched(c, name);
  }

  /** Its code counts to k. */
  lemma CompiledCounts(rt: Runtime, k: nat, p: Block, code: seq<byte>, pc: nat, list: seq<Item>, n: nat, m: Machine,
                       env: Env, w: int)
    returns (steps: nat)
    requires Loaded(rt, CountTo(k), p, code, pc, list, m, env, w)
    requires n <= k && Fits32(k) && Lookup(env, "N") == Number(n)
    ensures EndsAs(Object(rt, p, Initial(CountTo(k)), code, list), m, Done(Normal, env["N" := Number(k)], w),
                   Run(rt, code, m, steps))
  {
    hide Loaded, ExecBlock, EndsAs, Run, CountTo;
    CountingSource(k);
    assert p == ProgramOf(CountTo(k)).value by { LoadedProgram(rt, CountTo(k), p, code, pc, list, m, env, w); }
    hide ParseLines, ReadHead;
    Counts(rt, k, n, k - n + 1, env, w);
    steps := MeaningKept(rt, CountTo(k), p, code, pc, list, k - n + 1, m, env, w);
  }

  lemma LoadedProgram(rt: Runtime, tokens: seq<Token>, p: Block, code: seq<byte>, pc: nat, list: seq<Item>, m: Machine,
                      env: Env, w: int)
    requires Loaded(rt, tokens, p, code, pc, list, m, env, w)
    ensures ParseLines(Empty, Body(tokens)).Ok? && NestWhole(ParseLines(Empty, Body(tokens)).value, false) == Some(p)
  {
  }
}
