/** A compile that ends with no open construct compiled a properly nested program, and
    its code is that program's code: every REPEAT, clause end and END CASE removed the
    entry of its own construct. */
module Nesting {
  import opened Outcomes
  import opened Isa
  import opened Listing
  import opened Syntax
  import opened Programs
  import opened Names
  import opened Generate
  import opened ConstructStack
  import opened CaseCount
  import opened Structure

  /** Where the current block of an unfinished program stands. */
  datatype Outer = Outer(items: seq<Item>, ctx: Ctx, lp: int, entries: seq<Entry>)

  function OpenAt(frames: seq<Block>, c: Ctx, lp: int): Outer {
    if frames == [] then Outer([], c, lp, [])
    else
      var o, b := OpenAt(frames[..|frames| - 1], c, lp), frames[|frames| - 1];
      var c1 := AfterBlock(b, o.ctx);
      Outer(o.items + EmitBlock(b, o.ctx, o.lp) + [Lbl(c1.next, "R")], Opened(c1), c1.next,
            [Entry(LoopEntry, c1.next, 0)] + o.entries)
  }

  /** g1 is what compiling the unfinished program makes of g. */
  ghost predicate Matches(o: Partial, g: GState, g1: GState) {
    var a := OpenAt(o.frames, g.ctx, FindLoop(g.stack));
    && g1.list == g.list + (a.items + EmitBlock(o.cur, a.ctx, a.lp))
    && g1.ctx == AfterBlock(o.cur, a.ctx)
    && g1.stack == a.entries + g.stack
  }

  /** No REPEAT can remove an entry that was there before. */
  predicate Solid(stack: seq<Entry>) {
    stack == [] || !stack[0].kind.LoopEntry?
  }

  predicate InLoop(g: GState) {
    FindLoop(g.stack) >= 0
  }

  function BlockIn(b: Block, g: GState): Option<Partial> { NestBlock(b, InLoop(g)) }
  function WholeIn(b: Block, g: GState): Option<Block> { NestWhole(b, InLoop(g)) }
  function ClauseIn(k: Clause, g: GState): Option<Clause> { NestClause(k, InLoop(g)) }
  function StmtIn(s: Stmt, g: GState): Option<Stmt> { NestStmt(s, InLoop(g)) }
  function ArmsIn(arms: Arms, g: GState): Option<Arms> { NestArms(arms, InLoop(g)) }

  /** g1 is g with these items added, between the same constructs. */
  predicate Adds(g: GState, g1: GState, items: seq<Item>, c: Ctx) {
    g1.list == g.list + items && g1.ctx == c && g1.stack == g.stack
  }

  lemma {:induction false} OuterFacts(frames: seq<Block>, c: Ctx, stack: seq<Entry>)
    ensures var a := OpenAt(frames, c, FindLoop(stack));
      && |a.entries| == |frames|
      && (frames != [] ==> a.entries[0].kind.LoopEntry? && a.entries[0].number == a.lp)
      && a.lp >= -1 && (a.lp >= 0 <==> FindLoop(stack) >= 0 || frames != [])
      && FindLoop(a.entries + stack) == a.lp
      && Cases(a.entries + stack) == Cases(stack)
  {
    hide EmitBlock, AfterBlock;
    if frames == [] {
      assert [] + stack == stack;
    } else {
      var below := OpenAt(frames[..|frames| - 1], c, FindLoop(stack));
      var a := OpenAt(frames, c, FindLoop(stack));
      OuterFacts(frames[..|frames| - 1], c, stack);
      assert a.entries + stack == [a.entries[0]] + (below.entries + stack);
      CasesCons(a.entries[0], below.entries + stack);
    }
  }

  lemma FindBelow(e: Entry, stack: seq<Entry>)
    requires !e.kind.LoopEntry?
    ensures FindLoop([e] + stack) == FindLoop(stack)
  {
    assert ([e] + stack)[1..] == stack;
  }

  /** An ordinary statement goes to the end of the current block. */
  lemma MatchStmt(o: Partial, g: GState, g1: GState, s: Stmt, g2: GState)
    requires Matches(o, g, g1)
    requires Adds(g1, g2, EmitStmt(s, g1.ctx, FindLoop(g1.stack)), AfterStmt(s, g1.ctx))
    ensures Matches(Partial(o.frames, Seq(o.cur, s)), g, g2)
  {
    hide EmitStmt, AfterStmt, EmitBlock, AfterBlock, FindLoop;
    OuterFacts(o.frames, g.ctx, g.stack);
    var a := OpenAt(o.frames, g.ctx, FindLoop(g.stack));
    BlockSnoc(o.cur, s, a.ctx, a.lp);
    Append4(g.list, a.items, EmitBlock(o.cur, a.ctx, a.lp), EmitStmt(s, g1.ctx, a.lp));
  }

  lemma BlockSnoc(b: Block, s: Stmt, c: Ctx, lp: int)
    ensures EmitBlock(Seq(b, s), c, lp) == EmitBlock(b, c, lp) + EmitStmt(s, AfterBlock(b, c), lp)
    ensures AfterBlock(Seq(b, s), c) == AfterStmt(s, AfterBlock(b, c))
  {
  }

  lemma Append4<T>(p: seq<T>, a: seq<T>, b: seq<T>, c: seq<T>)
    ensures p + (a + b) + c == p + (a + (b + c))
  {
  }

  /** LOOP opens a block. */
  lemma MatchLoop(o: Partial, g: GState, g1: GState)
    requires Matches(o, g, g1) && GenLoopMark(g1).Good?
    ensures Matches(Partial(o.frames + [o.cur], Empty), g, GenLoopMark(g1).g)
  {
    hide EmitBlock, AfterBlock, FindLoop, LabelName, OpenAt;
    var a, frames := OpenAt(o.frames, g.ctx, FindLoop(g.stack)), o.frames + [o.cur];
    OpenMore(o.frames, o.cur, g.ctx, FindLoop(g.stack));
    var b := OpenAt(frames, g.ctx, FindLoop(g.stack));
    EmptyBlock(b.ctx, b.lp);
    Append3(g.list, a.items, EmitBlock(o.cur, a.ctx, a.lp), [Lbl(g1.ctx.next, "R")]);
    Regroup([Entry(LoopEntry, g1.ctx.next, 0)], a.entries, g.stack);
  }

  lemma OpenMore(frames: seq<Block>, b: Block, c: Ctx, lp: int)
    ensures var o := OpenAt(frames, c, lp); var c1 := AfterBlock(b, o.ctx);
      OpenAt(frames + [b], c, lp)
      == Outer(o.items + EmitBlock(b, o.ctx, o.lp) + [Lbl(c1.next, "R")], Opened(c1), c1.next,
               [Entry(LoopEntry, c1.next, 0)] + o.entries)
  {
    hide EmitBlock, AfterBlock, LabelName;
    assert (frames + [b])[..|frames + [b]| - 1] == frames;
  }

  lemma EmptyBlock(c: Ctx, lp: int)
    ensures EmitBlock(Empty, c, lp) == [] && AfterBlock(Empty, c) == c
  {
  }

  lemma Append3<T>(p: seq<T>, a: seq<T>, b: seq<T>, c: seq<T>)
    ensures p + (a + b) + c == p + (a + b + c) == p + (a + b + c + [])
  {
  }

  /** REPEAT closes the loop that was opened last. */
  lemma MatchRepeat(o: Partial, g: GState, g1: GState)
    requires Matches(o, g, g1) && Solid(g.stack) && GenRepeat(g1).Good?
    ensures CloseLoop(o).Some? && Matches(CloseLoop(o).value, g, GenRepeat(g1).g)
  {
    hide EmitBlock, AfterBlock, FindLoop;
    OuterFacts(o.frames, g.ctx, g.stack);
    if o.frames == [] {
      assert false;
    } else {
      RepeatStep(o, g, g1);
    }
  }

  lemma RepeatStep(o: Partial, g: GState, g1: GState)
    requires Matches(o, g, g1) && GenRepeat(g1).Good? && o.frames != []
    ensures Matches(CloseLoop(o).value, g, GenRepeat(g1).g)
  {
    hide EmitBlock, AfterBlock, FindLoop;
    OuterFacts(o.frames, g.ctx, g.stack);
    var rest, b := o.frames[..|o.frames| - 1], o.frames[|o.frames| - 1];
    var a, below := OpenAt(o.frames, g.ctx, FindLoop(g.stack)), OpenAt(rest, g.ctx, FindLoop(g.stack));
    var n := AfterBlock(b, below.ctx).next;
    BlockSnoc(b, Loop(o.cur), below.ctx, below.lp);
    LoopCode(o.cur, AfterBlock(b, below.ctx), below.lp);
    Append7(g.list, below.items, EmitBlock(b, below.ctx, below.lp), [Lbl(n, "R")], EmitBlock(o.cur, a.ctx, a.lp),
            [Jmp(OP_JMP, n, "R")], [Lbl(n, "X")]);
    assert (a.entries + g.stack)[1..] == below.entries + g.stack;
  }

  lemma LoopCode(body: Block, c: Ctx, lp: int)
    ensures EmitStmt(Loop(body), c, lp)
         == [Lbl(c.next, "R")] + EmitBlock(body, Opened(c), c.next) + [Jmp(OP_JMP, c.next, "R")] + [Lbl(c.next, "X")]
    ensures AfterStmt(Loop(body), c) == AfterBlock(body, Opened(c))
  {
  }

  lemma Append7<T>(p: seq<T>, i: seq<T>, b: seq<T>, l: seq<T>, m: seq<T>, j: seq<T>, x: seq<T>)
    ensures p + ((i + b + l) + m) + j + x == p + (i + (b + (l + m + j + x)))
  {
  }

  /** The blocks of a compile without lost CASE constructs. */
  lemma {:induction false} BlockNests(b: Block, g: GState)
    requires GenBlock(b, g).Good? && Cases(GenBlock(b, g).g.stack) == Cases(g.stack) && Solid(g.stack)
    ensures BlockIn(b, g).Some? && Matches(BlockIn(b, g).value, g, GenBlock(b, g).g)
    decreases b, 0
  {
    hide EmitBlock, AfterBlock, EmitStmt, AfterStmt, FindLoop, Cases, GenStmt, Matches, Solid, NestStmt, CloseLoop;
    match b
    case Empty => NothingMatches(g);
    case Seq(init, last) =>
      var g1 := GenBlock(init, g).g;
      BlockCases(init, g);
      StmtCases(last, g1);
      BlockNests(init, g);
      var o := BlockIn(init, g).value;
      if last.LoopMark? {
        LoopMarkGen(g1);
        MatchLoop(o, g, g1);
      } else if last.RepeatMark? {
        LoopMarkGen(g1);
        MatchRepeat(o, g, g1);
      } else {
        MatchesLoop(o, g, g1);
        StmtNests(last, g1);
        MatchStmt(o, g, g1, StmtIn(last, g1).value, GenStmt(last, g1).g);
      }
  }

  lemma MatchesLoop(o: Partial, g: GState, g1: GState)
    requires Matches(o, g, g1)
    ensures InLoop(g1) <==> InLoop(g) || o.frames != []
  {
    hide EmitBlock, AfterBlock, FindLoop;
    OuterFacts(o.frames, g.ctx, g.stack);
  }

  lemma LoopMarkGen(g: GState)
    ensures GenStmt(LoopMark, g) == GenLoopMark(g) && GenStmt(RepeatMark, g) == GenRepeat(g)
  {
  }

  lemma NothingMatches(g: GState)
    ensures Matches(Partial([], Empty), g, g)
  {
    EmptyBlock(g.ctx, FindLoop(g.stack));
    assert g.list + ([] + []) == g.list && [] + g.stack == g.stack;
  }

  /** A block that leaves an entry other than a loop's on top leaves no loop open. */
  lemma WholeNests(b: Block, g: GState)
    requires GenBlock(b, g).Good? && Cases(GenBlock(b, g).g.stack) == Cases(g.stack) && Solid(g.stack)
    requires Solid(GenBlock(b, g).g.stack)
    ensures WholeIn(b, g).Some?
    ensures Adds(g, GenBlock(b, g).g, EmitBlock(WholeIn(b, g).value, g.ctx, FindLoop(g.stack)),
                 AfterBlock(WholeIn(b, g).value, g.ctx))
    decreases b, 1
  {
    hide EmitBlock, AfterBlock, FindLoop, Cases, GenBlock;
    BlockNests(b, g);
    var o := BlockIn(b, g).value;
    OuterFacts(o.frames, g.ctx, g.stack);
    var a := OpenAt(o.frames, g.ctx, FindLoop(g.stack));
    if o.frames == [] {
      assert [] + g.stack == g.stack && [] + EmitBlock(o.cur, g.ctx, a.lp) == EmitBlock(o.cur, g.ctx, a.lp);
    } else {
      assert false;
    }
  }

  lemma ClauseNests(k: Clause, g: GState)
    requires GenClause(k, g).Good? && Cases(GenClause(k, g).g.stack) == Cases(g.stack) && Solid(g.stack)
    requires Solid(GenClause(k, g).g.stack)
    ensures ClauseIn(k, g).Some?
    ensures Adds(g, GenClause(k, g).g, EmitClause(ClauseIn(k, g).value, g.ctx, FindLoop(g.stack)),
                 AfterClause(ClauseIn(k, g).value, g.ctx))
    ensures k.Absent? <==> ClauseIn(k, g).value.Absent?
    decreases k, 0
  {
    hide EmitBlock, AfterBlock, FindLoop, Cases, GenBlock, NestWhole, Solid;
    if k.Clause? {
      WholeNests(k.body, g);
    } else {
      assert g.list + [] == g.list;
    }
  }

  lemma StmtNests(s: Stmt, g: GState)
    requires GenStmt(s, g).Good? && Cases(GenStmt(s, g).g.stack) == Cases(g.stack)
    requires !s.LoopMark? && !s.RepeatMark?
    ensures StmtIn(s, g).Some?
    ensures Adds(g, GenStmt(s, g).g, EmitStmt(StmtIn(s, g).value, g.ctx, FindLoop(g.stack)),
                 AfterStmt(StmtIn(s, g).value, g.ctx))
    decreases s, 4
  {
    hide NestStmt, GenStmt, EmitStmt, AfterStmt, FindLoop, Cases, Adds;
    match s {
      case If(_, _, _) => IfStmtNests(s, g);
      case Case(arms) => CaseStmtNests(arms, g);
      case File(_, _, _, _, _, _) => FileStmtNests(s, g);
      case _ => SimpleNests(s, g);
    }
  }

  lemma SimpleNests(s: Stmt, g: GState)
    requires GenStmt(s, g).Good? && (s.Set? || s.Test? || s.Leave? || s.LabelMark? || s.Goto? || s.Loop?)
    ensures StmtIn(s, g).Some?
    ensures Adds(g, GenStmt(s, g).g, EmitStmt(StmtIn(s, g).value, g.ctx, FindLoop(g.stack)),
                 AfterStmt(StmtIn(s, g).value, g.ctx))
  {
    hide EmitE, AfterE, FindLoop, StoreCode;
    match s {
      case Set(name, op, e, short) =>
        Regroup(g.list, EmitE(Var(name), g.ctx), StoreCode(op, e, short, AfterE(Var(name), g.ctx)));
      case Test(until, e) => Regroup(g.list, EmitE(e, g.ctx), [Jmp(TestOp(until), FindLoop(g.stack), "X")]);
      case _ =>
    }
  }

  /** g1 is g with these items added, and without g's top entry. */
  predicate Closes(g: GState, g1: GState, items: seq<Item>, c: Ctx) {
    g.stack != [] && g1.list == g.list + items && g1.ctx == c && g1.stack == g.stack[1..]
  }

  lemma CasesTop(stack: seq<Entry>)
    requires stack != []
    ensures Cases(stack) == (if stack[0].kind.CaseEntry? then 1 else 0) + Cases(stack[1..])
  {
  }

  lemma OpenFacts(g: GState, kind: Construct)
    requires !kind.LoopEntry?
    ensures var g0 := Open(g, kind);
      && Cases(g0.stack) == (if kind.CaseEntry? then 1 else 0) + Cases(g.stack)
      && Solid(g0.stack) && FindLoop(g0.stack) == FindLoop(g.stack) && g0.stack[1..] == g.stack && g0.stack != []
  {
    CasesCons(Entry(kind, g.ctx.next, 0), g.stack);
    FindBelow(Entry(kind, g.ctx.next, 0), g.stack);
  }

  lemma IfStmtNests(s: Stmt, g: GState)
    requires s.If? && GenStmt(s, g).Good? && Cases(GenStmt(s, g).g.stack) == Cases(g.stack)
    ensures StmtIn(s, g).Some?
    ensures Adds(g, GenStmt(s, g).g, EmitStmt(StmtIn(s, g).value, g.ctx, FindLoop(g.stack)),
                 AfterStmt(StmtIn(s, g).value, g.ctx))
    decreases s, 3
  {
    hide EmitE, AfterE, FindLoop, Cases, NestClause, GenIf, EmitIf, AfterClause;
    var g0 := Open(Value(g, s.cond), IfEntry);
    OpenFacts(Value(g, s.cond), IfEntry);
    IfNests(s, g0);
    var p := If(s.cond, ClauseIn(s.thn, g).value, ClauseIn(s.els, g).value);
    Regroup(g.list, EmitE(s.cond, g.ctx), EmitIf(p, g0.stack[0].number, g0.ctx, FindLoop(g.stack)));
  }

  lemma IfNests(s: Stmt, g: GState)
    requires s.If? && GenIf(s, g).Good? && IsTop(g, IfEntry) && Cases(GenIf(s, g).g.stack) == Cases(g.stack)
    ensures ClauseIn(s.thn, g).Some? && ClauseIn(s.els, g).Some?
    ensures var p := If(s.cond, ClauseIn(s.thn, g).value, ClauseIn(s.els, g).value);
      Closes(g, GenIf(s, g).g, EmitIf(p, g.stack[0].number, g.ctx, FindLoop(g.stack)),
             AfterClause(p.els, AfterClause(p.thn, g.ctx)))
    decreases s, 2
  {
    hide FindLoop, Cases, GenThen, GenElse, EmitThen, EmitLast, AfterClause, Solid;
    var n := g.stack[0].number;
    if s.thn.Absent? {
      ElseNests(s.els, JumpTop(g, OP_JTRUE, "X"));
      AbsentNests(g);
      Regroup(g.list, [Jmp(OP_JTRUE, n, "X")], EmitLast(ClauseIn(s.els, g).value, n, g.ctx, FindLoop(g.stack)));
    } else {
      ThenNests(s, JumpTop(g, OP_JFALSE, "E"));
      var p := If(s.cond, ClauseIn(s.thn, g).value, ClauseIn(s.els, g).value);
      Regroup(g.list, [Jmp(OP_JFALSE, n, "E")], EmitThen(p, n, g.ctx, FindLoop(g.stack)));
    }
  }

  lemma AbsentNests(g: GState)
    ensures ClauseIn(Absent, g) == Some(Absent) && AfterClause(Absent, g.ctx) == g.ctx
  {
  }

  lemma ElseNests(els: Clause, g: GState)
    requires GenElse(els, g).Good? && IsTop(g, IfEntry) && Cases(GenElse(els, g).g.stack) == Cases(g.stack)
    ensures ClauseIn(els, g).Some? && (els.Absent? <==> ClauseIn(els, g).value.Absent?)
    ensures Closes(g, GenElse(els, g).g, EmitLast(ClauseIn(els, g).value, g.stack[0].number, g.ctx, FindLoop(g.stack)),
                   AfterClause(ClauseIn(els, g).value, g.ctx))
    decreases els, 1
  {
    hide FindLoop, Cases, GenClause, EmitClause, AfterClause, NestClause;
    var g1 := GenClause(els, g).g;
    CasesTop(g1.stack);
    ClauseNests(els, g);
    Regroup(g.list, EmitClause(ClauseIn(els, g).value, g.ctx, FindLoop(g.stack)), [Lbl(g.stack[0].number, "X")]);
  }

  lemma ThenNests(s: Stmt, g: GState)
    requires s.If? && s.thn.Clause? && GenThen(s, g).Good? && IsTop(g, IfEntry)
    requires Cases(GenThen(s, g).g.stack) == Cases(g.stack)
    ensures ClauseIn(s.thn, g).Some? && ClauseIn(s.els, g).Some? && ClauseIn(s.thn, g).value.Clause?
    ensures var p := If(s.cond, ClauseIn(s.thn, g).value, ClauseIn(s.els, g).value);
      Closes(g, GenThen(s, g).g, EmitThen(p, g.stack[0].number, g.ctx, FindLoop(g.stack)),
             AfterClause(p.els, AfterClause(p.thn, g.ctx)))
    decreases s, 1
  {
    hide FindLoop, Cases, GenClause, GenElse, EmitClause, EmitLast, AfterClause, NestClause;
    var n, g1 := g.stack[0].number, GenClause(s.thn, g).g;
    CasesTop(g1.stack);
    ClauseCases(s.thn, g);
    if s.els.Absent? {
      ClauseNests(s.thn, g);
      AbsentNests(g1);
      Regroup(g.list, EmitClause(ClauseIn(s.thn, g).value, g.ctx, FindLoop(g.stack)), [Lbl(n, "E")]);
    } else {
      var g2 := Define(JumpTop(g1, OP_JMP, "X"), TopLabel(g1, "E")).g;
      assert GenThen(s, g) == GenElse(s.els, g2);
      ElseCases(s.els, g2, Cases(g1.stack));
      ClauseNests(s.thn, g);
      ElseNests(s.els, g2);
      var t, e := ClauseIn(s.thn, g).value, ClauseIn(s.els, g).value;
      Append4Jump(g.list, EmitClause(t, g.ctx, FindLoop(g.stack)), [Jmp(OP_JMP, n, "X")], [Lbl(n, "E")],
                  EmitLast(e, n, g2.ctx, FindLoop(g.stack)));
    }
  }

  lemma Append4Jump<T>(p: seq<T>, a: seq<T>, b: seq<T>, c: seq<T>, d: seq<T>)
    ensures p + a + b + c + d == p + (a + (b + c + d))
  {
  }

  lemma CaseStmtNests(arms: Arms, g: GState)
    requires GenStmt(Case(arms), g).Good? && Cases(GenStmt(Case(arms), g).g.stack) == Cases(g.stack)
    ensures StmtIn(Case(arms), g).Some?
    ensures Adds(g, GenStmt(Case(arms), g).g, EmitStmt(StmtIn(Case(arms), g).value, g.ctx, FindLoop(g.stack)),
                 AfterStmt(StmtIn(Case(arms), g).value, g.ctx))
    decreases arms, 2
  {
    hide FindLoop, Cases, ArmsIn, GenElements, EmitArms, AfterArms, GenStmt, EmitStmt, AfterStmt, StmtIn, Close, Lbl;
    var g0 := Open(g, CaseEntry);
    OpenFacts(g, CaseEntry);
    CaseGen(arms, g);
    var g1 := GenElements(arms, g0).g;
    CloseFacts(g1, "X");
    ElementsCases(arms, g0);
    CasesTop(g1.stack);
    ElementsNest(arms, g0);
    ArmsSame(arms, g, g0);
    CaseEmit(ArmsIn(arms, g).value, g.ctx, FindLoop(g.stack));
    Regroup(g.list, EmitArms(ArmsIn(arms, g).value, g.ctx.next, g0.ctx, FindLoop(g.stack)), [Lbl(g.ctx.next, "X")]);
  }

  lemma CloseFacts(g: GState, suffix: string)
    requires Close(g, suffix).Good?
    ensures g.stack != []
    ensures Close(g, suffix).g == GState(g.list + [Lbl(g.stack[0].number, suffix)], g.stack[1..], g.ctx)
  {
  }

  lemma ArmsSame(arms: Arms, g: GState, g0: GState)
    requires FindLoop(g0.stack) == FindLoop(g.stack)
    ensures ArmsIn(arms, g0) == ArmsIn(arms, g)
    ensures StmtIn(Case(arms), g) == match ArmsIn(arms, g) case None => None case Some(a) => Some(Case(a))
  {
    hide NestArms, FindLoop;
  }

  lemma CaseGen(arms: Arms, g: GState)
    requires GenStmt(Case(arms), g).Good?
    ensures GenElements(arms, Open(g, CaseEntry)).Good?
    ensures GenStmt(Case(arms), g) == Close(GenElements(arms, Open(g, CaseEntry)).g, "X")
  {
    hide GenElements, Close;
  }

  lemma CaseEmit(arms: Arms, c: Ctx, lp: int)
    ensures EmitStmt(Case(arms), c, lp) == EmitArms(arms, c.next, Opened(c), lp) + [Lbl(c.next, "X")]
    ensures AfterStmt(Case(arms), c) == AfterArms(arms, Opened(c))
  {
    hide EmitArms, AfterArms, Lbl;
  }

  /** g1 is g after these elements: its top entry counts them. */
  predicate Counts(g: GState, g1: GState, items: seq<Item>, c: Ctx, k: nat) {
    g.stack != [] && g1.list == g.list + items && g1.ctx == c && g1.stack == [g.stack[0].(element := k)] + g.stack[1..]
  }

  /** Elements that leave a CASE on top, and no more of them than there were, left
      their own. */
  lemma {:induction false} ElementsNest(arms: Arms, g: GState)
    requires GenElements(arms, g).Good? && IsTop(g, CaseEntry) && g.stack[0].element == 0
    requires Cases(GenElements(arms, g).g.stack) == Cases(g.stack) && IsTop(GenElements(arms, g).g, CaseEntry)
    ensures ArmsIn(arms, g).Some? && Count(ArmsIn(arms, g).value) == Count(arms)
    ensures Counts(g, GenElements(arms, g).g,
                   EmitArms(ArmsIn(arms, g).value, g.stack[0].number, g.ctx, FindLoop(g.stack)),
                   AfterArms(ArmsIn(arms, g).value, g.ctx), Count(arms) + 1)
    decreases arms, 1
  {
    hide FindLoop, Cases, NestWhole, EmitArm, GenArm, NextArm;
    match arms
    case NoArms => FirstElement(g);
    case Arm(init, cond, body) =>
      ArmsSplit(init, cond, body, g);
      var g1 := GenElements(init, g).g;
      ArmCases(cond, body, g1);
      ElementsCases(init, g);
      ElementsNest(init, g);
      ArmNests(cond, body, g1);
      SameLoop(g, Count(init) + 1);
      Regroup(g.list, EmitArms(ArmsIn(init, g).value, g.stack[0].number, g.ctx, FindLoop(g.stack)),
              EmitArm(cond, WholeIn(body, g).value, g.stack[0].number, Count(init) + 1, g1.ctx, FindLoop(g.stack)));
  }

  lemma SameLoop(g: GState, k: nat)
    requires IsTop(g, CaseEntry)
    ensures FindLoop([g.stack[0].(element := k)] + g.stack[1..]) == FindLoop(g.stack)
  {
    FindBelow(g.stack[0].(element := k), g.stack[1..]);
  }

  lemma FirstElement(g: GState)
    requires g.stack != [] && g.stack[0].element == 0
    ensures NextArm(g).Good? && Counts(g, NextArm(g).g, [], g.ctx, 1)
  {
    assert g.list + [] == g.list;
  }

  lemma ArmsSplit(init: Arms, cond: Expr, body: Block, g: GState)
    requires GenElements(Arm(init, cond, body), g).Good?
    ensures GenElements(init, g).Good? && GenArm(cond, body, GenElements(init, g).g).Good?
    ensures GenElements(Arm(init, cond, body), g) == NextArm(GenArm(cond, body, GenElements(init, g).g).g)
  {
    hide GenArm, NextArm;
  }

  lemma ArmCases(cond: Expr, body: Block, g: GState)
    requires GenArm(cond, body, g).Good? && NextArm(GenArm(cond, body, g).g).Good?
    ensures IsTop(g, CaseEntry) && Cases(NextArm(GenArm(cond, body, g).g).g.stack) >= Cases(g.stack)
    ensures IsTop(NextArm(GenArm(cond, body, g).g).g, CaseEntry) ==> IsTop(GenArm(cond, body, g).g, CaseEntry)
    ensures Cases(NextArm(GenArm(cond, body, g).g).g.stack) == Cases(GenArm(cond, body, g).g.stack)
  {
    hide Cases, NextArm, GenBlock, EmitE, AfterE;
    BlockCases(body, JumpTop(Value(g, cond), OP_JFALSE, CaseSuffix(g.stack[0].element)));
    NextArmCases(GenArm(cond, body, g).g);
  }

  lemma ArmNests(cond: Expr, body: Block, g: GState)
    requires IsTop(g, CaseEntry) && g.stack[0].element > 0
    requires GenArm(cond, body, g).Good? && NextArm(GenArm(cond, body, g).g).Good?
    requires var g1 := NextArm(GenArm(cond, body, g).g).g; Cases(g1.stack) == Cases(g.stack) && IsTop(g1, CaseEntry)
    ensures WholeIn(body, g).Some?
    ensures var k := g.stack[0].element;
      Counts(g, NextArm(GenArm(cond, body, g).g).g,
             EmitArm(cond, WholeIn(body, g).value, g.stack[0].number, k, g.ctx, FindLoop(g.stack)),
             AfterBlock(WholeIn(body, g).value, AfterE(cond, g.ctx)), k + 1)
    decreases body, 2
  {
    hide FindLoop, Cases, WholeIn, EmitE, AfterE, EmitBlock, AfterBlock, GenBlock, NextArm, Jmp, Lbl;
    var n, k, lp := g.stack[0].number, g.stack[0].element, FindLoop(g.stack);
    ArmCases(cond, body, g);
    var g0 := JumpTop(Value(g, cond), OP_JFALSE, CaseSuffix(k));
    JumpFacts(Value(g, cond), OP_JFALSE, CaseSuffix(k));
    WholeNests(body, g0);
    WholeSame(body, g, g0);
    var g1 := GenArm(cond, body, g).g;
    NextArmFacts(g1);
    Append6(g.list, EmitE(cond, g.ctx), [Jmp(OP_JFALSE, n, CaseSuffix(k))],
            EmitBlock(WholeIn(body, g).value, g0.ctx, lp),
            [Jmp(OP_JMP, n, "X")], [Lbl(n, CaseSuffix(k))]);
  }

  lemma JumpFacts(g: GState, op: int, suffix: string)
    requires g.stack != []
    ensures JumpTop(g, op, suffix) == GState(g.list + [Jmp(op, g.stack[0].number, suffix)], g.stack, g.ctx)
  {
  }

  lemma WholeSame(b: Block, g: GState, g0: GState)
    requires FindLoop(g0.stack) == FindLoop(g.stack)
    ensures WholeIn(b, g0) == WholeIn(b, g)
  {
    hide NestWhole, FindLoop;
  }

  lemma NextArmFacts(g: GState)
    requires NextArm(g).Good? && g.stack != [] && g.stack[0].element > 0
    ensures var e := g.stack[0];
      NextArm(g).g == GState(g.list + [Jmp(OP_JMP, e.number, "X")] + [Lbl(e.number, CaseSuffix(e.element))],
                             [e.(element := e.element + 1)] + g.stack[1..], g.ctx)
  {
  }

  lemma Append6<T>(p: seq<T>, a: seq<T>, b: seq<T>, c: seq<T>, d: seq<T>, e: seq<T>)
    ensures p + a + b + c + d + e == p + (a + b + c + d + e)
  {
  }

  lemma FileStmtNests(s: Stmt, g: GState)
    requires s.File? && GenStmt(s, g).Good? && Cases(GenStmt(s, g).g.stack) == Cases(g.stack)
    ensures StmtIn(s, g).Some?
    ensures Adds(g, GenStmt(s, g).g, EmitStmt(StmtIn(s, g).value, g.ctx, FindLoop(g.stack)),
                 AfterStmt(StmtIn(s, g).value, g.ctx))
    decreases s, 3
  {
    hide EmitArgs, AfterArgs, FindLoop, Cases, NestClause, GenFile, EmitFile, AfterClause;
    OpenFacts(Operands(s.args, g), BackEndEntry);
    FileNests(s, Open(Operands(s.args, g), BackEndEntry));
    var g0 := Operands(s.args, g);
    var p := File(s.call, s.args, ClauseIn(s.onError, g).value, ClauseIn(s.locked, g).value, ClauseIn(s.thn, g).value,
                  ClauseIn(s.els, g).value);
    Regroup(g.list, EmitArgs(s.args, g.ctx), EmitFile(p, g0.ctx.next, Opened(g0.ctx), FindLoop(g.stack)));
  }

  /** The clauses of a file operation; its entry is on top and its operands are loaded. */
  lemma FileNests(s: Stmt, g: GState)
    requires s.File? && IsTop(g, BackEndEntry) && GenFile(s, Put(g, LockCode(s.call))).Good?
    requires Cases(GenFile(s, Put(g, LockCode(s.call))).g.stack) == Cases(g.stack)
    ensures ClauseIn(s.onError, g).Some? && ClauseIn(s.locked, g).Some?
    ensures ClauseIn(s.thn, g).Some? && ClauseIn(s.els, g).Some?
    ensures var p := File(s.call, s.args, ClauseIn(s.onError, g).value, ClauseIn(s.locked, g).value,
                          ClauseIn(s.thn, g).value, ClauseIn(s.els, g).value);
      Closes(g, GenFile(s, Put(g, LockCode(s.call))).g, EmitFile(p, g.stack[0].number, g.ctx, FindLoop(g.stack)),
             AfterClause(p.els, AfterClause(p.thn, AfterClause(p.locked, AfterClause(p.onError, g.ctx)))))
    decreases s, 2
  {
    hide FindLoop, Cases, NestClause, GenCall, GenLocked, GenChoice, EmitCall, EmitLocked, EmitChoice, AfterClause;
    var n, lp, g0 := g.stack[0].number, FindLoop(g.stack), Put(g, LockCode(s.call));
    var g1 := GenCall(s.call, s.onError, g0).g;
    var g2 := GenLocked(s.call, s.locked, |g0.list| - 1, g1).g;
    CallCases(s.call, s.onError, g0, Cases(g.stack));
    LockedCases(s.call, s.locked, |g0.list| - 1, g1, Cases(g1.stack));
    ChoiceCases(s, g2, Cases(g2.stack));
    CallNests(s.call, s.onError, g0);
    LockedNests(s.call, s.locked, g, g1, EmitCall(s.call, ClauseIn(s.onError, g).value, n, g.ctx, lp));
    ChoiceNests(s, ClauseIn(s.onError, g).value, ClauseIn(s.locked, g).value, g2);
    var o, l := ClauseIn(s.onError, g).value, ClauseIn(s.locked, g).value;
    var p := File(s.call, s.args, o, l, ClauseIn(s.thn, g).value, ClauseIn(s.els, g).value);
    Append5(g.list, EmitLock(s.call, l), EmitCall(s.call, o, n, g.ctx, lp), EmitLocked(l, n, g1.ctx, lp),
            EmitChoice(p, n, g2.ctx, lp));
  }

  lemma Append5<T>(p: seq<T>, a: seq<T>, b: seq<T>, c: seq<T>, d: seq<T>)
    ensures p + a + b + c + d == p + (a + b + c + d)
  {
  }

  lemma AsideNests(op: int, k: Clause, suffix: string, g: GState)
    requires IsTop(g, BackEndEntry)
    requires GenAside(k, suffix, Put(JumpTop(g, op, suffix), [Op(OP_POP)])).Good?
    requires Cases(GenAside(k, suffix, Put(JumpTop(g, op, suffix), [Op(OP_POP)])).g.stack) == Cases(g.stack)
    ensures ClauseIn(k, g).Some? && (k.Absent? <==> ClauseIn(k, g).value.Absent?)
    ensures Adds(g, GenAside(k, suffix, Put(JumpTop(g, op, suffix), [Op(OP_POP)])).g,
                 EmitAside(op, ClauseIn(k, g).value, suffix, g.stack[0].number, g.ctx, FindLoop(g.stack)),
                 AfterClause(ClauseIn(k, g).value, g.ctx))
    decreases k, 1
  {
    hide FindLoop, Cases, GenClause, EmitClause, AfterClause, NestClause;
    var n, g0 := g.stack[0].number, Put(JumpTop(g, op, suffix), [Op(OP_POP)]);
    ClauseNests(k, g0);
    Append6(g.list, [Jmp(op, n, suffix)], [Op(OP_POP)], EmitClause(ClauseIn(k, g).value, g.ctx, FindLoop(g.stack)),
            [Jmp(OP_JMP, n, "X")], [Lbl(n, suffix)]);
  }

  lemma CallNests(call: Call, onError: Clause, g: GState)
    requires GenCall(call, onError, g).Good? && IsTop(g, BackEndEntry)
    requires Cases(GenCall(call, onError, g).g.stack) == Cases(g.stack)
    ensures ClauseIn(onError, g).Some?
    ensures Adds(g, GenCall(call, onError, g).g,
                 EmitCall(call, ClauseIn(onError, g).value, g.stack[0].number, g.ctx, FindLoop(g.stack)),
                 AfterClause(ClauseIn(onError, g).value, g.ctx))
    decreases onError, 2
  {
    hide FindLoop, Cases, GenAside, EmitAside, AfterClause, NestClause;
    if onError.Absent? {
      AbsentNests(g);
    } else {
      var start := [Op(OP_ONERROR)] + [Op(call.op)] + [Op(OP_DUP)];
      AsideNests(OP_JPZ, onError, "A", Put(g, start));
      Regroup(g.list, start,
              EmitAside(OP_JPZ, ClauseIn(onError, g).value, "A", g.stack[0].number, g.ctx, FindLoop(g.stack)));
    }
  }

  /** LOCKED replaces the NULL: the code is as if NOWAIT had been emitted there. */
  lemma LockedNests(call: Call, locked: Clause, g: GState, g1: GState, items: seq<Item>)
    requires IsTop(g, BackEndEntry) && g1.stack == g.stack && g1.list == g.list + LockCode(call) + items
    requires GenLocked(call, locked, |g.list + LockCode(call)| - 1, g1).Good?
    requires Cases(GenLocked(call, locked, |g.list + LockCode(call)| - 1, g1).g.stack) == Cases(g.stack)
    ensures ClauseIn(locked, g).Some?
    ensures var l, g2 := ClauseIn(locked, g).value, GenLocked(call, locked, |g.list + LockCode(call)| - 1, g1).g;
      && g2.list == g.list + EmitLock(call, l) + items + EmitLocked(l, g.stack[0].number, g1.ctx, FindLoop(g.stack))
      && g2.ctx == AfterClause(l, g1.ctx) && g2.stack == g.stack
    decreases locked, 2
  {
    hide FindLoop, Cases, GenAside, EmitAside, AfterClause, NestClause;
    if locked.Absent? {
      AbsentNests(g1);
      assert g1.list + [] == g1.list;
    } else {
      var test := [Op(OP_DUP)] + [I(NumberLoad(ER_LCK))] + [Op(OP_EQ)];
      var n, lp, t := g.stack[0].number, FindLoop(g.stack), |g.list + LockCode(call)| - 1;
      var patched := g1.(list := g1.list[t := Op(OP_NOWAIT)]);
      AsideNests(OP_JZE, locked, "B", Put(patched, test));
      var aside := EmitAside(OP_JZE, ClauseIn(locked, g).value, "B", n, g1.ctx, lp);
      PatchedList(call, g.list, items);
      Regroup(patched.list, test, aside);
    }
  }

  lemma PatchedList(call: Call, list: seq<Item>, items: seq<Item>)
    requires call.canLock
    ensures (list + LockCode(call) + items)[|list + LockCode(call)| - 1 := Op(OP_NOWAIT)]
         == list + ((if call.lock > 0 then [Op(call.lock)] else []) + [Op(OP_NOWAIT)]) + items
  {
  }

  /** o and l: what the clauses before have become. */
  lemma ChoiceNests(s: Stmt, o: Clause, l: Clause, g: GState)
    requires s.File? && GenChoice(s, g).Good? && IsTop(g, BackEndEntry)
    requires Cases(GenChoice(s, g).g.stack) == Cases(g.stack)
    ensures ClauseIn(s.thn, g).Some? && ClauseIn(s.els, g).Some?
    ensures var p := File(s.call, s.args, o, l, ClauseIn(s.thn, g).value, ClauseIn(s.els, g).value);
      Closes(g, GenChoice(s, g).g, EmitChoice(p, g.stack[0].number, g.ctx, FindLoop(g.stack)),
             AfterClause(p.els, AfterClause(p.thn, g.ctx)))
    decreases s, 1
  {
    hide FindLoop, Cases, GenOther, GenSuccess, EmitSuccess, EmitLast, AfterClause, NestClause;
    var n := g.stack[0].number;
    if !s.call.thenElse {
      AbsentNests(g);
      assert g.list + [Op(OP_POP)] + [Lbl(n, "X")] == g.list + ([Op(OP_POP)] + [Lbl(n, "X")]);
    } else if s.thn.Absent? {
      OtherNests(s.els, JumpTop(g, OP_JZE, "X"));
      AbsentNests(g);
      Regroup(g.list, [Jmp(OP_JZE, n, "X")], EmitLast(ClauseIn(s.els, g).value, n, g.ctx, FindLoop(g.stack)));
    } else {
      SuccessNests(s, o, l, JumpTop(g, OP_JNZ, "E"));
      var p := File(s.call, s.args, o, l, ClauseIn(s.thn, g).value, ClauseIn(s.els, g).value);
      Regroup(g.list, [Jmp(OP_JNZ, n, "E")], EmitSuccess(p, n, g.ctx, FindLoop(g.stack)));
    }
  }

  lemma OtherNests(els: Clause, g: GState)
    requires GenOther(els, g).Good? && IsTop(g, BackEndEntry) && Cases(GenOther(els, g).g.stack) == Cases(g.stack)
    ensures ClauseIn(els, g).Some? && (els.Absent? <==> ClauseIn(els, g).value.Absent?)
    ensures Closes(g, GenOther(els, g).g, EmitLast(ClauseIn(els, g).value, g.stack[0].number, g.ctx, FindLoop(g.stack)),
                   AfterClause(ClauseIn(els, g).value, g.ctx))
    decreases els, 1
  {
    hide FindLoop, Cases, GenClause, EmitClause, AfterClause, NestClause;
    var g1 := GenClause(els, g).g;
    CasesTop(g1.stack);
    ClauseNests(els, g);
    Regroup(g.list, EmitClause(ClauseIn(els, g).value, g.ctx, FindLoop(g.stack)), [Lbl(g.stack[0].number, "X")]);
  }

  lemma SuccessNests(s: Stmt, o: Clause, l: Clause, g: GState)
    requires s.File? && s.thn.Clause? && GenSuccess(s, g).Good? && IsTop(g, BackEndEntry)
    requires Cases(GenSuccess(s, g).g.stack) == Cases(g.stack)
    ensures ClauseIn(s.thn, g).Some? && ClauseIn(s.els, g).Some? && ClauseIn(s.thn, g).value.Clause?
    ensures var p := File(s.call, s.args, o, l, ClauseIn(s.thn, g).value, ClauseIn(s.els, g).value);
      Closes(g, GenSuccess(s, g).g, EmitSuccess(p, g.stack[0].number, g.ctx, FindLoop(g.stack)),
             AfterClause(p.els, AfterClause(p.thn, g.ctx)))
    decreases s, 0
  {
    hide FindLoop, Cases, GenClause, GenOther, EmitClause, EmitLast, AfterClause, NestClause;
    var n, g1 := g.stack[0].number, GenClause(s.thn, g).g;
    CasesTop(g1.stack);
    ClauseCases(s.thn, g);
    if s.els.Absent? {
      ClauseNests(s.thn, g);
      AbsentNests(g1);
      Append2(g.list, EmitClause(ClauseIn(s.thn, g).value, g.ctx, FindLoop(g.stack)), [Lbl(n, "E")], [Lbl(n, "X")]);
    } else {
      var g2 := Define(JumpTop(g1, OP_JMP, "X"), TopLabel(g1, "E")).g;
      assert GenSuccess(s, g) == GenOther(s.els, g2);
      OtherCases(s.els, g2, Cases(g1.stack));
      ClauseNests(s.thn, g);
      OtherNests(s.els, g2);
      var t, e := ClauseIn(s.thn, g).value, ClauseIn(s.els, g).value;
      Append4Jump(g.list, EmitClause(t, g.ctx, FindLoop(g.stack)), [Jmp(OP_JMP, n, "X")], [Lbl(n, "E")],
                  EmitLast(e, n, g2.ctx, FindLoop(g.stack)));
    }
  }

  lemma Append2<T>(p: seq<T>, a: seq<T>, b: seq<T>, c: seq<T>)
    ensures p + a + b + c == p + (a + (b + c))
  {
  }

  /** A compile that starts and ends with no open construct compiled a properly nested
      program, and emitted that program's code. */
  lemma AcceptedIsNested(b: Block, g: GState)
    requires g.stack == [] && GenBlock(b, g).Good? && GenBlock(b, g).g.stack == []
    ensures WholeIn(b, g).Some?
    ensures GenBlock(b, g).g.list == g.list + EmitBlock(WholeIn(b, g).value, g.ctx, -1)
    ensures GenBlock(b, g).g.ctx == AfterBlock(WholeIn(b, g).value, g.ctx)
  {
    hide GenBlock, NestWhole, EmitBlock, AfterBlock;
    WholeNests(b, g);
  }
}
