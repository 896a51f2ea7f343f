/** A GOTO enters the code in the midst of blocks, clauses and loops, and the code goes on
    from there as the program does. */
module Entries {
  import opened Isa
  import opened Listing
  import opened Syntax
  import opened Programs
  import opened Storages
  import opened Names
  import opened Generate
  import opened ConstructStack
  import opened Structure
  import opened Machines
  import opened Meanings
  import opened Runs
  import opened StatementRuns

  /** The machine has just gone to a label. */
  ghost predicate Enters(p: Prog, m: Machine, name: string, env: Env, w: int) {
    Begins(p, m, Spot(p.list, name), env, w)
  }

  lemma {:induction false} EnterBlockRun(p: Prog, a: Around, inLoop: bool, f: nat, b: Block, name: string, c: Ctx,
                                         k: nat, m: Machine, env: Env, w: int)
    returns (n: nat, m1: Machine)
    requires Assembled(p) && Placed(p, k, EmitBlock(b, c, a.lp)) && Enters(p, m, name, env, w)
    requires Extends(AfterBlock(b, c).vars, p.vars) && GoodBlock(b, inLoop) && Encloses(p, a, inLoop)
    requires name in BlockLabs(b).marks
    ensures Ended(p, a, f, k + |EmitBlock(b, c, a.lp)|, m, n, m1, EnterBlock(p.rt, b, name, f, env, w))
    decreases f, b, 0
  {
    hide Assembled, Placed, Enters, Extends, EmitStmt, AfterStmt, EnterStmt, Encloses, NestedStmt, FormedStmt, Ended,
         StmtLabs, ThenStmt;
    var init, last := b.init, b.last;
    var c1, j := AfterBlock(init, c), k + |EmitBlock(init, c, a.lp)|;
    PlacedSplit(p, k, EmitBlock(init, c, a.lp), EmitStmt(last, c1, a.lp));
    StmtExtends(last, c1);
    ExtendsTrans(c1.vars, AfterStmt(last, c1).vars, p.vars);
    if name in BlockLabs(init).marks {
      n, m1 := EnterBlockRun(p, a, inLoop, f, init, name, c, k, m, env, w);
      n, m1 := ThenRun(p, a, inLoop, f, last, c1, j, m, n, m1, EnterBlock(p.rt, init, name, f, env, w));
    } else {
      n, m1 := EnterStmtRun(p, a, inLoop, f, last, name, c1, j, m, env, w);
    }
  }

  lemma EnterClauseRun(p: Prog, a: Around, inLoop: bool, f: nat, x: Clause, name: string, c: Ctx, k: nat, m: Machine,
                       env: Env, w: int)
    returns (n: nat, m1: Machine)
    requires Assembled(p) && Placed(p, k, EmitClause(x, c, a.lp)) && Enters(p, m, name, env, w)
    requires Extends(AfterClause(x, c).vars, p.vars) && GoodClause(x, inLoop) && Encloses(p, a, inLoop)
    requires name in ClauseLabs(x).marks
    ensures Ended(p, a, f, k + |EmitClause(x, c, a.lp)|, m, n, m1, EnterClause(p.rt, x, name, f, env, w))
    decreases f, x, 0
  {
    hide Assembled, Placed, Enters, Extends, EmitBlock, AfterBlock, EnterBlock, Encloses, NestedBlock, FormedBlock,
         Ended, BlockLabs;
    n, m1 := EnterBlockRun(p, a, inLoop, f, x.body, name, c, k, m, env, w);
  }

  lemma EnterStmtRun(p: Prog, a: Around, inLoop: bool, f: nat, s: Stmt, name: string, c: Ctx, k: nat, m: Machine,
                     env: Env, w: int)
    returns (n: nat, m1: Machine)
    requires Assembled(p) && Placed(p, k, EmitStmt(s, c, a.lp)) && Enters(p, m, name, env, w)
    requires Extends(AfterStmt(s, c).vars, p.vars) && GoodStmt(s, inLoop) && Encloses(p, a, inLoop)
    requires name in StmtLabs(s).marks
    ensures Ended(p, a, f, k + |EmitStmt(s, c, a.lp)|, m, n, m1, EnterStmt(p.rt, s, name, f, env, w))
    decreases f, s, 4
  {
    hide Assembled, Placed, Enters, Extends, EmitStmt, AfterStmt, EnterStmt, Encloses, FormedStmt, NestedStmt, Ended,
         BlockLabs, ClauseLabs, ArmsLabs;
    match s {
      case Loop(body) => n, m1 := EnterLoopRun(p, a, inLoop, f, body, name, c, k, m, env, w);
      case If(_, _, _) => n, m1 := EnterIfRun(p, a, inLoop, f, s, name, c, k, m, env, w);
      case Case(arms) => n, m1 := EnterCaseRun(p, a, inLoop, f, arms, name, c, k, m, env, w);
      case File(_, _, _, _, _, _) => n, m1 := EnterFileRun(p, a, inLoop, f, s, name, c, k, m, env, w);
      case LabelMark(_) => n, m1 := EnterMark(p, a, f, name, c, k, m, env, w);
      case _ =>
    }
  }

  /** The label itself */
  lemma EnterMark(p: Prog, a: Around, f: nat, name: string, c: Ctx, k: nat, m: Machine, env: Env, w: int)
    returns (n: nat, m1: Machine)
    requires Assembled(p) && Placed(p, k, EmitStmt(LabelMark(name), c, a.lp)) && Enters(p, m, name, env, w)
    ensures Ended(p, a, f, k + |EmitStmt(LabelMark(name), c, a.lp)|, m, n, m1,
                  EnterStmt(p.rt, LabelMark(name), name, f, env, w))
  {
    hide Assembled, Placed, Begins, Pc, Run, Ended, Spot;
    PlacedOne(p, k, D(name));
    LabelHere(p, k);
    HereIs(p, name, k);
    Stays(p, a, f, k, m, env, w);
    Moved(p, a, f, k, m, 0, m, Done(Normal, env, w), k + 1);
    n, m1 := 0, m;
  }

  lemma HereIs(p: Prog, name: string, k: nat)
    requires Assembled(p) && k < |p.list| && p.list[k] == D(name)
    ensures Spot(p.list, name) == k
  {
    SpotIs(p.list, name, k);
  }

  /** The round that is entered, and the loop after it */
  lemma EnterLoopRun(p: Prog, a: Around, inLoop: bool, f: nat, body: Block, name: string, c: Ctx, k: nat, m: Machine,
                     env: Env, w: int)
    returns (n: nat, m1: Machine)
    requires Assembled(p) && Placed(p, k, EmitStmt(Loop(body), c, a.lp)) && Enters(p, m, name, env, w)
    requires Extends(AfterStmt(Loop(body), c).vars, p.vars) && GoodStmt(Loop(body), inLoop)
    requires name in BlockLabs(body).marks
    ensures Ended(p, a, f, k + |EmitStmt(Loop(body), c, a.lp)|, m, n, m1,
                  EnterStmt(p.rt, Loop(body), name, f, env, w))
    decreases f, body, 3
  {
    hide Assembled, Placed, Enters, Extends, EmitBlock, AfterBlock, EnterBlock, Encloses, Ended, EmitStmt, ExecStmt,
         AfterRound, AfterStmt, GoodStmt, GoodBlock, BlockLabs;
    LoopPlaced(p, body, c, a.lp, k);
    LoopFacts(p.rt, body, inLoop, c, f, env, w);
    var x := k + 1 + |EmitBlock(body, Opened(c), c.next)| + 1;
    n, m1 := EnterBlockRun(p, Around(c.next, k, x), true, f, body, name, Opened(c), k + 1, m, env, w);
    n, m1 := RoundRun(p, a, inLoop, f, f, body, c, k, m, n, m1, EnterBlock(p.rt, body, name, f, env, w));
  }

  /** The last clause of a statement */
  lemma EnterLastRun(p: Prog, a: Around, inLoop: bool, f: nat, x: Clause, name: string, l: nat, c: Ctx, k: nat,
                     m: Machine, env: Env, w: int)
    returns (n: nat, m1: Machine)
    requires Assembled(p) && Placed(p, k, EmitLast(x, l, c, a.lp)) && Enters(p, m, name, env, w)
    requires Extends(AfterClause(x, c).vars, p.vars) && GoodClause(x, inLoop) && Encloses(p, a, inLoop)
    requires name in ClauseLabs(x).marks
    ensures Ended(p, a, f, k + |EmitLast(x, l, c, a.lp)|, m, n, m1, EnterClause(p.rt, x, name, f, env, w))
    decreases f, x, 1
  {
    hide Assembled, Placed, Enters, Extends, Pc, EmitClause, AfterClause, EnterClause, Encloses, GoodClause, Ended,
         ClauseLabs;
    var j := k + |EmitClause(x, c, a.lp)|;
    PlacedSplit(p, k, EmitClause(x, c, a.lp), [Lbl(l, "X")]);
    PlacedOne(p, j, Lbl(l, "X"));
    LabelHere(p, j);
    n, m1 := EnterClauseRun(p, a, inLoop, f, x, name, c, k, m, env, w);
    Moved(p, a, f, j, m, n, m1, EnterClause(p.rt, x, name, f, env, w), j + 1);
  }

  /** The tables between the clauses of an IF */
  lemma IfExtends(s: Stmt, c: Ctx, st: Storage)
    requires s.If? && Extends(AfterStmt(s, c).vars, st)
    ensures var c1 := Opened(AfterE(s.cond, c)); var c2 := AfterClause(s.thn, c1);
      Extends(c2.vars, st) && Extends(AfterClause(s.els, c2).vars, st)
  {
    hide Extends, AfterE, AfterClause;
    var c1 := Opened(AfterE(s.cond, c));
    ClauseExtends(s.els, AfterClause(s.thn, c1));
    ExtendsTrans(AfterClause(s.thn, c1).vars, AfterStmt(s, c).vars, st);
  }

  lemma EnterIfRun(p: Prog, a: Around, inLoop: bool, f: nat, s: Stmt, name: string, c: Ctx, k: nat, m: Machine,
                   env: Env, w: int)
    returns (n: nat, m1: Machine)
    requires s.If? && Assembled(p) && Placed(p, k, EmitStmt(s, c, a.lp)) && Enters(p, m, name, env, w)
    requires Extends(AfterStmt(s, c).vars, p.vars) && GoodStmt(s, inLoop) && Encloses(p, a, inLoop)
    requires name in StmtLabs(s).marks
    ensures Ended(p, a, f, k + |EmitStmt(s, c, a.lp)|, m, n, m1, EnterStmt(p.rt, s, name, f, env, w))
    decreases f, s, 3
  {
    hide Assembled, Placed, Enters, Extends, EmitE, AfterE, EmitIf, AfterClause, EnterClause, Encloses, NestedClause,
         FormedClause, FormedExpr, Ended, ClauseLabs;
    var c1 := AfterE(s.cond, c);
    PlacedSplit(p, k, EmitE(s.cond, c), EmitIf(s, c1.next, Opened(c1), a.lp));
    IfExtends(s, c, p.vars);
    n, m1 := EnterBranchRun(p, a, inLoop, f, s, name, c1.next, Opened(c1), k + |EmitE(s.cond, c)|, m, env, w);
  }

  /** After the condition of an IF */
  lemma EnterBranchRun(p: Prog, a: Around, inLoop: bool, f: nat, s: Stmt, name: string, l: nat, c: Ctx, k: nat,
                       m: Machine, env: Env, w: int)
    returns (n: nat, m1: Machine)
    requires s.If? && Assembled(p) && Placed(p, k, EmitIf(s, l, c, a.lp)) && Enters(p, m, name, env, w)
    requires Extends(AfterClause(s.thn, c).vars, p.vars)
    requires Extends(AfterClause(s.els, AfterClause(s.thn, c)).vars, p.vars)
    requires GoodClause(s.thn, inLoop) && GoodClause(s.els, inLoop) && Encloses(p, a, inLoop)
    requires name in ClauseLabs(s.thn).marks || name in ClauseLabs(s.els).marks
    ensures Ended(p, a, f, k + |EmitIf(s, l, c, a.lp)|, m, n, m1,
                  EnterClause(p.rt, if name in ClauseLabs(s.thn).marks then s.thn else s.els, name, f, env, w))
    decreases f, s, 2
  {
    hide Assembled, Placed, Enters, Extends, EmitIf, EmitLast, EmitThen, EmitClause, AfterClause, EnterClause,
         Encloses, GoodClause, Ended, ClauseLabs;
    NoMarks(s.thn, name);
    NoMarks(s.els, name);
    BranchPlaced(p, s, l, c, a.lp, k);
    if s.thn.Absent? {
      NoClause(p.rt, s.thn, c, f, env, w);
      n, m1 := EnterLastRun(p, a, inLoop, f, s.els, name, l, c, k + 1, m, env, w);
    } else {
      var e, x := ThenPlaced(p, s, l, c, a.lp, k + 1);
      n, m1 := EnterEither(p, a, inLoop, f, s, s.thn, s.els, name, l, c, k + 1, e, x, m, env, w);
    }
  }

  lemma BranchPlaced(p: Prog, s: Stmt, l: nat, c: Ctx, lp: int, k: nat)
    requires s.If? && Placed(p, k, EmitIf(s, l, c, lp))
    ensures s.thn.Absent? ==>
              Placed(p, k + 1, EmitLast(s.els, l, c, lp)) && |EmitIf(s, l, c, lp)| == 1 + |EmitLast(s.els, l, c, lp)|
    ensures s.thn.Clause? ==>
              Placed(p, k + 1, EmitThen(s, l, c, lp)) && |EmitIf(s, l, c, lp)| == 1 + |EmitThen(s, l, c, lp)|
  {
    hide Placed, EmitLast, EmitThen;
    if s.thn.Absent? {
      PlacedSplit(p, k, [Jmp(OP_JTRUE, l, "X")], EmitLast(s.els, l, c, lp));
    } else {
      PlacedSplit(p, k, [Jmp(OP_JFALSE, l, "E")], EmitThen(s, l, c, lp));
    }
  }

  lemma NoMarks(x: Clause, name: string)
    ensures x.Absent? ==> name !in ClauseLabs(x).marks
  {
  }

  /** THEN, or the ELSE behind it, of a statement whose code ends at x */
  lemma EnterEither(p: Prog, a: Around, inLoop: bool, f: nat, s: Stmt, thn: Clause, els: Clause, name: string, l: nat,
                    c: Ctx, k: nat, e: nat, x: nat, m: Machine, env: Env, w: int)
    returns (n: nat, m1: Machine)
    requires Assembled(p) && Placed(p, k, EmitClause(thn, c, a.lp)) && Enters(p, m, name, env, w)
    requires thn < s && els < s && e < |p.list| && p.list[e] == D(LabelName(l, "E"))
    requires var j, c1 := k + |EmitClause(thn, c, a.lp)|, AfterClause(thn, c);
      && (els.Absent? ==> e == j && x == j + 1)
      && (els.Clause? ==>
          && e == j + 1 && x == j + 2 + |EmitLast(els, l, c1, a.lp)| && Placed(p, j + 2, EmitLast(els, l, c1, a.lp))
          && p.list[j] == I(Jump(OP_JMP, LabelName(l, "X"))) && x - 1 < |p.list|
          && p.list[x - 1] == D(LabelName(l, "X")))
      && Extends(c1.vars, p.vars) && Extends(AfterClause(els, c1).vars, p.vars)
    requires GoodClause(thn, inLoop) && GoodClause(els, inLoop) && Encloses(p, a, inLoop)
    requires name in ClauseLabs(thn).marks || name in ClauseLabs(els).marks
    ensures Ended(p, a, f, x, m, n, m1,
                  EnterClause(p.rt, if name in ClauseLabs(thn).marks then thn else els, name, f, env, w))
    decreases f, s, 1
  {
    hide Assembled, Placed, Enters, Extends, EmitLast, EmitClause, AfterClause, EnterClause, Encloses, GoodClause,
         Ended, ClauseLabs;
    var j, c1 := k + |EmitClause(thn, c, a.lp)|, AfterClause(thn, c);
    NoMarks(els, name);
    if name in ClauseLabs(thn).marks {
      n, m1 := EnterClauseRun(p, a, inLoop, f, thn, name, c, k, m, env, w);
      n, m1 := Turned(p, a, f, els, l, c1, j, e, x, m, n, m1, EnterClause(p.rt, thn, name, f, env, w));
    } else {
      n, m1 := EnterLastRun(p, a, inLoop, f, els, name, l, c1, j + 2, m, env, w);
    }
  }

  lemma EnterCaseRun(p: Prog, a: Around, inLoop: bool, f: nat, arms: Arms, name: string, c: Ctx, k: nat, m: Machine,
                     env: Env, w: int)
    returns (n: nat, m1: Machine)
    requires Assembled(p) && Placed(p, k, EmitStmt(Case(arms), c, a.lp)) && Enters(p, m, name, env, w)
    requires Extends(AfterStmt(Case(arms), c).vars, p.vars) && GoodStmt(Case(arms), inLoop) && Encloses(p, a, inLoop)
    requires name in ArmsLabs(arms).marks
    ensures Ended(p, a, f, k + |EmitStmt(Case(arms), c, a.lp)|, m, n, m1,
                  EnterStmt(p.rt, Case(arms), name, f, env, w))
    decreases f, arms, 2
  {
    hide Assembled, Placed, Enters, Extends, Pc, EmitArms, AfterArms, EnterArms, Encloses, NestedArms, FormedArms,
         Ended, ArmsLabs;
    var x := k + |EmitArms(arms, c.next, Opened(c), a.lp)|;
    PlacedSplit(p, k, EmitArms(arms, c.next, Opened(c), a.lp), [Lbl(c.next, "X")]);
    PlacedOne(p, x, Lbl(c.next, "X"));
    LabelHere(p, x);
    n, m1 := EnterArmsRun(p, a, inLoop, f, arms, name, c.next, Opened(c), k, x, m, env, w);
    Moved(p, a, f, x, m, n, m1, EnterArms(p.rt, arms, name, f, env, w), x + 1);
  }

  lemma {:induction false} EnterArmsRun(p: Prog, a: Around, inLoop: bool, f: nat, arms: Arms, name: string, l: nat,
                                        c: Ctx, k: nat, x: nat, m: Machine, env: Env, w: int)
    returns (n: nat, m1: Machine)
    requires Assembled(p) && Placed(p, k, EmitArms(arms, l, c, a.lp)) && Enters(p, m, name, env, w)
    requires x < |p.list| && p.list[x] == D(LabelName(l, "X"))
    requires Extends(AfterArms(arms, c).vars, p.vars) && Encloses(p, a, inLoop)
    requires NestedArms(arms, inLoop) && FormedArms(arms) && name in ArmsLabs(arms).marks
    ensures Ended(p, a, f, x, m, n, m1, EnterArms(p.rt, arms, name, f, env, w))
    decreases f, arms, 1
  {
    hide Assembled, Placed, Enters, Extends, EmitArm, EnterBlock, Encloses, NestedBlock, FormedBlock, FormedExpr,
         Ended, AfterBlock, AfterE, EmitBlock, EmitE, BlockLabs;
    var init, cond, body := arms.init, arms.cond, arms.body;
    var c1, j, i := AfterArms(init, c), k + |EmitArms(init, l, c, a.lp)|, Count(init) + 1;
    var c2 := AfterE(cond, c1);
    PlacedSplit(p, k, EmitArms(init, l, c, a.lp), EmitArm(cond, body, l, i, c1, a.lp));
    ExprExtends(cond, c1);
    BlockExtends(body, c2);
    ExtendsTrans(c2.vars, AfterArms(arms, c).vars, p.vars);
    ExtendsTrans(c1.vars, c2.vars, p.vars);
    if name in ArmsLabs(init).marks {
      n, m1 := EnterArmsRun(p, a, inLoop, f, init, name, l, c, k, x, m, env, w);
    } else {
      ArmPlaced(p, cond, body, l, i, c1, a.lp, j);
      var t := j + |EmitE(cond, c1)| + 1;
      n, m1 := EnterBlockRun(p, a, inLoop, f, body, name, c2, t, m, env, w);
      n, m1 := JumpedTo(p, a, f, LabelName(l, "X"), t + |EmitBlock(body, c2, a.lp)|, x, m, n, m1,
                        EnterBlock(p.rt, body, name, f, env, w));
    }
  }

  /** A clause that is left through the end of the statement */
  lemma EnterAsideRun(p: Prog, a: Around, inLoop: bool, f: nat, op: int, x: Clause, suffix: string, name: string,
                      l: nat, c: Ctx, k: nat, end: nat, m: Machine, env: Env, w: int)
    returns (n: nat, m1: Machine)
    requires Assembled(p) && Placed(p, k, EmitAside(op, x, suffix, l, c, a.lp)) && Enters(p, m, name, env, w)
    requires end < |p.list| && p.list[end] == D(LabelName(l, "X"))
    requires Extends(AfterClause(x, c).vars, p.vars) && GoodClause(x, inLoop) && Encloses(p, a, inLoop)
    requires name in ClauseLabs(x).marks
    ensures Ended(p, a, f, end, m, n, m1, EnterClause(p.rt, x, name, f, env, w))
    decreases f, x, 1
  {
    hide Assembled, Placed, Enters, Extends, EmitClause, AfterClause, EnterClause, Encloses, GoodClause, Ended,
         ClauseLabs;
    AsidePlaced(p, op, x, suffix, l, c, a.lp, k);
    n, m1 := EnterClauseRun(p, a, inLoop, f, x, name, c, k + 2, m, env, w);
    n, m1 := JumpedTo(p, a, f, LabelName(l, "X"), k + 2 + |EmitClause(x, c, a.lp)|, end, m, n, m1,
                      EnterClause(p.rt, x, name, f, env, w));
  }

  lemma EnterFileRun(p: Prog, a: Around, inLoop: bool, f: nat, s: Stmt, name: string, c: Ctx, k: nat, m: Machine,
                     env: Env, w: int)
    returns (n: nat, m1: Machine)
    requires s.File? && Assembled(p) && Placed(p, k, EmitStmt(s, c, a.lp)) && Enters(p, m, name, env, w)
    requires Extends(AfterStmt(s, c).vars, p.vars) && GoodStmt(s, inLoop) && Encloses(p, a, inLoop)
    requires name in StmtLabs(s).marks
    ensures Ended(p, a, f, k + |EmitStmt(s, c, a.lp)|, m, n, m1, EnterStmt(p.rt, s, name, f, env, w))
    decreases f, s, 3
  {
    hide Assembled, Placed, Enters, Extends, Pc, EmitArgs, AfterArgs, EmitFile, EmitLock, EmitCall, EmitLocked,
         EmitChoice, AfterClause, EnterClause, Encloses, NestedClause, FormedClause, FormedArgs, Ended, ClauseLabs;
    var c1, j := AfterArgs(s.args, c), k + |EmitArgs(s.args, c)|;
    var l, c2 := c1.next, Opened(c1);
    var c3 := AfterClause(s.onError, c2);
    var c4 := AfterClause(s.locked, c3);
    PlacedSplit(p, k, EmitArgs(s.args, c), EmitFile(s, l, c2, a.lp));
    FileExtends(s, c, p.vars);
    FilePlaced(p, s, l, c2, a.lp, j);
    var j1 := j + |EmitLock(s.call, s.locked)|;
    var j2 := j1 + |EmitCall(s.call, s.onError, l, c2, a.lp)|;
    var j3 := j2 + |EmitLocked(s.locked, l, c3, a.lp)|;
    var end := ChoiceLabel(p, s, l, c4, a.lp, j3);
    LabelHere(p, end);
    if name in ClauseLabs(s.onError).marks {
      n, m1 := EnterCallRun(p, a, inLoop, f, s, name, l, c2, j1, end, m, env, w);
      Moved(p, a, f, end, m, n, m1, EnterClause(p.rt, s.onError, name, f, env, w), end + 1);
    } else if name in ClauseLabs(s.locked).marks {
      n, m1 := EnterLockedRun(p, a, inLoop, f, s, name, l, c3, j2, end, m, env, w);
      Moved(p, a, f, end, m, n, m1, EnterClause(p.rt, s.locked, name, f, env, w), end + 1);
    } else {
      n, m1 := EnterChoiceRun(p, a, inLoop, f, s, name, l, c4, j3, m, env, w);
    }
  }

  lemma EnterCallRun(p: Prog, a: Around, inLoop: bool, f: nat, s: Stmt, name: string, l: nat, c: Ctx, k: nat,
                     end: nat, m: Machine, env: Env, w: int)
    returns (n: nat, m1: Machine)
    requires s.File? && Assembled(p) && Placed(p, k, EmitCall(s.call, s.onError, l, c, a.lp))
    requires Enters(p, m, name, env, w) && end < |p.list| && p.list[end] == D(LabelName(l, "X"))
    requires Extends(AfterClause(s.onError, c).vars, p.vars) && GoodClause(s.onError, inLoop) && Encloses(p, a, inLoop)
    requires name in ClauseLabs(s.onError).marks
    ensures Ended(p, a, f, end, m, n, m1, EnterClause(p.rt, s.onError, name, f, env, w))
    decreases f, s, 2
  {
    hide Assembled, Placed, Enters, Extends, EmitAside, AfterClause, EnterClause, Encloses, GoodClause, Ended,
         ClauseLabs;
    NoMarks(s.onError, name);
    PlacedSplit(p, k, [Op(OP_ONERROR)] + [Op(s.call.op)] + [Op(OP_DUP)],
                EmitAside(OP_JPZ, s.onError, "A", l, c, a.lp));
    n, m1 := EnterAsideRun(p, a, inLoop, f, OP_JPZ, s.onError, "A", name, l, c, k + 3, end, m, env, w);
  }

  lemma EnterLockedRun(p: Prog, a: Around, inLoop: bool, f: nat, s: Stmt, name: string, l: nat, c: Ctx, k: nat,
                       end: nat, m: Machine, env: Env, w: int)
    returns (n: nat, m1: Machine)
    requires s.File? && Assembled(p) && Placed(p, k, EmitLocked(s.locked, l, c, a.lp)) && Enters(p, m, name, env, w)
    requires end < |p.list| && p.list[end] == D(LabelName(l, "X"))
    requires Extends(AfterClause(s.locked, c).vars, p.vars) && GoodClause(s.locked, inLoop) && Encloses(p, a, inLoop)
    requires name in ClauseLabs(s.locked).marks
    ensures Ended(p, a, f, end, m, n, m1, EnterClause(p.rt, s.locked, name, f, env, w))
    decreases f, s, 2
  {
    hide Assembled, Placed, Enters, Extends, EmitAside, AfterClause, EnterClause, Encloses, GoodClause, Ended,
         ClauseLabs;
    NoMarks(s.locked, name);
    PlacedSplit(p, k, [Op(OP_DUP)] + [I(NumberLoad(ER_LCK))] + [Op(OP_EQ)],
                EmitAside(OP_JZE, s.locked, "B", l, c, a.lp));
    n, m1 := EnterAsideRun(p, a, inLoop, f, OP_JZE, s.locked, "B", name, l, c, k + 3, end, m, env, w);
  }

  /** THEN and ELSE of a file operation */
  lemma EnterChoiceRun(p: Prog, a: Around, inLoop: bool, f: nat, s: Stmt, name: string, l: nat, c: Ctx, k: nat,
                       m: Machine, env: Env, w: int)
    returns (n: nat, m1: Machine)
    requires s.File? && Assembled(p) && Placed(p, k, EmitChoice(s, l, c, a.lp)) && Enters(p, m, name, env, w)
    requires s.call.thenElse <==> s.thn.Clause? || s.els.Clause?
    requires Extends(AfterClause(s.thn, c).vars, p.vars)
    requires Extends(AfterClause(s.els, AfterClause(s.thn, c)).vars, p.vars)
    requires GoodClause(s.thn, inLoop) && GoodClause(s.els, inLoop) && Encloses(p, a, inLoop)
    requires name in ClauseLabs(s.thn).marks || name in ClauseLabs(s.els).marks
    ensures Ended(p, a, f, k + |EmitChoice(s, l, c, a.lp)|, m, n, m1,
                  EnterClause(p.rt, if name in ClauseLabs(s.thn).marks then s.thn else s.els, name, f, env, w))
    decreases f, s, 2
  {
    hide Assembled, Placed, Enters, Extends, Pc, EmitLast, EmitSuccess, EmitClause, AfterClause, EnterClause, Encloses,
         GoodClause, Ended, ClauseLabs;
    NoMarks(s.thn, name);
    NoMarks(s.els, name);
    if s.thn.Absent? {
      PlacedSplit(p, k, [Jmp(OP_JZE, l, "X")], EmitLast(s.els, l, c, a.lp));
      NoClause(p.rt, s.thn, c, f, env, w);
      n, m1 := EnterLastRun(p, a, inLoop, f, s.els, name, l, c, k + 1, m, env, w);
    } else {
      PlacedSplit(p, k, [Jmp(OP_JNZ, l, "E")], EmitSuccess(s, l, c, a.lp));
      var e, y, x := SuccessPlaced(p, s, l, c, a.lp, k + 1);
      n, m1 := EnterEither(p, a, inLoop, f, s, s.thn, s.els, name, l, c, k + 1, e, y, m, env, w);
      Moved(p, a, f, y, m, n, m1,
            EnterClause(p.rt, if name in ClauseLabs(s.thn).marks then s.thn else s.els, name, f, env, w), x);
    }
  }
}
