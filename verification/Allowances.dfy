/** What a program means does not depend on the allowance it is run with: with a larger one
    it ends in the same way. */
module Allowances {
  import opened Syntax
  import opened Programs
  import opened Structure
  import opened Machines
  import opened Meanings
  import opened Correctness

  /** The larger allowance gives the same result, if the smaller gives one. */
  predicate Same(r: Result, r': Result) {
    r.Done? ==> r' == r
  }

  lemma {:induction false} BlockSame(rt: Runtime, b: Block, f: nat, f': nat, env: Env, w: int)
    requires f <= f'
    ensures Same(ExecBlock(rt, b, f, env, w), ExecBlock(rt, b, f', env, w))
    decreases f, b, 0
  {
    hide ThenStmt;
    match b
    case Empty =>
    case Seq(init, last) =>
      BlockSame(rt, init, f, f', env, w);
      ThenSame(rt, ExecBlock(rt, init, f, env, w), ExecBlock(rt, init, f', env, w), last, f, f');
  }

  lemma ThenSame(rt: Runtime, r: Result, r': Result, s: Stmt, f: nat, f': nat)
    requires f <= f' && Same(r, r')
    ensures Same(ThenStmt(rt, r, s, f), ThenStmt(rt, r', s, f'))
    decreases f, s, 2
  {
    hide ExecStmt;
    if r.Done? {
      StmtSame(rt, s, f, f', r.env, r.world);
    }
  }

  lemma ClauseSame(rt: Runtime, k: Clause, f: nat, f': nat, env: Env, w: int)
    requires f <= f'
    ensures Same(ExecClause(rt, k, f, env, w), ExecClause(rt, k, f', env, w))
    decreases f, k, 0
  {
    hide ExecBlock;
    if k.Clause? {
      BlockSame(rt, k.body, f, f', env, w);
    }
  }

  lemma {:induction false} StmtSame(rt: Runtime, s: Stmt, f: nat, f': nat, env: Env, w: int)
    requires f <= f'
    ensures Same(ExecStmt(rt, s, f, env, w), ExecStmt(rt, s, f', env, w))
    decreases f, s, 1
  {
    hide ExecBlock, ExecClause, ExecArms, ExecFile, AfterRound, Eval, Stored;
    match s {
      case Loop(body) =>
        if f > 0 {
          BlockSame(rt, body, f, f', env, w);
          RoundSame(rt, ExecBlock(rt, body, f, env, w), ExecBlock(rt, body, f', env, w), s, f - 1, f' - 1);
        }
      case If(_, thn, els) =>
        ClauseSame(rt, thn, f, f', env, w);
        ClauseSame(rt, els, f, f', env, w);
      case Case(arms) => ArmsSame(rt, arms, f, f', env, w);
      case File(_, _, _, _, _, _) => FileSame(rt, s, f, f', env, w);
      case _ =>
    }
  }

  lemma RoundSame(rt: Runtime, r: Result, r': Result, s: Stmt, f: nat, f': nat)
    requires s.Loop? && f <= f' && Same(r, r')
    ensures Same(AfterRound(rt, r, s, f), AfterRound(rt, r', s, f'))
    decreases f, s, 2
  {
    hide ExecStmt;
    if r.Done? {
      StmtSame(rt, s, f, f', r.env, r.world);
    }
  }

  lemma FileSame(rt: Runtime, s: Stmt, f: nat, f': nat, env: Env, w: int)
    requires s.File? && f <= f'
    ensures Same(ExecFile(rt, s, f, env, w), ExecFile(rt, s, f', env, w))
    decreases f, s, 0
  {
    hide ExecClause, Receive, EvalArgs, Modes;
    var reply := rt.file(s.call.op, Modes(s.call, s.onError, s.locked), EvalArgs(rt, s.args, env), w);
    var env', w' := Receive(s.call, s.args, reply, env), reply.world;
    ClauseSame(rt, s.onError, f, f', env', w');
    ClauseSame(rt, s.locked, f, f', env', w');
    ClauseSame(rt, s.thn, f, f', env', w');
    ClauseSame(rt, s.els, f, f', env', w');
  }

  lemma {:induction false} ArmsSame(rt: Runtime, arms: Arms, f: nat, f': nat, env: Env, w: int)
    requires f <= f'
    ensures match ExecArms(rt, arms, f, env, w)
      case None => ExecArms(rt, arms, f', env, w).None?
      case Some(r) => ExecArms(rt, arms, f', env, w).Some? && Same(r, ExecArms(rt, arms, f', env, w).value)
    decreases f, arms, 0
  {
    hide ExecBlock, Eval;
    match arms
    case NoArms =>
    case Arm(init, cond, body) =>
      ArmsSame(rt, init, f, f', env, w);
      BlockSame(rt, body, f, f', env, w);
  }

  lemma {:induction false} EnterBlockSame(rt: Runtime, b: Block, name: string, f: nat, f': nat, env: Env, w: int)
    requires f <= f'
    ensures Same(EnterBlock(rt, b, name, f, env, w), EnterBlock(rt, b, name, f', env, w))
    decreases b, 0
  {
    hide ThenStmt, EnterStmt, BlockLabs;
    match b
    case Empty =>
    case Seq(init, last) =>
      EnterBlockSame(rt, init, name, f, f', env, w);
      ThenSame(rt, EnterBlock(rt, init, name, f, env, w), EnterBlock(rt, init, name, f', env, w), last, f, f');
      EnterStmtSame(rt, last, name, f, f', env, w);
  }

  lemma EnterClauseSame(rt: Runtime, k: Clause, name: string, f: nat, f': nat, env: Env, w: int)
    requires f <= f'
    ensures Same(EnterClause(rt, k, name, f, env, w), EnterClause(rt, k, name, f', env, w))
    decreases k, 0
  {
    hide EnterBlock;
    if k.Clause? {
      EnterBlockSame(rt, k.body, name, f, f', env, w);
    }
  }

  lemma {:induction false} EnterStmtSame(rt: Runtime, s: Stmt, name: string, f: nat, f': nat, env: Env, w: int)
    requires f <= f'
    ensures Same(EnterStmt(rt, s, name, f, env, w), EnterStmt(rt, s, name, f', env, w))
    decreases s, 1
  {
    hide AfterRound, EnterBlock, EnterClause, EnterArms, ClauseLabs;
    match s {
      case Loop(body) =>
        EnterBlockSame(rt, body, name, f, f', env, w);
        RoundSame(rt, EnterBlock(rt, body, name, f, env, w), EnterBlock(rt, body, name, f', env, w), s, f, f');
      case If(_, thn, els) =>
        EnterClauseSame(rt, thn, name, f, f', env, w);
        EnterClauseSame(rt, els, name, f, f', env, w);
      case Case(arms) => EnterArmsSame(rt, arms, name, f, f', env, w);
      case File(_, _, onError, locked, thn, els) =>
        EnterClauseSame(rt, onError, name, f, f', env, w);
        EnterClauseSame(rt, locked, name, f, f', env, w);
        EnterClauseSame(rt, thn, name, f, f', env, w);
        EnterClauseSame(rt, els, name, f, f', env, w);
      case _ =>
    }
  }

  lemma {:induction false} EnterArmsSame(rt: Runtime, arms: Arms, name: string, f: nat, f': nat, env: Env, w: int)
    requires f <= f'
    ensures Same(EnterArms(rt, arms, name, f, env, w), EnterArms(rt, arms, name, f', env, w))
    decreases arms, 0
  {
    hide EnterBlock, ArmsLabs;
    match arms
    case NoArms =>
    case Arm(init, _, body) =>
      EnterArmsSame(rt, init, name, f, f', env, w);
      EnterBlockSame(rt, body, name, f, f', env, w);
  }

  lemma {:induction false} FollowSame(rt: Runtime, p: Block, r: Result, r': Result, f: nat, f': nat)
    requires f <= f' && Same(r, r')
    ensures Same(Follow(rt, p, r, f), Follow(rt, p, r', f'))
    decreases f
  {
    hide EnterBlock, BlockLabs;
    if r.Done? && r.signal.Go? && f > 0 {
      var name := r.signal.name;
      EnterBlockSame(rt, p, name, f - 1, f' - 1, r.env, r.world);
      FollowSame(rt, p, EnterBlock(rt, p, name, f - 1, r.env, r.world),
                 EnterBlock(rt, p, name, f' - 1, r.env, r.world), f - 1, f' - 1);
    }
  }

  /** A program that ends has one result, whatever allowances it is run with. */
  lemma OneResult(rt: Runtime, p: Block, f: nat, f': nat, env: Env, w: int)
    requires ExecProgram(rt, p, f, env, w).Done? && ExecProgram(rt, p, f', env, w).Done?
    ensures ExecProgram(rt, p, f, env, w) == ExecProgram(rt, p, f', env, w)
  {
    hide ExecBlock, Follow;
    var a, b := if f <= f' then f else f', if f <= f' then f' else f;
    BlockSame(rt, p, a, b, env, w);
    FollowSame(rt, p, ExecBlock(rt, p, a, env, w), ExecBlock(rt, p, b, env, w), a, b);
  }

  /** Without GOTO nothing ends with one. */
  predicate Falls(r: Result) {
    r.Done? ==> !r.signal.Go?
  }

  lemma {:induction false} BlockFalls(rt: Runtime, b: Block, f: nat, env: Env, w: int)
    requires BlockLabs(b).gotos == []
    ensures Falls(ExecBlock(rt, b, f, env, w))
    decreases f, b, 0
  {
    hide ExecStmt;
    match b
    case Empty =>
    case Seq(init, last) =>
      BlockFalls(rt, init, f, env, w);
      var r := ExecBlock(rt, init, f, env, w);
      if r.Done? {
        StmtFalls(rt, last, f, r.env, r.world);
      }
  }

  lemma ClauseFalls(rt: Runtime, k: Clause, f: nat, env: Env, w: int)
    requires ClauseLabs(k).gotos == []
    ensures Falls(ExecClause(rt, k, f, env, w))
    decreases f, k, 0
  {
    hide ExecBlock;
    if k.Clause? {
      BlockFalls(rt, k.body, f, env, w);
    }
  }

  lemma {:induction false} StmtFalls(rt: Runtime, s: Stmt, f: nat, env: Env, w: int)
    requires StmtLabs(s).gotos == []
    ensures Falls(ExecStmt(rt, s, f, env, w))
    decreases f, s, 1
  {
    hide ExecBlock, ExecClause, ExecArms, ExecFile, BlockLabs, ClauseLabs, ArmsLabs, Eval, Stored;
    match s {
      case Loop(body) =>
        if f > 0 {
          BlockFalls(rt, body, f, env, w);
          var r := ExecBlock(rt, body, f, env, w);
          if r.Done? {
            StmtFalls(rt, s, f - 1, r.env, r.world);
          }
        }
      case If(_, thn, els) =>
        ClauseFalls(rt, thn, f, env, w);
        ClauseFalls(rt, els, f, env, w);
      case Case(arms) => ArmsFall(rt, arms, f, env, w);
      case File(_, _, _, _, _, _) => FileFalls(rt, s, f, env, w);
      case _ =>
    }
  }

  lemma FileFalls(rt: Runtime, s: Stmt, f: nat, env: Env, w: int)
    requires s.File? && StmtLabs(s).gotos == []
    ensures Falls(ExecFile(rt, s, f, env, w))
    decreases f, s, 0
  {
    hide ExecClause, ClauseLabs, Receive, EvalArgs, Modes;
    var reply := rt.file(s.call.op, Modes(s.call, s.onError, s.locked), EvalArgs(rt, s.args, env), w);
    var env', w' := Receive(s.call, s.args, reply, env), reply.world;
    ClauseFalls(rt, s.onError, f, env', w');
    ClauseFalls(rt, s.locked, f, env', w');
    ClauseFalls(rt, s.thn, f, env', w');
    ClauseFalls(rt, s.els, f, env', w');
  }

  lemma {:induction false} ArmsFall(rt: Runtime, arms: Arms, f: nat, env: Env, w: int)
    requires ArmsLabs(arms).gotos == []
    ensures var r := ExecArms(rt, arms, f, env, w); r.Some? ==> Falls(r.value)
    decreases f, arms, 0
  {
    hide ExecBlock, Eval;
    match arms
    case NoArms =>
    case Arm(init, cond, body) =>
      ArmsFall(rt, init, f, env, w);
      BlockFalls(rt, body, f, env, w);
  }

  /** Without GOTO a program means what its structure says. */
  lemma Structured(rt: Runtime, p: Block, f: nat, env: Env, w: int)
    requires BlockLabs(p).gotos == []
    ensures ExecProgram(rt, p, f, env, w) == ExecBlock(rt, p, f, env, w)
  {
    hide ExecBlock, BlockLabs;
    BlockFalls(rt, p, f, env, w);
  }

  /** name: s; IF c THEN GOTO name */
  function Jumping(name: string, s: Stmt, c: Expr): Block {
    Seq(Seq(Seq(Empty, LabelMark(name)), s), If(c, Clause(Seq(Empty, Goto(name))), Absent))
  }

  /** LOOP s WHILE c REPEAT */
  function Looping(s: Stmt, c: Expr): Block {
    Seq(Empty, Loop(Seq(Seq(Empty, s), Test(false, c))))
  }

  /** One time through either of them */
  function Through(rt: Runtime, s: Stmt, c: Expr, on: Signal, off: Signal, f: nat, env: Env, w: int): Result {
    match ExecStmt(rt, s, f, env, w)
    case Spin => Spin
    case Done(_, env', w') => Done(if Truth(rt, Eval(rt, c, env')) then on else off, env', w')
  }

  /** A statement that neither goes anywhere nor leaves a loop */
  predicate Plain(s: Stmt) {
    StmtLabs(s) == NoLabs && NestedStmt(s, false)
  }

  lemma PlainEnds(rt: Runtime, s: Stmt, f: nat, env: Env, w: int)
    requires Plain(s)
    ensures var r := ExecStmt(rt, s, f, env, w); r.Done? ==> r.signal.Normal?
  {
    hide ExecStmt, StmtLabs, NestedStmt;
    StmtFalls(rt, s, f, env, w);
    StmtEnds(rt, s, f, env, w);
  }

  lemma SeqRuns(rt: Runtime, init: Block, last: Stmt, f: nat, env: Env, w: int)
    ensures ExecBlock(rt, Empty, f, env, w) == Done(Normal, env, w)
    ensures ExecBlock(rt, Seq(init, last), f, env, w)
         == ThenStmt(rt, ExecBlock(rt, init, f, env, w), last, f)
  {
  }

  lemma ThenRuns(rt: Runtime, last: Stmt, f: nat, env: Env, w: int)
    ensures ThenStmt(rt, Done(Normal, env, w), last, f) == ExecStmt(rt, last, f, env, w)
  {
  }

  lemma MarkRuns(rt: Runtime, name: string, f: nat, env: Env, w: int)
    ensures ExecStmt(rt, LabelMark(name), f, env, w) == Done(Normal, env, w)
    ensures EnterStmt(rt, LabelMark(name), name, f, env, w) == Done(Normal, env, w)
    ensures ExecStmt(rt, Goto(name), f, env, w) == Done(Go(name), env, w)
    ensures StmtLabs(LabelMark(name)).marks == [name]
  {
  }

  lemma EnterSeq(rt: Runtime, init: Block, last: Stmt, name: string, f: nat, env: Env, w: int)
    ensures name in BlockLabs(init).marks ==>
              EnterBlock(rt, Seq(init, last), name, f, env, w)
              == ThenStmt(rt, EnterBlock(rt, init, name, f, env, w), last, f)
    ensures init == Empty ==>
              EnterBlock(rt, Seq(init, last), name, f, env, w) == EnterStmt(rt, last, name, f, env, w)
    ensures BlockLabs(Seq(init, last)) == Join(BlockLabs(init), StmtLabs(last))
  {
  }

  lemma JumpingOnce(rt: Runtime, name: string, s: Stmt, c: Expr, f: nat, env: Env, w: int)
    requires Plain(s)
    ensures var r := Through(rt, s, c, Go(name), Normal, f, env, w); var p := Jumping(name, s, c);
      ExecBlock(rt, p, f, env, w) == r && EnterBlock(rt, p, name, f, env, w) == r && name in BlockLabs(p).marks
  {
    hide Eval, StmtLabs, BlockLabs, ExecBlock, EnterBlock, ExecStmt, EnterStmt, ThenStmt, Plain;
    var mark, test := LabelMark(name), If(c, Clause(Seq(Empty, Goto(name))), Absent);
    var start := Seq(Empty, mark);
    PlainEnds(rt, s, f, env, w);
    MarkRuns(rt, name, f, env, w);
    SeqRuns(rt, Empty, mark, f, env, w);
    SeqRuns(rt, start, s, f, env, w);
    SeqRuns(rt, Seq(start, s), test, f, env, w);
    EnterSeq(rt, Empty, mark, name, f, env, w);
    EnterSeq(rt, start, s, name, f, env, w);
    EnterSeq(rt, Seq(start, s), test, name, f, env, w);
    ThenRuns(rt, mark, f, env, w);
    ThenRuns(rt, s, f, env, w);
    var r := ExecStmt(rt, s, f, env, w);
    if r.Done? {
      ThenRuns(rt, test, f, r.env, r.world);
      GoesBack(rt, c, name, f, r.env, r.world);
    } else {
      ThenSpins(rt, test, f);
    }
  }

  lemma ThenSpins(rt: Runtime, last: Stmt, f: nat)
    ensures ThenStmt(rt, Spin, last, f) == Spin
  {
  }

  lemma GoesBack(rt: Runtime, c: Expr, name: string, f: nat, env: Env, w: int)
    ensures ExecStmt(rt, If(c, Clause(Seq(Empty, Goto(name))), Absent), f, env, w)
         == Done(if Truth(rt, Eval(rt, c, env)) then Go(name) else Normal, env, w)
  {
    hide Eval, ExecBlock;
    var b := Seq(Empty, Goto(name));
    SeqRuns(rt, Empty, Goto(name), f, env, w);
    ThenRuns(rt, Goto(name), f, env, w);
    assert ExecClause(rt, Clause(b), f, env, w) == ExecBlock(rt, b, f, env, w) == Done(Go(name), env, w);
  }

  lemma LoopingOnce(rt: Runtime, s: Stmt, c: Expr, f: nat, env: Env, w: int)
    requires Plain(s)
    ensures ExecBlock(rt, Seq(Seq(Empty, s), Test(false, c)), f, env, w)
         == Through(rt, s, c, Normal, Break, f, env, w)
  {
    hide Eval, ExecBlock, Plain, ThenStmt;
    PlainEnds(rt, s, f, env, w);
    SeqRuns(rt, Empty, s, f, env, w);
    SeqRuns(rt, Seq(Empty, s), Test(false, c), f, env, w);
    ThenRuns(rt, s, f, env, w);
    var r := ExecStmt(rt, s, f, env, w);
    if r.Done? {
      ThenRuns(rt, Test(false, c), f, r.env, r.world);
    } else {
      ThenSpins(rt, Test(false, c), f);
    }
  }

  /** The loop's rounds are the times the label is passed. */
  lemma {:induction false} LoopIsJump(rt: Runtime, name: string, s: Stmt, c: Expr, f: nat, env: Env, w: int)
    requires Plain(s)
    ensures var p, loop := Jumping(name, s, c), Looping(s, c).last;
      && Same(ExecStmt(rt, loop, f, env, w), Follow(rt, p, ExecBlock(rt, p, f, env, w), f))
      && Same(Follow(rt, p, ExecBlock(rt, p, f, env, w), f), ExecStmt(rt, loop, f + 1, env, w))
    decreases f
  {
    hide ExecBlock, EnterBlock, BlockLabs, Plain, Eval;
    JumpingOnce(rt, name, s, c, f, env, w);
    LoopingOnce(rt, s, c, f, env, w);
    LoopingOnce(rt, s, c, f + 1, env, w);
    StmtSame(rt, s, f, f + 1, env, w);
    var r := Through(rt, s, c, Go(name), Normal, f, env, w);
    if r.Done? && r.signal.Go? && f > 0 {
      LoopIsJump(rt, name, s, c, f - 1, r.env, r.world);
      JumpingOnce(rt, name, s, c, f - 1, r.env, r.world);
    }
  }

  /** Going back by GOTO while a condition holds is a LOOP: one ends exactly when the other
      does, and then with the same values and files. */
  lemma BackIsLoop(rt: Runtime, name: string, s: Stmt, c: Expr, f: nat, env: Env, w: int)
    requires Plain(s)
    ensures var p, q := Jumping(name, s, c), Looping(s, c);
      && Same(ExecProgram(rt, q, f, env, w), ExecProgram(rt, p, f, env, w))
      && Same(ExecProgram(rt, p, f, env, w), ExecProgram(rt, q, f + 1, env, w))
  {
    hide ExecStmt, Follow, Plain;
    LoopIsJump(rt, name, s, c, f, env, w);
    LoopStands(rt, s, c, f, env, w);
    LoopStands(rt, s, c, f + 1, env, w);
  }

  lemma LoopStands(rt: Runtime, s: Stmt, c: Expr, f: nat, env: Env, w: int)
    requires Plain(s)
    ensures ExecProgram(rt, Looping(s, c), f, env, w) == ExecStmt(rt, Looping(s, c).last, f, env, w)
  {
    hide ExecStmt, StmtLabs;
    NoneInLoop(s, c);
    Structured(rt, Looping(s, c), f, env, w);
    assert ExecBlock(rt, Empty, f, env, w) == Done(Normal, env, w);
  }

  lemma NoneInLoop(s: Stmt, c: Expr)
    requires Plain(s)
    ensures BlockLabs(Looping(s, c)).gotos == []
  {
    assert BlockLabs(Seq(Empty, s)) == NoLabs;
    assert BlockLabs(Seq(Seq(Empty, s), Test(false, c))) == NoLabs;
  }
}
