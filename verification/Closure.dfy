/** Every generated label that a nested program's code jumps to is defined in it. */
module Closure {
  import opened Isa
  import opened Listing
  import opened Syntax
  import opened Programs
  import opened Names
  import opened Generate
  import opened ConstructStack
  import opened Structure

  /** The labels of these items are labels of the whole program. */
  ghost predicate Within(items: seq<Item>, all: seq<Item>) {
    forall x :: x in items && x.D? ==> x in all
  }

  /** A jump goes to a label of the program, to the loop around it, or to a label that
      the programmer named. */
  predicate Reaches(x: Item, all: seq<Item>, lp: int) {
    x.I? && x.ins.Jump? ==>
      || D(x.ins.target) in all
      || !IsGenerated(x.ins.target)
      || (lp >= 0 && (x.ins.target == LabelName(lp, "X") || x.ins.target == LabelName(lp, "R")))
  }

  ghost predicate Linked(items: seq<Item>, all: seq<Item>, lp: int) {
    forall x :: x in items ==> Reaches(x, all, lp)
  }

  /** What holds of two parts holds of the whole, and the whole's labels are the parts'. */
  lemma LinkConcat(a: seq<Item>, b: seq<Item>, all: seq<Item>, lp: int)
    ensures Within(a + b, all) ==> Within(a, all) && Within(b, all)
    ensures Linked(a, all, lp) && Linked(b, all, lp) ==> Linked(a + b, all, lp)
  {
    hide Reaches;
    assert forall x :: x in a ==> x in a + b;
    assert forall x :: x in b ==> x in a + b;
  }

  lemma {:induction false} TextLinked(s: string, all: seq<Item>, lp: int)
    ensures Linked(TextLoad(s), all, lp)
  {
    if s != "" {
      MoreLinked(s[ChunkSize(s)..], all, lp);
    }
  }

  lemma {:induction false} MoreLinked(s: string, all: seq<Item>, lp: int)
    ensures Linked(MoreText(s), all, lp)
    decreases |s|
  {
    if s != "" {
      MoreLinked(s[ChunkSize(s)..], all, lp);
    }
  }

  lemma {:induction false} ExprLinked(e: Expr, c: Ctx, all: seq<Item>, lp: int)
    requires Within(EmitE(e, c), all)
    ensures Linked(EmitE(e, c), all, lp)
    decreases e
  {
    match e
    case Num(n) =>
    case Str(s) => TextLinked(s, all, lp);
    case Var(_) =>
    case App(op, args) =>
      hide Linked, Within;
      LinkConcat(EmitArgs(args, c), [Op(op)], all, lp);
      OpLinked(op, all, lp);
      ArgsLinked(args, c, all, lp);
    case IfThen(t, a, b) =>
      hide Linked, Within, AfterE;
      var c1 := AfterE(t, c);
      var n, c2 := c1.next, c1.(next := c1.next + 1);
      var c3 := AfterE(a, c2);
      var p1 := EmitE(t, c) + [Jmp(OP_JFALSE, n, "E")] + EmitE(a, c2);
      var p2 := p1 + [Jmp(OP_JMP, n, "X")] + [Lbl(n, "E")] + EmitE(b, c3);
      LinkConcat(p2, [Lbl(n, "X")], all, lp);
      LinkConcat(p1 + [Jmp(OP_JMP, n, "X")] + [Lbl(n, "E")], EmitE(b, c3), all, lp);
      LinkConcat(p1 + [Jmp(OP_JMP, n, "X")], [Lbl(n, "E")], all, lp);
      LinkConcat(p1, [Jmp(OP_JMP, n, "X")], all, lp);
      LinkConcat(EmitE(t, c) + [Jmp(OP_JFALSE, n, "E")], EmitE(a, c2), all, lp);
      LinkConcat(EmitE(t, c), [Jmp(OP_JFALSE, n, "E")], all, lp);
      JumpLinked(OP_JFALSE, n, "E", all, lp);
      JumpLinked(OP_JMP, n, "X", all, lp);
      ExprLinked(t, c, all, lp);
      ExprLinked(a, c2, all, lp);
      ExprLinked(b, c3, all, lp);
  }

  lemma OpLinked(op: int, all: seq<Item>, lp: int)
    ensures Linked([Op(op)], all, lp) && Linked([], all, lp)
  {
  }

  /** A label, and a jump to it if it is a label of the program. */
  lemma JumpLinked(op: int, n: nat, suffix: string, all: seq<Item>, lp: int)
    ensures Within([Lbl(n, suffix)], all) ==> Linked([Jmp(op, n, suffix)], all, lp)
    ensures Linked([Lbl(n, suffix)], all, lp)
  {
    assert Lbl(n, suffix) in [Lbl(n, suffix)];
  }

  lemma {:induction false} ArgsLinked(args: Exprs, c: Ctx, all: seq<Item>, lp: int)
    requires Within(EmitArgs(args, c), all)
    ensures Linked(EmitArgs(args, c), all, lp)
    decreases args
  {
    hide Linked, Within;
    match args
    case NoArgs => OpLinked(0, all, lp);
    case Args(init, last) =>
      LinkConcat(EmitArgs(init, c), EmitE(last, AfterArgs(init, c)), all, lp);
      ArgsLinked(init, c, all, lp);
      ExprLinked(last, AfterArgs(init, c), all, lp);
  }

  lemma {:induction false} BlockLinked(b: Block, c: Ctx, lp: int, inLoop: bool, all: seq<Item>)
    requires NestedBlock(b, inLoop) && (inLoop ==> lp >= 0) && Within(EmitBlock(b, c, lp), all)
    ensures Linked(EmitBlock(b, c, lp), all, lp)
    decreases b, 0
  {
    hide Linked, Within, NestedStmt, EmitStmt;
    match b
    case Empty => OpLinked(0, all, lp);
    case Seq(init, last) =>
      LinkConcat(EmitBlock(init, c, lp), EmitStmt(last, AfterBlock(init, c), lp), all, lp);
      BlockLinked(init, c, lp, inLoop, all);
      StmtLinked(last, AfterBlock(init, c), lp, inLoop, all);
  }

  lemma ClauseLinked(k: Clause, c: Ctx, lp: int, inLoop: bool, all: seq<Item>)
    requires NestedClause(k, inLoop) && (inLoop ==> lp >= 0) && Within(EmitClause(k, c, lp), all)
    ensures Linked(EmitClause(k, c, lp), all, lp)
    decreases k, 0
  {
    hide Linked, Within, NestedBlock, EmitBlock;
    OpLinked(0, all, lp);
    if k.Clause? {
      BlockLinked(k.body, c, lp, inLoop, all);
    }
  }

  lemma StmtLinked(s: Stmt, c: Ctx, lp: int, inLoop: bool, all: seq<Item>)
    requires NestedStmt(s, inLoop) && (inLoop ==> lp >= 0) && Within(EmitStmt(s, c, lp), all)
    ensures Linked(EmitStmt(s, c, lp), all, lp)
    decreases s, 3
  {
    match s {
      case If(cond, _, _) =>
        hide Linked, Within, EmitE, AfterE, EmitIf, NestedClause;
        var c1 := AfterE(cond, c);
        LinkConcat(EmitE(cond, c), EmitIf(s, c1.next, Opened(c1), lp), all, lp);
        ExprLinked(cond, c, all, lp);
        IfLinked(s, c1.next, Opened(c1), lp, inLoop, all);
      case Case(arms) =>
        hide Linked, Within, EmitArms, NestedArms;
        LinkConcat(EmitArms(arms, c.next, Opened(c), lp), [Lbl(c.next, "X")], all, lp);
        JumpLinked(OP_JMP, c.next, "X", all, lp);
        ArmsLinked(arms, c.next, Opened(c), lp, inLoop, all);
      case File(call, args, _, _, _, _) =>
        hide Linked, Within, EmitFile, EmitArgs, AfterArgs, NestedClause;
        var c1 := AfterArgs(args, c);
        LinkConcat(EmitArgs(args, c), EmitFile(s, c1.next, Opened(c1), lp), all, lp);
        ArgsLinked(args, c, all, lp);
        FileLinked(s, c1.next, Opened(c1), lp, inLoop, all);
      case Loop(body) =>
        hide Linked, Within, EmitBlock, NestedBlock;
        LoopLinked(body, c, lp, all);
      case Set(name, op, e, short) => SetLinked(name, op, e, short, c, all, lp);
      case Test(until, e) =>
        ExprLinked(e, c, all, lp);
      case _ =>
    }
  }

  lemma SetLinked(name: string, op: int, e: Expr, short: bool, c: Ctx, all: seq<Item>, lp: int)
    requires Within(EmitStmt(Set(name, op, e, short), c, lp), all)
    ensures Linked(EmitStmt(Set(name, op, e, short), c, lp), all, lp)
  {
    hide Linked, Within, EmitE, AfterE;
    var c1 := AfterE(Var(name), c);
    LinkConcat(EmitE(Var(name), c), StoreCode(op, e, short, c1), all, lp);
    ExprLinked(Var(name), c, all, lp);
    OpLinked(ShortOp(op, e), all, lp);
    OpLinked(op, all, lp);
    OpLinked(OP_DUP, all, lp);
    OpLinked(OP_STOR, all, lp);
    LinkConcat(EmitE(e, c1), [Op(op)], all, lp);
    LinkConcat([Op(OP_DUP)] + EmitE(e, c1) + [Op(op)], [Op(OP_STOR)], all, lp);
    LinkConcat([Op(OP_DUP)] + EmitE(e, c1), [Op(op)], all, lp);
    LinkConcat([Op(OP_DUP)], EmitE(e, c1), all, lp);
    if !short {
      ExprLinked(e, c1, all, lp);
    }
  }

  /** Inside a loop jumps may also go to its two labels, which are defined. */
  lemma LoopLinked(body: Block, c: Ctx, lp: int, all: seq<Item>)
    requires NestedBlock(body, true) && Within(EmitStmt(Loop(body), c, lp), all)
    ensures Linked(EmitStmt(Loop(body), c, lp), all, lp)
    decreases body, 1
  {
    hide Linked, Within, EmitBlock, NestedBlock;
    var n, inner := c.next, EmitBlock(body, Opened(c), c.next);
    LinkConcat([Lbl(n, "R")] + inner + [Jmp(OP_JMP, n, "R")], [Lbl(n, "X")], all, lp);
    LinkConcat([Lbl(n, "R")] + inner, [Jmp(OP_JMP, n, "R")], all, lp);
    LinkConcat([Lbl(n, "R")], inner, all, lp);
    JumpLinked(OP_JMP, n, "R", all, lp);
    JumpLinked(OP_JMP, n, "X", all, lp);
    BlockLinked(body, Opened(c), n, true, all);
    LoopLeft(inner, n, all, lp);
  }

  lemma LoopLeft(items: seq<Item>, n: nat, all: seq<Item>, lp: int)
    requires Linked(items, all, n) && Within([Lbl(n, "R")], all) && Within([Lbl(n, "X")], all)
    ensures Linked(items, all, lp)
  {
    assert Lbl(n, "R") in [Lbl(n, "R")] && Lbl(n, "X") in [Lbl(n, "X")];
    forall x | x in items ensures Reaches(x, all, lp) {
      assert Reaches(x, all, n);
    }
  }

  lemma IfLinked(s: Stmt, n: nat, c: Ctx, lp: int, inLoop: bool, all: seq<Item>)
    requires s.If? && NestedClause(s.thn, inLoop) && NestedClause(s.els, inLoop) && (inLoop ==> lp >= 0)
    requires Within(EmitIf(s, n, c, lp), all)
    ensures Linked(EmitIf(s, n, c, lp), all, lp)
    decreases s, 2
  {
    hide Linked, Within, EmitClause, NestedClause, AfterClause;
    JumpLinked(OP_JTRUE, n, "X", all, lp);
    JumpLinked(OP_JFALSE, n, "E", all, lp);
    if s.thn.Absent? {
      LinkConcat([Jmp(OP_JTRUE, n, "X")], EmitLast(s.els, n, c, lp), all, lp);
      LastLinked(s.els, n, c, lp, inLoop, all);
    } else {
      LinkConcat([Jmp(OP_JFALSE, n, "E")], EmitThen(s, n, c, lp), all, lp);
      if s.els.Absent? {
        LinkConcat(EmitClause(s.thn, c, lp), [Lbl(n, "E")], all, lp);
      } else {
        LinkConcat(EmitClause(s.thn, c, lp),
                   [Jmp(OP_JMP, n, "X")] + [Lbl(n, "E")] + EmitLast(s.els, n, AfterClause(s.thn, c), lp), all, lp);
        TurnLinked(s.els, n, AfterClause(s.thn, c), lp, inLoop, all);
      }
      ClauseLinked(s.thn, c, lp, inLoop, all);
    }
  }

  /** The last clause, and the jump over it. */
  lemma LastLinked(k: Clause, n: nat, c: Ctx, lp: int, inLoop: bool, all: seq<Item>)
    requires NestedClause(k, inLoop) && (inLoop ==> lp >= 0) && Within(EmitLast(k, n, c, lp), all)
    ensures Linked(EmitLast(k, n, c, lp), all, lp) && Within([Lbl(n, "X")], all)
    decreases k, 1
  {
    hide Linked, Within, EmitClause, NestedClause;
    LinkConcat(EmitClause(k, c, lp), [Lbl(n, "X")], all, lp);
    JumpLinked(OP_JMP, n, "X", all, lp);
    ClauseLinked(k, c, lp, inLoop, all);
  }

  lemma TurnLinked(k: Clause, n: nat, c: Ctx, lp: int, inLoop: bool, all: seq<Item>)
    requires NestedClause(k, inLoop) && (inLoop ==> lp >= 0)
    requires Within([Jmp(OP_JMP, n, "X")] + [Lbl(n, "E")] + EmitLast(k, n, c, lp), all)
    ensures Linked([Jmp(OP_JMP, n, "X")] + [Lbl(n, "E")] + EmitLast(k, n, c, lp), all, lp)
    ensures Within([Lbl(n, "E")], all) && Within([Lbl(n, "X")], all)
    decreases k, 2
  {
    hide Linked, Within, EmitLast, NestedClause;
    LinkConcat([Jmp(OP_JMP, n, "X")] + [Lbl(n, "E")], EmitLast(k, n, c, lp), all, lp);
    LinkConcat([Jmp(OP_JMP, n, "X")], [Lbl(n, "E")], all, lp);
    LastLinked(k, n, c, lp, inLoop, all);
    JumpLinked(OP_JMP, n, "X", all, lp);
    JumpLinked(OP_JMP, n, "E", all, lp);
  }

  lemma {:induction false} ArmsLinked(arms: Arms, n: nat, c: Ctx, lp: int, inLoop: bool, all: seq<Item>)
    requires NestedArms(arms, inLoop) && (inLoop ==> lp >= 0)
    requires Within(EmitArms(arms, n, c, lp), all) && Within([Lbl(n, "X")], all)
    ensures Linked(EmitArms(arms, n, c, lp), all, lp)
    decreases arms, 0
  {
    hide Linked, Within, NestedBlock, EmitArm;
    match arms
    case NoArms => OpLinked(0, all, lp);
    case Arm(init, cond, body) =>
      var k, c1 := Count(init) + 1, AfterArms(init, c);
      LinkConcat(EmitArms(init, n, c, lp), EmitArm(cond, body, n, k, c1, lp), all, lp);
      ArmsLinked(init, n, c, lp, inLoop, all);
      ArmLinked(cond, body, n, k, c1, lp, inLoop, all);
  }

  lemma ArmLinked(cond: Expr, body: Block, n: nat, k: nat, c: Ctx, lp: int, inLoop: bool, all: seq<Item>)
    requires NestedBlock(body, inLoop) && (inLoop ==> lp >= 0)
    requires Within(EmitArm(cond, body, n, k, c, lp), all) && Within([Lbl(n, "X")], all)
    ensures Linked(EmitArm(cond, body, n, k, c, lp), all, lp)
    decreases body, 1
  {
    hide Linked, Within, EmitE, AfterE, EmitBlock, NestedBlock;
    var t, b, s := EmitE(cond, c), EmitBlock(body, AfterE(cond, c), lp), CaseSuffix(k);
    LinkConcat(t + [Jmp(OP_JFALSE, n, s)] + b + [Jmp(OP_JMP, n, "X")], [Lbl(n, s)], all, lp);
    LinkConcat(t + [Jmp(OP_JFALSE, n, s)] + b, [Jmp(OP_JMP, n, "X")], all, lp);
    LinkConcat(t + [Jmp(OP_JFALSE, n, s)], b, all, lp);
    LinkConcat(t, [Jmp(OP_JFALSE, n, s)], all, lp);
    JumpLinked(OP_JFALSE, n, s, all, lp);
    JumpLinked(OP_JMP, n, "X", all, lp);
    ExprLinked(cond, c, all, lp);
    BlockLinked(body, AfterE(cond, c), lp, inLoop, all);
  }

  lemma FileLinked(s: Stmt, n: nat, c: Ctx, lp: int, inLoop: bool, all: seq<Item>)
    requires s.File? && NestedStmt(s, inLoop) && (inLoop ==> lp >= 0)
    requires Within(EmitFile(s, n, c, lp), all)
    ensures Linked(EmitFile(s, n, c, lp), all, lp)
    decreases s, 2
  {
    hide Linked, Within, EmitCall, EmitLocked, EmitChoice, NestedClause, AfterClause;
    var c1 := AfterClause(s.onError, c);
    var c2 := AfterClause(s.locked, c1);
    var p1 := EmitLock(s.call, s.locked) + EmitCall(s.call, s.onError, n, c, lp);
    LinkConcat(p1 + EmitLocked(s.locked, n, c1, lp), EmitChoice(s, n, c2, lp), all, lp);
    LinkConcat(p1, EmitLocked(s.locked, n, c1, lp), all, lp);
    LinkConcat(EmitLock(s.call, s.locked), EmitCall(s.call, s.onError, n, c, lp), all, lp);
    LockLinked(s.call, s.locked, all, lp);
    ChoiceLinked(s, n, c2, lp, inLoop, all);
    CallLinked(s.call, s.onError, n, c, lp, inLoop, all);
    LockedLinked(s.locked, n, c1, lp, inLoop, all);
  }

  lemma LockLinked(call: Call, locked: Clause, all: seq<Item>, lp: int)
    ensures Linked(EmitLock(call, locked), all, lp)
  {
  }

  lemma AsideLinked(op: int, k: Clause, suffix: string, n: nat, c: Ctx, lp: int, inLoop: bool, all: seq<Item>)
    requires NestedClause(k, inLoop) && (inLoop ==> lp >= 0)
    requires Within(EmitAside(op, k, suffix, n, c, lp), all) && Within([Lbl(n, "X")], all)
    ensures Linked(EmitAside(op, k, suffix, n, c, lp), all, lp)
    decreases k, 1
  {
    hide Linked, Within, EmitClause, NestedClause;
    var b := EmitClause(k, c, lp);
    LinkConcat([Jmp(op, n, suffix)] + [Op(OP_POP)] + b + [Jmp(OP_JMP, n, "X")], [Lbl(n, suffix)], all, lp);
    LinkConcat([Jmp(op, n, suffix)] + [Op(OP_POP)] + b, [Jmp(OP_JMP, n, "X")], all, lp);
    LinkConcat([Jmp(op, n, suffix)] + [Op(OP_POP)], b, all, lp);
    LinkConcat([Jmp(op, n, suffix)], [Op(OP_POP)], all, lp);
    OpLinked(OP_POP, all, lp);
    JumpLinked(op, n, suffix, all, lp);
    JumpLinked(OP_JMP, n, "X", all, lp);
    ClauseLinked(k, c, lp, inLoop, all);
  }

  lemma CallLinked(call: Call, onError: Clause, n: nat, c: Ctx, lp: int, inLoop: bool, all: seq<Item>)
    requires NestedClause(onError, inLoop) && (inLoop ==> lp >= 0)
    requires Within(EmitCall(call, onError, n, c, lp), all) && Within([Lbl(n, "X")], all)
    ensures Linked(EmitCall(call, onError, n, c, lp), all, lp)
    decreases onError, 2
  {
    hide Linked, Within, EmitAside, NestedClause;
    OpLinked(call.op, all, lp);
    if onError.Clause? {
      var start := [Op(OP_ONERROR)] + [Op(call.op)] + [Op(OP_DUP)];
      LinkConcat(start, EmitAside(OP_JPZ, onError, "A", n, c, lp), all, lp);
      LinkConcat([Op(OP_ONERROR)] + [Op(call.op)], [Op(OP_DUP)], all, lp);
      LinkConcat([Op(OP_ONERROR)], [Op(call.op)], all, lp);
      OpLinked(OP_ONERROR, all, lp);
      OpLinked(OP_DUP, all, lp);
      AsideLinked(OP_JPZ, onError, "A", n, c, lp, inLoop, all);
    }
  }

  lemma LockedLinked(locked: Clause, n: nat, c: Ctx, lp: int, inLoop: bool, all: seq<Item>)
    requires NestedClause(locked, inLoop) && (inLoop ==> lp >= 0)
    requires Within(EmitLocked(locked, n, c, lp), all) && Within([Lbl(n, "X")], all)
    ensures Linked(EmitLocked(locked, n, c, lp), all, lp)
    decreases locked, 2
  {
    hide Linked, Within, EmitAside, NestedClause;
    OpLinked(OP_DUP, all, lp);
    if locked.Clause? {
      var start := [Op(OP_DUP)] + [I(NumberLoad(ER_LCK))] + [Op(OP_EQ)];
      LinkConcat(start, EmitAside(OP_JZE, locked, "B", n, c, lp), all, lp);
      TestLinked(all, lp);
      AsideLinked(OP_JZE, locked, "B", n, c, lp, inLoop, all);
    }
  }

  lemma TestLinked(all: seq<Item>, lp: int)
    ensures Linked([Op(OP_DUP)] + [I(NumberLoad(ER_LCK))] + [Op(OP_EQ)], all, lp)
  {
  }

  lemma ChoiceLinked(s: Stmt, n: nat, c: Ctx, lp: int, inLoop: bool, all: seq<Item>)
    requires s.File? && NestedClause(s.thn, inLoop) && NestedClause(s.els, inLoop) && (inLoop ==> lp >= 0)
    requires Within(EmitChoice(s, n, c, lp), all)
    ensures Linked(EmitChoice(s, n, c, lp), all, lp) && Within([Lbl(n, "X")], all)
    decreases s, 1
  {
    hide Linked, Within, EmitLast, EmitSuccess, NestedClause;
    JumpLinked(OP_JZE, n, "X", all, lp);
    JumpLinked(OP_JNZ, n, "E", all, lp);
    OpLinked(OP_POP, all, lp);
    if !s.call.thenElse {
      LinkConcat([Op(OP_POP)], [Lbl(n, "X")], all, lp);
    } else if s.thn.Absent? {
      LinkConcat([Jmp(OP_JZE, n, "X")], EmitLast(s.els, n, c, lp), all, lp);
      LastLinked(s.els, n, c, lp, inLoop, all);
    } else {
      LinkConcat([Jmp(OP_JNZ, n, "E")], EmitSuccess(s, n, c, lp), all, lp);
      SuccessLinked(s, n, c, lp, inLoop, all);
    }
  }

  lemma SuccessLinked(s: Stmt, n: nat, c: Ctx, lp: int, inLoop: bool, all: seq<Item>)
    requires s.File? && NestedClause(s.thn, inLoop) && NestedClause(s.els, inLoop) && (inLoop ==> lp >= 0)
    requires Within(EmitSuccess(s, n, c, lp), all)
    ensures Linked(EmitSuccess(s, n, c, lp), all, lp) && Within([Lbl(n, "X")], all) && Within([Lbl(n, "E")], all)
    decreases s, 0
  {
    hide Linked, Within, EmitClause, EmitLast, NestedClause, AfterClause;
    if s.els.Absent? {
      LinkConcat(EmitClause(s.thn, c, lp), [Lbl(n, "E")] + [Lbl(n, "X")], all, lp);
      LinkConcat([Lbl(n, "E")], [Lbl(n, "X")], all, lp);
      JumpLinked(OP_JMP, n, "X", all, lp);
      JumpLinked(OP_JMP, n, "E", all, lp);
    } else {
      var c1 := AfterClause(s.thn, c);
      LinkConcat(EmitClause(s.thn, c, lp),
                 [Jmp(OP_JMP, n, "X")] + [Lbl(n, "E")] + EmitLast(s.els, n, c1, lp), all, lp);
      TurnLinked(s.els, n, c1, lp, inLoop, all);
    }
    ClauseLinked(s.thn, c, lp, inLoop, all);
  }
}
