/** Every instruction of a well-formed program fits its byte layout, except for
    literals beyond 32 bits. */
module Shapes {
  import opened Isa
  import opened Listing
  import opened Syntax
  import opened Programs
  import opened Names
  import opened Storages
  import opened Generate
  import opened ConstructStack
  import opened Structure
  import opened Machines
  import opened Meanings
  import opened Runs
  import opened StatementRuns

  /** Every variable can be addressed. */
  ghost predicate Addressable(st: Storage) {
    forall x :: x in st.info ==> Encodable(VarLoad(st.info[x]))
  }

  ghost predicate Shaped(items: seq<Item>) {
    forall i :: 0 <= i < |items| && items[i].I? ==> items[i].ins.LongInt? || Encodable(items[i].ins)
  }

  /** Blocks have fewer than 32768 members. */
  ghost predicate ShortBlocks(st: Storage) {
    forall b :: b in st.blocks ==> |st.blocks[b].cells| < 0x8000
  }

  lemma CountedAddressable(st: Storage)
    requires WellPlaced(st) && ShortBlocks(st) && st.count <= 0x1_0000
    ensures Addressable(st)
  {
    hide Ordered;
    forall x | x in st.info ensures Encodable(VarLoad(st.info[x])) {
      assert AtHome(st, x);
    }
  }

  lemma ShapeConcat(a: seq<Item>, b: seq<Item>)
    requires Shaped(a) && Shaped(b)
    ensures Shaped(a + b)
  {
  }

  lemma OpShape(op: int)
    requires IsPlainOp(op)
    ensures Shaped([Op(op)])
  {
  }

  lemma JumpShape(op: int, n: int, suffix: string)
    requires IsJumpOp(op)
    ensures Shaped([Jmp(op, n, suffix)]) && Shaped([Lbl(n, suffix)])
  {
  }

  lemma {:induction false} TextShape(s: string)
    ensures Shaped(TextLoad(s))
  {
    if s != "" {
      MoreShape(s[ChunkSize(s)..]);
    }
  }

  lemma {:induction false} MoreShape(s: string)
    ensures Shaped(MoreText(s))
    decreases |s|
  {
    if s != "" {
      MoreShape(s[ChunkSize(s)..]);
    }
  }

  lemma VariableShape(name: string, c: Ctx, st: Storage)
    requires Extends(AfterE(Var(name), c).vars, st) && Addressable(st)
    ensures Shaped(EmitE(Var(name), c))
  {
    TouchKeeps(c.vars, name);
    var loc := st.info[name];
    assert EmitE(Var(name), c) == [I(VarLoad(loc))];
  }

  lemma {:induction false} ExprShape(e: Expr, c: Ctx, st: Storage)
    requires FormedExpr(e) && Extends(AfterE(e, c).vars, st) && Addressable(st)
    ensures Shaped(EmitE(e, c))
    decreases e
  {
    match e
    case Num(n) =>
    case Str(s) => TextShape(s);
    case Var(name) => VariableShape(name, c, st);
    case App(op, args) =>
      hide Shaped, Extends, Addressable, Arity;
      ArgsShape(args, c, st);
      OpShape(op);
      ShapeConcat(EmitArgs(args, c), [Op(op)]);
    case IfThen(t, a, b) =>
      hide Shaped, Extends, Addressable, AfterE;
      var c1 := AfterE(t, c);
      var n, c2 := c1.next, c1.(next := c1.next + 1);
      var c3 := AfterE(a, c2);
      ExprExtends(a, c2);
      ExprExtends(b, c3);
      ExtendsTrans(c3.vars, AfterE(b, c3).vars, st);
      ExtendsTrans(c2.vars, c3.vars, st);
      ExprShape(t, c, st);
      ExprShape(a, c2, st);
      ExprShape(b, c3, st);
      JumpShape(OP_JFALSE, n, "E");
      JumpShape(OP_JMP, n, "X");
      var p1 := EmitE(t, c) + [Jmp(OP_JFALSE, n, "E")];
      var p2 := p1 + EmitE(a, c2) + [Jmp(OP_JMP, n, "X")];
      var p3 := p2 + [Lbl(n, "E")] + EmitE(b, c3);
      ShapeConcat(EmitE(t, c), [Jmp(OP_JFALSE, n, "E")]);
      ShapeConcat(p1, EmitE(a, c2));
      ShapeConcat(p1 + EmitE(a, c2), [Jmp(OP_JMP, n, "X")]);
      ShapeConcat(p2, [Lbl(n, "E")]);
      ShapeConcat(p2 + [Lbl(n, "E")], EmitE(b, c3));
      ShapeConcat(p3, [Lbl(n, "X")]);
  }

  lemma {:induction false} ArgsShape(args: Exprs, c: Ctx, st: Storage)
    requires FormedArgs(args) && Extends(AfterArgs(args, c).vars, st) && Addressable(st)
    ensures Shaped(EmitArgs(args, c))
    decreases args
  {
    hide Extends, Addressable;
    match args
    case NoArgs =>
    case Args(init, last) =>
      hide Shaped;
      var c1 := AfterArgs(init, c);
      ExprExtends(last, c1);
      ExtendsTrans(c1.vars, AfterE(last, c1).vars, st);
      ArgsShape(init, c, st);
      ExprShape(last, c1, st);
      ShapeConcat(EmitArgs(init, c), EmitE(last, c1));
  }

  lemma {:induction false} BlockShape(b: Block, c: Ctx, lp: int, st: Storage)
    requires FormedBlock(b) && Extends(AfterBlock(b, c).vars, st) && Addressable(st)
    ensures Shaped(EmitBlock(b, c, lp))
    decreases b, 0
  {
    hide Extends, Addressable, EmitStmt, AfterStmt, FormedStmt;
    match b
    case Empty =>
    case Seq(init, last) =>
      hide Shaped;
      var c1 := AfterBlock(init, c);
      StmtExtends(last, c1);
      ExtendsTrans(c1.vars, AfterStmt(last, c1).vars, st);
      BlockShape(init, c, lp, st);
      StmtShape(last, c1, lp, st);
      ShapeConcat(EmitBlock(init, c, lp), EmitStmt(last, c1, lp));
  }

  lemma ClauseShape(k: Clause, c: Ctx, lp: int, st: Storage)
    requires FormedClause(k) && Extends(AfterClause(k, c).vars, st) && Addressable(st)
    ensures Shaped(EmitClause(k, c, lp))
    decreases k, 0
  {
    hide Extends, Addressable, EmitBlock, AfterBlock, FormedBlock;
    if k.Clause? {
      BlockShape(k.body, c, lp, st);
    }
  }

  lemma StmtShape(s: Stmt, c: Ctx, lp: int, st: Storage)
    requires FormedStmt(s) && Extends(AfterStmt(s, c).vars, st) && Addressable(st)
    ensures Shaped(EmitStmt(s, c, lp))
    decreases s, 5
  {
    match s {
      case Set(name, op, e, short) =>
        hide Shaped, Extends, Addressable, EmitE, AfterE, FormedExpr;
        SetShape(name, op, e, short, c, lp, st);
      case Loop(body) =>
        hide Shaped, Extends, Addressable, EmitBlock, AfterBlock, FormedBlock;
        var n, inner := c.next, EmitBlock(body, Opened(c), c.next);
        BlockShape(body, Opened(c), n, st);
        JumpShape(OP_JMP, n, "R");
        JumpShape(OP_JMP, n, "X");
        ShapeConcat([Lbl(n, "R")], inner);
        ShapeConcat([Lbl(n, "R")] + inner, [Jmp(OP_JMP, n, "R")]);
        ShapeConcat([Lbl(n, "R")] + inner + [Jmp(OP_JMP, n, "R")], [Lbl(n, "X")]);
      case Test(until, e) =>
        hide Shaped, Extends, Addressable, EmitE, AfterE, FormedExpr;
        ExprShape(e, c, st);
        JumpShape(TestOp(until), lp, "X");
        ShapeConcat(EmitE(e, c), [Jmp(TestOp(until), lp, "X")]);
      case If(cond, thn, els) =>
        hide Shaped, Extends, Addressable, EmitE, AfterE, FormedExpr, EmitIf, AfterClause, FormedClause;
        var c1 := Opened(AfterE(cond, c));
        ClauseExtends(els, AfterClause(thn, c1));
        ExtendsTrans(AfterClause(thn, c1).vars, AfterStmt(s, c).vars, st);
        ClauseExtends(thn, c1);
        ExtendsTrans(c1.vars, AfterClause(thn, c1).vars, st);
        ExprShape(cond, c, st);
        IfShape(s, AfterE(cond, c).next, c1, lp, st);
        ShapeConcat(EmitE(cond, c), EmitIf(s, AfterE(cond, c).next, c1, lp));
      case Case(arms) =>
        hide Shaped, Extends, Addressable, EmitArms, AfterArms, FormedArms;
        ArmsShape(arms, c.next, Opened(c), lp, st);
        JumpShape(OP_JMP, c.next, "X");
        ShapeConcat(EmitArms(arms, c.next, Opened(c), lp), [Lbl(c.next, "X")]);
      case File(_, args, _, _, _, _) =>
        hide Shaped, Extends, Addressable, EmitArgs, AfterArgs, EmitFile, AfterClause, FormedClause, FormedArgs;
        var c1 := AfterArgs(args, c);
        FileExtends(s, c, st);
        ArgsShape(args, c, st);
        FileShape(s, c1.next, Opened(c1), lp, st);
        ShapeConcat(EmitArgs(args, c), EmitFile(s, c1.next, Opened(c1), lp));
      case _ =>
    }
  }

  lemma SetShape(name: string, op: int, e: Expr, short: bool, c: Ctx, lp: int, st: Storage)
    requires FormedSet(op, e, short) && Extends(AfterStmt(Set(name, op, e, short), c).vars, st) && Addressable(st)
    ensures Shaped(EmitStmt(Set(name, op, e, short), c, lp))
  {
    hide Shaped, Extends, Addressable, EmitE, AfterE, FormedExpr;
    var c1 := AfterE(Var(name), c);
    if !short {
      ExprExtends(e, c1);
      ExtendsTrans(c1.vars, AfterE(e, c1).vars, st);
      ExprShape(e, c1, st);
      OpShape(op);
      OpShape(OP_DUP);
      OpShape(OP_STOR);
      ShapeConcat(EmitE(e, c1), [Op(op)]);
      ShapeConcat([Op(OP_DUP)], EmitE(e, c1));
      ShapeConcat([Op(OP_DUP)] + EmitE(e, c1), [Op(op)]);
      ShapeConcat([Op(OP_DUP)] + EmitE(e, c1) + [Op(op)], [Op(OP_STOR)]);
    } else {
      OpShape(ShortOp(op, e));
    }
    VariableShape(name, c, st);
    ShapeConcat(EmitE(Var(name), c), StoreCode(op, e, short, c1));
  }

  lemma LastShape(k: Clause, n: nat, c: Ctx, lp: int, st: Storage)
    requires FormedClause(k) && Extends(AfterClause(k, c).vars, st) && Addressable(st)
    ensures Shaped(EmitLast(k, n, c, lp))
    decreases k, 1
  {
    hide Shaped, Extends, Addressable, EmitClause, AfterClause, FormedClause;
    ClauseShape(k, c, lp, st);
    JumpShape(OP_JMP, n, "X");
    ShapeConcat(EmitClause(k, c, lp), [Lbl(n, "X")]);
  }

  lemma TurnShape(k: Clause, n: nat, c: Ctx, lp: int, st: Storage)
    requires FormedClause(k) && Extends(AfterClause(k, c).vars, st) && Addressable(st)
    ensures Shaped([Jmp(OP_JMP, n, "X")] + [Lbl(n, "E")] + EmitLast(k, n, c, lp))
    decreases k, 2
  {
    hide Shaped, Extends, Addressable, EmitLast, AfterClause, FormedClause;
    LastShape(k, n, c, lp, st);
    JumpShape(OP_JMP, n, "X");
    JumpShape(OP_JMP, n, "E");
    ShapeConcat([Jmp(OP_JMP, n, "X")], [Lbl(n, "E")]);
    ShapeConcat([Jmp(OP_JMP, n, "X")] + [Lbl(n, "E")], EmitLast(k, n, c, lp));
  }

  lemma IfShape(s: Stmt, n: nat, c: Ctx, lp: int, st: Storage)
    requires s.If? && FormedClause(s.thn) && FormedClause(s.els) && Addressable(st)
    requires Extends(AfterClause(s.thn, c).vars, st) && Extends(AfterClause(s.els, AfterClause(s.thn, c)).vars, st)
    ensures Shaped(EmitIf(s, n, c, lp))
    decreases s, 2
  {
    hide Shaped, Extends, Addressable, EmitClause, EmitLast, AfterClause, FormedClause;
    JumpShape(OP_JTRUE, n, "X");
    JumpShape(OP_JFALSE, n, "E");
    if s.thn.Absent? {
      NoClauseAfter(s.thn, c);
      LastShape(s.els, n, c, lp, st);
      ShapeConcat([Jmp(OP_JTRUE, n, "X")], EmitLast(s.els, n, c, lp));
    } else {
      var c1 := AfterClause(s.thn, c);
      ClauseShape(s.thn, c, lp, st);
      if s.els.Absent? {
        ShapeConcat(EmitClause(s.thn, c, lp), [Lbl(n, "E")]);
      } else {
        TurnShape(s.els, n, c1, lp, st);
        ShapeConcat(EmitClause(s.thn, c, lp), [Jmp(OP_JMP, n, "X")] + [Lbl(n, "E")] + EmitLast(s.els, n, c1, lp));
      }
      ShapeConcat([Jmp(OP_JFALSE, n, "E")], EmitThen(s, n, c, lp));
    }
  }

  lemma NoClauseAfter(k: Clause, c: Ctx)
    ensures k.Absent? ==> AfterClause(k, c) == c
  {
  }

  lemma {:induction false} ArmsShape(arms: Arms, n: nat, c: Ctx, lp: int, st: Storage)
    requires FormedArms(arms) && Extends(AfterArms(arms, c).vars, st) && Addressable(st)
    ensures Shaped(EmitArms(arms, n, c, lp))
    decreases arms, 1
  {
    hide Extends, Addressable, EmitE, AfterE, EmitBlock, AfterBlock, FormedExpr, FormedBlock;
    match arms
    case NoArms =>
    case Arm(init, cond, body) =>
      hide Shaped;
      var k, c1 := CaseSuffix(Count(init) + 1), AfterArms(init, c);
      var c2 := AfterE(cond, c1);
      BlockExtends(body, c2);
      ExtendsTrans(c2.vars, AfterBlock(body, c2).vars, st);
      ExprExtends(cond, c1);
      ExtendsTrans(c1.vars, c2.vars, st);
      ArmsShape(init, n, c, lp, st);
      ExprShape(cond, c1, st);
      BlockShape(body, c2, lp, st);
      JumpShape(OP_JFALSE, n, k);
      JumpShape(OP_JMP, n, "X");
      var p1 := EmitE(cond, c1) + [Jmp(OP_JFALSE, n, k)];
      var p2 := p1 + EmitBlock(body, c2, lp);
      ShapeConcat(EmitE(cond, c1), [Jmp(OP_JFALSE, n, k)]);
      ShapeConcat(p1, EmitBlock(body, c2, lp));
      ShapeConcat(p2, [Jmp(OP_JMP, n, "X")]);
      ShapeConcat(p2 + [Jmp(OP_JMP, n, "X")], [Lbl(n, k)]);
      ShapeConcat(EmitArms(init, n, c, lp), EmitArm(cond, body, n, Count(init) + 1, c1, lp));
  }

  lemma FileShape(s: Stmt, n: nat, c: Ctx, lp: int, st: Storage)
    requires s.File? && FormedStmt(s) && Addressable(st)
    requires var c2 := AfterClause(s.onError, c); var c3 := AfterClause(s.locked, c2); var c4 := AfterClause(s.thn, c3);
      && Extends(c2.vars, st) && Extends(c3.vars, st) && Extends(c4.vars, st)
      && Extends(AfterClause(s.els, c4).vars, st)
    ensures Shaped(EmitFile(s, n, c, lp))
    decreases s, 3
  {
    hide Extends, Addressable, EmitCall, EmitLocked, EmitChoice, AfterClause, FormedClause, FormedArgs;
    var c2 := AfterClause(s.onError, c);
    var x, y, z := EmitLock(s.call, s.locked), EmitCall(s.call, s.onError, n, c, lp), EmitLocked(s.locked, n, c2, lp);
    assert Shaped(x);
    hide Shaped;
    CallShape(s.call, s.onError, n, c, lp, st);
    LockedShape(s.locked, n, c2, lp, st);
    ChoiceShape(s, n, AfterClause(s.locked, c2), lp, st);
    ShapeConcat(x, y);
    ShapeConcat(x + y, z);
    ShapeConcat(x + y + z, EmitChoice(s, n, AfterClause(s.locked, c2), lp));
  }

  lemma AsideShape(op: int, k: Clause, suffix: string, n: nat, c: Ctx, lp: int, st: Storage)
    requires IsJumpOp(op) && FormedClause(k) && Extends(AfterClause(k, c).vars, st) && Addressable(st)
    ensures Shaped(EmitAside(op, k, suffix, n, c, lp))
    decreases k, 1
  {
    hide Shaped, Extends, Addressable, EmitClause, AfterClause, FormedClause;
    var b := EmitClause(k, c, lp);
    ClauseShape(k, c, lp, st);
    JumpShape(op, n, suffix);
    JumpShape(OP_JMP, n, "X");
    OpShape(OP_POP);
    ShapeConcat([Jmp(op, n, suffix)], [Op(OP_POP)]);
    ShapeConcat([Jmp(op, n, suffix)] + [Op(OP_POP)], b);
    ShapeConcat([Jmp(op, n, suffix)] + [Op(OP_POP)] + b, [Jmp(OP_JMP, n, "X")]);
    ShapeConcat([Jmp(op, n, suffix)] + [Op(OP_POP)] + b + [Jmp(OP_JMP, n, "X")], [Lbl(n, suffix)]);
  }

  lemma CallShape(call: Call, onError: Clause, n: nat, c: Ctx, lp: int, st: Storage)
    requires IsFileOp(call.op) && FormedClause(onError) && Extends(AfterClause(onError, c).vars, st) && Addressable(st)
    ensures Shaped(EmitCall(call, onError, n, c, lp))
    decreases onError, 2
  {
    hide Extends, Addressable, EmitAside, AfterClause, FormedClause;
    if onError.Clause? {
      var start := [Op(OP_ONERROR)] + [Op(call.op)] + [Op(OP_DUP)];
      assert Shaped(start);
      AsideShape(OP_JPZ, onError, "A", n, c, lp, st);
      ShapeConcat(start, EmitAside(OP_JPZ, onError, "A", n, c, lp));
    }
  }

  lemma LockedShape(locked: Clause, n: nat, c: Ctx, lp: int, st: Storage)
    requires FormedClause(locked) && Extends(AfterClause(locked, c).vars, st) && Addressable(st)
    ensures Shaped(EmitLocked(locked, n, c, lp))
    decreases locked, 2
  {
    hide Extends, Addressable, EmitAside, AfterClause, FormedClause;
    if locked.Clause? {
      var start := [Op(OP_DUP)] + [I(NumberLoad(ER_LCK))] + [Op(OP_EQ)];
      assert Shaped(start);
      AsideShape(OP_JZE, locked, "B", n, c, lp, st);
      ShapeConcat(start, EmitAside(OP_JZE, locked, "B", n, c, lp));
    }
  }

  lemma ChoiceShape(s: Stmt, n: nat, c: Ctx, lp: int, st: Storage)
    requires s.File? && FormedClause(s.thn) && FormedClause(s.els) && Addressable(st)
    requires Extends(AfterClause(s.thn, c).vars, st) && Extends(AfterClause(s.els, AfterClause(s.thn, c)).vars, st)
    ensures Shaped(EmitChoice(s, n, c, lp))
    decreases s, 2
  {
    hide Shaped, Extends, Addressable, EmitClause, EmitLast, AfterClause, FormedClause;
    JumpShape(OP_JZE, n, "X");
    JumpShape(OP_JNZ, n, "E");
    OpShape(OP_POP);
    if !s.call.thenElse {
      ShapeConcat([Op(OP_POP)], [Lbl(n, "X")]);
    } else if s.thn.Absent? {
      NoClauseAfter(s.thn, c);
      LastShape(s.els, n, c, lp, st);
      ShapeConcat([Jmp(OP_JZE, n, "X")], EmitLast(s.els, n, c, lp));
    } else {
      var c1 := AfterClause(s.thn, c);
      ClauseShape(s.thn, c, lp, st);
      if s.els.Absent? {
        ShapeConcat([Lbl(n, "E")], [Lbl(n, "X")]);
        ShapeConcat(EmitClause(s.thn, c, lp), [Lbl(n, "E")] + [Lbl(n, "X")]);
      } else {
        TurnShape(s.els, n, c1, lp, st);
        ShapeConcat(EmitClause(s.thn, c, lp), [Jmp(OP_JMP, n, "X")] + [Lbl(n, "E")] + EmitLast(s.els, n, c1, lp));
      }
      ShapeConcat([Jmp(OP_JNZ, n, "E")], EmitSuccess(s, n, c, lp));
    }
  }
}
