/** The programmer's labels in the code of a nested program are those of the program. */
module UserLabels {
  import opened Isa
  import opened Listing
  import opened Syntax
  import opened Programs
  import opened Names
  import opened Generate
  import opened ConstructStack
  import opened Structure

  /** Every label in this code is generated or one of these. */
  ghost predicate Marked(items: seq<Item>, m: set<string>) {
    forall name :: D(name) in items ==> IsGenerated(name) || name in m
  }

  predicate Covers(m: set<string>, names: seq<string>) {
    forall name :: name in names ==> name in m
  }

  lemma MarkedConcat(a: seq<Item>, b: seq<Item>, m: set<string>)
    requires Marked(a, m) && Marked(b, m)
    ensures Marked(a + b, m)
  {
  }

  lemma MarkedOne(x: Item, m: set<string>)
    requires x.D? ==> IsGenerated(x.name) || x.name in m
    ensures Marked([x], m) && Marked([], m)
  {
  }

  lemma MarkedLabel(n: nat, suffix: string, m: set<string>)
    ensures Marked([Lbl(n, suffix)], m)
  {
    MarkedOne(Lbl(n, suffix), m);
  }

  lemma {:induction false} TextMarks(s: string, m: set<string>)
    ensures Marked(TextLoad(s), m)
  {
    if s != "" {
      MoreMarks(s[ChunkSize(s)..], m);
    }
  }

  lemma {:induction false} MoreMarks(s: string, m: set<string>)
    ensures Marked(MoreText(s), m)
    decreases |s|
  {
    if s != "" {
      MoreMarks(s[ChunkSize(s)..], m);
    }
  }

  lemma {:induction false} ExprMarks(e: Expr, c: Ctx, m: set<string>)
    ensures Marked(EmitE(e, c), m)
    decreases e
  {
    match e
    case Num(n) =>
    case Str(s) => TextMarks(s, m);
    case Var(_) =>
    case App(op, args) =>
      hide Marked;
      ArgsMarks(args, c, m);
      MarkedOne(Op(op), m);
      MarkedConcat(EmitArgs(args, c), [Op(op)], m);
    case IfThen(t, a, b) =>
      hide Marked, AfterE;
      var c1 := AfterE(t, c);
      var n, c2 := c1.next, c1.(next := c1.next + 1);
      var c3 := AfterE(a, c2);
      var p1 := EmitE(t, c) + [Jmp(OP_JFALSE, n, "E")] + EmitE(a, c2);
      var p2 := p1 + [Jmp(OP_JMP, n, "X")] + [Lbl(n, "E")] + EmitE(b, c3);
      ExprMarks(t, c, m);
      ExprMarks(a, c2, m);
      ExprMarks(b, c3, m);
      MarkedOne(Jmp(OP_JFALSE, n, "E"), m);
      MarkedOne(Jmp(OP_JMP, n, "X"), m);
      MarkedLabel(n, "E", m);
      MarkedLabel(n, "X", m);
      MarkedConcat(EmitE(t, c), [Jmp(OP_JFALSE, n, "E")], m);
      MarkedConcat(EmitE(t, c) + [Jmp(OP_JFALSE, n, "E")], EmitE(a, c2), m);
      MarkedConcat(p1, [Jmp(OP_JMP, n, "X")], m);
      MarkedConcat(p1 + [Jmp(OP_JMP, n, "X")], [Lbl(n, "E")], m);
      MarkedConcat(p1 + [Jmp(OP_JMP, n, "X")] + [Lbl(n, "E")], EmitE(b, c3), m);
      MarkedConcat(p2, [Lbl(n, "X")], m);
  }

  lemma {:induction false} ArgsMarks(args: Exprs, c: Ctx, m: set<string>)
    ensures Marked(EmitArgs(args, c), m)
    decreases args
  {
    hide Marked;
    match args
    case NoArgs => MarkedOne(Op(0), m);
    case Args(init, last) =>
      ArgsMarks(init, c, m);
      ExprMarks(last, AfterArgs(init, c), m);
      MarkedConcat(EmitArgs(init, c), EmitE(last, AfterArgs(init, c)), m);
  }

  lemma {:induction false} BlockMarks(b: Block, c: Ctx, lp: int, m: set<string>)
    requires Covers(m, BlockLabs(b).marks)
    ensures Marked(EmitBlock(b, c, lp), m)
    decreases b, 0
  {
    hide Marked, EmitStmt, StmtLabs, AfterBlock;
    match b
    case Empty => MarkedOne(Op(0), m);
    case Seq(init, last) =>
      BlockMarks(init, c, lp, m);
      StmtMarks(last, AfterBlock(init, c), lp, m);
      MarkedConcat(EmitBlock(init, c, lp), EmitStmt(last, AfterBlock(init, c), lp), m);
  }

  lemma ClauseMarks(k: Clause, c: Ctx, lp: int, m: set<string>)
    requires Covers(m, ClauseLabs(k).marks)
    ensures Marked(EmitClause(k, c, lp), m)
    decreases k, 0
  {
    hide Marked, EmitBlock, BlockLabs, Covers;
    if k.Clause? {
      BlockMarks(k.body, c, lp, m);
    } else {
      MarkedOne(Op(0), m);
    }
  }

  lemma LastMarks(k: Clause, n: nat, c: Ctx, lp: int, m: set<string>)
    requires Covers(m, ClauseLabs(k).marks)
    ensures Marked(EmitLast(k, n, c, lp), m)
    decreases k, 1
  {
    hide Marked, EmitClause, ClauseLabs, Covers;
    ClauseMarks(k, c, lp, m);
    MarkedLabel(n, "X", m);
    MarkedConcat(EmitClause(k, c, lp), [Lbl(n, "X")], m);
  }

  lemma StmtMarks(s: Stmt, c: Ctx, lp: int, m: set<string>)
    requires Covers(m, StmtLabs(s).marks)
    ensures Marked(EmitStmt(s, c, lp), m)
    decreases s, 3
  {
    match s {
      case Set(name, op, e, short) => SetMarks(name, op, e, short, c, m);
      case Loop(body) =>
        hide Marked, EmitBlock, BlockLabs, Covers;
        var b, n := EmitBlock(body, Opened(c), c.next), c.next;
        BlockMarks(body, Opened(c), n, m);
        MarkedLabel(n, "R", m);
        MarkedLabel(n, "X", m);
        MarkedOne(Jmp(OP_JMP, n, "R"), m);
        MarkedConcat([Lbl(n, "R")], b, m);
        MarkedConcat([Lbl(n, "R")] + b, [Jmp(OP_JMP, n, "R")], m);
        MarkedConcat([Lbl(n, "R")] + b + [Jmp(OP_JMP, n, "R")], [Lbl(n, "X")], m);
      case Test(until, e) =>
        hide Marked;
        ExprMarks(e, c, m);
        MarkedOne(Jmp(TestOp(until), lp, "X"), m);
        MarkedConcat(EmitE(e, c), [Jmp(TestOp(until), lp, "X")], m);
      case If(cond, _, _) =>
        hide Marked, EmitIf;
        var c1 := AfterE(cond, c);
        ExprMarks(cond, c, m);
        IfMarks(s, c1.next, Opened(c1), lp, m);
        MarkedConcat(EmitE(cond, c), EmitIf(s, c1.next, Opened(c1), lp), m);
      case Case(arms) =>
        hide Marked, EmitArms, ArmsLabs, Covers;
        ArmsMarks(arms, c.next, Opened(c), lp, m);
        MarkedLabel(c.next, "X", m);
        MarkedConcat(EmitArms(arms, c.next, Opened(c), lp), [Lbl(c.next, "X")], m);
      case File(_, args, _, _, _, _) =>
        hide Marked, EmitFile, StmtLabs, Covers;
        var c1 := AfterArgs(args, c);
        ArgsMarks(args, c, m);
        FileMarks(s, c1.next, Opened(c1), lp, m);
        MarkedConcat(EmitArgs(args, c), EmitFile(s, c1.next, Opened(c1), lp), m);
      case _ =>
    }
  }

  lemma SetMarks(name: string, op: int, e: Expr, short: bool, c: Ctx, m: set<string>)
    ensures Marked(EmitStmt(Set(name, op, e, short), c, 0), m)
  {
    hide Marked, EmitE;
    var c1 := AfterE(Var(name), c);
    ExprMarks(Var(name), c, m);
    ExprMarks(e, c1, m);
    MarkedOne(Op(ShortOp(op, e)), m);
    MarkedOne(Op(OP_DUP), m);
    MarkedOne(Op(op), m);
    MarkedOne(Op(OP_STOR), m);
    MarkedConcat(EmitE(e, c1), [Op(op)], m);
    MarkedConcat([Op(OP_DUP)], EmitE(e, c1), m);
    MarkedConcat([Op(OP_DUP)] + EmitE(e, c1), [Op(op)], m);
    MarkedConcat([Op(OP_DUP)] + EmitE(e, c1) + [Op(op)], [Op(OP_STOR)], m);
    MarkedConcat(EmitE(Var(name), c), StoreCode(op, e, short, c1), m);
  }

  lemma IfMarks(s: Stmt, n: nat, c: Ctx, lp: int, m: set<string>)
    requires s.If? && Covers(m, StmtLabs(s).marks)
    ensures Marked(EmitIf(s, n, c, lp), m)
    decreases s, 2
  {
    hide Marked, EmitClause, EmitLast, ClauseLabs;
    MarkedOne(Jmp(OP_JTRUE, n, "X"), m);
    MarkedOne(Jmp(OP_JFALSE, n, "E"), m);
    if s.thn.Absent? {
      LastMarks(s.els, n, c, lp, m);
      MarkedConcat([Jmp(OP_JTRUE, n, "X")], EmitLast(s.els, n, c, lp), m);
    } else {
      var c1 := AfterClause(s.thn, c);
      var turn := [Jmp(OP_JMP, n, "X")] + [Lbl(n, "E")];
      ClauseMarks(s.thn, c, lp, m);
      LastMarks(s.els, n, c1, lp, m);
      TurnMarks(n, m);
      MarkedConcat(turn, EmitLast(s.els, n, c1, lp), m);
      MarkedConcat(EmitClause(s.thn, c, lp),
                   if s.els.Absent? then [Lbl(n, "E")] else turn + EmitLast(s.els, n, c1, lp), m);
      MarkedConcat([Jmp(OP_JFALSE, n, "E")], EmitThen(s, n, c, lp), m);
    }
  }

  lemma TurnMarks(n: nat, m: set<string>)
    ensures Marked([Jmp(OP_JMP, n, "X")] + [Lbl(n, "E")], m) && Marked([Lbl(n, "E")], m)
    ensures Marked([Lbl(n, "E")] + [Lbl(n, "X")], m)
  {
    hide Marked;
    MarkedLabel(n, "E", m);
    MarkedLabel(n, "X", m);
    MarkedOne(Jmp(OP_JMP, n, "X"), m);
    MarkedConcat([Jmp(OP_JMP, n, "X")], [Lbl(n, "E")], m);
    MarkedConcat([Lbl(n, "E")], [Lbl(n, "X")], m);
  }

  lemma {:induction false} ArmsMarks(arms: Arms, n: nat, c: Ctx, lp: int, m: set<string>)
    requires Covers(m, ArmsLabs(arms).marks)
    ensures Marked(EmitArms(arms, n, c, lp), m)
    decreases arms, 0
  {
    hide Marked, EmitArm, BlockLabs, AfterArms;
    match arms
    case NoArms => MarkedOne(Op(0), m);
    case Arm(init, cond, body) =>
      ArmsMarks(init, n, c, lp, m);
      ArmMarks(cond, body, n, Count(init) + 1, AfterArms(init, c), lp, m);
      MarkedConcat(EmitArms(init, n, c, lp), EmitArm(cond, body, n, Count(init) + 1, AfterArms(init, c), lp), m);
  }

  lemma ArmMarks(cond: Expr, body: Block, n: nat, k: nat, c: Ctx, lp: int, m: set<string>)
    requires Covers(m, BlockLabs(body).marks)
    ensures Marked(EmitArm(cond, body, n, k, c, lp), m)
    decreases body, 1
  {
    hide Marked, EmitE, AfterE, EmitBlock, BlockLabs, Covers;
    var e, b := EmitE(cond, c), EmitBlock(body, AfterE(cond, c), lp);
    var test, leave := [Jmp(OP_JFALSE, n, CaseSuffix(k))], [Jmp(OP_JMP, n, "X")];
    ExprMarks(cond, c, m);
    BlockMarks(body, AfterE(cond, c), lp, m);
    MarkedOne(test[0], m);
    MarkedOne(leave[0], m);
    MarkedLabel(n, CaseSuffix(k), m);
    MarkedConcat(e, test, m);
    MarkedConcat(e + test, b, m);
    MarkedConcat(e + test + b, leave, m);
    MarkedConcat(e + test + b + leave, [Lbl(n, CaseSuffix(k))], m);
  }

  lemma AsideMarks(op: int, k: Clause, suffix: string, n: nat, c: Ctx, lp: int, m: set<string>)
    requires Covers(m, ClauseLabs(k).marks)
    ensures Marked(EmitAside(op, k, suffix, n, c, lp), m)
    decreases k, 1
  {
    hide Marked, EmitClause, ClauseLabs, Covers;
    var test, b, leave := [Jmp(op, n, suffix)], EmitClause(k, c, lp), [Jmp(OP_JMP, n, "X")];
    ClauseMarks(k, c, lp, m);
    MarkedOne(test[0], m);
    MarkedOne(Op(OP_POP), m);
    MarkedOne(leave[0], m);
    MarkedLabel(n, suffix, m);
    MarkedConcat(test, [Op(OP_POP)], m);
    MarkedConcat(test + [Op(OP_POP)], b, m);
    MarkedConcat(test + [Op(OP_POP)] + b, leave, m);
    MarkedConcat(test + [Op(OP_POP)] + b + leave, [Lbl(n, suffix)], m);
  }

  lemma CallMarks(call: Call, k: Clause, n: nat, c: Ctx, lp: int, m: set<string>)
    requires Covers(m, ClauseLabs(k).marks)
    ensures Marked(EmitCall(call, k, n, c, lp), m)
    decreases k, 2
  {
    hide EmitAside, ClauseLabs, Covers;
    AsideMarks(OP_JPZ, k, "A", n, c, lp, m);
  }

  lemma LockedMarks(k: Clause, n: nat, c: Ctx, lp: int, m: set<string>)
    requires Covers(m, ClauseLabs(k).marks)
    ensures Marked(EmitLocked(k, n, c, lp), m)
    decreases k, 2
  {
    hide EmitAside, ClauseLabs, Covers;
    AsideMarks(OP_JZE, k, "B", n, c, lp, m);
  }

  lemma FileMarks(s: Stmt, n: nat, c: Ctx, lp: int, m: set<string>)
    requires s.File? && Covers(m, StmtLabs(s).marks)
    ensures Marked(EmitFile(s, n, c, lp), m)
    decreases s, 2
  {
    hide Marked, EmitLock, EmitCall, EmitLocked, EmitChoice, ClauseLabs, AfterClause;
    var c1 := AfterClause(s.onError, c);
    var c2 := AfterClause(s.locked, c1);
    var x, y, z := EmitLock(s.call, s.locked), EmitCall(s.call, s.onError, n, c, lp), EmitLocked(s.locked, n, c1, lp);
    LockMarks(s.call, s.locked, m);
    CallMarks(s.call, s.onError, n, c, lp, m);
    LockedMarks(s.locked, n, c1, lp, m);
    ChoiceMarks(s, n, c2, lp, m);
    MarkedConcat(x, y, m);
    MarkedConcat(x + y, z, m);
    MarkedConcat(x + y + z, EmitChoice(s, n, c2, lp), m);
  }

  lemma LockMarks(call: Call, locked: Clause, m: set<string>)
    ensures Marked(EmitLock(call, locked), m)
  {
  }

  lemma ChoiceMarks(s: Stmt, n: nat, c: Ctx, lp: int, m: set<string>)
    requires s.File? && Covers(m, ClauseLabs(s.thn).marks) && Covers(m, ClauseLabs(s.els).marks)
    ensures Marked(EmitChoice(s, n, c, lp), m)
    decreases s, 1
  {
    hide Marked, EmitClause, EmitLast, ClauseLabs, Covers, AfterClause;
    var c1 := AfterClause(s.thn, c);
    var turn := [Jmp(OP_JMP, n, "X")] + [Lbl(n, "E")];
    MarkedOne(Op(OP_POP), m);
    MarkedOne(Jmp(OP_JZE, n, "X"), m);
    MarkedOne(Jmp(OP_JNZ, n, "E"), m);
    MarkedLabel(n, "X", m);
    MarkedConcat([Op(OP_POP)], [Lbl(n, "X")], m);
    LastMarks(s.els, n, c, lp, m);
    MarkedConcat([Jmp(OP_JZE, n, "X")], EmitLast(s.els, n, c, lp), m);
    ClauseMarks(s.thn, c, lp, m);
    LastMarks(s.els, n, c1, lp, m);
    TurnMarks(n, m);
    MarkedConcat(turn, EmitLast(s.els, n, c1, lp), m);
    MarkedConcat(EmitClause(s.thn, c, lp),
                 if s.els.Absent? then [Lbl(n, "E")] + [Lbl(n, "X")] else turn + EmitLast(s.els, n, c1, lp), m);
    MarkedConcat([Jmp(OP_JNZ, n, "E")], EmitSuccess(s, n, c, lp), m);
  }
}
