/** Compiling a statement leaves the code before it as it was. */
module Growth {
  import opened Isa
  import opened Listing
  import opened Syntax
  import opened Programs
  import opened Names
  import opened Generate
  import opened ConstructStack

  /** The first n items are still there. */
  predicate Keeps(g: GState, r: Gen, n: nat) {
    n <= |g.list| && (r.Good? ==> n <= |r.g.list| && r.g.list[..n] == g.list[..n])
  }

  lemma {:induction false} BlockKeeps(b: Block, g: GState, n: nat)
    requires n <= |g.list|
    ensures Keeps(g, GenBlock(b, g), n)
    decreases b, 0
  {
    hide GenStmt;
    match b
    case Empty =>
    case Seq(init, last) =>
      BlockKeeps(init, g, n);
      if GenBlock(init, g).Good? {
        StmtKeeps(last, GenBlock(init, g).g, n);
      }
  }

  lemma ClauseKeeps(k: Clause, g: GState, n: nat)
    requires n <= |g.list|
    ensures Keeps(g, GenClause(k, g), n)
    decreases k, 0
  {
    if k.Clause? {
      BlockKeeps(k.body, g, n);
    }
  }

  lemma StmtKeeps(s: Stmt, g: GState, n: nat)
    requires n <= |g.list|
    ensures Keeps(g, GenStmt(s, g), n)
    decreases s, 3
  {
    hide EmitE, AfterE, GenIf, GenArms, GenFile, FindLoop, EmitArgs, AfterArgs;
    match s {
      case Set(name, op, e, short) => SetKeeps(name, op, e, short, g, n);
      case If(c, _, _) => IfKeeps(s, Open(Value(g, c), IfEntry), n);
      case Case(arms) =>
        ElementsKeep(arms, Open(g, CaseEntry), n);
      case File(call, args, _, _, _, _) => FileKeeps(s, GenOperands(call, args, g), |g.list|, n);
      case _ =>
    }
  }

  lemma SetKeeps(name: string, op: int, e: Expr, short: bool, g: GState, n: nat)
    requires n <= |g.list|
    ensures Keeps(g, Good(GenSet(name, op, e, short, g)), n)
  {
    hide EmitE, AfterE, StoreCode;
  }

  lemma IfKeeps(s: Stmt, g: GState, n: nat)
    requires s.If? && n <= |g.list|
    ensures Keeps(g, GenIf(s, g), n)
    decreases s, 2
  {
    hide GenThen, GenElse;
    ElseKeeps(s.els, JumpTop(g, OP_JTRUE, "X"), n);
    ThenKeeps(s, JumpTop(g, OP_JFALSE, "E"), n);
  }

  lemma ThenKeeps(s: Stmt, g: GState, n: nat)
    requires s.If? && n <= |g.list|
    ensures Keeps(g, GenThen(s, g), n)
    decreases s, 1
  {
    hide GenClause, GenElse;
    ClauseKeeps(s.thn, g, n);
    var g1 := GenClause(s.thn, g);
    if g1.Good? && s.els.Clause? {
      var g2 := Define(JumpTop(g1.g, OP_JMP, "X"), TopLabel(g1.g, "E"));
      if g2.Good? {
        ElseKeeps(s.els, g2.g, n);
        assert IsTop(g1.g, IfEntry) ==> GenThen(s, g) == GenElse(s.els, g2.g);
      }
    }
  }

  lemma ElseKeeps(els: Clause, g: GState, n: nat)
    requires n <= |g.list|
    ensures Keeps(g, GenElse(els, g), n)
    decreases els, 1
  {
    hide GenClause;
    ClauseKeeps(els, g, n);
  }

  lemma ElementsKeep(arms: Arms, g: GState, n: nat)
    requires n <= |g.list|
    ensures Keeps(g, GenElements(arms, g), n)
    decreases arms, 1
  {
    ArmsKeep(arms, g, n);
  }

  lemma {:induction false} ArmsKeep(arms: Arms, g: GState, n: nat)
    requires n <= |g.list|
    ensures Keeps(g, GenArms(arms, g), n)
    decreases arms, 0
  {
    hide EmitE, AfterE, GenBlock;
    match arms
    case NoArms =>
    case Arm(init, cond, body) =>
      ArmsKeep(init, g, n);
      var g1 := GenArms(init, g);
      if g1.Good? && NextArm(g1.g).Good? {
        var g2 := Value(NextArm(g1.g).g, cond);
        if IsTop(g2, CaseEntry) {
          BlockKeeps(body, JumpTop(g2, OP_JFALSE, CaseSuffix(g2.stack[0].element)), n);
        }
      }
  }

  lemma AsideKeeps(k: Clause, suffix: string, g: GState, n: nat)
    requires n <= |g.list|
    ensures Keeps(g, GenAside(k, suffix, g), n)
    decreases k, 1
  {
    hide GenClause;
    ClauseKeeps(k, g, n);
  }

  lemma CallKeeps(call: Call, onError: Clause, g: GState, n: nat)
    requires n <= |g.list|
    ensures Keeps(g, GenCall(call, onError, g), n)
    decreases onError, 2
  {
    hide GenAside;
    var g1 := Put(g, [Op(OP_ONERROR)] + [Op(call.op)] + [Op(OP_DUP)]);
    AsideKeeps(onError, "A", Put(JumpTop(g1, OP_JPZ, "A"), [Op(OP_POP)]), n);
  }

  /** Only the item at t is replaced. */
  lemma LockedKeeps(call: Call, locked: Clause, t: int, g: GState, n: nat)
    requires n <= |g.list| && n <= t
    ensures Keeps(g, GenLocked(call, locked, t, g), n)
    decreases locked, 2
  {
    hide GenAside;
    if locked.Clause? && call.canLock && 0 <= t < |g.list| {
      var g1 := Put(g.(list := g.list[t := Op(OP_NOWAIT)]), [Op(OP_DUP)] + [I(NumberLoad(ER_LCK))] + [Op(OP_EQ)]);
      AsideKeeps(locked, "B", Put(JumpTop(g1, OP_JZE, "B"), [Op(OP_POP)]), n);
    }
  }

  lemma FileKeeps(s: Stmt, g: GState, start: nat, n: nat)
    requires s.File? && n <= start <= |g.list| && (s.call.canLock ==> start < |g.list|)
    ensures Keeps(g, GenFile(s, g), n)
    decreases s, 2
  {
    hide GenCall, GenLocked, GenChoice;
    CallKeeps(s.call, s.onError, g, n);
    var g1 := GenCall(s.call, s.onError, g);
    if g1.Good? {
      LockedStep(s, |g.list| - 1, g1.g, n);
      var g2 := GenLocked(s.call, s.locked, |g.list| - 1, g1.g);
      if g2.Good? {
        ChoiceKeeps(s, g2.g, n);
      }
    }
  }

  lemma LockedStep(s: Stmt, t: int, g: GState, n: nat)
    requires s.File? && n <= |g.list| && (s.call.canLock ==> n <= t)
    ensures Keeps(g, GenLocked(s.call, s.locked, t, g), n)
    decreases s, 1
  {
    hide GenAside;
    if s.call.canLock {
      LockedKeeps(s.call, s.locked, t, g, n);
    }
  }

  lemma ChoiceKeeps(s: Stmt, g: GState, n: nat)
    requires s.File? && n <= |g.list|
    ensures Keeps(g, GenChoice(s, g), n)
    decreases s, 1
  {
    hide GenOther, GenSuccess;
    OtherKeeps(s.els, JumpTop(g, OP_JZE, "X"), n);
    SuccessKeeps(s, JumpTop(g, OP_JNZ, "E"), n);
  }

  lemma SuccessKeeps(s: Stmt, g: GState, n: nat)
    requires s.File? && n <= |g.list|
    ensures Keeps(g, GenSuccess(s, g), n)
    decreases s, 0
  {
    hide GenClause, GenOther;
    ClauseKeeps(s.thn, g, n);
    var g1 := GenClause(s.thn, g);
    if g1.Good? && s.els.Clause? {
      var g2 := Define(JumpTop(g1.g, OP_JMP, "X"), TopLabel(g1.g, "E"));
      if g2.Good? {
        OtherKeeps(s.els, g2.g, n);
        assert IsTop(g1.g, BackEndEntry) ==> GenSuccess(s, g) == GenOther(s.els, g2.g);
      }
    }
  }

  lemma OtherKeeps(els: Clause, g: GState, n: nat)
    requires n <= |g.list|
    ensures Keeps(g, GenOther(els, g), n)
    decreases els, 1
  {
    hide GenClause;
    ClauseKeeps(els, g, n);
  }
}
