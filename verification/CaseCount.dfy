/** Open CASE constructs are never lost: END CASE is the only statement that removes an
    entry without looking at its kind, and its own entry was added before. */
module CaseCount {
  import opened Isa
  import opened Listing
  import opened Programs
  import opened Names
  import opened Generate
  import opened ConstructStack

  function Cases(stack: seq<Entry>): nat {
    if stack == [] then 0 else (if stack[0].kind.CaseEntry? then 1 else 0) + Cases(stack[1..])
  }

  lemma {:induction false} CasesConcat(a: seq<Entry>, b: seq<Entry>)
    ensures Cases(a + b) == Cases(a) + Cases(b)
  {
    if a == [] {
      assert a + b == b;
    } else {
      assert (a + b)[1..] == a[1..] + b;
      CasesConcat(a[1..], b);
    }
  }

  lemma CasesCons(e: Entry, stack: seq<Entry>)
    ensures Cases([e] + stack) == (if e.kind.CaseEntry? then 1 else 0) + Cases(stack)
  {
    assert ([e] + stack)[1..] == stack;
  }

  predicate AtLeast(n: nat, r: Gen) {
    r.Good? ==> Cases(r.g.stack) >= n
  }

  lemma {:induction false} BlockCases(b: Block, g: GState)
    ensures AtLeast(Cases(g.stack), GenBlock(b, g))
    decreases b, 0
  {
    hide GenStmt, Cases;
    match b
    case Empty =>
    case Seq(init, last) =>
      BlockCases(init, g);
      if GenBlock(init, g).Good? {
        StmtCases(last, GenBlock(init, g).g);
      }
  }

  lemma ClauseCases(k: Clause, g: GState)
    ensures AtLeast(Cases(g.stack), GenClause(k, g))
    decreases k, 0
  {
    if k.Clause? {
      BlockCases(k.body, g);
    }
  }

  lemma StmtCases(s: Stmt, g: GState)
    ensures AtLeast(Cases(g.stack), GenStmt(s, g))
    decreases s, 3
  {
    hide EmitE, AfterE, GenIf, GenElements, GenFile, FindLoop, StoreCode, EmitArgs, AfterArgs;
    match s {
      case LoopMark => CasesCons(Entry(LoopEntry, g.ctx.next, 0), g.stack);
      case If(c, _, _) =>
        CasesCons(Entry(IfEntry, Value(g, c).ctx.next, 0), g.stack);
        IfCases(s, Open(Value(g, c), IfEntry), Cases(g.stack));
      case Case(arms) =>
        CasesCons(Entry(CaseEntry, g.ctx.next, 0), g.stack);
        ElementsCases(arms, Open(g, CaseEntry));
      case File(call, args, _, _, _, _) =>
        CasesCons(Entry(BackEndEntry, AfterArgs(args, g.ctx).next, 0), g.stack);
        FileCases(s, GenOperands(call, args, g), Cases(g.stack));
      case _ =>
    }
  }

  lemma IfCases(s: Stmt, g: GState, n: nat)
    requires s.If? && Cases(g.stack) >= n
    ensures AtLeast(n, GenIf(s, g))
    decreases s, 2
  {
    hide GenThen, GenElse, Cases;
    ElseCases(s.els, JumpTop(g, OP_JTRUE, "X"), n);
    ThenCases(s, JumpTop(g, OP_JFALSE, "E"), n);
  }

  lemma ThenCases(s: Stmt, g: GState, n: nat)
    requires s.If? && Cases(g.stack) >= n
    ensures AtLeast(n, GenThen(s, g))
    decreases s, 1
  {
    hide GenClause, GenElse;
    ClauseCases(s.thn, g);
    var g1 := GenClause(s.thn, g);
    if g1.Good? && s.els.Clause? {
      var g2 := Define(JumpTop(g1.g, OP_JMP, "X"), TopLabel(g1.g, "E"));
      if g2.Good? {
        ElseCases(s.els, g2.g, n);
        assert IsTop(g1.g, IfEntry) ==> GenThen(s, g) == GenElse(s.els, g2.g);
      }
    }
  }

  lemma ElseCases(els: Clause, g: GState, n: nat)
    requires Cases(g.stack) >= n
    ensures AtLeast(n, GenElse(els, g))
    decreases els, 1
  {
    hide GenClause;
    ClauseCases(els, g);
  }

  lemma NextArmCases(g: GState)
    ensures NextArm(g).Good? ==> Cases(NextArm(g).g.stack) == Cases(g.stack)
    ensures NextArm(g).Good? ==> g.stack != [] && NextArm(g).g.stack != []
    ensures NextArm(g).Good? ==> NextArm(g).g.stack[0].kind == g.stack[0].kind
  {
    if g.stack != [] {
      assert [g.stack[0]] + g.stack[1..] == g.stack;
      CasesCons(g.stack[0].(element := g.stack[0].element + 1), g.stack[1..]);
    }
  }

  lemma ElementsCases(arms: Arms, g: GState)
    ensures AtLeast(Cases(g.stack), GenElements(arms, g))
    decreases arms, 1
  {
    hide NextArm, Cases;
    ArmsCases(arms, g);
    if GenArms(arms, g).Good? {
      NextArmCases(GenArms(arms, g).g);
    }
  }

  lemma {:induction false} ArmsCases(arms: Arms, g: GState)
    ensures AtLeast(Cases(g.stack), GenArms(arms, g))
    decreases arms, 0
  {
    hide EmitE, AfterE, GenBlock, NextArm, Cases;
    match arms
    case NoArms =>
    case Arm(init, cond, body) =>
      ArmsCases(init, g);
      var g1 := GenArms(init, g);
      if g1.Good? && NextArm(g1.g).Good? {
        NextArmCases(g1.g);
        var g2 := Value(NextArm(g1.g).g, cond);
        if IsTop(g2, CaseEntry) {
          BlockCases(body, JumpTop(g2, OP_JFALSE, CaseSuffix(g2.stack[0].element)));
        }
      }
  }

  /** Clauses keep the count, and leave the statement's own entry on top. */
  predicate Inside(n: nat, r: Gen) {
    r.Good? ==> Cases(r.g.stack) >= n && IsTop(r.g, BackEndEntry)
  }

  lemma AsideCases(k: Clause, suffix: string, g: GState, n: nat)
    requires Cases(g.stack) >= n
    ensures Inside(n, GenAside(k, suffix, g))
    decreases k, 1
  {
    hide GenClause, Cases;
    ClauseCases(k, g);
  }

  lemma CallCases(call: Call, onError: Clause, g: GState, n: nat)
    requires Cases(g.stack) >= n && IsTop(g, BackEndEntry)
    ensures Inside(n, GenCall(call, onError, g))
    decreases onError, 2
  {
    hide GenAside, Cases;
    var g1 := Put(g, [Op(OP_ONERROR)] + [Op(call.op)] + [Op(OP_DUP)]);
    AsideCases(onError, "A", Put(JumpTop(g1, OP_JPZ, "A"), [Op(OP_POP)]), n);
  }

  lemma LockedCases(call: Call, locked: Clause, t: int, g: GState, n: nat)
    requires Cases(g.stack) >= n && IsTop(g, BackEndEntry)
    ensures Inside(n, GenLocked(call, locked, t, g))
    decreases locked, 2
  {
    hide GenAside, Cases;
    if locked.Clause? && call.canLock && 0 <= t < |g.list| {
      var g1 := Put(g.(list := g.list[t := Op(OP_NOWAIT)]), [Op(OP_DUP)] + [I(NumberLoad(ER_LCK))] + [Op(OP_EQ)]);
      AsideCases(locked, "B", Put(JumpTop(g1, OP_JZE, "B"), [Op(OP_POP)]), n);
    }
  }

  lemma FileCases(s: Stmt, g: GState, n: nat)
    requires s.File? && Cases(g.stack) >= n && IsTop(g, BackEndEntry)
    ensures AtLeast(n, GenFile(s, g))
    decreases s, 2
  {
    hide GenCall, GenLocked, GenChoice, Cases;
    CallCases(s.call, s.onError, g, n);
    var g1 := GenCall(s.call, s.onError, g);
    if g1.Good? {
      LockedCases(s.call, s.locked, |g.list| - 1, g1.g, n);
      var g2 := GenLocked(s.call, s.locked, |g.list| - 1, g1.g);
      if g2.Good? {
        ChoiceCases(s, g2.g, n);
      }
    }
  }

  lemma ChoiceCases(s: Stmt, g: GState, n: nat)
    requires s.File? && Cases(g.stack) >= n && IsTop(g, BackEndEntry)
    ensures AtLeast(n, GenChoice(s, g))
    decreases s, 1
  {
    hide GenOther, GenSuccess;
    OtherCases(s.els, JumpTop(g, OP_JZE, "X"), n);
    SuccessCases(s, JumpTop(g, OP_JNZ, "E"), n);
  }

  lemma SuccessCases(s: Stmt, g: GState, n: nat)
    requires s.File? && Cases(g.stack) >= n
    ensures AtLeast(n, GenSuccess(s, g))
    decreases s, 0
  {
    hide GenClause, GenOther;
    ClauseCases(s.thn, g);
    var g1 := GenClause(s.thn, g);
    if g1.Good? && s.els.Clause? {
      var g2 := Define(JumpTop(g1.g, OP_JMP, "X"), TopLabel(g1.g, "E"));
      if g2.Good? {
        OtherCases(s.els, g2.g, n);
        assert IsTop(g1.g, BackEndEntry) ==> GenSuccess(s, g) == GenOther(s.els, g2.g);
      }
    }
  }

  lemma OtherCases(els: Clause, g: GState, n: nat)
    requires Cases(g.stack) >= n
    ensures AtLeast(n, GenOther(els, g))
    decreases els, 1
  {
    hide GenClause;
    ClauseCases(els, g);
  }
}
