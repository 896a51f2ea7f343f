/** Statements whose code does not fit the image: once what has been emitted is too long,
    the rest of the statement cannot make it fit. */
module Overruns {
  import opened Isa
  import opened Cells
  import opened Listing
  import opened CodeImages
  import opened Syntax
  import opened Programs
  import opened Names
  import opened Generate
  import opened ConstructStack
  import opened Growth

  /** No code is generated, or code that does not fit. */
  ghost predicate Lost(r: Gen) {
    r.Bad? || Long(r.g.list)
  }

  lemma LostMore(g: GState, r: Gen)
    requires Long(g.list) && Keeps(g, r, |g.list|)
    ensures Lost(r)
  {
    hide Long;
    if r.Good? {
      assert g.list <= r.g.list;
      LongStart(g.list, r.g.list);
    }
  }

  lemma PutRoom(g: GState, items: seq<Item>)
    ensures Long(g.list) ==> Long(Put(g, items).list)
  {
    hide Long;
    LongMore(g.list, items);
  }

  lemma DefineRoom(g: GState, name: string)
    ensures Long(g.list) ==> Lost(Define(g, name))
  {
    hide Long;
    LongMore(g.list, [D(name)]);
  }

  lemma CloseRoom(g: GState, suffix: string)
    ensures Long(g.list) ==> Lost(Close(g, suffix))
  {
    hide Long, TopLabel;
    if g.stack != [] {
      LongMore(g.list, [D(TopLabel(g, suffix))]);
    }
  }

  lemma StmtRoom(s: Stmt, g: GState)
    ensures Long(g.list) ==> Lost(GenStmt(s, g))
  {
    hide GenStmt, Long, Keeps;
    if Long(g.list) {
      StmtKeeps(s, g, |g.list|);
      LostMore(g, GenStmt(s, g));
    }
  }

  lemma SeqRoom(b: Block, s: Stmt, base: GState)
    ensures Lost(GenBlock(b, base)) ==> Lost(GenBlock(Seq(b, s), base))
  {
    hide GenStmt, Long;
    if GenBlock(b, base).Good? {
      StmtRoom(s, GenBlock(b, base).g);
    }
  }

  /** The beginnings of the code that stores a value */
  lemma StoreRoom(list: seq<Item>, op: int, e: Expr, c: Ctx)
    ensures var plain := op == OP_STOR || op == OP_APPEND;
      var first := if plain then list else list + [Op(OP_DUP)];
      var value := first + EmitE(e, c);
      Long(first) || Long(value) || Long(value + [Op(op)]) || (!plain && Long(value + [Op(op)] + [Op(OP_STOR)]))
      ==> Long(list + StoreCode(op, e, false, c))
  {
    hide Long, EmitE;
    if op == OP_STOR || op == OP_APPEND {
      Regroup(list, EmitE(e, c), [Op(op)]);
      LongMore(list, EmitE(e, c));
      LongMore(list + EmitE(e, c), [Op(op)]);
    } else {
      var first := list + [Op(OP_DUP)];
      var value := first + EmitE(e, c);
      assert list + StoreCode(op, e, false, c) == value + [Op(op)] + [Op(OP_STOR)];
      LongMore(first, EmitE(e, c));
      LongMore(value, [Op(op)]);
      LongMore(value + [Op(op)], [Op(OP_STOR)]);
    }
  }

  lemma SetRoom(name: string, op: int, e: Expr, short: bool, g: GState)
    ensures Long(ConstructStack.Value(g, Var(name)).list) ==> Long(GenSet(name, op, e, short, g).list)
  {
    hide Long, EmitE, AfterE, StoreCode;
    var g1 := ConstructStack.Value(g, Var(name));
    LongMore(g1.list, StoreCode(op, e, short, g1.ctx));
  }

  /** One more operand, and what follows the last one */
  lemma OperandRoom(args: Exprs, e: Expr, g: GState)
    ensures Long(Operands(args, g).list) ==> Long(Operands(Args(args, e), g).list)
  {
    hide Long, EmitE, AfterE;
    Regroup(g.list, EmitArgs(args, g.ctx), EmitE(e, AfterArgs(args, g.ctx)));
    LongMore(Operands(args, g).list, EmitE(e, AfterArgs(args, g.ctx)));
  }

  lemma LockRoom(call: Call, g: GState)
    ensures Long(g.list) || (call.lock > 0 && Long(Put(g, [Op(call.lock)]).list)) ==> Long(Put(g, LockCode(call)).list)
  {
    hide Long;
    LongMore(g.list, LockCode(call));
    if call.lock > 0 {
      assert g.list + LockCode(call) == g.list + [Op(call.lock)] + if call.canLock then [Op(OP_NULL)] else [];
      LongMore(g.list + [Op(call.lock)], if call.canLock then [Op(OP_NULL)] else []);
    }
  }

  lemma ClauseRoom(k: Clause, g: GState)
    ensures Long(g.list) ==> Lost(GenClause(k, g))
  {
    hide GenClause, Long, Keeps;
    if Long(g.list) {
      ClauseKeeps(k, g, |g.list|);
      LostMore(g, GenClause(k, g));
    }
  }

  lemma ElseRoom(els: Clause, g: GState)
    ensures Lost(GenClause(els, g)) ==> Lost(GenElse(els, g))
    ensures Long(g.list) ==> Lost(GenElse(els, g))
  {
    hide GenClause, Long, Close;
    ClauseRoom(els, g);
    if GenClause(els, g).Good? {
      CloseRoom(GenClause(els, g).g, "X");
    }
  }

  /** The THEN clause, the jump over the ELSE clause */
  lemma ThenRoom(s: Stmt, g: GState)
    requires s.If?
    ensures Lost(GenClause(s.thn, g)) ==> Lost(GenThen(s, g))
    ensures var g1 := GenClause(s.thn, g);
      g1.Good? && s.els.Clause? && Lost(Define(JumpTop(g1.g, OP_JMP, "X"), TopLabel(g1.g, "E"))) ==> Lost(GenThen(s, g))
    ensures Long(g.list) ==> Lost(GenThen(s, g))
  {
    hide GenClause, GenElse, Long, Close, Define, JumpTop, TopLabel;
    ClauseRoom(s.thn, g);
    var g1 := GenClause(s.thn, g);
    if g1.Good? {
      CloseRoom(g1.g, "E");
      TurnRoom(g1.g, OP_JMP, "E");
      var g2 := Define(JumpTop(g1.g, OP_JMP, "X"), TopLabel(g1.g, "E"));
      if g2.Good? {
        ElseRoom(s.els, g2.g);
      }
    }
  }

  /** A jump to the construct's end, and a label */
  lemma TurnRoom(g: GState, op: int, suffix: string)
    ensures Long(g.list) ==> Long(JumpTop(g, op, "X").list)
    ensures Long(JumpTop(g, op, "X").list) ==> Lost(Define(JumpTop(g, op, "X"), TopLabel(g, suffix)))
  {
    hide Long, Define, TopLabel;
    PutRoom(g, [I(Jump(op, TopLabel(g, "X")))]);
    DefineRoom(JumpTop(g, op, "X"), TopLabel(g, suffix));
  }

  lemma IfRoom(s: Stmt, g: GState)
    requires s.If?
    ensures s.thn.Absent? && Long(JumpTop(g, OP_JTRUE, "X").list) ==> Lost(GenIf(s, g))
    ensures s.thn.Clause? && Long(JumpTop(g, OP_JFALSE, "E").list) ==> Lost(GenIf(s, g))
    ensures Long(g.list) ==> Lost(GenIf(s, g))
  {
    hide GenThen, GenElse, Long, TopLabel;
    PutRoom(g, [I(Jump(OP_JTRUE, TopLabel(g, "X")))]);
    PutRoom(g, [I(Jump(OP_JFALSE, TopLabel(g, "E")))]);
    ElseRoom(s.els, JumpTop(g, OP_JTRUE, "X"));
    ThenRoom(s, JumpTop(g, OP_JFALSE, "E"));
  }

  lemma NextRoom(g: GState)
    ensures Long(g.list) ==> Lost(NextArm(g))
  {
    hide Long, Define, JumpTop, TopLabel;
    if g.stack != [] {
      TurnRoom(g, OP_JMP, CaseSuffix(g.stack[0].element));
    }
  }

  lemma ArmRoom(cond: Expr, body: Block, g: GState)
    ensures var g1 := ConstructStack.Value(g, cond);
      Long(g1.list) || (IsTop(g1, CaseEntry) && Long(JumpTop(g1, OP_JFALSE, CaseSuffix(g1.stack[0].element)).list))
      ==> Lost(GenArm(cond, body, g))
    ensures Long(g.list) ==> Lost(GenArm(cond, body, g))
  {
    hide Long, EmitE, AfterE, GenBlock, TopLabel;
    LongMore(g.list, EmitE(cond, g.ctx));
    var g1 := ConstructStack.Value(g, cond);
    if IsTop(g1, CaseEntry) {
      var suffix := CaseSuffix(g1.stack[0].element);
      PutRoom(g1, [I(Jump(OP_JFALSE, TopLabel(g1, suffix)))]);
      ClauseRoom(Clause(body), JumpTop(g1, OP_JFALSE, suffix));
    }
  }

  /** One more element */
  lemma MoreRoom(init: Arms, cond: Expr, body: Block, g: GState)
    ensures Lost(GenElements(init, g)) || Lost(GenArms(init, g)) ==> Lost(GenArms(Arm(init, cond, body), g))
  {
    hide Long, GenArm, NextArm;
    if GenArms(init, g).Good? {
      NextRoom(GenArms(init, g).g);
      if NextArm(GenArms(init, g).g).Good? {
        ArmRoom(cond, body, NextArm(GenArms(init, g).g).g);
      }
    }
  }

  lemma {:induction false} ElementsRoom(arms: Arms, g: GState)
    ensures Lost(GenArms(arms, g)) ==> Lost(GenElements(arms, g))
  {
    hide Long, GenArms, NextArm;
    if GenArms(arms, g).Good? {
      NextRoom(GenArms(arms, g).g);
    }
  }

  lemma CaseRoom(arms: Arms, g: GState)
    ensures Lost(GenElements(arms, Open(g, CaseEntry))) ==> Lost(GenStmt(Case(arms), g))
  {
    hide Long, GenElements, Close;
    if GenElements(arms, Open(g, CaseEntry)).Good? {
      CloseRoom(GenElements(arms, Open(g, CaseEntry)).g, "X");
    }
  }

  lemma AsideRoom(k: Clause, suffix: string, g: GState)
    ensures Lost(GenClause(k, g)) || Long(g.list) ==> Lost(GenAside(k, suffix, g))
  {
    hide Long, GenClause, Define, JumpTop, TopLabel;
    ClauseRoom(k, g);
    if GenClause(k, g).Good? {
      TurnRoom(GenClause(k, g).g, OP_JMP, suffix);
    }
  }

  /** A jump, the POP of the status, and an aside */
  lemma JumpAsideRoom(k: Clause, op: int, suffix: string, g: GState)
    ensures var g1 := JumpTop(g, op, suffix);
      Long(g.list) || Long(g1.list) || Long(Put(g1, [Op(OP_POP)]).list) ==>
        Lost(GenAside(k, suffix, Put(g1, [Op(OP_POP)])))
  {
    hide Long, GenAside, TopLabel;
    var g1 := JumpTop(g, op, suffix);
    PutRoom(g, [I(Jump(op, TopLabel(g, suffix)))]);
    PutRoom(g1, [Op(OP_POP)]);
    AsideRoom(k, suffix, Put(g1, [Op(OP_POP)]));
  }

  lemma CallRoom(call: Call, onError: Clause, g: GState)
    ensures Long(g.list) ==> Lost(GenCall(call, onError, g))
    ensures onError.Clause? ==>
              var g1 := Put(g, [Op(OP_ONERROR)]);
              var g2 := Put(g1, [Op(call.op)]);
              Long(g1.list) || Long(g2.list) || Long(Put(g2, [Op(OP_DUP)]).list) ==> Lost(GenCall(call, onError, g))
  {
    hide Long, GenAside, JumpTop;
    PutRoom(g, [Op(call.op)]);
    var g1 := Put(g, [Op(OP_ONERROR)]);
    var g2 := Put(g1, [Op(call.op)]);
    var g3 := Put(g2, [Op(OP_DUP)]);
    PutRoom(g, [Op(OP_ONERROR)]);
    PutRoom(g1, [Op(call.op)]);
    PutRoom(g2, [Op(OP_DUP)]);
    ThreePuts(g, [Op(OP_ONERROR)], [Op(call.op)], [Op(OP_DUP)]);
    JumpAsideRoom(onError, OP_JPZ, "A", g3);
  }

  lemma ThreePuts(g: GState, a: seq<Item>, b: seq<Item>, d: seq<Item>)
    ensures Put(Put(Put(g, a), b), d) == Put(g, a + b + d)
  {
    assert g.list + a + b + d == g.list + (a + b + d);
  }

  /** A NOWAIT is as long as the NULL. */
  lemma ReplaceRoom(list: seq<Item>, t: nat)
    requires t < |list| && list[t] == Op(OP_NULL)
    ensures Long(list[t := Op(OP_NOWAIT)]) <==> Long(list)
  {
    ReplaceInList(list, t, OP_NOWAIT);
    hide Flatten, Addr;
    ReplaceAddr(Flatten(list), |Flatten(list[..t])|, OP_NOWAIT, |Flatten(list)|);
  }

  /** Before LOCKED there is a NULL at t. */
  predicate NullAt(call: Call, t: int, g: GState) {
    call.canLock ==> 0 <= t < |g.list| && g.list[t] == Op(OP_NULL)
  }

  function Patched(t: nat, g: GState): GState
    requires t < |g.list|
  {
    g.(list := g.list[t := Op(OP_NOWAIT)])
  }

  lemma LockedRoom(call: Call, locked: Clause, t: int, g: GState)
    requires NullAt(call, t, g)
    ensures Long(g.list) ==> Lost(GenLocked(call, locked, t, g))
    ensures call.canLock && locked.Clause? ==>
              var g1 := Put(Patched(t, g), [Op(OP_DUP)]);
              var g2 := Put(g1, [I(NumberLoad(ER_LCK))]);
              Long(g1.list) || Long(g2.list) || Long(Put(g2, [Op(OP_EQ)]).list) ==> Lost(GenLocked(call, locked, t, g))
  {
    hide Long, GenAside, JumpTop;
    if call.canLock && locked.Clause? {
      ReplaceRoom(g.list, t);
      var g0 := Patched(t, g);
      var g1 := Put(g0, [Op(OP_DUP)]);
      var g2 := Put(g1, [I(NumberLoad(ER_LCK))]);
      var g3 := Put(g2, [Op(OP_EQ)]);
      PutRoom(g0, [Op(OP_DUP)]);
      PutRoom(g1, [I(NumberLoad(ER_LCK))]);
      PutRoom(g2, [Op(OP_EQ)]);
      ThreePuts(g0, [Op(OP_DUP)], [I(NumberLoad(ER_LCK))], [Op(OP_EQ)]);
      JumpAsideRoom(locked, OP_JZE, "B", g3);
    }
  }

  lemma OtherRoom(els: Clause, g: GState)
    ensures Lost(GenClause(els, g)) || Long(g.list) ==> Lost(GenOther(els, g))
  {
    hide GenClause, Long, Close;
    ClauseRoom(els, g);
    if GenClause(els, g).Good? {
      CloseRoom(GenClause(els, g).g, "X");
    }
  }

  lemma SuccessRoom(s: Stmt, g: GState)
    requires s.File?
    ensures Lost(GenClause(s.thn, g)) || Long(g.list) ==> Lost(GenSuccess(s, g))
    ensures var g1 := GenClause(s.thn, g);
      g1.Good? && s.els.Clause? && Lost(Define(JumpTop(g1.g, OP_JMP, "X"), TopLabel(g1.g, "E"))) ==>
        Lost(GenSuccess(s, g))
  {
    hide GenClause, GenOther, Long, Close, Define, JumpTop, TopLabel;
    ClauseRoom(s.thn, g);
    var g1 := GenClause(s.thn, g);
    if g1.Good? {
      DefineRoom(g1.g, TopLabel(g1.g, "E"));
      var d := Define(g1.g, TopLabel(g1.g, "E"));
      if d.Good? {
        CloseRoom(d.g, "X");
      }
      TurnRoom(g1.g, OP_JMP, "E");
      var g2 := Define(JumpTop(g1.g, OP_JMP, "X"), TopLabel(g1.g, "E"));
      if g2.Good? {
        OtherRoom(s.els, g2.g);
      }
    }
  }

  lemma ChoiceRoom(s: Stmt, g: GState)
    requires s.File?
    ensures Long(g.list) ==> Lost(GenChoice(s, g))
    ensures !s.call.thenElse && Long(Put(g, [Op(OP_POP)]).list) ==> Lost(GenChoice(s, g))
    ensures s.call.thenElse && s.thn.Absent? && Long(JumpTop(g, OP_JZE, "X").list) ==> Lost(GenChoice(s, g))
    ensures s.call.thenElse && s.thn.Clause? && Long(JumpTop(g, OP_JNZ, "E").list) ==> Lost(GenChoice(s, g))
  {
    hide GenOther, GenSuccess, Long, TopLabel, Close;
    PutRoom(g, [Op(OP_POP)]);
    CloseRoom(Put(g, [Op(OP_POP)]), "X");
    PutRoom(g, [I(Jump(OP_JZE, TopLabel(g, "X")))]);
    PutRoom(g, [I(Jump(OP_JNZ, TopLabel(g, "E")))]);
    OtherRoom(s.els, JumpTop(g, OP_JZE, "X"));
    SuccessRoom(s, JumpTop(g, OP_JNZ, "E"));
  }

  /** The parts of a file operation */
  lemma FileRoom(s: Stmt, g: GState)
    requires s.File? && NullAt(s.call, |g.list| - 1, g)
    ensures Long(g.list) ==> Lost(GenFile(s, g))
    ensures Lost(GenCall(s.call, s.onError, g)) ==> Lost(GenFile(s, g))
    ensures var g1 := GenCall(s.call, s.onError, g);
      g1.Good? && Lost(GenLocked(s.call, s.locked, |g.list| - 1, g1.g)) ==> Lost(GenFile(s, g))
  {
    hide GenCall, GenLocked, GenChoice, Long;
    var t := |g.list| - 1;
    CallRoom(s.call, s.onError, g);
    var g1 := GenCall(s.call, s.onError, g);
    if g1.Good? {
      CallKeeps(s.call, s.onError, g, |g.list|);
      assert s.call.canLock ==> g1.g.list[t] == g1.g.list[..|g.list|][t];
      LockedRoom(s.call, s.locked, t, g1.g);
      var g2 := GenLocked(s.call, s.locked, t, g1.g);
      if g2.Good? {
        ChoiceRoom(s, g2.g);
      }
    }
  }
}
