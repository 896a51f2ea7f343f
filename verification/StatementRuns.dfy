/** Running the code of properly nested statements does what the statements mean. */
module StatementRuns {
  import opened Outcomes
  import opened Isa
  import opened Listing
  import opened Syntax
  import opened Programs
  import opened Storages
  import opened Names
  import opened Generate
  import opened ConstructStack
  import opened Structure
  import opened Machines
  import opened Meanings
  import opened Runs

  /** What is asked of a statement to be run. */
  predicate GoodStmt(s: Stmt, inLoop: bool) {
    NestedStmt(s, inLoop) && FormedStmt(s)
  }

  predicate GoodBlock(b: Block, inLoop: bool) {
    NestedBlock(b, inLoop) && FormedBlock(b)
  }

  predicate GoodClause(k: Clause, inLoop: bool) {
    NestedClause(k, inLoop) && FormedClause(k)
  }

  /** The loop around a statement, and where its labels are in the listing. */
  datatype Around = Around(lp: int, jr: nat, jx: nat)

  predicate Encloses(p: Prog, a: Around, inLoop: bool) {
    inLoop ==>
      && a.lp >= 0
      && a.jr < |p.list| && p.list[a.jr] == Lbl(a.lp, "R")
      && a.jx < |p.list| && p.list[a.jx] == Lbl(a.lp, "X")
  }

  ghost predicate Begins(p: Prog, m: Machine, k: nat, env: Env, w: int) {
    m.Running? && m.pc == Pc(p, k) && m.modes == {} && m.world == w && Agree(p, env, m.store)
  }

  /** Where a label stands in a listing */
  function Spot(list: seq<Item>, name: string): nat {
    if list == [] then 0
    else if list[|list| - 1] == D(name) then |list| - 1
    else Spot(list[..|list| - 1], name)
  }

  lemma {:induction false} SpotFound(list: seq<Item>, name: string)
    requires D(name) in list
    ensures Spot(list, name) < |list| && list[Spot(list, name)] == D(name)
  {
    if list[|list| - 1] != D(name) {
      SpotFound(list[..|list| - 1], name);
    }
  }

  lemma SpotIs(list: seq<Item>, name: string, k: nat)
    requires Distinct(list) && k < |list| && list[k] == D(name)
    ensures Spot(list, name) == k
  {
    SpotFound(list, name);
  }

  /** Where the code goes on after a statement */
  function Place(p: Prog, a: Around, k: nat, signal: Signal): nat {
    match signal
    case Normal => k
    case Break => a.jx
    case Again => a.jr
    case Go(name) => Spot(p.list, name)
  }

  predicate Goes(p: Prog, signal: Signal) {
    signal.Go? ==> D(signal.name) in p.list && !IsGenerated(signal.name)
  }

  /** After n steps from m the machine is m1, which shows the result r: at item k after
      a normal end, at one of the loop's labels or one of the programmer's otherwise, with
      the stack it started with; or it is still running after at least f steps. */
  ghost predicate Ended(p: Prog, a: Around, f: nat, k: nat, m: Machine, n: nat, m1: Machine, r: Result) {
    && m.Running? && m1.Running? && Run(p.rt, p.code, m, n) == m1
    && match r
       case Spin => n >= f
       case Done(signal, env, w) =>
         && m1.stack == m.stack
         && Begins(p, m1, Place(p, a, k, signal), env, w) && Goes(p, signal)
         && (!signal.Normal? ==> n >= 1)
  }

  /** Steps that only move the program counter may come first. */
  lemma Preceded(p: Prog, a: Around, f: nat, k: nat, m: Machine, n0: nat, m0: Machine, n: nat, m1: Machine, r: Result)
    requires m.Running? && Run(p.rt, p.code, m, n0) == m0 && m0.Running? && m0.stack == m.stack
    requires Ended(p, a, f, k, m0, n, m1, r)
    ensures Ended(p, a, f, k, m, n0 + n, m1, r)
  {
    hide Run, Pc, Begins;
    Compose(p, m, n0, m0, n, m1);
  }

  /** A normal end may be followed by steps that only move the program counter. */
  lemma Followed(p: Prog, a: Around, f: nat, k: nat, m: Machine, n: nat, m1: Machine, r: Result, n': nat, k': nat)
    returns (n2: nat, m2: Machine)
    requires Ended(p, a, f, k, m, n, m1, r)
    requires r.Done? && r.signal.Normal? ==> Run(p.rt, p.code, m1, n') == m1.(pc := Pc(p, k'))
    ensures Ended(p, a, f, k', m, n2, m2, r)
  {
    hide Run, Pc, Agree;
    if r.Done? && r.signal.Normal? {
      n2, m2 := n + n', m1.(pc := Pc(p, k'));
      Compose(p, m, n, m1, n', m2);
    } else {
      n2, m2 := n, m1;
    }
  }

  /** Only the address counts, not the labels that stand there. */
  lemma Moved(p: Prog, a: Around, f: nat, k: nat, m: Machine, n: nat, m1: Machine, r: Result, k': nat)
    requires Ended(p, a, f, k, m, n, m1, r) && Pc(p, k) == Pc(p, k')
    ensures Ended(p, a, f, k', m, n, m1, r)
  {
    hide Run, Pc, Agree;
  }

  lemma Stays(p: Prog, a: Around, f: nat, k: nat, m: Machine, env: Env, w: int)
    requires Begins(p, m, k, env, w)
    ensures Ended(p, a, f, k, m, 0, m, Done(Normal, env, w))
  {
    hide Pc, Agree;
    StayRun(p, m);
  }

  lemma {:induction false} BlockExtends(b: Block, c: Ctx)
    ensures Extends(c.vars, AfterBlock(b, c).vars)
    decreases b, 0
  {
    hide Extends, AfterStmt;
    match b
    case Empty => assert Extends(c.vars, c.vars) by { SelfExtends(c.vars); }
    case Seq(init, last) =>
      BlockExtends(init, c);
      StmtExtends(last, AfterBlock(init, c));
      ExtendsTrans(c.vars, AfterBlock(init, c).vars, AfterBlock(b, c).vars);
  }

  lemma SelfExtends(st: Storage)
    ensures Extends(st, st)
  {
  }

  lemma ClauseExtends(k: Clause, c: Ctx)
    ensures Extends(c.vars, AfterClause(k, c).vars)
    decreases k, 0
  {
    hide Extends;
    SelfExtends(c.vars);
    if k.Clause? {
      BlockExtends(k.body, c);
    }
  }

  lemma StmtExtends(s: Stmt, c: Ctx)
    ensures Extends(c.vars, AfterStmt(s, c).vars)
    decreases s, 1
  {
    hide Extends, AfterE, AfterArgs, AfterBlock, AfterClause;
    SelfExtends(c.vars);
    match s {
      case Set(name, op, e, short) =>
        ExprExtends(Var(name), c);
        ExprExtends(e, AfterE(Var(name), c));
        ExtendsTrans(c.vars, AfterE(Var(name), c).vars, AfterE(e, AfterE(Var(name), c)).vars);
      case Loop(body) => BlockExtends(body, Opened(c));
      case Test(_, e) => ExprExtends(e, c);
      case If(cond, thn, els) =>
        ExprExtends(cond, c);
        var c1 := Opened(AfterE(cond, c));
        ClauseExtends(thn, c1);
        ClauseExtends(els, AfterClause(thn, c1));
        ExtendsTrans(c.vars, c1.vars, AfterClause(thn, c1).vars);
        ExtendsTrans(c.vars, AfterClause(thn, c1).vars, AfterStmt(s, c).vars);
      case Case(arms) => ArmsExtend(arms, Opened(c));
      case File(_, args, onError, locked, thn, els) =>
        var c1 := Opened(AfterArgs(args, c));
        var c2 := AfterClause(onError, c1);
        var c3 := AfterClause(locked, c2);
        var c4 := AfterClause(thn, c3);
        ArgsExtend(args, c);
        ClauseExtends(onError, c1);
        ClauseExtends(locked, c2);
        ClauseExtends(thn, c3);
        ClauseExtends(els, c4);
        ExtendsTrans(c.vars, c1.vars, c2.vars);
        ExtendsTrans(c.vars, c2.vars, c3.vars);
        ExtendsTrans(c.vars, c3.vars, c4.vars);
        ExtendsTrans(c.vars, c4.vars, AfterStmt(s, c).vars);
      case _ =>
    }
  }

  lemma {:induction false} ArmsExtend(arms: Arms, c: Ctx)
    ensures Extends(c.vars, AfterArms(arms, c).vars)
    decreases arms, 0
  {
    hide Extends, AfterE, AfterBlock;
    match arms
    case NoArms => SelfExtends(c.vars);
    case Arm(init, cond, body) =>
      var c1 := AfterArms(init, c);
      var c2 := AfterE(cond, c1);
      ArmsExtend(init, c);
      ExprExtends(cond, c1);
      BlockExtends(body, c2);
      ExtendsTrans(c.vars, c1.vars, c2.vars);
      ExtendsTrans(c.vars, c2.vars, AfterBlock(body, c2).vars);
  }

  lemma NotShared(st: Storage, x: string, y: string)
    requires WellPlaced(st) && x in st.info && y in st.info && x != y
    ensures st.info[x] != st.info[y]
  {
    if st.info[x] == st.info[y] {
      CellsApart(st, x, y);
    }
  }

  /** An assignment seen from the environment and from the variables' cells. */
  lemma AgreeUpdate(p: Prog, env: Env, store: map<Loc, Value>, name: string, v: Value)
    requires Agree(p, env, store) && WellPlaced(p.vars) && name in p.vars.info
    ensures Agree(p, env[name := v], store[p.vars.info[name] := v])
  {
    hide WellPlaced;
    var loc := p.vars.info[name];
    forall x | x in p.vars.info ensures Get(store[loc := v], p.vars.info[x]) == Lookup(env[name := v], x) {
      if x != name {
        NotShared(p.vars, x, name);
        assert Get(store, p.vars.info[x]) == Lookup(env, x);
      }
    }
  }

  /** The step that stores: m1 has the variable's address n entries below its top. */
  lemma Stores(p: Prog, a: Around, f: nat, m: Machine, k: nat, env: Env, w: int, name: string, v: Value, n1: nat,
               m1: Machine, n: nat, next: nat)
    requires Assembled(p) && Begins(p, m, k, env, w) && name in p.vars.info
    requires Run(p.rt, p.code, m, n1) == m1 && m1.Running? && m1.store == m.store && m1.modes == {} && m1.world == w
    requires 0 < n <= |m1.stack| && m1.stack[|m1.stack| - n] == Ref(p.vars.info[name]) && Drop(m1.stack, n) == m.stack
    requires Run(p.rt, p.code, m1, 1) == Assign(m1, Pc(p, next), n, v)
    ensures Ended(p, a, f, next, m, n1 + 1, Assign(m1, Pc(p, next), n, v), Done(Normal, env[name := v], w))
  {
    hide Run, Pc, Agree;
    Compose(p, m, n1, m1, 1, Assign(m1, Pc(p, next), n, v));
    AgreeUpdate(p, env, m.store, name, v);
  }

  lemma SetRun(p: Prog, a: Around, f: nat, name: string, op: int, e: Expr, short: bool, c: Ctx, k: nat, m: Machine,
               env: Env, w: int)
    returns (n: nat, m1: Machine)
    requires var s := Set(name, op, e, short);
      && Assembled(p) && Placed(p, k, EmitStmt(s, c, a.lp)) && Begins(p, m, k, env, w)
      && Extends(AfterStmt(s, c).vars, p.vars) && FormedStmt(s)
    ensures var s := Set(name, op, e, short);
      Ended(p, a, f, k + |EmitStmt(s, c, a.lp)|, m, n, m1, ExecStmt(p.rt, s, f, env, w))
  {
    hide Assembled, Placed, Begins, Agree, Extends, Pc, Run, EmitE, AfterE, Stored, FormedExpr, Ended;
    var s := Set(name, op, e, short);
    var c1 := AfterE(Var(name), c);
    var j := k + |EmitE(Var(name), c)|;
    PlacedSplit(p, k, EmitE(Var(name), c), StoreCode(op, e, short, c1));
    if !short {
      ExprExtends(e, c1);
      ExtendsTrans(c1.vars, AfterE(e, c1).vars, p.vars);
    }
    BeginsFacts(p, m, k, env, w);
    var slot := NameRun(p, name, c, k, m, env);
    var m0 := Pushed(p, m, j, [slot]);
    OneVariable(name, c);
    if short {
      n, m1 := ShortRun(p, a, f, name, op, e, k, j, m, m0, env, w);
    } else if op == OP_STOR || op == OP_APPEND {
      n, m1 := DirectRun(p, a, f, name, op, e, c1, k, j, m, m0, env, w);
    } else {
      n, m1 := UpdateRun(p, a, f, name, op, e, c1, k, j, m, m0, env, w);
    }
  }

  lemma OneVariable(name: string, c: Ctx)
    ensures |EmitE(Var(name), c)| == 1
  {
  }

  lemma BeginsFacts(p: Prog, m: Machine, k: nat, env: Env, w: int)
    requires Begins(p, m, k, env, w)
    ensures m.Running? && m.pc == Pc(p, k) && Agree(p, env, m.store) && m.modes == {} && m.world == w
  {
  }

  lemma ShortStep(rt: Runtime, op: int, e: Expr, next: nat, was: Value, env: Env, m: Machine)
    requires FormedSet(op, e, true) && m.Running? && m.stack != [] && Deref(m.store, Top(m)) == was
    ensures SimpleStep(rt, ShortOp(op, e), next, m) == Assign(m, next, 1, Stored(rt, op, e, true, was, env))
  {
    hide SimpleStep, Assign, Deref, Stored, ShortOp, FormedSet;
    StoreSteps(rt, next, m);
    ShortValue(rt, op, e, was, env);
  }

  lemma ShortValue(rt: Runtime, op: int, e: Expr, was: Value, env: Env)
    requires FormedSet(op, e, true)
    ensures var o, v := ShortOp(op, e), Stored(rt, op, e, true, was, env);
      || (o == OP_STZ && v == Number(0))
      || (o == OP_STNULL && v == Chars([]))
      || ((o == OP_INC || o == OP_DEC) && v == Apply(rt, o, [was]))
  {
    assert TextBytes("") == [];
  }

  lemma StoreSteps(rt: Runtime, next: nat, m: Machine)
    requires m.Running? && m.stack != []
    ensures SimpleStep(rt, OP_STZ, next, m) == Assign(m, next, 1, Number(0))
    ensures SimpleStep(rt, OP_STNULL, next, m) == Assign(m, next, 1, Chars([]))
    ensures SimpleStep(rt, OP_INC, next, m) == Assign(m, next, 1, Apply(rt, OP_INC, [Deref(m.store, Top(m))]))
    ensures SimpleStep(rt, OP_DEC, next, m) == Assign(m, next, 1, Apply(rt, OP_DEC, [Deref(m.store, Top(m))]))
  {
    hide Assign, Deref;
  }

  /** STZ, STNULL, INC and DEC */
  lemma ShortRun(p: Prog, a: Around, f: nat, name: string, op: int, e: Expr, k: nat, j: nat, m: Machine, m0: Machine,
                 env: Env, w: int)
    returns (n: nat, m1: Machine)
    requires Assembled(p) && Begins(p, m, k, env, w) && FormedSet(op, e, true) && name in p.vars.info
    requires m0 == Pushed(p, m, j, [Ref(p.vars.info[name])]) && Run(p.rt, p.code, m, 1) == m0
    requires Placed(p, j, [Op(ShortOp(op, e))])
    ensures Ended(p, a, f, j + 1, m, n, m1,
                  Done(Normal, env[name := Stored(p.rt, op, e, true, Lookup(env, name), env)], w))
  {
    hide Assembled, Pc, Run, Placed, Ended, Agree, SimpleStep, ShortOp, Stored, Assign;
    var v := Stored(p.rt, op, e, true, Lookup(env, name), env);
    PlacedOne(p, j, Op(ShortOp(op, e)));
    SimpleRun(p, j, ShortOp(op, e), m0);
    VariableValue(p, env, m.store, name);
    TopSlot(m.stack, Ref(p.vars.info[name]));
    ShortStep(p.rt, op, e, Pc(p, j + 1), Lookup(env, name), env, m0);
    Stores(p, a, f, m, k, env, w, name, v, 1, m0, 1, j + 1);
    n, m1 := 2, Assign(m0, Pc(p, j + 1), 1, v);
  }

  lemma VariableValue(p: Prog, env: Env, store: map<Loc, Value>, name: string)
    requires Agree(p, env, store) && name in p.vars.info
    ensures Get(store, p.vars.info[name]) == Lookup(env, name)
  {
  }

  lemma TopSlot(stack: seq<Slot>, slot: Slot)
    ensures (stack + [slot])[|stack + [slot]| - 1] == slot && Drop(stack + [slot], 1) == stack
  {
  }

  lemma TwoSlots(stack: seq<Slot>, x: Slot, y: Slot)
    ensures var t := stack + [x] + [y];
      && t[|t| - 1] == y && t[|t| - 2] == x && Drop(t, 2) == stack && t[|t| - 2..] == [x, y]
  {
  }

  /** Values that are joined to the variable's own, or replace it: the step of the last
      opcode, with the address and the value's entry on top */
  lemma DirectStep(p: Prog, op: int, next: nat, v: Value, ref: Slot, slot: Slot, m: Machine, m2: Machine)
    requires m.Running? && m2.Running? && m2.stack == m.stack + [ref] + [slot]
    requires op == OP_STOR || op == OP_APPEND
    requires v == if op == OP_STOR then Deref(m2.store, slot) else Apply(p.rt, op, Values(m2.store, [ref, slot]))
    ensures SimpleStep(p.rt, op, next, m2) == Assign(m2, next, 2, v)
  {
    TwoSlots(m.stack, ref, slot);
  }

  /** The last step of an assignment, from the machine with the address and the value */
  lemma LastStore(p: Prog, a: Around, f: nat, name: string, op: int, v: Value, slot: Slot, k: nat, i: nat, m: Machine,
                  n: nat, m2: Machine, env: Env, w: int)
    returns (m1: Machine)
    requires Assembled(p) && Begins(p, m, k, env, w) && name in p.vars.info && i < |p.list| && p.list[i] == Op(op)
    requires op == OP_STOR || op == OP_APPEND
    requires Run(p.rt, p.code, m, n) == m2 == Pushed(p, m, i, [Ref(p.vars.info[name])] + [slot])
    requires v == if op == OP_STOR then Deref(m.store, slot)
                  else Apply(p.rt, op, Values(m.store, [Ref(p.vars.info[name]), slot]))
    ensures Ended(p, a, f, i + 1, m, n + 1, m1, Done(Normal, env[name := v], w))
  {
    hide Assembled, Pc, Run, Ended, Agree, SimpleStep;
    var ref := Ref(p.vars.info[name]);
    assert m.stack + ([ref] + [slot]) == m.stack + [ref] + [slot];
    SimpleRun(p, i, op, m2);
    DirectStep(p, op, Pc(p, i + 1), v, ref, slot, m, m2);
    TwoSlots(m.stack, ref, slot);
    hide Assign;
    m1 := Assign(m2, Pc(p, i + 1), 2, v);
    Stores(p, a, f, m, k, env, w, name, v, n, m2, 2, i + 1);
  }

  /** Loading the value */
  lemma OverRun(p: Prog, e: Expr, c: Ctx, i: nat, m: Machine, slots: seq<Slot>, n0: nat, m0: Machine, env: Env)
    returns (n: nat, slot: Slot)
    requires Assembled(p) && Placed(p, i, EmitE(e, c)) && m.Running? && Agree(p, env, m.store) && FormedExpr(e)
    requires Run(p.rt, p.code, m, n0) == m0 == Pushed(p, m, i, slots) && Extends(AfterE(e, c).vars, p.vars)
    ensures Run(p.rt, p.code, m, n) == Pushed(p, m, i + |EmitE(e, c)|, slots + [slot])
    ensures Deref(m.store, slot) == Eval(p.rt, e, env)
  {
    hide Assembled, Pc, Run, Placed, Agree, EmitE, AfterE, Eval, FormedExpr, Extends;
    var n1;
    n1, slot := ExprRun(p, e, c, i, m0, env);
    Compose(p, m, n0, m0, n1, Pushed(p, m0, i + |EmitE(e, c)|, [slot]));
    assert m.stack + slots + [slot] == m.stack + (slots + [slot]);
    n := n0 + n1;
  }

  /** e STOR and e APPEND */
  lemma DirectRun(p: Prog, a: Around, f: nat, name: string, op: int, e: Expr, c: Ctx, k: nat, j: nat, m: Machine,
                  m0: Machine, env: Env, w: int)
    returns (n: nat, m1: Machine)
    requires Assembled(p) && Begins(p, m, k, env, w) && FormedExpr(e)
    requires name in p.vars.info && (op == OP_STOR || op == OP_APPEND)
    requires m0 == Pushed(p, m, j, [Ref(p.vars.info[name])]) && Run(p.rt, p.code, m, 1) == m0
    requires Placed(p, j, StoreCode(op, e, false, c)) && Extends(AfterE(e, c).vars, p.vars)
    ensures Ended(p, a, f, j + |StoreCode(op, e, false, c)|, m, n, m1,
                  Done(Normal, env[name := Stored(p.rt, op, e, false, Lookup(env, name), env)], w))
  {
    hide Assembled, Pc, Run, Placed, Ended, Agree, EmitE, AfterE, Eval, FormedExpr, Extends, Pushed;
    var ref, i := Ref(p.vars.info[name]), j + |EmitE(e, c)|;
    PlacedSplit(p, j, EmitE(e, c), [Op(op)]);
    PlacedOne(p, i, Op(op));
    var slot;
    n, slot := OverRun(p, e, c, j, m, [ref], 1, m0, env);
    VariableValue(p, env, m.store, name);
    assert Values(m.store, [ref, slot]) == [Lookup(env, name), Eval(p.rt, e, env)];
    var v := Stored(p.rt, op, e, false, Lookup(env, name), env);
    m1 := LastStore(p, a, f, name, op, v, slot, k, i, m, n, Pushed(p, m, i, [ref] + [slot]), env, w);
    n := n + 1;
  }

  /** A second copy of what is on top */
  lemma DupRun(p: Prog, k: nat, m: Machine, slot: Slot, m0: Machine)
    requires Assembled(p) && k < |p.list| && p.list[k] == Op(OP_DUP) && m.Running? && m0 == Pushed(p, m, k, [slot])
    ensures Run(p.rt, p.code, m0, 1) == Pushed(p, m, k + 1, [slot] + [slot])
  {
    hide Assembled, Pc, Run, SimpleStep;
    SimpleRun(p, k, OP_DUP, m0);
    DupStep(p, m, k, slot, m0);
  }

  /** The operator on the copy and the value */
  lemma ChangeRun(p: Prog, op: int, i: nat, m: Machine, ref: Slot, slot: Slot, n: nat, m2: Machine)
    requires Assembled(p) && i < |p.list| && p.list[i] == Op(op) && Arity(op) == 2 && m.Running?
    requires Run(p.rt, p.code, m, n) == m2 == Pushed(p, m, i, [ref] + [ref] + [slot])
    ensures var v := Apply(p.rt, op, Values(m.store, [ref, slot]));
      Run(p.rt, p.code, m, n + 1) == Pushed(p, m, i + 1, [ref] + [Val(v)])
  {
    hide Assembled, Pc, Run, Apply, SimpleStep;
    var v := Apply(p.rt, op, Values(m.store, [ref, slot]));
    SimpleRun(p, i, op, m2);
    assert m2.stack == (m.stack + [ref]) + [ref, slot];
    OperatorStep(p.rt, op, Pc(p, i + 1), m.stack + [ref], [ref, slot], m2);
    assert m.stack + [ref] + [Val(v)] == m.stack + ([ref] + [Val(v)]);
    Compose(p, m, n, m2, 1, Pushed(p, m, i + 1, [ref] + [Val(v)]));
  }

  lemma UpdatePlaced(p: Prog, op: int, e: Expr, c: Ctx, j: nat)
    requires Placed(p, j, [Op(OP_DUP)] + EmitE(e, c) + [Op(op)] + [Op(OP_STOR)])
    ensures var i := j + 1 + |EmitE(e, c)|;
      && i + 1 < |p.list| && p.list[j] == Op(OP_DUP) && p.list[i] == Op(op) && p.list[i + 1] == Op(OP_STOR)
      && Placed(p, j + 1, EmitE(e, c))
  {
    hide Placed, EmitE;
    PlacedSplit(p, j, [Op(OP_DUP)] + EmitE(e, c) + [Op(op)], [Op(OP_STOR)]);
    PlacedSplit(p, j, [Op(OP_DUP)] + EmitE(e, c), [Op(op)]);
    PlacedSplit(p, j, [Op(OP_DUP)], EmitE(e, c));
    PlacedOne(p, j, Op(OP_DUP));
    PlacedOne(p, j + 1 + |EmitE(e, c)|, Op(op));
    PlacedOne(p, j + 2 + |EmitE(e, c)|, Op(OP_STOR));
  }

  /** DUP e op STOR */
  lemma UpdateRun(p: Prog, a: Around, f: nat, name: string, op: int, e: Expr, c: Ctx, k: nat, j: nat, m: Machine,
                  m0: Machine, env: Env, w: int)
    returns (n: nat, m1: Machine)
    requires Assembled(p) && Begins(p, m, k, env, w) && FormedExpr(e) && name in p.vars.info
    requires op == OP_ADD || op == OP_SUB || op == OP_MUL || op == OP_DIV
    requires m0 == Pushed(p, m, j, [Ref(p.vars.info[name])]) && Run(p.rt, p.code, m, 1) == m0
    requires Placed(p, j, StoreCode(op, e, false, c)) && Extends(AfterE(e, c).vars, p.vars)
    ensures Ended(p, a, f, j + |StoreCode(op, e, false, c)|, m, n, m1,
                  Done(Normal, env[name := Stored(p.rt, op, e, false, Lookup(env, name), env)], w))
  {
    hide Assembled, Pc, Run, Placed, Ended, Agree, EmitE, AfterE, Eval, FormedExpr, Extends, Apply, Pushed;
    var ref, i := Ref(p.vars.info[name]), j + 1 + |EmitE(e, c)|;
    UpdatePlaced(p, op, e, c, j);
    DupRun(p, j, m, ref, m0);
    Compose(p, m, 1, m0, 1, Pushed(p, m, j + 1, [ref] + [ref]));
    var slot;
    n, slot := OverRun(p, e, c, j + 1, m, [ref] + [ref], 2, Pushed(p, m, j + 1, [ref] + [ref]), env);
    ChangeRun(p, op, i, m, ref, slot, n, Pushed(p, m, i, [ref] + [ref] + [slot]));
    VariableValue(p, env, m.store, name);
    assert Values(m.store, [ref, slot]) == [Lookup(env, name), Eval(p.rt, e, env)];
    var v := Stored(p.rt, op, e, false, Lookup(env, name), env);
    m1 := LastStore(p, a, f, name, OP_STOR, v, Val(v), k, i + 1, m, n + 1,
                    Pushed(p, m, i + 1, [ref] + [Val(v)]), env, w);
    n := n + 2;
  }

  lemma DupStep(p: Prog, m: Machine, j: nat, slot: Slot, m0: Machine)
    requires m.Running? && m0 == Pushed(p, m, j, [slot])
    ensures SimpleStep(p.rt, OP_DUP, Pc(p, j + 1), m0) == Pushed(p, m, j + 1, [slot] + [slot])
  {
    hide Pc;
    TopSlot(m.stack, slot);
    assert m.stack + [slot] + [slot] == m.stack + ([slot] + [slot]);
  }

  /** Running with nothing pushed */
  lemma PushedNone(p: Prog, m: Machine, k: nat)
    requires m.Running?
    ensures Pushed(p, m, k, []) == m.(pc := Pc(p, k))
  {
    hide Pc;
    assert m.stack + [] == m.stack;
  }

  /** A normal end at item k, reached by moving the program counter. */
  lemma Arrived(p: Prog, a: Around, f: nat, m: Machine, j: nat, env: Env, w: int, n: nat, k: nat)
    requires Begins(p, m, j, env, w) && Run(p.rt, p.code, m, n) == m.(pc := Pc(p, k))
    ensures Ended(p, a, f, k, m, n, m.(pc := Pc(p, k)), Done(Normal, env, w))
    ensures Begins(p, m.(pc := Pc(p, k)), k, env, w)
  {
    hide Pc, Agree, Run;
  }

  lemma {:induction false} BlockRun(p: Prog, a: Around, inLoop: bool, f: nat, b: Block, c: Ctx, k: nat, m: Machine,
                                    env: Env, w: int)
    returns (n: nat, m1: Machine)
    requires Assembled(p) && Placed(p, k, EmitBlock(b, c, a.lp)) && Begins(p, m, k, env, w)
    requires Extends(AfterBlock(b, c).vars, p.vars) && GoodBlock(b, inLoop) && Encloses(p, a, inLoop)
    ensures Ended(p, a, f, k + |EmitBlock(b, c, a.lp)|, m, n, m1, ExecBlock(p.rt, b, f, env, w))
    decreases f, b, 0
  {
    hide Assembled, Placed, Begins, Agree, Extends, Pc, Run, EmitStmt, AfterStmt, ExecStmt, Encloses, NestedStmt,
         FormedStmt, Ended;
    match b
    case Empty =>
      Stays(p, a, f, k, m, env, w);
      n, m1 := 0, m;
    case Seq(init, last) =>
      var c1, j := AfterBlock(init, c), k + |EmitBlock(init, c, a.lp)|;
      PlacedSplit(p, k, EmitBlock(init, c, a.lp), EmitStmt(last, c1, a.lp));
      StmtExtends(last, c1);
      ExtendsTrans(c1.vars, AfterStmt(last, c1).vars, p.vars);
      n, m1 := BlockRun(p, a, inLoop, f, init, c, k, m, env, w);
      n, m1 := ThenRun(p, a, inLoop, f, last, c1, j, m, n, m1, ExecBlock(p.rt, init, f, env, w));
  }

  /** The next statement of a block */
  lemma ThenRun(p: Prog, a: Around, inLoop: bool, f: nat, s: Stmt, c: Ctx, j: nat, m: Machine, n: nat, m1: Machine,
                r: Result)
    returns (n2: nat, m2: Machine)
    requires Assembled(p) && Placed(p, j, EmitStmt(s, c, a.lp)) && Ended(p, a, f, j, m, n, m1, r)
    requires Extends(AfterStmt(s, c).vars, p.vars) && GoodStmt(s, inLoop) && Encloses(p, a, inLoop)
    ensures Ended(p, a, f, j + |EmitStmt(s, c, a.lp)|, m, n2, m2, ThenStmt(p.rt, r, s, f))
    decreases f, s, 7
  {
    hide Assembled, Placed, Begins, Agree, Extends, Pc, Run, EmitStmt, AfterStmt, ExecStmt, Encloses, NestedStmt,
         FormedStmt, Ended;
    if r.Done? && r.signal.Normal? {
      EndedNormal(p, a, f, j, m, n, m1, r);
      n2, m2 := StmtRun(p, a, inLoop, f, s, c, j, m1, r.env, r.world);
      Preceded(p, a, f, j + |EmitStmt(s, c, a.lp)|, m, n, m1, n2, m2, ExecStmt(p.rt, s, f, r.env, r.world));
      n2 := n + n2;
    } else {
      EndedEarly(p, a, f, j, m, n, m1, r, j + |EmitStmt(s, c, a.lp)|);
      n2, m2 := n, m1;
    }
  }

  lemma EndedNormal(p: Prog, a: Around, f: nat, k: nat, m: Machine, n: nat, m1: Machine, r: Result)
    requires Ended(p, a, f, k, m, n, m1, r) && r.Done? && r.signal.Normal?
    ensures Begins(p, m1, k, r.env, r.world) && m1.Running? && m.Running? && m1.stack == m.stack
    ensures Run(p.rt, p.code, m, n) == m1
  {
  }

  lemma EndedEarly(p: Prog, a: Around, f: nat, k: nat, m: Machine, n: nat, m1: Machine, r: Result, k': nat)
    requires Ended(p, a, f, k, m, n, m1, r) && (r.Done? ==> !r.signal.Normal?)
    ensures Ended(p, a, f, k', m, n, m1, r)
  {
    hide Run, Pc, Agree;
  }

  lemma ClauseRun(p: Prog, a: Around, inLoop: bool, f: nat, x: Clause, c: Ctx, k: nat, m: Machine, env: Env, w: int)
    returns (n: nat, m1: Machine)
    requires Assembled(p) && Placed(p, k, EmitClause(x, c, a.lp)) && Begins(p, m, k, env, w)
    requires Extends(AfterClause(x, c).vars, p.vars) && GoodClause(x, inLoop) && Encloses(p, a, inLoop)
    ensures Ended(p, a, f, k + |EmitClause(x, c, a.lp)|, m, n, m1, ExecClause(p.rt, x, f, env, w))
    decreases f, x, 0
  {
    hide Assembled, Placed, Begins, Agree, Extends, Pc, Run, EmitBlock, AfterBlock, ExecBlock, Encloses, NestedBlock,
         FormedBlock, Ended;
    if x.Clause? {
      n, m1 := BlockRun(p, a, inLoop, f, x.body, c, k, m, env, w);
    } else {
      Stays(p, a, f, k, m, env, w);
      n, m1 := 0, m;
    }
  }

  lemma StmtRun(p: Prog, a: Around, inLoop: bool, f: nat, s: Stmt, c: Ctx, k: nat, m: Machine, env: Env, w: int)
    returns (n: nat, m1: Machine)
    requires Assembled(p) && Placed(p, k, EmitStmt(s, c, a.lp)) && Begins(p, m, k, env, w)
    requires Extends(AfterStmt(s, c).vars, p.vars) && GoodStmt(s, inLoop) && Encloses(p, a, inLoop)
    ensures Ended(p, a, f, k + |EmitStmt(s, c, a.lp)|, m, n, m1, ExecStmt(p.rt, s, f, env, w))
    decreases f, s, 6
  {
    hide Assembled, Placed, Begins, Agree, Extends, Pc, Run, EmitStmt, AfterStmt, ExecStmt, Encloses, FormedStmt,
         NestedStmt, Ended;
    match s {
      case Set(name, op, e, short) => n, m1 := SetRun(p, a, f, name, op, e, short, c, k, m, env, w);
      case Loop(body) => n, m1 := LoopRun(p, a, inLoop, f, body, c, k, m, env, w);
      case Test(until, e) => n, m1 := TestRun(p, a, inLoop, f, until, e, c, k, m, env, w);
      case Leave(again) => n, m1 := LeaveRun(p, a, inLoop, f, again, c, k, m, env, w);
      case If(_, _, _) => n, m1 := IfRun(p, a, inLoop, f, s, c, k, m, env, w);
      case Case(arms) => n, m1 := CaseRun(p, a, inLoop, f, arms, c, k, m, env, w);
      case File(_, _, _, _, _, _) => n, m1 := FileRun(p, a, inLoop, f, s, c, k, m, env, w);
      case Goto(name) => n, m1 := GotoRun(p, a, inLoop, f, name, c, k, m, env, w);
      case _ => n, m1 := MarkRun(p, a, inLoop, f, s, c, k, m, env, w);
    }
  }

  /** A GOTO arrives at its label. */
  lemma GotoRun(p: Prog, a: Around, inLoop: bool, f: nat, name: string, c: Ctx, k: nat, m: Machine, env: Env, w: int)
    returns (n: nat, m1: Machine)
    requires Assembled(p) && Placed(p, k, EmitStmt(Goto(name), c, a.lp)) && Begins(p, m, k, env, w)
    requires GoodStmt(Goto(name), inLoop)
    ensures Ended(p, a, f, k + |EmitStmt(Goto(name), c, a.lp)|, m, n, m1, ExecStmt(p.rt, Goto(name), f, env, w))
  {
    hide Assembled, Placed, Agree, Pc, Run, Spot;
    PlacedOne(p, k, I(Jump(OP_JMP, name)));
    ProgClosed(p, k, name);
    SpotFound(p.list, name);
    Jumped(p, name, k, Spot(p.list, name), m);
    LabelHere(p, Spot(p.list, name));
    n, m1 := 1, m.(pc := Pc(p, Spot(p.list, name)));
  }

  /** A label takes no step. */
  lemma MarkRun(p: Prog, a: Around, inLoop: bool, f: nat, s: Stmt, c: Ctx, k: nat, m: Machine, env: Env, w: int)
    returns (n: nat, m1: Machine)
    requires Assembled(p) && Placed(p, k, EmitStmt(s, c, a.lp)) && Begins(p, m, k, env, w) && GoodStmt(s, inLoop)
    requires s.LoopMark? || s.RepeatMark? || s.LabelMark?
    ensures Ended(p, a, f, k + |EmitStmt(s, c, a.lp)|, m, n, m1, ExecStmt(p.rt, s, f, env, w))
  {
    hide Assembled, Placed, Begins, Agree, Pc, Run, Ended;
    PlacedOne(p, k, D(s.name));
    LabelHere(p, k);
    Stays(p, a, f, k, m, env, w);
    Moved(p, a, f, k, m, 0, m, Done(Normal, env, w), k + 1);
    n, m1 := 0, m;
  }

  lemma TestRun(p: Prog, a: Around, inLoop: bool, f: nat, until: bool, e: Expr, c: Ctx, k: nat, m: Machine, env: Env,
                w: int)
    returns (n: nat, m1: Machine)
    requires Assembled(p) && Placed(p, k, EmitStmt(Test(until, e), c, a.lp)) && Begins(p, m, k, env, w)
    requires Extends(AfterStmt(Test(until, e), c).vars, p.vars)
    requires GoodStmt(Test(until, e), inLoop) && Encloses(p, a, inLoop)
    ensures Ended(p, a, f, k + |EmitStmt(Test(until, e), c, a.lp)|, m, n, m1, ExecStmt(p.rt, Test(until, e), f, env, w))
  {
    hide Assembled, Placed, Agree, Extends, Pc, Run, EmitE, AfterE, Eval, FormedExpr;
    var i := k + |EmitE(e, c)|;
    PlacedSplit(p, k, EmitE(e, c), [Jmp(TestOp(until), a.lp, "X")]);
    PlacedOne(p, i, Jmp(TestOp(until), a.lp, "X"));
    var n1, slot := ExprRun(p, e, c, k, m, env);
    var leaves := Truth(p.rt, Eval(p.rt, e, env)) == until;
    var m0 := Pushed(p, m, i, [slot]);
    Branch(p, TestOp(until), LabelName(a.lp, "X"), i, a.jx, m, slot, m0, leaves);
    LabelHere(p, a.jx);
    m1 := m.(pc := Pc(p, if leaves then a.jx else i + 1));
    PushedNone(p, m, if leaves then a.jx + 1 else i + 1);
    Compose(p, m, n1, m0, 1, m1);
    n := n1 + 1;
  }

  lemma LeaveRun(p: Prog, a: Around, inLoop: bool, f: nat, again: bool, c: Ctx, k: nat, m: Machine, env: Env, w: int)
    returns (n: nat, m1: Machine)
    requires Assembled(p) && Placed(p, k, EmitStmt(Leave(again), c, a.lp)) && Begins(p, m, k, env, w)
    requires GoodStmt(Leave(again), inLoop) && Encloses(p, a, inLoop)
    ensures Ended(p, a, f, k + |EmitStmt(Leave(again), c, a.lp)|, m, n, m1, ExecStmt(p.rt, Leave(again), f, env, w))
  {
    hide Assembled, Placed, Agree, Pc, Run;
    PlacedOne(p, k, Jmp(OP_JMP, a.lp, LeaveSuffix(again)));
    var j := if again then a.jr else a.jx;
    Jumped(p, LabelName(a.lp, LeaveSuffix(again)), k, j, m);
    n, m1 := 1, m.(pc := Pc(p, j));
  }

  /** The loop's labels enclose its body. */
  lemma LoopPlaced(p: Prog, body: Block, c: Ctx, lp: int, k: nat)
    requires Placed(p, k, EmitStmt(Loop(body), c, lp))
    ensures var inner := EmitBlock(body, Opened(c), c.next); var j := k + 1 + |inner|; var n := c.next;
      && Placed(p, k + 1, inner) && j + 1 < |p.list| && k + |EmitStmt(Loop(body), c, lp)| == j + 2
      && p.list[k] == D(LabelName(n, "R")) && p.list[j] == I(Jump(OP_JMP, LabelName(n, "R")))
      && p.list[j + 1] == D(LabelName(n, "X")) && Encloses(p, Around(n, k, j + 1), true)
  {
    hide Placed, EmitBlock;
    var inner, n := EmitBlock(body, Opened(c), c.next), c.next;
    var j := k + 1 + |inner|;
    PlacedSplit(p, k, [Lbl(n, "R")] + inner + [Jmp(OP_JMP, n, "R")], [Lbl(n, "X")]);
    PlacedSplit(p, k, [Lbl(n, "R")] + inner, [Jmp(OP_JMP, n, "R")]);
    PlacedSplit(p, k, [Lbl(n, "R")], inner);
    PlacedOne(p, k, Lbl(n, "R"));
    PlacedOne(p, j, Jmp(OP_JMP, n, "R"));
    PlacedOne(p, j + 1, Lbl(n, "X"));
  }

  /** The rounds of a loop, each of which takes a step at least. */
  lemma LoopRun(p: Prog, a: Around, inLoop: bool, f: nat, body: Block, c: Ctx, k: nat, m: Machine, env: Env, w: int)
    returns (n: nat, m1: Machine)
    requires Assembled(p) && Placed(p, k, EmitStmt(Loop(body), c, a.lp)) && Begins(p, m, k, env, w)
    requires Extends(AfterStmt(Loop(body), c).vars, p.vars) && GoodStmt(Loop(body), inLoop)
    ensures Ended(p, a, f, k + |EmitStmt(Loop(body), c, a.lp)|, m, n, m1, ExecStmt(p.rt, Loop(body), f, env, w))
    decreases f, body, 1
  {
    hide Assembled, Placed, Begins, Agree, Extends, Pc, Run, EmitBlock, AfterBlock, ExecBlock, Encloses, Ended,
         EmitStmt, ExecStmt, AfterStmt, GoodStmt, GoodBlock;
    LoopPlaced(p, body, c, a.lp, k);
    LoopFacts(p.rt, body, inLoop, c, f, env, w);
    var x := k + 1 + |EmitBlock(body, Opened(c), c.next)| + 1;
    LabelHere(p, k);
    LabelHere(p, x);
    if f == 0 {
      n, m1 := 0, m;
      NoRounds(p, a, x + 1, m, k, env, w);
    } else {
      BeginsMoved(p, m, k, env, w, k + 1);
      n, m1 := BlockRun(p, Around(c.next, k, x), true, f, body, Opened(c), k + 1, m, env, w);
      n, m1 := RoundRun(p, a, inLoop, f, f - 1, body, c, k, m, n, m1, ExecBlock(p.rt, body, f, env, w));
    }
  }

  /** After a round begun at m: the next ones, f of them, or the loop's end.  Where f is no
      less than the allowance f0, the round need not have taken a step. */
  lemma RoundRun(p: Prog, a: Around, inLoop: bool, f0: nat, f: nat, body: Block, c: Ctx, k: nat, m: Machine, n: nat,
                 m1: Machine, r: Result)
    returns (n2: nat, m2: Machine)
    requires Assembled(p) && Placed(p, k, EmitStmt(Loop(body), c, a.lp)) && f0 <= f + 1
    requires Extends(AfterStmt(Loop(body), c).vars, p.vars) && GoodStmt(Loop(body), inLoop)
    requires var x := k + 1 + |EmitBlock(body, Opened(c), c.next)| + 1;
      Ended(p, Around(c.next, k, x), f0, x - 1, m, n, m1, r)
    ensures Ended(p, a, f0, k + |EmitStmt(Loop(body), c, a.lp)|, m, n2, m2, AfterRound(p.rt, r, Loop(body), f))
    decreases f, body, 2
  {
    hide Assembled, Placed, Begins, Agree, Extends, Pc, Run, EmitBlock, AfterBlock, ExecBlock, Encloses, Ended,
         EmitStmt, ExecStmt, AfterStmt, GoodStmt, GoodBlock;
    LoopPlaced(p, body, c, a.lp, k);
    var x := k + 1 + |EmitBlock(body, Opened(c), c.next)| + 1;
    LabelHere(p, x);
    if r.Spin? || r.signal.Break? || r.signal.Go? {
      LoopLeft(p, a, Around(c.next, k, x), f0, x - 1, m, n, m1, r);
      n2, m2 := n, m1;
    } else {
      n2, m2 := NextRound(p, Around(c.next, k, x), f0, x - 1, m, n, m1, r);
      var n3, m3 := LoopRun(p, a, inLoop, f, body, c, k, m2, r.env, r.world);
      OneRound(p, a, f0, f, x + 1, m, n2, m2, n3, m3, ExecStmt(p.rt, Loop(body), f, r.env, r.world));
      n2, m2 := n2 + n3, m3;
    }
  }

  lemma LoopFacts(rt: Runtime, body: Block, inLoop: bool, c: Ctx, f: nat, env: Env, w: int)
    ensures GoodStmt(Loop(body), inLoop) ==> GoodBlock(body, true)
    ensures AfterStmt(Loop(body), c) == AfterBlock(body, Opened(c))
    ensures ExecStmt(rt, Loop(body), f, env, w)
         == if f == 0 then Spin else AfterRound(rt, ExecBlock(rt, body, f, env, w), Loop(body), f - 1)
  {
    hide AfterRound;
  }

  lemma NoRounds(p: Prog, a: Around, end: nat, m: Machine, k: nat, env: Env, w: int)
    requires Begins(p, m, k, env, w)
    ensures Ended(p, a, 0, end, m, 0, m, Spin)
  {
    StayRun(p, m);
  }

  lemma BeginsMoved(p: Prog, m: Machine, k: nat, env: Env, w: int, k': nat)
    requires Begins(p, m, k, env, w) && Pc(p, k) == Pc(p, k')
    ensures Begins(p, m, k', env, w)
  {
  }

  /** EXIT arrives at the end of the loop, a GOTO where it goes. */
  lemma LoopLeft(p: Prog, a: Around, inner: Around, f: nat, j: nat, m: Machine, n: nat, m1: Machine, r: Result)
    requires Ended(p, inner, f, j, m, n, m1, r) && (r.Spin? || r.signal.Break? || r.signal.Go?)
    requires Pc(p, inner.jx) == Pc(p, inner.jx + 1)
    ensures Ended(p, a, f, inner.jx + 1, m, n, m1,
                  if r.Done? && r.signal.Break? then Done(Normal, r.env, r.world) else r)
  {
    hide Pc, Run, Agree;
  }

  /** The end of the body and CONTINUE arrive at the loop's start, after a jump. */
  lemma NextRound(p: Prog, inner: Around, f: nat, j: nat, m: Machine, n: nat, m1: Machine, r: Result)
    returns (n2: nat, m2: Machine)
    requires Assembled(p) && Ended(p, inner, f, j, m, n, m1, r) && r.Done?
    requires r.signal.Normal? || r.signal.Again?
    requires j < |p.list| && inner.jr < |p.list| && inner.lp >= 0
    requires p.list[j] == I(Jump(OP_JMP, LabelName(inner.lp, "R"))) && p.list[inner.jr] == D(LabelName(inner.lp, "R"))
    ensures n2 >= 1 && m2.Running? && m.Running? && m2.stack == m.stack && Run(p.rt, p.code, m, n2) == m2
    ensures Begins(p, m2, inner.jr, r.env, r.world)
  {
    hide Assembled, Pc, Run, Agree;
    if r.signal.Normal? {
      Jumped(p, LabelName(inner.lp, "R"), j, inner.jr, m1);
      n2, m2 := n + 1, m1.(pc := Pc(p, inner.jr));
      Compose(p, m, n, m1, 1, m2);
    } else {
      n2, m2 := n, m1;
    }
  }

  lemma OneRound(p: Prog, a: Around, f0: nat, f: nat, k: nat, m: Machine, n0: nat, m0: Machine, n: nat, m1: Machine,
                 r: Result)
    requires m.Running? && Run(p.rt, p.code, m, n0) == m0 && m0.Running? && m0.stack == m.stack && n0 >= 1
    requires Ended(p, a, f, k, m0, n, m1, r) && f0 <= f + 1
    ensures Ended(p, a, f0, k, m, n0 + n, m1, r)
  {
    hide Run, Pc, Begins;
    Compose(p, m, n0, m0, n, m1);
  }

  lemma IfRun(p: Prog, a: Around, inLoop: bool, f: nat, s: Stmt, c: Ctx, k: nat, m: Machine, env: Env, w: int)
    returns (n: nat, m1: Machine)
    requires s.If? && Assembled(p) && Placed(p, k, EmitStmt(s, c, a.lp)) && Begins(p, m, k, env, w)
    requires Extends(AfterStmt(s, c).vars, p.vars) && GoodStmt(s, inLoop) && Encloses(p, a, inLoop)
    ensures Ended(p, a, f, k + |EmitStmt(s, c, a.lp)|, m, n, m1, ExecStmt(p.rt, s, f, env, w))
    decreases f, s, 3
  {
    hide Assembled, Placed, Agree, Extends, Pc, Run, EmitE, AfterE, Eval, FormedExpr, EmitIf, AfterClause, ExecClause,
         Encloses, NestedClause, FormedClause, Ended;
    var i, c1 := k + |EmitE(s.cond, c)|, AfterE(s.cond, c);
    PlacedSplit(p, k, EmitE(s.cond, c), EmitIf(s, c1.next, Opened(c1), a.lp));
    ClauseExtends(s.thn, Opened(c1));
    ClauseExtends(s.els, AfterClause(s.thn, Opened(c1)));
    ExtendsTrans(AfterClause(s.thn, Opened(c1)).vars, AfterStmt(s, c).vars, p.vars);
    ExtendsTrans(c1.vars, AfterClause(s.thn, Opened(c1)).vars, p.vars);
    var n1, slot := ExprRun(p, s.cond, c, k, m, env);
    var m0, holds := Pushed(p, m, i, [slot]), Truth(p.rt, Eval(p.rt, s.cond, env));
    var n2;
    NoClause(p.rt, s.thn, Opened(c1), f, env, w);
    if s.thn.Absent? {
      n2, m1 := ElseOnly(p, a, inLoop, f, s, c1.next, Opened(c1), i, m, m0, slot, holds, env, w);
    } else {
      n2, m1 := ThenClauseRun(p, a, inLoop, f, s, c1.next, Opened(c1), i, m, m0, slot, holds, env, w);
    }
    n := n1 + n2;
    Before(p, a, f, k + |EmitStmt(s, c, a.lp)|, m, n1, m0, n2, m1, ExecStmt(p.rt, s, f, env, w));
  }

  /** What a machine with something on top of m's stack comes to. */
  ghost predicate Settles(p: Prog, a: Around, f: nat, k: nat, m: Machine, m0: Machine, n: nat, m1: Machine, r: Result) {
    && m.Running? && m0.Running? && m1.Running? && Run(p.rt, p.code, m0, n) == m1
    && match r
       case Spin => n >= f
       case Done(signal, env, w) =>
         && m1.stack == m.stack
         && Begins(p, m1, Place(p, a, k, signal), env, w) && Goes(p, signal)
         && (!signal.Normal? ==> n >= 1)
  }

  lemma Before(p: Prog, a: Around, f: nat, k: nat, m: Machine, n0: nat, m0: Machine, n: nat, m1: Machine, r: Result)
    requires m.Running? && Run(p.rt, p.code, m, n0) == m0 && Settles(p, a, f, k, m, m0, n, m1, r)
    ensures Ended(p, a, f, k, m, n0 + n, m1, r)
  {
    hide Run, Pc, Begins;
    Compose(p, m, n0, m0, n, m1);
  }

  /** Steps that take the top off, then a run. */
  lemma SettlesAfter(p: Prog, a: Around, f: nat, k: nat, m: Machine, m0: Machine, n0: nat, m2: Machine, n: nat,
                     m1: Machine, r: Result)
    requires m.Running? && m0.Running? && Run(p.rt, p.code, m0, n0) == m2 && m2.Running? && m2.stack == m.stack
    requires Ended(p, a, f, k, m2, n, m1, r)
    ensures Settles(p, a, f, k, m, m0, n0 + n, m1, r)
  {
    hide Run, Pc, Begins;
    Compose(p, m0, n0, m2, n, m1);
  }

  /** The last clause of a statement, and the label after it. */
  lemma LastRun(p: Prog, a: Around, inLoop: bool, f: nat, x: Clause, l: nat, c: Ctx, k: nat, m: Machine, env: Env,
                w: int)
    returns (n: nat, m1: Machine)
    requires Assembled(p) && Placed(p, k, EmitLast(x, l, c, a.lp)) && Begins(p, m, k, env, w)
    requires Extends(AfterClause(x, c).vars, p.vars) && GoodClause(x, inLoop) && Encloses(p, a, inLoop)
    ensures Ended(p, a, f, k + |EmitLast(x, l, c, a.lp)|, m, n, m1, ExecClause(p.rt, x, f, env, w))
    decreases f, x, 1
  {
    hide Assembled, Placed, Begins, Agree, Extends, Pc, Run, EmitClause, AfterClause, ExecClause, Encloses,
         NestedClause, FormedClause, Ended;
    var j := k + |EmitClause(x, c, a.lp)|;
    PlacedSplit(p, k, EmitClause(x, c, a.lp), [Lbl(l, "X")]);
    PlacedOne(p, j, Lbl(l, "X"));
    LabelHere(p, j);
    n, m1 := ClauseRun(p, a, inLoop, f, x, c, k, m, env, w);
    Moved(p, a, f, j, m, n, m1, ExecClause(p.rt, x, f, env, w), j + 1);
  }

  lemma LastLabel(p: Prog, x: Clause, l: nat, c: Ctx, lp: int, k: nat)
    requires Placed(p, k, EmitLast(x, l, c, lp))
    ensures var j := k + |EmitClause(x, c, lp)|; j < |p.list| && p.list[j] == D(LabelName(l, "X"))
    ensures |EmitLast(x, l, c, lp)| == |EmitClause(x, c, lp)| + 1
  {
    hide Placed, EmitClause;
    PlacedSplit(p, k, EmitClause(x, c, lp), [Lbl(l, "X")]);
    PlacedOne(p, k + |EmitClause(x, c, lp)|, Lbl(l, "X"));
  }

  /** A conditional jump on what was pushed onto m's stack, as the start of what follows. */
  lemma Branched(p: Prog, op: int, name: string, i: nat, j: nat, m: Machine, m0: Machine, slot: Slot, jumps: bool,
                 env: Env, w: int)
    requires Assembled(p) && i < |p.list| && p.list[i] == I(Jump(op, name)) && j < |p.list| && p.list[j] == D(name)
    requires m.Running? && m0 == Pushed(p, m, i, [slot]) && Taken(p.rt, op, Deref(m.store, slot)) == Some(jumps)
    requires m.modes == {} && m.world == w && Agree(p, env, m.store)
    ensures var t := if jumps then j + 1 else i + 1; var m2 := m.(pc := Pc(p, t));
      Run(p.rt, p.code, m0, 1) == m2 && Begins(p, m2, t, env, w)
  {
    hide Assembled, Agree, Pc, Run;
    Branch(p, op, name, i, j, m, slot, m0, jumps);
    PushedNone(p, m, if jumps then j + 1 else i + 1);
  }

  /** IF without THEN */
  lemma ElseOnly(p: Prog, a: Around, inLoop: bool, f: nat, s: Stmt, l: nat, c: Ctx, i: nat, m: Machine, m0: Machine,
                 slot: Slot, holds: bool, env: Env, w: int)
    returns (n: nat, m1: Machine)
    requires s.If? && s.thn.Absent? && Assembled(p) && Placed(p, i, EmitIf(s, l, c, a.lp))
    requires m.Running? && m.modes == {} && m.world == w && Agree(p, env, m.store)
    requires m0 == Pushed(p, m, i, [slot]) && Truth(p.rt, Deref(m.store, slot)) == holds
    requires Extends(AfterClause(s.els, c).vars, p.vars) && GoodClause(s.els, inLoop) && Encloses(p, a, inLoop)
    ensures Settles(p, a, f, i + |EmitIf(s, l, c, a.lp)|, m, m0, n, m1,
                    if holds then Done(Normal, env, w) else ExecClause(p.rt, s.els, f, env, w))
    decreases f, s, 2
  {
    hide Assembled, Placed, Agree, Begins, Extends, Pc, Run, EmitLast, EmitClause, AfterClause, ExecClause, Encloses,
         GoodClause, Ended, Settles;
    PlacedSplit(p, i, [Jmp(OP_JTRUE, l, "X")], EmitLast(s.els, l, c, a.lp));
    PlacedOne(p, i, Jmp(OP_JTRUE, l, "X"));
    LastLabel(p, s.els, l, c, a.lp, i + 1);
    var x, end := i + 1 + |EmitClause(s.els, c, a.lp)|, i + |EmitIf(s, l, c, a.lp)|;
    Branched(p, OP_JTRUE, LabelName(l, "X"), i, x, m, m0, slot, holds, env, w);
    var t := if holds then x + 1 else i + 1;
    var m2 := m.(pc := Pc(p, t));
    var n2;
    if holds {
      Stays(p, a, f, t, m2, env, w);
      n2, m1 := 0, m2;
    } else {
      n2, m1 := LastRun(p, a, inLoop, f, s.els, l, c, t, m2, env, w);
    }
    n := 1 + n2;
    SettlesAfter(p, a, f, end, m, m0, 1, m2, n2, m1,
                 if holds then Done(Normal, env, w) else ExecClause(p.rt, s.els, f, env, w));
  }

  /** IF with THEN */
  lemma ThenClauseRun(p: Prog, a: Around, inLoop: bool, f: nat, s: Stmt, l: nat, c: Ctx, i: nat, m: Machine,
                      m0: Machine, slot: Slot, holds: bool, env: Env, w: int)
    returns (n: nat, m1: Machine)
    requires s.If? && s.thn.Clause? && Assembled(p) && Placed(p, i, EmitIf(s, l, c, a.lp))
    requires m.Running? && m.modes == {} && m.world == w && Agree(p, env, m.store)
    requires m0 == Pushed(p, m, i, [slot]) && Truth(p.rt, Deref(m.store, slot)) == holds
    requires Extends(AfterClause(s.thn, c).vars, p.vars)
    requires Extends(AfterClause(s.els, AfterClause(s.thn, c)).vars, p.vars)
    requires GoodClause(s.thn, inLoop) && GoodClause(s.els, inLoop) && Encloses(p, a, inLoop)
    ensures Settles(p, a, f, i + |EmitIf(s, l, c, a.lp)|, m, m0, n, m1,
                    if holds then ExecClause(p.rt, s.thn, f, env, w) else ExecClause(p.rt, s.els, f, env, w))
    decreases f, s, 2
  {
    hide Assembled, Placed, Agree, Begins, Extends, Pc, Run, EmitLast, EmitThen, EmitClause, AfterClause, ExecClause,
         Encloses, GoodClause, Ended, Settles;
    var c1, j := AfterClause(s.thn, c), i + 1 + |EmitClause(s.thn, c, a.lp)|;
    PlacedSplit(p, i, [Jmp(OP_JFALSE, l, "E")], EmitThen(s, l, c, a.lp));
    PlacedOne(p, i, Jmp(OP_JFALSE, l, "E"));
    var e, x := ThenPlaced(p, s, l, c, a.lp, i + 1);
    Branched(p, OP_JFALSE, LabelName(l, "E"), i, e, m, m0, slot, !holds, env, w);
    var t := if holds then i + 1 else e + 1;
    var m2 := m.(pc := Pc(p, t));
    var n2;
    if holds {
      n2, m1 := ClauseRun(p, a, inLoop, f, s.thn, c, t, m2, env, w);
      n2, m1 := Turned(p, a, f, s.els, l, c1, j, e, x, m2, n2, m1, ExecClause(p.rt, s.thn, f, env, w));
    } else {
      n2, m1 := ElsePart(p, a, inLoop, f, s.els, l, c1, t, x, m2, env, w);
    }
    n := 1 + n2;
    SettlesAfter(p, a, f, x, m, m0, 1, m2, n2, m1,
                 if holds then ExecClause(p.rt, s.thn, f, env, w) else ExecClause(p.rt, s.els, f, env, w));
  }

  lemma ElsePart(p: Prog, a: Around, inLoop: bool, f: nat, els: Clause, l: nat, c: Ctx, t: nat, x: nat, m: Machine,
                 env: Env, w: int)
    returns (n: nat, m1: Machine)
    requires Assembled(p) && Begins(p, m, t, env, w)
    requires els.Absent? ==> x == t
    requires els.Clause? ==> Placed(p, t, EmitLast(els, l, c, a.lp)) && x == t + |EmitLast(els, l, c, a.lp)|
    requires Extends(AfterClause(els, c).vars, p.vars) && GoodClause(els, inLoop) && Encloses(p, a, inLoop)
    ensures Ended(p, a, f, x, m, n, m1, ExecClause(p.rt, els, f, env, w))
    decreases f, els, 2
  {
    hide Assembled, Placed, Agree, Begins, Extends, Pc, Run, EmitLast, AfterClause, ExecClause, Encloses, GoodClause,
         Ended;
    if els.Absent? {
      Stays(p, a, f, t, m, env, w);
      n, m1 := 0, m;
      NoClause(p.rt, els, c, f, env, w);
    } else {
      n, m1 := LastRun(p, a, inLoop, f, els, l, c, t, m, env, w);
    }
  }

  lemma NoClause(rt: Runtime, x: Clause, c: Ctx, f: nat, env: Env, w: int)
    ensures x.Absent? ==> ExecClause(rt, x, f, env, w) == Done(Normal, env, w) && AfterClause(x, c) == c
  {
  }

  /** Where the E label and the end of an IF are. */
  lemma TurnPlaced(p: Prog, els: Clause, l: nat, c: Ctx, lp: int, j: nat) returns (e: nat, x: nat)
    requires Placed(p, j, if els.Absent? then [Lbl(l, "E")]
                          else [Jmp(OP_JMP, l, "X")] + [Lbl(l, "E")] + EmitLast(els, l, c, lp))
    ensures e < |p.list| && p.list[e] == D(LabelName(l, "E"))
    ensures els.Absent? ==> e == j && x == j + 1
    ensures els.Clause? ==>
              && e == j + 1 && x == j + 2 + |EmitLast(els, l, c, lp)| && Placed(p, j + 2, EmitLast(els, l, c, lp))
              && p.list[j] == I(Jump(OP_JMP, LabelName(l, "X"))) && x - 1 < |p.list|
              && p.list[x - 1] == D(LabelName(l, "X"))
  {
    hide Placed, EmitLast, EmitClause;
    if els.Absent? {
      PlacedOne(p, j, Lbl(l, "E"));
      e, x := j, j + 1;
    } else {
      PlacedSplit(p, j, [Jmp(OP_JMP, l, "X")] + [Lbl(l, "E")], EmitLast(els, l, c, lp));
      PlacedSplit(p, j, [Jmp(OP_JMP, l, "X")], [Lbl(l, "E")]);
      PlacedOne(p, j, Jmp(OP_JMP, l, "X"));
      PlacedOne(p, j + 1, Lbl(l, "E"));
      LastLabel(p, els, l, c, lp, j + 2);
      e, x := j + 1, j + 2 + |EmitLast(els, l, c, lp)|;
    }
  }

  lemma ThenPlaced(p: Prog, s: Stmt, l: nat, c: Ctx, lp: int, k: nat) returns (e: nat, x: nat)
    requires s.If? && Placed(p, k, EmitThen(s, l, c, lp))
    ensures Placed(p, k, EmitClause(s.thn, c, lp)) && x == k + |EmitThen(s, l, c, lp)|
    ensures e < |p.list| && p.list[e] == D(LabelName(l, "E"))
    ensures var j, c1 := k + |EmitClause(s.thn, c, lp)|, AfterClause(s.thn, c);
      && (s.els.Absent? ==> e == j && x == j + 1)
      && (s.els.Clause? ==>
          && e == j + 1 && x == j + 2 + |EmitLast(s.els, l, c1, lp)| && Placed(p, j + 2, EmitLast(s.els, l, c1, lp))
          && p.list[j] == I(Jump(OP_JMP, LabelName(l, "X"))) && x - 1 < |p.list|
          && p.list[x - 1] == D(LabelName(l, "X")))
  {
    hide Placed, EmitClause, EmitLast, AfterClause;
    var j, c1 := k + |EmitClause(s.thn, c, lp)|, AfterClause(s.thn, c);
    var tail := if s.els.Absent? then [Lbl(l, "E")]
                else [Jmp(OP_JMP, l, "X")] + [Lbl(l, "E")] + EmitLast(s.els, l, c1, lp);
    PlacedSplit(p, k, EmitClause(s.thn, c, lp), tail);
    e, x := TurnPlaced(p, s.els, l, c1, lp, j);
  }

  /** After the THEN clause: past the label, or over the ELSE clause. */
  lemma Turned(p: Prog, a: Around, f: nat, els: Clause, l: nat, c: Ctx, j: nat, e: nat, x: nat, m: Machine, n: nat,
               m1: Machine, r: Result)
    returns (n2: nat, m2: Machine)
    requires Assembled(p) && Ended(p, a, f, j, m, n, m1, r) && e < |p.list| && p.list[e] == D(LabelName(l, "E"))
    requires els.Absent? ==> e == j && x == j + 1
    requires els.Clause? ==>
               && x > 0 && j < |p.list| && p.list[j] == I(Jump(OP_JMP, LabelName(l, "X")))
               && x - 1 < |p.list| && p.list[x - 1] == D(LabelName(l, "X"))
    ensures Ended(p, a, f, x, m, n2, m2, r)
  {
    hide Assembled, Begins, Agree, Pc, Run, Ended;
    if els.Absent? {
      LabelHere(p, e);
      Moved(p, a, f, j, m, n, m1, r, x);
      n2, m2 := n, m1;
    } else {
      if r.Done? && r.signal.Normal? {
        EndedNormal(p, a, f, j, m, n, m1, r);
        BeginsFacts(p, m1, j, r.env, r.world);
        Jumped(p, LabelName(l, "X"), j, x - 1, m1);
      }
      n2, m2 := Followed(p, a, f, j, m, n, m1, r, 1, x);
    }
  }

  lemma CaseRun(p: Prog, a: Around, inLoop: bool, f: nat, arms: Arms, c: Ctx, k: nat, m: Machine, env: Env, w: int)
    returns (n: nat, m1: Machine)
    requires Assembled(p) && Placed(p, k, EmitStmt(Case(arms), c, a.lp)) && Begins(p, m, k, env, w)
    requires Extends(AfterStmt(Case(arms), c).vars, p.vars) && GoodStmt(Case(arms), inLoop) && Encloses(p, a, inLoop)
    ensures Ended(p, a, f, k + |EmitStmt(Case(arms), c, a.lp)|, m, n, m1, ExecStmt(p.rt, Case(arms), f, env, w))
    decreases f, arms, 2
  {
    hide Assembled, Placed, Begins, Agree, Extends, Pc, Run, EmitArms, AfterArms, ExecArms, Encloses, NestedArms,
         FormedArms, Ended;
    var x := k + |EmitArms(arms, c.next, Opened(c), a.lp)|;
    PlacedSplit(p, k, EmitArms(arms, c.next, Opened(c), a.lp), [Lbl(c.next, "X")]);
    PlacedOne(p, x, Lbl(c.next, "X"));
    LabelHere(p, x);
    n, m1 := ArmsRun(p, a, inLoop, f, arms, c.next, Opened(c), k, x, m, env, w);
    Moved(p, a, f, x, m, n, m1, ExecStmt(p.rt, Case(arms), f, env, w), x + 1);
  }

  /** Elements are tried in order; the one that is run ends at the end of the CASE. */
  lemma {:induction false} ArmsRun(p: Prog, a: Around, inLoop: bool, f: nat, arms: Arms, l: nat, c: Ctx, k: nat,
                                   x: nat, m: Machine, env: Env, w: int)
    returns (n: nat, m1: Machine)
    requires Assembled(p) && Placed(p, k, EmitArms(arms, l, c, a.lp)) && Begins(p, m, k, env, w)
    requires x < |p.list| && p.list[x] == D(LabelName(l, "X"))
    requires Extends(AfterArms(arms, c).vars, p.vars) && Encloses(p, a, inLoop)
    requires NestedArms(arms, inLoop) && FormedArms(arms)
    ensures match ExecArms(p.rt, arms, f, env, w)
      case Some(r) => Ended(p, a, f, x, m, n, m1, r)
      case None => Ended(p, a, f, k + |EmitArms(arms, l, c, a.lp)|, m, n, m1, Done(Normal, env, w))
    decreases f, arms, 1
  {
    hide Assembled, Placed, Begins, Agree, Extends, Pc, Run, EmitArm, ExecBlock, Encloses, NestedBlock, FormedBlock,
         FormedExpr, Ended, AfterBlock, AfterE, Eval;
    match arms
    case NoArms =>
      Stays(p, a, f, k, m, env, w);
      n, m1 := 0, m;
    case Arm(init, cond, body) =>
      var c1, j, i := AfterArms(init, c), k + |EmitArms(init, l, c, a.lp)|, Count(init) + 1;
      PlacedSplit(p, k, EmitArms(init, l, c, a.lp), EmitArm(cond, body, l, i, c1, a.lp));
      ExprExtends(cond, c1);
      BlockExtends(body, AfterE(cond, c1));
      ExtendsTrans(AfterE(cond, c1).vars, AfterArms(arms, c).vars, p.vars);
      ExtendsTrans(c1.vars, AfterE(cond, c1).vars, p.vars);
      n, m1 := ArmsRun(p, a, inLoop, f, init, l, c, k, x, m, env, w);
      if ExecArms(p.rt, init, f, env, w).None? {
        EndedNormal(p, a, f, j, m, n, m1, Done(Normal, env, w));
        var holds := Truth(p.rt, Eval(p.rt, cond, env));
        var end := if holds then x else j + |EmitArm(cond, body, l, i, c1, a.lp)|;
        var r := if holds then ExecBlock(p.rt, body, f, env, w) else Done(Normal, env, w);
        var n2, m2 := ArmRun(p, a, inLoop, f, cond, body, l, i, c1, j, x, m1, env, w);
        Preceded(p, a, f, end, m, n, m1, n2, m2, r);
        n, m1 := n + n2, m2;
      }
  }

  lemma ArmRun(p: Prog, a: Around, inLoop: bool, f: nat, cond: Expr, body: Block, l: nat, i: nat, c: Ctx, k: nat,
               x: nat, m: Machine, env: Env, w: int)
    returns (n: nat, m1: Machine)
    requires Assembled(p) && Placed(p, k, EmitArm(cond, body, l, i, c, a.lp)) && Begins(p, m, k, env, w)
    requires x < |p.list| && p.list[x] == D(LabelName(l, "X")) && FormedExpr(cond)
    requires Extends(AfterE(cond, c).vars, p.vars) && Extends(AfterBlock(body, AfterE(cond, c)).vars, p.vars)
    requires GoodBlock(body, inLoop) && Encloses(p, a, inLoop)
    ensures var holds := Truth(p.rt, Eval(p.rt, cond, env));
      Ended(p, a, f, if holds then x else k + |EmitArm(cond, body, l, i, c, a.lp)|, m, n, m1,
            if holds then ExecBlock(p.rt, body, f, env, w) else Done(Normal, env, w))
    decreases f, body, 1
  {
    hide Assembled, Placed, Begins, Agree, Extends, Pc, Run, EmitE, AfterE, EmitBlock, AfterBlock, ExecBlock, Encloses,
         GoodBlock, FormedExpr, Ended, Eval, Settles;
    var c1 := AfterE(cond, c);
    var j := k + |EmitE(cond, c)|;
    var t := j + 1 + |EmitBlock(body, c1, a.lp)|;
    ArmPlaced(p, cond, body, l, i, c, a.lp, k);
    BeginsFacts(p, m, k, env, w);
    var n1, slot := ExprRun(p, cond, c, k, m, env);
    var m0, holds := Pushed(p, m, j, [slot]), Truth(p.rt, Eval(p.rt, cond, env));
    Branched(p, OP_JFALSE, LabelName(l, CaseSuffix(i)), j, t + 1, m, m0, slot, !holds, env, w);
    var start := if holds then j + 1 else t + 2;
    var m2 := m.(pc := Pc(p, start));
    var end, r := if holds then x else t + 2, if holds then ExecBlock(p.rt, body, f, env, w) else Done(Normal, env, w);
    var n2;
    if holds {
      n2, m1 := BlockRun(p, a, inLoop, f, body, c1, start, m2, env, w);
      n2, m1 := JumpedTo(p, a, f, LabelName(l, "X"), t, x, m2, n2, m1, r);
    } else {
      Stays(p, a, f, start, m2, env, w);
      n2, m1 := 0, m2;
    }
    SettlesAfter(p, a, f, end, m, m0, 1, m2, n2, m1, r);
    Before(p, a, f, end, m, n1, m0, 1 + n2, m1, r);
    n := n1 + (1 + n2);
  }

  lemma ArmPlaced(p: Prog, cond: Expr, body: Block, l: nat, i: nat, c: Ctx, lp: int, k: nat)
    requires Placed(p, k, EmitArm(cond, body, l, i, c, lp))
    ensures var c1 := AfterE(cond, c); var j := k + |EmitE(cond, c)|; var t := j + 1 + |EmitBlock(body, c1, lp)|;
      && Placed(p, k, EmitE(cond, c)) && Placed(p, j + 1, EmitBlock(body, c1, lp)) && t + 1 < |p.list|
      && p.list[j] == I(Jump(OP_JFALSE, LabelName(l, CaseSuffix(i)))) && p.list[t] == I(Jump(OP_JMP, LabelName(l, "X")))
      && p.list[t + 1] == D(LabelName(l, CaseSuffix(i))) && k + |EmitArm(cond, body, l, i, c, lp)| == t + 2
  {
    hide Placed, EmitE, AfterE, EmitBlock;
    var c1, s := AfterE(cond, c), CaseSuffix(i);
    var j := k + |EmitE(cond, c)|;
    var b := EmitBlock(body, c1, lp);
    PlacedSplit(p, k, EmitE(cond, c) + [Jmp(OP_JFALSE, l, s)] + b + [Jmp(OP_JMP, l, "X")], [Lbl(l, s)]);
    PlacedSplit(p, k, EmitE(cond, c) + [Jmp(OP_JFALSE, l, s)] + b, [Jmp(OP_JMP, l, "X")]);
    PlacedSplit(p, k, EmitE(cond, c) + [Jmp(OP_JFALSE, l, s)], b);
    PlacedSplit(p, k, EmitE(cond, c), [Jmp(OP_JFALSE, l, s)]);
    PlacedOne(p, j, Jmp(OP_JFALSE, l, s));
    PlacedOne(p, j + 1 + |b|, Jmp(OP_JMP, l, "X"));
    PlacedOne(p, j + 2 + |b|, Lbl(l, s));
  }

  /** A normal end followed by a jump to a label. */
  lemma JumpedTo(p: Prog, a: Around, f: nat, name: string, k: nat, x: nat, m: Machine, n: nat, m1: Machine, r: Result)
    returns (n2: nat, m2: Machine)
    requires Assembled(p) && Ended(p, a, f, k, m, n, m1, r)
    requires k < |p.list| && p.list[k] == I(Jump(OP_JMP, name)) && x < |p.list| && p.list[x] == D(name)
    ensures Ended(p, a, f, x, m, n2, m2, r)
  {
    hide Assembled, Begins, Agree, Pc, Run, Ended;
    if r.Done? && r.signal.Normal? {
      EndedNormal(p, a, f, k, m, n, m1, r);
      BeginsFacts(p, m1, k, r.env, r.world);
      Jumped(p, name, k, x, m1);
    }
    n2, m2 := Followed(p, a, f, k, m, n, m1, r, 1, x);
  }

  /** A file operation: its operands, its prefixes, the operation, and the clause that
      its status selects.  The status is gone at every way out. */
  lemma FileRun(p: Prog, a: Around, inLoop: bool, f: nat, s: Stmt, c: Ctx, k: nat, m: Machine, env: Env, w: int)
    returns (n: nat, m1: Machine)
    requires s.File? && Assembled(p) && Placed(p, k, EmitStmt(s, c, a.lp)) && Begins(p, m, k, env, w)
    requires Extends(AfterStmt(s, c).vars, p.vars) && GoodStmt(s, inLoop) && Encloses(p, a, inLoop)
    ensures Ended(p, a, f, k + |EmitStmt(s, c, a.lp)|, m, n, m1, ExecStmt(p.rt, s, f, env, w))
    decreases f, s, 5
  {
    hide Assembled, Placed, Begins, Agree, Extends, Pc, Run, EmitArgs, AfterArgs, EvalArgs, EmitFile, AfterClause,
         ExecFile, Encloses, NestedClause, FormedClause, FormedArgs, Ended, Settles, Receiver,
         FirstVariable;
    var c1, j := AfterArgs(s.args, c), k + |EmitArgs(s.args, c)|;
    PlacedSplit(p, k, EmitArgs(s.args, c), EmitFile(s, c1.next, Opened(c1), a.lp));
    FileExtends(s, c, p.vars);
    BeginsFacts(p, m, k, env, w);
    var n1, slots := ArgsRun(p, s.args, c, k, m, env);
    ReceiverFirst(s.args);
    var m0 := Pushed(p, m, j, slots);
    var n2;
    n2, m1 := ClausesRun(p, a, inLoop, f, s, c1.next, Opened(c1), j, m, m0, slots, env, w);
    Before(p, a, f, k + |EmitStmt(s, c, a.lp)|, m, n1, m0, n2, m1, ExecFile(p.rt, s, f, env, w));
    n := n1 + n2;
  }

  lemma ReceiverFirst(args: Exprs)
    ensures Receiver(args).Some? ==> FirstVariable(args) == Receiver(args)
  {
    if Receiver(args).Some? {
      assert FirstVariable(args.init.init) == Receiver(args);
      assert FirstVariable(args.init) == Receiver(args);
    }
  }

  /** The tables between the clauses of a file operation */
  lemma FileExtends(s: Stmt, c: Ctx, st: Storage)
    requires s.File? && Extends(AfterStmt(s, c).vars, st)
    ensures var c1 := Opened(AfterArgs(s.args, c)); var c2 := AfterClause(s.onError, c1);
      var c3 := AfterClause(s.locked, c2); var c4 := AfterClause(s.thn, c3);
      && Extends(AfterArgs(s.args, c).vars, st) && Extends(c2.vars, st) && Extends(c3.vars, st)
      && Extends(c4.vars, st) && Extends(AfterClause(s.els, c4).vars, st)
  {
    hide Extends, AfterArgs, AfterClause;
    var c1 := Opened(AfterArgs(s.args, c));
    var c2 := AfterClause(s.onError, c1);
    var c3 := AfterClause(s.locked, c2);
    var c4 := AfterClause(s.thn, c3);
    ClauseExtends(s.els, c4);
    ExtendsTrans(c4.vars, AfterClause(s.els, c4).vars, st);
    ClauseExtends(s.thn, c3);
    ExtendsTrans(c3.vars, c4.vars, st);
    ClauseExtends(s.locked, c2);
    ExtendsTrans(c2.vars, c3.vars, st);
    ClauseExtends(s.onError, c1);
    ExtendsTrans(c1.vars, c2.vars, st);
  }

  /** What is left of a file operation once ON ERROR has been passed */
  function ExecRest(rt: Runtime, s: Stmt, status: int, f: nat, env: Env, w: int): Result
    requires s.File?
  {
    if s.locked.Clause? && status == ER_LCK then ExecClause(rt, s.locked, f, env, w)
    else if !s.call.thenElse then Done(Normal, env, w)
    else if status == 0 then ExecClause(rt, s.thn, f, env, w)
    else ExecClause(rt, s.els, f, env, w)
  }

  lemma RestRun(p: Prog, a: Around, inLoop: bool, f: nat, s: Stmt, l: nat, c: Ctx, j: nat, end: nat, m: Machine,
                m0: Machine, status: int, env: Env, w: int)
    returns (n: nat, m1: Machine)
    requires s.File? && Assembled(p) && Placed(p, j, EmitLocked(s.locked, l, c, a.lp))
    requires var c3, j3 := AfterClause(s.locked, c), j + |EmitLocked(s.locked, l, c, a.lp)|;
      && Placed(p, j3, EmitChoice(s, l, c3, a.lp)) && end + 1 == j3 + |EmitChoice(s, l, c3, a.lp)|
      && Extends(AfterClause(s.thn, c3).vars, p.vars)
      && Extends(AfterClause(s.els, AfterClause(s.thn, c3)).vars, p.vars)
    requires end < |p.list| && p.list[end] == D(LabelName(l, "X")) && Pc(p, end) == Pc(p, end + 1)
    requires m.Running? && m.modes == {} && m.world == w && Agree(p, env, m.store)
    requires m0 == Pushed(p, m, j, [Val(Number(status))])
    requires Extends(AfterClause(s.locked, c).vars, p.vars) && GoodStmt(s, inLoop) && Encloses(p, a, inLoop)
    ensures Settles(p, a, f, end + 1, m, m0, n, m1, ExecRest(p.rt, s, status, f, env, w))
    decreases f, s, 3
  {
    hide Assembled, Placed, Agree, Extends, Pc, Run, AfterClause, ExecClause, EmitLocked, EmitChoice, Encloses,
         NestedClause, FormedClause, FormedArgs, Settles;
    var r := ExecRest(p.rt, s, status, f, env, w);
    n, m1 := LockedRun(p, a, inLoop, f, s.locked, l, c, j, end, m, m0, status, env, w);
    if s.locked.Clause? && status == ER_LCK {
      SettlesMoved(p, a, f, end, m, m0, n, m1, r, end + 1);
    } else {
      var c3, j3 := AfterClause(s.locked, c), j + |EmitLocked(s.locked, l, c, a.lp)|;
      var n3, m3 := ChoiceRun(p, a, inLoop, f, s, l, c3, j3, m, m1, status, env, w);
      NoChoice(p.rt, s, f, env, w);
      SettlesEarlier(p, a, f, end + 1, m, m0, n, m1, n3, m3, r);
      n, m1 := n + n3, m3;
    }
  }

  /** After the operands */
  lemma ClausesRun(p: Prog, a: Around, inLoop: bool, f: nat, s: Stmt, l: nat, c: Ctx, j: nat, m: Machine, m0: Machine,
                   slots: seq<Slot>, env: Env, w: int)
    returns (n: nat, m1: Machine)
    requires s.File? && Assembled(p) && Placed(p, j, EmitFile(s, l, c, a.lp))
    requires m.Running? && m.modes == {} && m.world == w && Agree(p, env, m.store) && m0 == Pushed(p, m, j, slots)
    requires |slots| == ArgCount(s.args) && Values(m.store, slots) == EvalArgs(p.rt, s.args, env)
    requires Receiver(s.args).Some? ==>
               && slots != [] && Receiver(s.args).value in p.vars.info
               && slots[0] == Ref(p.vars.info[Receiver(s.args).value])
    requires var c2 := AfterClause(s.onError, c); var c3 := AfterClause(s.locked, c2); var c4 := AfterClause(s.thn, c3);
      && Extends(c2.vars, p.vars) && Extends(c3.vars, p.vars) && Extends(c4.vars, p.vars)
      && Extends(AfterClause(s.els, c4).vars, p.vars)
    requires GoodStmt(s, inLoop) && Encloses(p, a, inLoop)
    ensures Settles(p, a, f, j + |EmitFile(s, l, c, a.lp)|, m, m0, n, m1, ExecFile(p.rt, s, f, env, w))
    decreases f, s, 4
  {
    hide Assembled, Placed, Begins, Agree, Extends, Pc, Run, AfterClause, ExecClause, EvalArgs, EmitCall, EmitLocked,
         EmitChoice, Encloses, NestedClause, FormedClause, FormedArgs, Ended, Settles, Receiver, Values,
         Receive, Modes;
    var c2 := AfterClause(s.onError, c);
    var c3 := AfterClause(s.locked, c2);
    var j1 := j + |EmitLock(s.call, s.locked)|;
    var j2 := j1 + |EmitCall(s.call, s.onError, l, c, a.lp)|;
    var j3 := j2 + |EmitLocked(s.locked, l, c2, a.lp)|;
    FilePlaced(p, s, l, c, a.lp, j);
    hide EmitFile, EmitLock;
    var end := ChoiceLabel(p, s, l, c3, a.lp, j3);
    LabelHere(p, end);
    var reply := p.rt.file(s.call.op, Modes(s.call, s.onError, s.locked), Values(m.store, slots), m.world);
    var env' := Receive(s.call, s.args, reply, env);
    PlacedVariables(p);
    RecordAgrees(p, s.call, s.args, reply, slots, m, env);
    var ma := Answered(m, slots, s.call.op, reply);
    var nl := LockRun(p, s.call, s.locked, j, m0);
    var mc := m0.(pc := Pc(p, j1), modes := LockModes(s.call, s.locked));
    var r := ExecFile(p.rt, s, f, env, w);
    n, m1 := CallRun(p, a, inLoop, f, s, l, c, j1, end, m, mc, slots, ma, reply, env');
    if !(s.onError.Clause? && reply.status < 0) {
      var n2, m2 := RestRun(p, a, inLoop, f, s, l, c2, j2, end, ma, m1, reply.status, env', reply.world);
      SettlesEarlier(p, a, f, end + 1, ma, mc, n, m1, n2, m2, r);
      n, m1 := n + n2, m2;
    } else {
      SettlesMoved(p, a, f, end, ma, mc, n, m1, r, end + 1);
    }
    SettlesEarlier(p, a, f, end + 1, ma, m0, nl, mc, n, m1, r);
    SettlesSame(p, a, f, end + 1, ma, m0, nl + n, m1, r, m);
    n := nl + n;
  }

  lemma NoChoice(rt: Runtime, s: Stmt, f: nat, env: Env, w: int)
    requires s.File? && (s.call.thenElse <==> s.thn.Clause? || s.els.Clause?)
    ensures !s.call.thenElse ==>
              ExecClause(rt, s.thn, f, env, w) == ExecClause(rt, s.els, f, env, w) == Done(Normal, env, w)
  {
  }

  lemma PlacedVariables(p: Prog)
    requires Assembled(p)
    ensures WellPlaced(p.vars)
  {
  }

  lemma FilePlaced(p: Prog, s: Stmt, l: nat, c: Ctx, lp: int, j: nat)
    requires s.File? && Placed(p, j, EmitFile(s, l, c, lp))
    ensures var c2 := AfterClause(s.onError, c);
      var j1 := j + |EmitLock(s.call, s.locked)|;
      var j2 := j1 + |EmitCall(s.call, s.onError, l, c, lp)|;
      var j3 := j2 + |EmitLocked(s.locked, l, c2, lp)|;
      && Placed(p, j, EmitLock(s.call, s.locked)) && Placed(p, j1, EmitCall(s.call, s.onError, l, c, lp))
      && Placed(p, j2, EmitLocked(s.locked, l, c2, lp))
      && Placed(p, j3, EmitChoice(s, l, AfterClause(s.locked, c2), lp))
      && j + |EmitFile(s, l, c, lp)| == j3 + |EmitChoice(s, l, AfterClause(s.locked, c2), lp)|
  {
    hide Placed, EmitLock, EmitCall, EmitLocked, EmitChoice, AfterClause;
    var c2 := AfterClause(s.onError, c);
    var x, y, z := EmitLock(s.call, s.locked), EmitCall(s.call, s.onError, l, c, lp), EmitLocked(s.locked, l, c2, lp);
    PlacedSplit(p, j, x + y + z, EmitChoice(s, l, AfterClause(s.locked, c2), lp));
    PlacedSplit(p, j, x + y, z);
    PlacedSplit(p, j, x, y);
  }

  lemma SettlesEarlier(p: Prog, a: Around, f: nat, k: nat, m: Machine, m0: Machine, n0: nat, m2: Machine, n: nat,
                       m1: Machine, r: Result)
    requires m0.Running? && Run(p.rt, p.code, m0, n0) == m2 && Settles(p, a, f, k, m, m2, n, m1, r)
    ensures Settles(p, a, f, k, m, m0, n0 + n, m1, r)
  {
    hide Run, Pc, Begins;
    Compose(p, m0, n0, m2, n, m1);
  }

  lemma SettlesMoved(p: Prog, a: Around, f: nat, k: nat, m: Machine, m0: Machine, n: nat, m1: Machine, r: Result,
                     k': nat)
    requires Settles(p, a, f, k, m, m0, n, m1, r) && Pc(p, k) == Pc(p, k')
    ensures Settles(p, a, f, k', m, m0, n, m1, r)
  {
    hide Run, Pc, Agree;
  }

  lemma SettlesSame(p: Prog, a: Around, f: nat, k: nat, m: Machine, m0: Machine, n: nat, m1: Machine, r: Result,
                    m': Machine)
    requires Settles(p, a, f, k, m, m0, n, m1, r) && m'.Running? && m'.stack == m.stack
    ensures Settles(p, a, f, k, m', m0, n, m1, r)
  {
    hide Run, Pc, Begins;
  }

  /** The machine after a file operation, without its status. */
  function Answered(m: Machine, slots: seq<Slot>, op: int, reply: Reply): Machine
    requires m.Running? && (op == OP_READ && reply.record.Some? ==> slots != [] && slots[0].Ref?)
  {
    Running(m.pc, m.stack,
            if op == OP_READ && reply.record.Some? then m.store[slots[0].loc := reply.record.value] else m.store,
            {}, reply.world)
  }

  /** The operation's own step */
  lemma OperationStep(p: Prog, op: int, next: nat, m: Machine, m0: Machine, slots: seq<Slot>, modes: set<int>)
    requires m.Running? && m0.Running? && m0.stack == m.stack + slots && m0.store == m.store && m0.modes == modes
    requires m0.world == m.world && IsFileOp(op) && |slots| == FileOperands(op)
    requires var reply := p.rt.file(op, modes, Values(m.store, slots), m.world);
      op == OP_READ && reply.record.Some? ==> slots[0].Ref?
    ensures var reply := p.rt.file(op, modes, Values(m.store, slots), m.world);
      SimpleStep(p.rt, op, Pc(p, next), m0)
      == Pushed(p, Answered(m, slots, op, reply), next, [Val(Number(reply.status))])
  {
    hide Pc;
    assert m0.stack[|m0.stack| - |slots|..] == slots;
    assert Drop(m0.stack, |slots|) == m.stack;
    assert !IsMode(op);
  }

  /** Storing a record is an assignment to the operation's first operand. */
  lemma RecordAgrees(p: Prog, call: Call, args: Exprs, reply: Reply, slots: seq<Slot>, m: Machine, env: Env)
    requires m.Running? && Agree(p, env, m.store) && WellPlaced(p.vars) && (call.op == OP_READ ==> Receiver(args).Some?)
    requires Receiver(args).Some? ==>
               slots != [] && Receiver(args).value in p.vars.info && slots[0] == Ref(p.vars.info[Receiver(args).value])
    ensures Agree(p, Receive(call, args, reply, env), Answered(m, slots, call.op, reply).store)
  {
    hide Agree;
    if call.op == OP_READ && reply.record.Some? {
      AgreeUpdate(p, env, m.store, Receiver(args).value, reply.record.value);
    }
  }

  /** One prefix opcode, or the NULL that was left in its place. */
  lemma PrefixStep(p: Prog, op: int, k: nat, m: Machine)
    requires Assembled(p) && k < |p.list| && p.list[k] == Op(op) && m.Running? && m.pc == Pc(p, k)
    requires IsMode(op) || op == OP_NULL
    ensures Run(p.rt, p.code, m, 1)
         == m.(pc := Pc(p, k + 1), modes := m.modes + if op == OP_NULL then {} else {op})
  {
    hide Assembled, Pc, Run;
    SimpleRun(p, k, op, m);
    assert m.modes + {} == m.modes;
  }

  function LockModes(call: Call, locked: Clause): set<int> {
    (if call.lock > 0 then {call.lock as int} else {}) + (if locked.Clause? then {OP_NOWAIT} else {})
  }

  lemma LockRun(p: Prog, call: Call, locked: Clause, k: nat, m: Machine) returns (n: nat)
    requires Assembled(p) && Placed(p, k, EmitLock(call, locked)) && m.Running? && m.pc == Pc(p, k) && m.modes == {}
    requires (call.lock == 0 || call.lock == OP_ULOCK || call.lock == OP_LLOCK) && (locked.Clause? ==> call.canLock)
    ensures Run(p.rt, p.code, m, n)
         == m.(pc := Pc(p, k + |EmitLock(call, locked)|), modes := LockModes(call, locked))
  {
    hide Assembled, Pc, Run, Placed;
    var first := if call.lock > 0 then [Op(call.lock)] else [];
    var second := if call.canLock then [Op(if locked.Clause? then OP_NOWAIT else OP_NULL)] else [];
    PlacedSplit(p, k, first, second);
    n := 0;
    var m1 := m;
    StayRun(p, m);
    if call.lock > 0 {
      PlacedOne(p, k, Op(call.lock));
      PrefixStep(p, call.lock, k, m);
      n, m1 := 1, m.(pc := Pc(p, k + 1), modes := {} + {call.lock as int});
    }
    if call.canLock {
      var op := if locked.Clause? then OP_NOWAIT else OP_NULL;
      PlacedOne(p, k + |first|, Op(op));
      PrefixStep(p, op, k + |first|, m1);
      var m2 := m1.(pc := Pc(p, k + |first| + 1), modes := m1.modes + if op == OP_NULL then {} else {op});
      Compose(p, m, n, m1, 1, m2);
      n := n + 1;
    }
  }

  /** Either a clause was run, or the status is still on the stack at item k. */
  ghost predicate Stage(p: Prog, a: Around, f: nat, x: nat, k: nat, m: Machine, status: int, m0: Machine, n: nat,
                        m1: Machine, taken: bool, r: Result) {
    if taken then Settles(p, a, f, x, m, m0, n, m1, r)
    else m.Running? && Run(p.rt, p.code, m0, n) == m1 == Pushed(p, m, k, [Val(Number(status))])
  }

  /** A clause that is jumped over or left through the end of the statement: v is the
      value the jump tests. */
  lemma AsideRun(p: Prog, a: Around, inLoop: bool, f: nat, op: int, x: Clause, suffix: string, l: nat, c: Ctx, k: nat,
                 end: nat, m: Machine, m0: Machine, status: int, v: Value, jumps: bool, env: Env, w: int)
    returns (n: nat, m1: Machine)
    requires Assembled(p) && Placed(p, k, EmitAside(op, x, suffix, l, c, a.lp)) && end < |p.list|
    requires p.list[end] == D(LabelName(l, "X"))
    requires m.Running? && m.modes == {} && m.world == w && Agree(p, env, m.store)
    requires m0 == Pushed(p, m, k, [Val(Number(status)), Val(v)]) && Taken(p.rt, op, v) == Some(jumps)
    requires Extends(AfterClause(x, c).vars, p.vars) && GoodClause(x, inLoop) && Encloses(p, a, inLoop)
    ensures Stage(p, a, f, end, k + |EmitAside(op, x, suffix, l, c, a.lp)|, m, status, m0, n, m1, !jumps,
                  ExecClause(p.rt, x, f, env, w))
    decreases f, x, 1
  {
    hide Assembled, Placed, Agree, Begins, Extends, Pc, Run, EmitClause, AfterClause, ExecClause, Encloses,
         GoodClause, Ended, Settles;
    var t := k + 2 + |EmitClause(x, c, a.lp)|;
    AsidePlaced(p, op, x, suffix, l, c, a.lp, k);
    var sv := Val(Number(status));
    var m' := Pushed(p, m, k, [sv]);
    assert m.stack + [sv] + [Val(v)] == m.stack + [sv, Val(v)];
    Branch(p, op, LabelName(l, suffix), k, t + 1, m', Val(v), m0, jumps);
    PushedTwice(p, m, k, if jumps then t + 2 else k + 1, [sv], []);
    assert [sv] + [] == [sv];
    n, m1 := 1, Pushed(p, m, if jumps then t + 2 else k + 1, [sv]);
    if !jumps {
      PopRun(p, k + 1, m, sv, m1, env, w);
      var m2 := m.(pc := Pc(p, k + 2));
      Compose(p, m0, 1, m1, 1, m2);
      n, m1 := ClauseRun(p, a, inLoop, f, x, c, k + 2, m2, env, w);
      n, m1 := JumpedTo(p, a, f, LabelName(l, "X"), t, end, m2, n, m1, ExecClause(p.rt, x, f, env, w));
      SettlesAfter(p, a, f, end, m, m0, 2, m2, n, m1, ExecClause(p.rt, x, f, env, w));
      n := 2 + n;
    }
  }

  /** POP of the status */
  lemma PopRun(p: Prog, k: nat, m: Machine, slot: Slot, m0: Machine, env: Env, w: int)
    requires Assembled(p) && k < |p.list| && p.list[k] == Op(OP_POP) && m.Running? && m0 == Pushed(p, m, k, [slot])
    requires m.modes == {} && m.world == w && Agree(p, env, m.store)
    ensures Run(p.rt, p.code, m0, 1) == m.(pc := Pc(p, k + 1)) && Begins(p, m.(pc := Pc(p, k + 1)), k + 1, env, w)
  {
    hide Assembled, Pc, Run, Agree;
    SimpleRun(p, k, OP_POP, m0);
    TopSlot(m.stack, slot);
  }

  lemma AsidePlaced(p: Prog, op: int, x: Clause, suffix: string, l: nat, c: Ctx, lp: int, k: nat)
    requires Placed(p, k, EmitAside(op, x, suffix, l, c, lp))
    ensures var t := k + 2 + |EmitClause(x, c, lp)|;
      && Placed(p, k + 2, EmitClause(x, c, lp)) && t + 1 < |p.list| && k + |EmitAside(op, x, suffix, l, c, lp)| == t + 2
      && p.list[k] == I(Jump(op, LabelName(l, suffix))) && p.list[k + 1] == Op(OP_POP)
      && p.list[t] == I(Jump(OP_JMP, LabelName(l, "X"))) && p.list[t + 1] == D(LabelName(l, suffix))
  {
    hide Placed, EmitClause;
    var b := EmitClause(x, c, lp);
    PlacedSplit(p, k, [Jmp(op, l, suffix)] + [Op(OP_POP)] + b + [Jmp(OP_JMP, l, "X")], [Lbl(l, suffix)]);
    PlacedSplit(p, k, [Jmp(op, l, suffix)] + [Op(OP_POP)] + b, [Jmp(OP_JMP, l, "X")]);
    PlacedSplit(p, k, [Jmp(op, l, suffix)] + [Op(OP_POP)], b);
    PlacedSplit(p, k, [Jmp(op, l, suffix)], [Op(OP_POP)]);
    PlacedOne(p, k, Jmp(op, l, suffix));
    PlacedOne(p, k + 1, Op(OP_POP));
    PlacedOne(p, k + 2 + |b|, Jmp(OP_JMP, l, "X"));
    PlacedOne(p, k + 3 + |b|, Lbl(l, suffix));
  }

  lemma DupStatus(p: Prog, k: nat, m: Machine, status: int, m0: Machine)
    requires Assembled(p) && k < |p.list| && p.list[k] == Op(OP_DUP) && m.Running?
    requires m0 == Pushed(p, m, k, [Val(Number(status))])
    ensures Run(p.rt, p.code, m0, 1) == Pushed(p, m, k + 1, [Val(Number(status)), Val(Number(status))])
  {
    hide Assembled, Pc, Run;
    DupRun(p, k, m, Val(Number(status)), m0);
    assert [Val(Number(status))] + [Val(Number(status))] == [Val(Number(status)), Val(Number(status))];
  }

  lemma StagePreceded(p: Prog, a: Around, f: nat, x: nat, k: nat, m: Machine, status: int, m0: Machine, n0: nat,
                      m2: Machine, n: nat, m1: Machine, taken: bool, r: Result)
    requires m0.Running? && m2.Running? && Run(p.rt, p.code, m0, n0) == m2
    requires Stage(p, a, f, x, k, m, status, m2, n, m1, taken, r)
    ensures Stage(p, a, f, x, k, m, status, m0, n0 + n, m1, taken, r)
  {
    hide Run, Pc, Begins;
    Compose(p, m0, n0, m2, n, m1);
  }

  /** The operation and its ON ERROR clause.  m0 has the operands on its stack; m is what
      the operation leaves, apart from the status. */
  lemma CallRun(p: Prog, a: Around, inLoop: bool, f: nat, s: Stmt, l: nat, c: Ctx, k: nat, end: nat, start: Machine,
                m0: Machine, slots: seq<Slot>, m: Machine, reply: Reply, env: Env)
    returns (n: nat, m1: Machine)
    requires s.File? && Assembled(p) && Placed(p, k, EmitCall(s.call, s.onError, l, c, a.lp)) && end < |p.list|
    requires p.list[end] == D(LabelName(l, "X")) && IsFileOp(s.call.op) && |slots| == FileOperands(s.call.op)
    requires start.Running?
    requires m0 == start.(pc := Pc(p, k), stack := start.stack + slots, modes := LockModes(s.call, s.locked))
    requires s.call.op == OP_READ ==> slots[0].Ref?
    requires reply == p.rt.file(s.call.op, Modes(s.call, s.onError, s.locked), Values(start.store, slots), start.world)
    requires m == Answered(start, slots, s.call.op, reply) && Agree(p, env, m.store)
    requires Extends(AfterClause(s.onError, c).vars, p.vars) && GoodClause(s.onError, inLoop) && Encloses(p, a, inLoop)
    ensures Stage(p, a, f, end, k + |EmitCall(s.call, s.onError, l, c, a.lp)|, m, reply.status, m0, n, m1,
                  s.onError.Clause? && reply.status < 0, ExecClause(p.rt, s.onError, f, env, reply.world))
    decreases f, s, 2
  {
    hide Assembled, Placed, Agree, Begins, Extends, Pc, Run, EmitAside, AfterClause, ExecClause, Encloses, GoodClause,
         Ended, Settles, SimpleStep;
    if s.onError.Absent? {
      PlacedOne(p, k, Op(s.call.op));
      SimpleRun(p, k, s.call.op, m0);
      ModesWithout(s.call, s.onError, s.locked);
      OperationStep(p, s.call.op, k + 1, start, m0, slots, m0.modes);
      n, m1 := 1, Pushed(p, m, k + 1, [Val(Number(reply.status))]);
    } else {
      var head := [Op(OP_ONERROR)] + [Op(s.call.op)] + [Op(OP_DUP)];
      PlacedSplit(p, k, head, EmitAside(OP_JPZ, s.onError, "A", l, c, a.lp));
      PlacedSplit(p, k, [Op(OP_ONERROR)] + [Op(s.call.op)], [Op(OP_DUP)]);
      PlacedSplit(p, k, [Op(OP_ONERROR)], [Op(s.call.op)]);
      PlacedOne(p, k, Op(OP_ONERROR));
      PlacedOne(p, k + 1, Op(s.call.op));
      PlacedOne(p, k + 2, Op(OP_DUP));
      PrefixStep(p, OP_ONERROR, k, m0);
      var m2 := m0.(pc := Pc(p, k + 1), modes := m0.modes + {OP_ONERROR});
      SimpleRun(p, k + 1, s.call.op, m2);
      OperationStep(p, s.call.op, k + 2, start, m2, slots, m2.modes);
      var m3 := Pushed(p, m, k + 2, [Val(Number(reply.status))]);
      Compose(p, m0, 1, m2, 1, m3);
      DupStatus(p, k + 2, m, reply.status, m3);
      var m4 := Pushed(p, m, k + 3, [Val(Number(reply.status)), Val(Number(reply.status))]);
      Compose(p, m0, 2, m3, 1, m4);
      n, m1 := AsideRun(p, a, inLoop, f, OP_JPZ, s.onError, "A", l, c, k + 3, end, m, m4, reply.status,
                        Number(reply.status),
                        reply.status >= 0, env, reply.world);
      StagePreceded(p, a, f, end, k + |EmitCall(s.call, s.onError, l, c, a.lp)|, m, reply.status, m0, 3, m4, n, m1,
                    reply.status < 0, ExecClause(p.rt, s.onError, f, env, reply.world));
      n := 3 + n;
    }
  }

  lemma ModesWithout(call: Call, onError: Clause, locked: Clause)
    requires onError.Absent?
    ensures Modes(call, onError, locked) == LockModes(call, locked)
  {
  }

  /** The test for a lock held by someone else */
  lemma LockTest(p: Prog, k: nat, m: Machine, m0: Machine, status: int)
    requires Assembled(p) && m.Running? && m0 == Pushed(p, m, k, [Val(Number(status))])
    requires Placed(p, k, [Op(OP_DUP)] + [I(NumberLoad(ER_LCK))] + [Op(OP_EQ)])
    ensures var v := Number(if status == ER_LCK then 1 else 0);
      Run(p.rt, p.code, m0, 3) == Pushed(p, m, k + 3, [Val(Number(status)), Val(v)])
  {
    hide Assembled, Placed, Pc, Run, SimpleStep;
    PlacedSplit(p, k, [Op(OP_DUP)] + [I(NumberLoad(ER_LCK))], [Op(OP_EQ)]);
    PlacedSplit(p, k, [Op(OP_DUP)], [I(NumberLoad(ER_LCK))]);
    PlacedOne(p, k, Op(OP_DUP));
    PlacedOne(p, k + 2, Op(OP_EQ));
    DupStatus(p, k, m, status, m0);
    var sv, m2 := Val(Number(status)), Pushed(p, m, k + 1, [Val(Number(status)), Val(Number(status))]);
    NumberRun(p, ER_LCK, k + 1, m2);
    Wrap32Exact(ER_LCK);
    var m3 := Pushed(p, m2, k + 2, [Val(Number(ER_LCK))]);
    Compose(p, m0, 1, m2, 1, m3);
    SimpleRun(p, k + 2, OP_EQ, m3);
    var v := Number(if status == ER_LCK then 1 else 0);
    var m4 := Pushed(p, m, k + 3, [sv, Val(v)]);
    EqualStep(p, k, m, status, m3, v, m4);
    Compose(p, m0, 2, m3, 1, m4);
  }

  /** The LOCKED clause, after the test */
  lemma LockedRun(p: Prog, a: Around, inLoop: bool, f: nat, x: Clause, l: nat, c: Ctx, k: nat, end: nat, m: Machine,
                  m0: Machine, status: int, env: Env, w: int)
    returns (n: nat, m1: Machine)
    requires Assembled(p) && Placed(p, k, EmitLocked(x, l, c, a.lp))
    requires end < |p.list| && p.list[end] == D(LabelName(l, "X"))
    requires m.Running? && m.modes == {} && m.world == w && Agree(p, env, m.store)
    requires m0 == Pushed(p, m, k, [Val(Number(status))])
    requires Extends(AfterClause(x, c).vars, p.vars) && GoodClause(x, inLoop) && Encloses(p, a, inLoop)
    ensures Stage(p, a, f, end, k + |EmitLocked(x, l, c, a.lp)|, m, status, m0, n, m1, x.Clause? && status == ER_LCK,
                  ExecClause(p.rt, x, f, env, w))
    decreases f, x, 2
  {
    hide Assembled, Placed, Agree, Begins, Extends, Pc, Run, EmitAside, AfterClause, ExecClause, Encloses, GoodClause,
         Ended, Settles, SimpleStep;
    if x.Absent? {
      StayRun(p, m0);
      n, m1 := 0, m0;
    } else {
      PlacedSplit(p, k, [Op(OP_DUP)] + [I(NumberLoad(ER_LCK))] + [Op(OP_EQ)], EmitAside(OP_JZE, x, "B", l, c, a.lp));
      LockTest(p, k, m, m0, status);
      var v := Number(if status == ER_LCK then 1 else 0);
      var m4 := Pushed(p, m, k + 3, [Val(Number(status)), Val(v)]);
      n, m1 := AsideRun(p, a, inLoop, f, OP_JZE, x, "B", l, c, k + 3, end, m, m4, status, v, status != ER_LCK, env, w);
      hide Stage;
      StagePreceded(p, a, f, end, k + |EmitLocked(x, l, c, a.lp)|, m, status, m0, 3, m4, n, m1, status == ER_LCK,
                    ExecClause(p.rt, x, f, env, w));
      n := 3 + n;
    }
  }

  lemma EqualStep(p: Prog, k: nat, m: Machine, status: int, m3: Machine, v: Value, m4: Machine)
    requires m.Running? && v == Number(if status == ER_LCK then 1 else 0)
    requires m3 == Pushed(p, Pushed(p, m, k + 1, [Val(Number(status)), Val(Number(status))]),
                          k + 2, [Val(Number(ER_LCK))])
    requires m4 == Pushed(p, m, k + 3, [Val(Number(status)), Val(v)])
    ensures SimpleStep(p.rt, OP_EQ, Pc(p, k + 3), m3) == m4
  {
    hide Pc;
    var sv := Val(Number(status));
    assert m3.stack == (m.stack + [sv]) + [sv, Val(Number(ER_LCK))];
    OperatorStep(p.rt, OP_EQ, Pc(p, k + 3), m.stack + [sv], [sv, Val(Number(ER_LCK))], m3);
    assert m.stack + [sv] + [Val(v)] == m.stack + [sv, Val(v)];
  }

  /** THEN and ELSE, or the POP of the status */
  lemma ChoiceRun(p: Prog, a: Around, inLoop: bool, f: nat, s: Stmt, l: nat, c: Ctx, k: nat, m: Machine, m0: Machine,
                  status: int, env: Env, w: int)
    returns (n: nat, m1: Machine)
    requires s.File? && Assembled(p) && Placed(p, k, EmitChoice(s, l, c, a.lp))
    requires m.Running? && m.modes == {} && m.world == w && Agree(p, env, m.store)
    requires m0 == Pushed(p, m, k, [Val(Number(status))]) && (s.call.thenElse <==> s.thn.Clause? || s.els.Clause?)
    requires Extends(AfterClause(s.thn, c).vars, p.vars)
    requires Extends(AfterClause(s.els, AfterClause(s.thn, c)).vars, p.vars)
    requires GoodClause(s.thn, inLoop) && GoodClause(s.els, inLoop) && Encloses(p, a, inLoop)
    ensures Settles(p, a, f, k + |EmitChoice(s, l, c, a.lp)|, m, m0, n, m1,
                    if status == 0 then ExecClause(p.rt, s.thn, f, env, w) else ExecClause(p.rt, s.els, f, env, w))
    decreases f, s, 2
  {
    hide Assembled, Placed, Agree, Begins, Extends, Pc, Run, EmitLast, EmitSuccess, EmitClause, AfterClause,
         ExecClause, Encloses, GoodClause, Ended, Settles;
    NoClause(p.rt, s.thn, c, f, env, w);
    NoClause(p.rt, s.els, AfterClause(s.thn, c), f, env, w);
    if !s.call.thenElse {
      PlacedSplit(p, k, [Op(OP_POP)], [Lbl(l, "X")]);
      PlacedOne(p, k, Op(OP_POP));
      PlacedOne(p, k + 1, Lbl(l, "X"));
      LabelHere(p, k + 1);
      PopRun(p, k, m, Val(Number(status)), m0, env, w);
      m1 := m.(pc := Pc(p, k + 1));
      BeginsMoved(p, m1, k + 1, env, w, k + 2);
      Stays(p, a, f, k + 2, m1, env, w);
      SettlesAfter(p, a, f, k + 2, m, m0, 1, m1, 0, m1, Done(Normal, env, w));
      n := 1;
    } else if s.thn.Absent? {
      n, m1 := FailureRun(p, a, inLoop, f, s, l, c, k, m, m0, status, env, w);
    } else {
      n, m1 := SuccessRun(p, a, inLoop, f, s, l, c, k, m, m0, status, env, w);
    }
  }

  /** ELSE without THEN */
  lemma FailureRun(p: Prog, a: Around, inLoop: bool, f: nat, s: Stmt, l: nat, c: Ctx, i: nat, m: Machine, m0: Machine,
                   status: int, env: Env, w: int)
    returns (n: nat, m1: Machine)
    requires s.File? && s.thn.Absent? && Assembled(p)
    requires Placed(p, i, [Jmp(OP_JZE, l, "X")] + EmitLast(s.els, l, c, a.lp))
    requires m.Running? && m.modes == {} && m.world == w && Agree(p, env, m.store)
    requires m0 == Pushed(p, m, i, [Val(Number(status))])
    requires Extends(AfterClause(s.els, c).vars, p.vars) && GoodClause(s.els, inLoop) && Encloses(p, a, inLoop)
    ensures Settles(p, a, f, i + 1 + |EmitLast(s.els, l, c, a.lp)|, m, m0, n, m1,
                    if status == 0 then Done(Normal, env, w) else ExecClause(p.rt, s.els, f, env, w))
    decreases f, s, 1
  {
    hide Assembled, Placed, Agree, Begins, Extends, Pc, Run, EmitLast, EmitClause, AfterClause, ExecClause, Encloses,
         GoodClause, Ended, Settles;
    PlacedSplit(p, i, [Jmp(OP_JZE, l, "X")], EmitLast(s.els, l, c, a.lp));
    PlacedOne(p, i, Jmp(OP_JZE, l, "X"));
    LastLabel(p, s.els, l, c, a.lp, i + 1);
    var x, end := i + 1 + |EmitClause(s.els, c, a.lp)|, i + 1 + |EmitLast(s.els, l, c, a.lp)|;
    Branched(p, OP_JZE, LabelName(l, "X"), i, x, m, m0, Val(Number(status)), status == 0, env, w);
    var t := if status == 0 then x + 1 else i + 1;
    var m2 := m.(pc := Pc(p, t));
    var n2;
    if status == 0 {
      Stays(p, a, f, t, m2, env, w);
      n2, m1 := 0, m2;
    } else {
      n2, m1 := LastRun(p, a, inLoop, f, s.els, l, c, t, m2, env, w);
    }
    n := 1 + n2;
    SettlesAfter(p, a, f, end, m, m0, 1, m2, n2, m1,
                 if status == 0 then Done(Normal, env, w) else ExecClause(p.rt, s.els, f, env, w));
  }

  /** THEN, with or without ELSE */
  lemma SuccessRun(p: Prog, a: Around, inLoop: bool, f: nat, s: Stmt, l: nat, c: Ctx, i: nat, m: Machine, m0: Machine,
                   status: int, env: Env, w: int)
    returns (n: nat, m1: Machine)
    requires s.File? && s.thn.Clause? && Assembled(p)
    requires Placed(p, i, [Jmp(OP_JNZ, l, "E")] + EmitSuccess(s, l, c, a.lp))
    requires m.Running? && m.modes == {} && m.world == w && Agree(p, env, m.store)
    requires m0 == Pushed(p, m, i, [Val(Number(status))])
    requires Extends(AfterClause(s.thn, c).vars, p.vars)
    requires Extends(AfterClause(s.els, AfterClause(s.thn, c)).vars, p.vars)
    requires GoodClause(s.thn, inLoop) && GoodClause(s.els, inLoop) && Encloses(p, a, inLoop)
    ensures Settles(p, a, f, i + 1 + |EmitSuccess(s, l, c, a.lp)|, m, m0, n, m1,
                    if status == 0 then ExecClause(p.rt, s.thn, f, env, w) else ExecClause(p.rt, s.els, f, env, w))
    decreases f, s, 1
  {
    hide Assembled, Placed, Agree, Begins, Extends, Pc, Run, EmitLast, EmitClause, AfterClause, ExecClause, Encloses,
         GoodClause, Ended, Settles;
    var c1, j := AfterClause(s.thn, c), i + 1 + |EmitClause(s.thn, c, a.lp)|;
    PlacedSplit(p, i, [Jmp(OP_JNZ, l, "E")], EmitSuccess(s, l, c, a.lp));
    PlacedOne(p, i, Jmp(OP_JNZ, l, "E"));
    var e, y, x := SuccessPlaced(p, s, l, c, a.lp, i + 1);
    Branched(p, OP_JNZ, LabelName(l, "E"), i, e, m, m0, Val(Number(status)), status != 0, env, w);
    var t := if status == 0 then i + 1 else e + 1;
    var m2 := m.(pc := Pc(p, t));
    var r := if status == 0 then ExecClause(p.rt, s.thn, f, env, w) else ExecClause(p.rt, s.els, f, env, w);
    var n2;
    if status == 0 {
      n2, m1 := ClauseRun(p, a, inLoop, f, s.thn, c, t, m2, env, w);
      n2, m1 := Turned(p, a, f, s.els, l, c1, j, e, y, m2, n2, m1, r);
    } else {
      n2, m1 := ElsePart(p, a, inLoop, f, s.els, l, c1, t, y, m2, env, w);
    }
    Moved(p, a, f, y, m2, n2, m1, r, x);
    n := 1 + n2;
    SettlesAfter(p, a, f, x, m, m0, 1, m2, n2, m1, r);
  }

  /** Where the E label and the end are; without ELSE two labels stand together. */
  lemma SuccessPlaced(p: Prog, s: Stmt, l: nat, c: Ctx, lp: int, k: nat) returns (e: nat, y: nat, x: nat)
    requires s.File? && s.thn.Clause? && Assembled(p) && Placed(p, k, EmitSuccess(s, l, c, lp))
    ensures Placed(p, k, EmitClause(s.thn, c, lp)) && x == k + |EmitSuccess(s, l, c, lp)| && Pc(p, y) == Pc(p, x)
    ensures e < |p.list| && p.list[e] == D(LabelName(l, "E"))
    ensures var j, c1 := k + |EmitClause(s.thn, c, lp)|, AfterClause(s.thn, c);
      && (s.els.Absent? ==> e == j && y == j + 1)
      && (s.els.Clause? ==>
          && e == j + 1 && y == j + 2 + |EmitLast(s.els, l, c1, lp)| && Placed(p, j + 2, EmitLast(s.els, l, c1, lp))
          && p.list[j] == I(Jump(OP_JMP, LabelName(l, "X"))) && y - 1 < |p.list|
          && p.list[y - 1] == D(LabelName(l, "X")))
  {
    hide Assembled, Placed, EmitClause, EmitLast, AfterClause, Pc;
    var j, c1 := k + |EmitClause(s.thn, c, lp)|, AfterClause(s.thn, c);
    x := k + |EmitSuccess(s, l, c, lp)|;
    if s.els.Absent? {
      PlacedSplit(p, k, EmitClause(s.thn, c, lp), [Lbl(l, "E")] + [Lbl(l, "X")]);
      PlacedSplit(p, j, [Lbl(l, "E")], [Lbl(l, "X")]);
      PlacedOne(p, j, Lbl(l, "E"));
      PlacedOne(p, j + 1, Lbl(l, "X"));
      LabelHere(p, j + 1);
      e, y := j, j + 1;
    } else {
      PlacedSplit(p, k, EmitClause(s.thn, c, lp), [Jmp(OP_JMP, l, "X")] + [Lbl(l, "E")] + EmitLast(s.els, l, c1, lp));
      e, y := TurnPlaced(p, s.els, l, c1, lp, j);
    }
  }

  /** The exit label of a file operation */
  lemma ChoiceLabel(p: Prog, s: Stmt, l: nat, c: Ctx, lp: int, k: nat) returns (end: nat)
    requires s.File? && Placed(p, k, EmitChoice(s, l, c, lp))
    ensures end + 1 == k + |EmitChoice(s, l, c, lp)| && end < |p.list| && p.list[end] == D(LabelName(l, "X"))
  {
    hide Placed, EmitClause, AfterClause, EmitLast, EmitSuccess;
    if !s.call.thenElse {
      PlacedSplit(p, k, [Op(OP_POP)], [Lbl(l, "X")]);
      PlacedOne(p, k + 1, Lbl(l, "X"));
      end := k + 1;
    } else if s.thn.Absent? {
      PlacedSplit(p, k, [Jmp(OP_JZE, l, "X")], EmitLast(s.els, l, c, lp));
      LastLabel(p, s.els, l, c, lp, k + 1);
      end := k + 1 + |EmitClause(s.els, c, lp)|;
    } else {
      PlacedSplit(p, k, [Jmp(OP_JNZ, l, "E")], EmitSuccess(s, l, c, lp));
      end := SuccessLabel(p, s, l, c, lp, k + 1);
    }
  }

  lemma SuccessLabel(p: Prog, s: Stmt, l: nat, c: Ctx, lp: int, k: nat) returns (end: nat)
    requires s.File? && Placed(p, k, EmitSuccess(s, l, c, lp))
    ensures end + 1 == k + |EmitSuccess(s, l, c, lp)| && end < |p.list| && p.list[end] == D(LabelName(l, "X"))
  {
    hide Placed, EmitClause, AfterClause, EmitLast, EmitSuccess;
    var j, c1 := k + |EmitClause(s.thn, c, lp)|, AfterClause(s.thn, c);
    SuccessParts(p, s, l, c, lp, k);
    if s.els.Absent? {
      PlacedSplit(p, j, [Lbl(l, "E")], [Lbl(l, "X")]);
      PlacedOne(p, j + 1, Lbl(l, "X"));
      end := j + 1;
    } else {
      var e, x := TurnPlaced(p, s.els, l, c1, lp, j);
      end := x - 1;
    }
  }

  lemma SuccessParts(p: Prog, s: Stmt, l: nat, c: Ctx, lp: int, k: nat)
    requires s.File? && Placed(p, k, EmitSuccess(s, l, c, lp))
    ensures var j, n := k + |EmitClause(s.thn, c, lp)|, k + |EmitSuccess(s, l, c, lp)|;
      && (s.els.Absent? ==> Placed(p, j, [Lbl(l, "E")] + [Lbl(l, "X")]) && n == j + 2)
      && (s.els.Clause? ==>
          var last := EmitLast(s.els, l, AfterClause(s.thn, c), lp);
          Placed(p, j, [Jmp(OP_JMP, l, "X")] + [Lbl(l, "E")] + last) && n == j + 2 + |last|)
  {
    hide Placed, EmitClause, AfterClause, EmitLast;
    PlacedSplit(p, k, EmitClause(s.thn, c, lp),
                if s.els.Absent? then [Lbl(l, "E")] + [Lbl(l, "X")]
                else [Jmp(OP_JMP, l, "X")] + [Lbl(l, "E")] + EmitLast(s.els, l, AfterClause(s.thn, c), lp));
  }
}
