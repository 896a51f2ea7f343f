/** Running assembled code: one step for each instruction of the listing, and whole
    expressions, which push one slot that stands for their value. */
module Runs {
  import opened Outcomes
  import opened Bytes
  import opened Isa
  import opened Cells
  import opened Listing
  import opened Linking
  import opened Syntax
  import opened Storages
  import opened Names
  import opened Generate
  import opened Machines
  import opened Meanings

  /** An assembled program: its bytes, the listing they come from, and its variables. */
  datatype Prog = Prog(rt: Runtime, code: seq<byte>, list: seq<Item>, vars: Storage)

  ghost predicate Assembled(p: Prog) {
    && Image(p.code, Flatten(p.list))
    && Closed(p.list) && Distinct(p.list)
    && End(Flatten(p.list)) <= CODE_SIZE
    && WellPlaced(p.vars)
    && forall i :: 0 <= i < |p.list| && p.list[i].I? ==> Encodable(p.list[i].ins) || p.list[i].ins.LongInt?
  }

  predicate Placed(p: Prog, k: nat, items: seq<Item>) {
    k + |items| <= |p.list| && p.list[k..k + |items|] == items
  }

  /** The address of item k */
  function Pc(p: Prog, k: nat): nat {
    if k <= |p.list| then At(p.list, k) else 0
  }

  /** The variables hold what the environment says. */
  ghost predicate Agree(p: Prog, env: Env, store: map<Loc, Value>) {
    forall x :: x in p.vars.info ==> Get(store, p.vars.info[x]) == Lookup(env, x)
  }

  lemma PlacedSplit(p: Prog, k: nat, a: seq<Item>, b: seq<Item>)
    requires Placed(p, k, a + b)
    ensures Placed(p, k, a) && Placed(p, k + |a|, b)
  {
    var s := p.list[k..k + |a + b|];
    assert p.list[k..k + |a|] == s[..|a|] == a;
    assert p.list[k + |a|..k + |a| + |b|] == s[|a|..] == b;
  }

  lemma PlacedOne(p: Prog, k: nat, x: Item)
    requires Placed(p, k, [x])
    ensures k < |p.list| && p.list[k] == x
  {
    assert p.list[k..k + 1][0] == x;
  }

  /** One instruction. */
  lemma PlainStep(p: Prog, k: nat, ins: Instr<string>, m: Machine)
    requires Assembled(p) && k < |p.list| && p.list[k] == I(ins) && !ins.Jump? && m.Running? && m.pc == Pc(p, k)
    ensures Run(p.rt, p.code, m, 1) == Execute(p.rt, Resolve(p.list, Narrow(ins)), Pc(p, k + 1), m)
  {
    hide Flatten, Image, Closed, Addr, Resolve, Target, Encode, Decode, Find, Execute, Distinct;
    FetchAt(p.code, p.list, k);
    RunOne(p.rt, p.code, m);
  }

  lemma SimpleRun(p: Prog, k: nat, op: int, m: Machine)
    requires Assembled(p) && k < |p.list| && p.list[k] == Op(op) && m.Running? && m.pc == Pc(p, k)
    ensures Run(p.rt, p.code, m, 1) == SimpleStep(p.rt, op, Pc(p, k + 1), m)
  {
    hide Assembled, Pc, SimpleStep, Run;
    PlainStep(p, k, Simple(op), m);
  }

  lemma JumpRun(p: Prog, k: nat, op: int, name: string, j: nat, m: Machine)
    requires Assembled(p) && k < |p.list| && p.list[k] == I(Jump(op, name)) && m.Running? && m.pc == Pc(p, k)
    requires j < |p.list| && p.list[j] == D(name)
    ensures Run(p.rt, p.code, m, 1) == JumpStep(p.rt, op, Pc(p, j), Pc(p, k + 1), m)
    ensures Pc(p, j) == Pc(p, j + 1)
  {
    hide Flatten, Image, Closed, Addr, Target, Encode, Decode, Find, Distinct;
    FetchAt(p.code, p.list, k);
    TargetOfDef(p.list, j);
    RunOne(p.rt, p.code, m);
  }

  lemma LabelHere(p: Prog, j: nat)
    requires Assembled(p) && j < |p.list| && p.list[j].D?
    ensures Pc(p, j) == Pc(p, j + 1)
  {
    hide Flatten, Image, Closed, Addr, Target, Distinct;
    TargetOfDef(p.list, j);
  }

  lemma ProgClosed(p: Prog, k: nat, name: string)
    requires Assembled(p) && k < |p.list| && p.list[k] == I(Jump(OP_JMP, name))
    ensures D(name) in p.list
  {
    hide Image, Flatten, Distinct;
    ClosedAt(p.list, k);
  }

  lemma Compose(p: Prog, m: Machine, a: nat, m1: Machine, b: nat, m2: Machine)
    requires Run(p.rt, p.code, m, a) == m1 && Run(p.rt, p.code, m1, b) == m2
    ensures Run(p.rt, p.code, m, a + b) == m2
  {
    RunAdd(p.rt, p.code, m, a, b);
  }

  /** The machine after pushing slots up to item k */
  function Pushed(p: Prog, m: Machine, k: nat, slots: seq<Slot>): (r: Machine)
    requires m.Running?
    ensures r.Running?
  {
    m.(pc := Pc(p, k), stack := m.stack + slots)
  }

  lemma PushedTwice(p: Prog, m: Machine, j: nat, k: nat, a: seq<Slot>, b: seq<Slot>)
    requires m.Running?
    ensures Pushed(p, Pushed(p, m, j, a), k, b) == Pushed(p, m, k, a + b)
  {
    assert m.stack + a + b == m.stack + (a + b);
  }

  lemma NumberRun(p: Prog, n: int, k: nat, m: Machine)
    requires Assembled(p) && Placed(p, k, [I(NumberLoad(n))]) && m.Running? && m.pc == Pc(p, k)
    ensures Run(p.rt, p.code, m, 1) == Pushed(p, m, k + 1, [Val(Number(Wrap32(n)))])
  {
    hide Assembled, Pc, Run;
    Wrap32Exact(n);
    hide Wrap32;
    PlacedOne(p, k, I(NumberLoad(n)));
    PlainStep(p, k, NumberLoad(n), m);
  }

  lemma VariableRun(p: Prog, loc: Loc, k: nat, m: Machine)
    requires Assembled(p) && Placed(p, k, [I(VarLoad(loc))]) && m.Running? && m.pc == Pc(p, k)
    ensures Run(p.rt, p.code, m, 1) == Pushed(p, m, k + 1, [Ref(loc)])
  {
    hide Assembled, Pc, Run;
    PlacedOne(p, k, I(VarLoad(loc)));
    PlainStep(p, k, VarLoad(loc), m);
  }

  lemma ChunkRun(p: Prog, s: string, k: nat, m: Machine)
    requires Assembled(p) && Placed(p, k, [I(Text(TextBytes(s)))]) && m.Running? && m.pc == Pc(p, k)
    ensures Run(p.rt, p.code, m, 1) == Pushed(p, m, k + 1, [Val(Chars(TextBytes(s)))])
  {
    hide Assembled, Pc, Run;
    PlacedOne(p, k, I(Text(TextBytes(s))));
    PlainStep(p, k, Text(TextBytes(s)), m);
  }

  lemma TextSplit(s: string, n: nat)
    requires n <= |s|
    ensures TextBytes(s) == TextBytes(s[..n]) + TextBytes(s[n..])
  {
  }

  /** A string constant of any length is loaded whole: its chunks are joined again. */
  lemma TextRun(p: Prog, s: string, k: nat, m: Machine) returns (n: nat)
    requires Assembled(p) && Placed(p, k, TextLoad(s)) && m.Running? && m.pc == Pc(p, k)
    ensures Run(p.rt, p.code, m, n) == Pushed(p, m, k + |TextLoad(s)|, [Val(Chars(TextBytes(s)))])
  {
    hide Assembled, Pc, Run, Placed;
    if s == "" {
      PlacedOne(p, k, Op(OP_LDNULL));
      SimpleRun(p, k, OP_LDNULL, m);
      n := 1;
    } else {
      var c := ChunkSize(s);
      PlacedSplit(p, k, [I(Text(TextBytes(s[..c])))], MoreText(s[c..]));
      ChunkRun(p, s[..c], k, m);
      var m1 := Pushed(p, m, k + 1, [Val(Chars(TextBytes(s[..c])))]);
      var more := MoreRun(p, s[c..], k + 1, m.stack, TextBytes(s[..c]), m1);
      TextSplit(s, c);
      Compose(p, m, 1, m1, more, Pushed(p, m, k + |TextLoad(s)|, [Val(Chars(TextBytes(s)))]));
      n := 1 + more;
    }
  }

  lemma {:induction false} MoreRun(p: Prog, s: string, k: nat, stack: seq<Slot>, sofar: seq<byte>, m: Machine)
    returns (n: nat)
    requires Assembled(p) && Placed(p, k, MoreText(s)) && m.Running? && m.pc == Pc(p, k)
    requires m.stack == stack + [Val(Chars(sofar))]
    ensures Run(p.rt, p.code, m, n)
         == m.(pc := Pc(p, k + |MoreText(s)|), stack := stack + [Val(Chars(sofar + TextBytes(s)))])
    decreases |s|
  {
    hide Assembled, Pc, Run, Placed, SimpleStep;
    if s == "" {
      n := 0;
      assert sofar + TextBytes(s) == sofar;
      StayRun(p, m);
    } else {
      var c := ChunkSize(s);
      var chunk, rest := TextBytes(s[..c]), s[c..];
      PlacedSplit(p, k, [I(Text(chunk))] + [Op(OP_CAT)], MoreText(rest));
      PlacedSplit(p, k, [I(Text(chunk))], [Op(OP_CAT)]);
      PlacedOne(p, k + 1, Op(OP_CAT));
      ChunkRun(p, s[..c], k, m);
      var m1 := Pushed(p, m, k + 1, [Val(Chars(chunk))]);
      SimpleRun(p, k + 1, OP_CAT, m1);
      var m2 := m.(pc := Pc(p, k + 2), stack := stack + [Val(Chars(sofar + chunk))]);
      JoinStep(p.rt, Pc(p, k + 2), stack, sofar, chunk, m1, m2);
      Compose(p, m, 1, m1, 1, m2);
      var more := MoreRun(p, rest, k + 2, stack, sofar + chunk, m2);
      TextSplit(s, c);
      assert sofar + chunk + TextBytes(rest) == sofar + TextBytes(s);
      Compose(p, m, 2, m2, more,
              m.(pc := Pc(p, k + |MoreText(s)|), stack := stack + [Val(Chars(sofar + TextBytes(s)))]));
      n := 2 + more;
    }
  }

  lemma StayRun(p: Prog, m: Machine)
    ensures Run(p.rt, p.code, m, 0) == m
  {
  }

  lemma JoinStep(rt: Runtime, next: nat, stack: seq<Slot>, a: seq<byte>, b: seq<byte>, m1: Machine, m2: Machine)
    requires m1.Running? && m1.stack == stack + [Val(Chars(a))] + [Val(Chars(b))]
    requires m2 == m1.(pc := next, stack := stack + [Val(Chars(a + b))])
    ensures SimpleStep(rt, OP_CAT, next, m1) == m2
  {
    OperatorStep(rt, OP_CAT, next, stack, [Val(Chars(a)), Val(Chars(b))], m1);
  }

  /** An operator takes its operands off and pushes its result. */
  lemma OperatorStep(rt: Runtime, op: int, next: nat, stack: seq<Slot>, slots: seq<Slot>, m: Machine)
    requires m.Running? && m.stack == stack + slots && 0 < Arity(op) == |slots|
    ensures SimpleStep(rt, op, next, m)
         == m.(pc := next, stack := stack + [Val(Apply(rt, op, Values(m.store, slots)))])
  {
    hide Apply;
    assert m.stack[|m.stack| - |slots|..] == slots;
    assert Drop(m.stack, |slots|) == stack;
  }

  lemma ExtendsTrans(a: Storage, b: Storage, c: Storage)
    requires Extends(a, b) && Extends(b, c)
    ensures Extends(a, c)
  {
  }

  lemma {:induction false} ExprExtends(e: Expr, c: Ctx)
    ensures Extends(c.vars, AfterE(e, c).vars)
    decreases e
  {
    match e
    case Num(_) =>
    case Str(_) =>
    case Var(name) => TouchKeeps(c.vars, name);
    case App(_, args) => ArgsExtend(args, c);
    case IfThen(t, a, b) =>
      hide Extends;
      var c1 := AfterE(t, c);
      var c2 := c1.(next := c1.next + 1);
      var c3 := AfterE(a, c2);
      ExprExtends(t, c);
      ExprExtends(a, c2);
      ExprExtends(b, c3);
      ExtendsTrans(c.vars, c1.vars, c3.vars);
      ExtendsTrans(c.vars, c3.vars, AfterE(b, c3).vars);
  }

  lemma {:induction false} ArgsExtend(args: Exprs, c: Ctx)
    ensures Extends(c.vars, AfterArgs(args, c).vars)
    decreases args
  {
    match args
    case NoArgs =>
    case Args(init, last) =>
      hide Extends;
      var c1 := AfterArgs(init, c);
      ArgsExtend(init, c);
      ExprExtends(last, c1);
      ExtendsTrans(c.vars, c1.vars, AfterE(last, c1).vars);
  }

  /** Running an expression's code pushes one slot that stands for its value. */
  lemma {:induction false} ExprRun(p: Prog, e: Expr, c: Ctx, k: nat, m: Machine, env: Env) returns (n: nat, slot: Slot)
    requires Assembled(p) && Placed(p, k, EmitE(e, c)) && m.Running? && m.pc == Pc(p, k)
    requires Extends(AfterE(e, c).vars, p.vars) && Agree(p, env, m.store) && FormedExpr(e)
    ensures Run(p.rt, p.code, m, n) == Pushed(p, m, k + |EmitE(e, c)|, [slot])
    ensures Deref(m.store, slot) == Eval(p.rt, e, env)
    decreases e, 1
  {
    hide Assembled, Pc, Run, Placed, Agree, Extends, EmitE, AfterE, Eval, Pushed;
    match e {
      case Num(_) => n, slot := ConstantRun(p, e, c, k, m, env);
      case Str(_) => n, slot := ConstantRun(p, e, c, k, m, env);
      case Var(name) =>
        slot := NameRun(p, name, c, k, m, env);
        n := 1;
      case App(op, args) => n, slot := OperatorRun(p, op, args, c, k, m, env);
      case IfThen(_, _, _) => n, slot := IfExprRun(p, e, c, k, m, env);
    }
  }

  lemma ConstantRun(p: Prog, e: Expr, c: Ctx, k: nat, m: Machine, env: Env) returns (n: nat, slot: Slot)
    requires Assembled(p) && Placed(p, k, EmitE(e, c)) && m.Running? && m.pc == Pc(p, k) && (e.Num? || e.Str?)
    ensures Run(p.rt, p.code, m, n) == Pushed(p, m, k + |EmitE(e, c)|, [slot])
    ensures Deref(m.store, slot) == Eval(p.rt, e, env)
  {
    hide Assembled, Pc, Run, Placed;
    if e.Num? {
      NumberRun(p, e.n, k, m);
      n, slot := 1, Val(Number(Wrap32(e.n)));
    } else {
      n := TextRun(p, e.s, k, m);
      slot := Val(Chars(TextBytes(e.s)));
    }
  }

  lemma NameRun(p: Prog, name: string, c: Ctx, k: nat, m: Machine, env: Env) returns (slot: Slot)
    requires Assembled(p) && Placed(p, k, EmitE(Var(name), c)) && m.Running? && m.pc == Pc(p, k)
    requires Extends(AfterE(Var(name), c).vars, p.vars) && Agree(p, env, m.store)
    ensures name in p.vars.info && slot == Ref(p.vars.info[name])
    ensures Run(p.rt, p.code, m, 1) == Pushed(p, m, k + |EmitE(Var(name), c)|, [slot])
    ensures Deref(m.store, slot) == Eval(p.rt, Var(name), env) == Lookup(env, name)
  {
    hide Assembled, Pc, Run, Placed;
    TouchKeeps(c.vars, name);
    var loc := p.vars.info[name];
    VariableRun(p, loc, k, m);
    slot := Ref(loc);
  }

  lemma OperatorRun(p: Prog, op: int, args: Exprs, c: Ctx, k: nat, m: Machine, env: Env) returns (n: nat, slot: Slot)
    requires Assembled(p) && Placed(p, k, EmitE(App(op, args), c)) && m.Running? && m.pc == Pc(p, k)
    requires Extends(AfterE(App(op, args), c).vars, p.vars) && Agree(p, env, m.store)
    requires 0 < Arity(op) == ArgCount(args) && FormedArgs(args)
    ensures Run(p.rt, p.code, m, n) == Pushed(p, m, k + |EmitE(App(op, args), c)|, [slot])
    ensures Deref(m.store, slot) == Eval(p.rt, App(op, args), env)
    decreases args, 1
  {
    hide Assembled, Pc, Run, Placed, Agree, Extends, EmitArgs, AfterArgs, Apply, EvalArgs, SimpleStep, FormedArgs;
    PlacedSplit(p, k, EmitArgs(args, c), [Op(op)]);
    var j := k + |EmitArgs(args, c)|;
    PlacedOne(p, j, Op(op));
    var a, slots := ArgsRun(p, args, c, k, m, env);
    var m1 := Pushed(p, m, j, slots);
    SimpleRun(p, j, op, m1);
    OperatorStep(p.rt, op, Pc(p, j + 1), m.stack, slots, m1);
    slot := Val(Apply(p.rt, op, EvalArgs(p.rt, args, env)));
    n := a + 1;
    Compose(p, m, a, m1, 1, Pushed(p, m, j + 1, [slot]));
  }

  /** Operands, in order; a variable that comes first leaves its address. */
  lemma {:induction false} ArgsRun(p: Prog, args: Exprs, c: Ctx, k: nat, m: Machine, env: Env)
    returns (n: nat, slots: seq<Slot>)
    requires Assembled(p) && Placed(p, k, EmitArgs(args, c)) && m.Running? && m.pc == Pc(p, k)
    requires Extends(AfterArgs(args, c).vars, p.vars) && Agree(p, env, m.store) && FormedArgs(args)
    ensures Run(p.rt, p.code, m, n) == Pushed(p, m, k + |EmitArgs(args, c)|, slots)
    ensures |slots| == ArgCount(args) && Values(m.store, slots) == EvalArgs(p.rt, args, env)
    ensures FirstVariable(args).Some? ==>
              var name := FirstVariable(args).value;
              slots != [] && name in p.vars.info && slots[0] == Ref(p.vars.info[name])
    decreases args, 0
  {
    hide Assembled, Pc, Run, Placed, Agree, Extends, EmitE, AfterE, Eval, FormedExpr;
    match args
    case NoArgs =>
      n, slots := 0, [];
      StayRun(p, m);
      assert m.stack + [] == m.stack;
    case Args(init, last) =>
      var c1 := AfterArgs(init, c);
      var j := k + |EmitArgs(init, c)|;
      PlacedSplit(p, k, EmitArgs(init, c), EmitE(last, c1));
      ExprExtends(last, c1);
      ExtendsTrans(c1.vars, AfterE(last, c1).vars, p.vars);
      var a, front := ArgsRun(p, init, c, k, m, env);
      var m1 := Pushed(p, m, j, front);
      var b, slot := OperandRun(p, last, c1, j, m1, env);
      slots := front + [slot];
      n := a + b;
      PushedTwice(p, m, j, j + |EmitE(last, c1)|, front, [slot]);
      Compose(p, m, a, m1, b, Pushed(p, m, j + |EmitE(last, c1)|, slots));
      assert Values(m.store, slots) == Values(m.store, front) + [Deref(m.store, slot)];
      FirstOf(init, last);
  }

  function FirstVariable(args: Exprs): Option<string> {
    match args
    case NoArgs => None
    case Args(init, last) =>
      if init.Args? then FirstVariable(init) else if last.Var? then Some(last.name) else None
  }

  lemma FirstOf(init: Exprs, last: Expr)
    ensures init.Args? ==> FirstVariable(Args(init, last)) == FirstVariable(init) && ArgCount(init) > 0
    ensures init.NoArgs? ==> FirstVariable(Args(init, last)) == if last.Var? then Some(last.name) else None
  {
  }

  /** An operand; a variable leaves its address. */
  lemma OperandRun(p: Prog, e: Expr, c: Ctx, k: nat, m: Machine, env: Env) returns (n: nat, slot: Slot)
    requires Assembled(p) && Placed(p, k, EmitE(e, c)) && m.Running? && m.pc == Pc(p, k)
    requires Extends(AfterE(e, c).vars, p.vars) && Agree(p, env, m.store) && FormedExpr(e)
    ensures Run(p.rt, p.code, m, n) == Pushed(p, m, k + |EmitE(e, c)|, [slot])
    ensures Deref(m.store, slot) == Eval(p.rt, e, env)
    ensures e.Var? ==> e.name in p.vars.info && slot == Ref(p.vars.info[e.name])
    decreases e, 2
  {
    hide Assembled, Pc, Run, Placed, Agree, Extends, EmitE, AfterE, Eval, Pushed;
    if e.Var? {
      slot := NameRun(p, e.name, c, k, m, env);
      n := 1;
    } else {
      n, slot := ExprRun(p, e, c, k, m, env);
    }
  }

  /** A conditional jump on the slot just pushed. */
  lemma Branch(p: Prog, op: int, name: string, k: nat, j: nat, m: Machine, slot: Slot, m1: Machine, jumps: bool)
    requires Assembled(p) && k < |p.list| && p.list[k] == I(Jump(op, name)) && j < |p.list| && p.list[j] == D(name)
    requires m.Running? && m1 == Pushed(p, m, k, [slot]) && Taken(p.rt, op, Deref(m.store, slot)) == Some(jumps)
    ensures Run(p.rt, p.code, m1, 1) == Pushed(p, m, if jumps then j + 1 else k + 1, [])
  {
    hide Assembled, Pc, Run;
    JumpRun(p, k, op, name, j, m1);
    assert Drop(m1.stack, 1) == m.stack == m.stack + [];
    assert op != OP_JMP;
  }

  lemma Jumped(p: Prog, name: string, k: nat, j: nat, m: Machine)
    requires Assembled(p) && k < |p.list| && p.list[k] == I(Jump(OP_JMP, name)) && j < |p.list| && p.list[j] == D(name)
    requires m.Running? && m.pc == Pc(p, k)
    ensures Run(p.rt, p.code, m, 1) == m.(pc := Pc(p, j + 1)) == m.(pc := Pc(p, j))
  {
    hide Assembled, Pc, Run;
    JumpRun(p, k, OP_JMP, name, j, m);
  }

  /** The positions of a conditional's parts: its two jumps and its two labels. */
  datatype Positions = Positions(c1: Ctx, c2: Ctx, c3: Ctx, i: nat, j: nat, x: nat)

  function PartsOf(t: Expr, a: Expr, b: Expr, c: Ctx, k: nat): Positions {
    var c1 := AfterE(t, c);
    var c2 := c1.(next := c1.next + 1);
    var c3 := AfterE(a, c2);
    var i := k + |EmitE(t, c)|;
    var j := i + 1 + |EmitE(a, c2)|;
    Positions(c1, c2, c3, i, j, j + 2 + |EmitE(b, c3)|)
  }

  lemma IfEmit(t: Expr, a: Expr, b: Expr, c: Ctx)
    ensures var q := PartsOf(t, a, b, c, 0);
      && EmitE(IfThen(t, a, b), c)
           == EmitE(t, c) + [I(Jump(OP_JFALSE, LabelName(q.c1.next, "E")))] + EmitE(a, q.c2)
              + [I(Jump(OP_JMP, LabelName(q.c1.next, "X")))] + [D(LabelName(q.c1.next, "E"))] + EmitE(b, q.c3)
              + [D(LabelName(q.c1.next, "X"))]
      && AfterE(IfThen(t, a, b), c) == AfterE(b, q.c3)
  {
    hide EmitE, AfterE, LabelName;
    var c1 := AfterE(t, c);
    IfParts(t, a, b, c, c1.(next := c1.next + 1));
  }

  lemma SevenPlaced(p: Prog, k: nat, a: seq<Item>, b: Item, d: seq<Item>, e: Item, f: Item, g: seq<Item>, h: Item)
    requires Placed(p, k, a + [b] + d + [e] + [f] + g + [h])
    ensures var i := k + |a|; var j := i + 1 + |d|; var x := j + 2 + |g|;
      && Placed(p, k, a) && Placed(p, i + 1, d) && Placed(p, j + 2, g)
      && x < |p.list| && p.list[i] == b && p.list[j] == e && p.list[j + 1] == f && p.list[x] == h
  {
    hide Placed;
    FourPlaced(p, k, a + [b] + d, e, f, g, h);
    PlacedSplit(p, k, a + [b], d);
    PlacedSplit(p, k, a, [b]);
    PlacedOne(p, k + |a|, b);
  }

  lemma FourPlaced(p: Prog, k: nat, a: seq<Item>, e: Item, f: Item, g: seq<Item>, h: Item)
    requires Placed(p, k, a + [e] + [f] + g + [h])
    ensures var j := k + |a|; var x := j + 2 + |g|;
      && Placed(p, k, a) && Placed(p, j + 2, g)
      && x < |p.list| && p.list[j] == e && p.list[j + 1] == f && p.list[x] == h
  {
    hide Placed;
    PlacedSplit(p, k, a + [e] + [f] + g, [h]);
    PlacedSplit(p, k, a + [e] + [f], g);
    PlacedSplit(p, k, a + [e], [f]);
    PlacedSplit(p, k, a, [e]);
    PlacedOne(p, k + |a|, e);
    PlacedOne(p, k + |a| + 1, f);
    PlacedOne(p, k + |a| + 2 + |g|, h);
  }

  lemma IfPlaced(p: Prog, t: Expr, a: Expr, b: Expr, c: Ctx, k: nat)
    requires Placed(p, k, EmitE(IfThen(t, a, b), c))
    ensures var q := PartsOf(t, a, b, c, k); var n := q.c1.next;
      && Placed(p, k, EmitE(t, c)) && Placed(p, q.i + 1, EmitE(a, q.c2)) && Placed(p, q.j + 2, EmitE(b, q.c3))
      && q.x < |p.list| && p.list[q.i] == I(Jump(OP_JFALSE, LabelName(n, "E")))
      && p.list[q.j] == I(Jump(OP_JMP, LabelName(n, "X")))
      && p.list[q.j + 1] == D(LabelName(n, "E")) && p.list[q.x] == D(LabelName(n, "X"))
      && k + |EmitE(IfThen(t, a, b), c)| == q.x + 1
  {
    IfEmit(t, a, b, c);
    hide Placed, AfterE, EmitE;
    var q := PartsOf(t, a, b, c, k);
    var n := q.c1.next;
    SevenPlaced(p, k, EmitE(t, c), I(Jump(OP_JFALSE, LabelName(n, "E"))), EmitE(a, q.c2),
                I(Jump(OP_JMP, LabelName(n, "X"))), D(LabelName(n, "E")), EmitE(b, q.c3), D(LabelName(n, "X")));
  }

  lemma IfExtends(p: Prog, t: Expr, a: Expr, b: Expr, c: Ctx)
    requires Extends(AfterE(IfThen(t, a, b), c).vars, p.vars)
    ensures var q := PartsOf(t, a, b, c, 0);
      Extends(q.c1.vars, p.vars) && Extends(q.c3.vars, p.vars) && Extends(AfterE(b, q.c3).vars, p.vars)
  {
    IfEmit(t, a, b, c);
    hide AfterE, EmitE, Extends;
    var q := PartsOf(t, a, b, c, 0);
    ExprExtends(a, q.c2);
    ExprExtends(b, q.c3);
    ExtendsTrans(q.c3.vars, AfterE(b, q.c3).vars, p.vars);
    ExtendsTrans(q.c2.vars, q.c3.vars, p.vars);
  }

  lemma IfExprRun(p: Prog, e: Expr, c: Ctx, k: nat, m: Machine, env: Env) returns (n: nat, slot: Slot)
    requires e.IfThen? && Assembled(p) && Placed(p, k, EmitE(e, c)) && m.Running? && m.pc == Pc(p, k)
    requires Extends(AfterE(e, c).vars, p.vars) && Agree(p, env, m.store) && FormedExpr(e)
    ensures Run(p.rt, p.code, m, n) == Pushed(p, m, k + |EmitE(e, c)|, [slot])
    ensures Deref(m.store, slot) == Eval(p.rt, e, env)
    decreases e, 0
  {
    hide Assembled, Pc, Run, Placed, Agree, Extends, EmitE, AfterE, FormedExpr, Eval;
    var t, a, b := e.c, e.a, e.b;
    IfPlaced(p, t, a, b, c, k);
    IfExtends(p, t, a, b, c);
    IfFormed(p.rt, t, a, b, env);
    var q := PartsOf(t, a, b, c, k);
    var n1, test := ExprRun(p, t, c, k, m, env);
    var m1, holds := Pushed(p, m, q.i, [test]), Truth(p.rt, Eval(p.rt, t, env));
    Branch(p, OP_JFALSE, LabelName(q.c1.next, "E"), q.i, q.j + 1, m, test, m1, !holds);
    var m2 := Pushed(p, m, if holds then q.i + 1 else q.j + 2, []);
    Compose(p, m, n1, m1, 1, m2);
    var n2;
    if holds {
      n2, slot := ExprRun(p, a, q.c2, q.i + 1, m2, env);
      n2 := ThenLeft(p, LabelName(q.c1.next, "X"), q.i + 1, q.j, q.x, m, m2, n2, slot);
    } else {
      n2, slot := ExprRun(p, b, q.c3, q.j + 2, m2, env);
      LabelHere(p, q.x);
      PushedTwice(p, m, q.j + 2, q.x, [], [slot]);
      assert [] + [slot] == [slot];
    }
    n := n1 + 1 + n2;
    Compose(p, m, n1 + 1, m2, n2, Pushed(p, m, q.x + 1, [slot]));
  }

  lemma IfFormed(rt: Runtime, t: Expr, a: Expr, b: Expr, env: Env)
    ensures FormedExpr(IfThen(t, a, b)) ==> FormedExpr(t) && FormedExpr(a) && FormedExpr(b)
    ensures Eval(rt, IfThen(t, a, b), env) == if Truth(rt, Eval(rt, t, env)) then Eval(rt, a, env) else Eval(rt, b, env)
  {
  }

  /** The jump over the ELSE value */
  lemma ThenLeft(p: Prog, name: string, i: nat, j: nat, x: nat, m: Machine, m2: Machine, n: nat, slot: Slot)
    returns (n': nat)
    requires Assembled(p) && j < |p.list| && p.list[j] == I(Jump(OP_JMP, name)) && x < |p.list| && p.list[x] == D(name)
    requires m.Running? && m2 == Pushed(p, m, i, []) && Run(p.rt, p.code, m2, n) == Pushed(p, m2, j, [slot])
    ensures Run(p.rt, p.code, m2, n') == Pushed(p, m, x + 1, [slot])
  {
    hide Assembled, Pc, Run;
    PushedTwice(p, m, i, j, [], [slot]);
    assert [] + [slot] == [slot];
    Jumped(p, name, j, x, Pushed(p, m, j, [slot]));
    Compose(p, m2, n, Pushed(p, m, j, [slot]), 1, Pushed(p, m, x + 1, [slot]));
    n' := n + 1;
  }
}
