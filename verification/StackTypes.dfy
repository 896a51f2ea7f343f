/** A one-pass check that a listing keeps the evaluation stack in order, and what it
    guarantees of every run: entries are never popped that were there before, the same
    place is always reached with the same height, and an address is wherever one is
    needed. */
module StackTypes {
  import opened Outcomes
  import opened Isa
  import opened Cells
  import opened Listing
  import opened Linking
  import opened Storages
  import opened Generate
  import opened Machines
  import opened Runs

  datatype Kind = Address | Anything

  /** What is known between two items: the kinds of the entries pushed since the start,
      whether the item before never goes on to the next, and the labels met so far. */
  datatype Typing = Typing(st: seq<Kind>, jumped: bool, labs: map<string, seq<Kind>>)

  const AtStart := Typing([], false, map[])

  predicate AtMost(a: seq<Kind>, b: seq<Kind>) {
    |a| == |b| && forall i :: 0 <= i < |b| && b[i].Address? ==> a[i].Address?
  }

  function Less(st: seq<Kind>, n: nat): seq<Kind>
    requires n <= |st|
  {
    st[..|st| - n]
  }

  function SimpleEffect(op: int, st: seq<Kind>): Option<seq<Kind>> {
    if op == OP_LD0 || op == OP_LD1 || op == OP_LDNULL then Some(st + [Anything])
    else if op == OP_NULL then Some(st)
    else if op == OP_RETURN then if st == [] then Some([]) else None
    else if IsMode(op) then Some(st)
    else if IsFileOp(op) then
      if FileOperands(op) > |st| || (op == OP_READ && !st[|st| - 3].Address?) then None
      else Some(Less(st, FileOperands(op)) + [Anything])
    else if st == [] then None
    else if op == OP_POP then Some(Less(st, 1))
    else if op == OP_DUP then Some(st + [st[|st| - 1]])
    else if op == OP_STZ || op == OP_STNULL || op == OP_INC || op == OP_DEC then
      if st[|st| - 1].Address? then Some(Less(st, 1)) else None
    else if op == OP_STOR || op == OP_APPEND then
      if |st| >= 2 && st[|st| - 2].Address? then Some(Less(st, 2)) else None
    else if 0 < Arity(op) <= |st| then Some(Less(st, Arity(op)) + [Anything])
    else None
  }

  function Effect(ins: Instr<string>, st: seq<Kind>): Option<seq<Kind>> {
    match ins
    case Simple(op) => SimpleEffect(op, st)
    case ShortInt(_) => Some(st + [Anything])
    case LongInt(_) => Some(st + [Anything])
    case Text(_) => Some(st + [Anything])
    case ShortLocal(_) => Some(st + [Address])
    case Local(_) => Some(st + [Address])
    case Common(_, _) => Some(st + [Address])
    case Jump(_, _) => None
  }

  predicate IsConditional(op: int) {
    op == OP_JFALSE || op == OP_JTRUE || op == OP_JZE || op == OP_JNZ || op == OP_JPZ
  }

  /** A jump forgets what its top entry is. */
  function Forget(st: seq<Kind>): seq<Kind> {
    if st == [] then [] else Less(st, 1) + [Anything]
  }

  /** What is known where the jump goes to. */
  function Landing(op: int, st: seq<Kind>): Option<seq<Kind>> {
    if op == OP_JMP then Some(Forget(st))
    else if IsConditional(op) && st != [] then Some(Less(st, 1))
    else None
  }

  /** A label is given the kinds it is first met with; later they must fit. */
  function Meet(labs: map<string, seq<Kind>>, name: string, st: seq<Kind>): Option<map<string, seq<Kind>>> {
    if name !in labs then Some(labs[name := st])
    else if AtMost(st, labs[name]) then Some(labs)
    else None
  }

  function CheckLabel(t: Typing, name: string): Option<Typing> {
    if t.jumped && name in t.labs then Some(Typing(t.labs[name], false, t.labs))
    else match Meet(t.labs, name, t.st)
      case None => None
      case Some(labs) => Some(Typing(labs[name], false, labs))
  }

  function CheckJump(t: Typing, op: int, name: string): Option<Typing> {
    match Landing(op, t.st)
    case None => None
    case Some(st) =>
      match Meet(t.labs, name, st)
      case None => None
      case Some(labs) => Some(Typing(if op == OP_JMP then t.st else st, op == OP_JMP, labs))
  }

  function CheckItem(t: Typing, x: Item): Option<Typing> {
    if x.D? then CheckLabel(t, x.name)
    else if x.ins.Jump? then CheckJump(t, x.ins.op, x.ins.target)
    else match Effect(x.ins, t.st)
      case None => None
      case Some(st) => Some(Typing(st, false, t.labs))
  }

  function Check(t: Typing, items: seq<Item>): Option<Typing> {
    if items == [] then Some(t)
    else match Check(t, items[..|items| - 1])
      case None => None
      case Some(t1) => CheckItem(t1, items[|items| - 1])
  }

  lemma CheckSnoc(t: Typing, items: seq<Item>, x: Item)
    ensures Check(t, items + [x]) == match Check(t, items) case None => None case Some(t1) => CheckItem(t1, x)
  {
    hide CheckItem;
    assert (items + [x])[..|items|] == items;
  }

  lemma {:induction false} CheckConcat(t: Typing, a: seq<Item>, t1: Typing, b: seq<Item>)
    requires Check(t, a) == Some(t1)
    ensures Check(t, a + b) == Check(t1, b)
    decreases |b|
  {
    hide CheckItem;
    if b == [] {
      assert a + b == a;
    } else {
      var b', x := b[..|b| - 1], b[|b| - 1];
      CheckConcat(t, a, t1, b');
      CheckSnoc(t, a + b', x);
      assert a + b == a + b' + [x];
    }
  }

  /** Before item k */
  function Before(list: seq<Item>, k: nat): Option<Typing>
    requires k <= |list|
  {
    Check(AtStart, list[..k])
  }

  lemma BeforeNext(list: seq<Item>, k: nat)
    requires k < |list|
    ensures Before(list, k + 1) == match Before(list, k) case None => None case Some(t) => CheckItem(t, list[k])
  {
    hide CheckItem;
    assert list[..k + 1] == list[..k] + [list[k]];
    CheckSnoc(AtStart, list[..k], list[k]);
  }

  predicate Grown(a: map<string, seq<Kind>>, b: map<string, seq<Kind>>) {
    forall name :: name in a ==> name in b && b[name] == a[name]
  }

  lemma ItemGrows(t: Typing, x: Item)
    requires CheckItem(t, x).Some?
    ensures Grown(t.labs, CheckItem(t, x).value.labs)
  {
    hide Effect, Landing, AtMost;
  }

  /** A listing that passes is passed in every prefix, and labels keep their kinds. */
  lemma {:induction false} BeforeAll(list: seq<Item>, j: nat, k: nat)
    requires j <= k <= |list| && Before(list, k).Some?
    ensures Before(list, j).Some? && Grown(Before(list, j).value.labs, Before(list, k).value.labs)
    decreases k - j
  {
    hide CheckItem;
    if j < k {
      BeforeNext(list, k - 1);
      ItemGrows(Before(list, k - 1).value, list[k - 1]);
      BeforeAll(list, j, k - 1);
    }
  }

  ghost predicate Passes(list: seq<Item>) {
    Before(list, |list|).Some?
  }

  /** What the check knows before item k */
  function Known(list: seq<Item>, k: nat): Typing
    requires k <= |list|
  {
    match Before(list, k)
    case Some(t) => t
    case None => AtStart
  }

  /** Above base the machine's stack has entries of these kinds. */
  predicate Fits(m: Machine, base: seq<Slot>, st: seq<Kind>) {
    && m.Running?
    && |m.stack| == |base| + |st| && m.stack[..|base|] == base
    && forall i :: 0 <= i < |st| && st[i].Address? ==> m.stack[|base| + i].Ref?
  }

  lemma FitsLess(m: Machine, base: seq<Slot>, a: seq<Kind>, b: seq<Kind>)
    requires Fits(m, base, a) && AtMost(a, b)
    ensures Fits(m, base, b)
  {
  }

  lemma FitsForget(m: Machine, base: seq<Slot>, st: seq<Kind>)
    requires Fits(m, base, st)
    ensures Fits(m, base, Forget(st))
  {
  }

  /** The machine is about to run instruction k, with the entries that are known there. */
  ghost predicate AtInstruction(p: Prog, m: Machine, base: seq<Slot>, k: nat) {
    k < |p.list| && p.list[k].I? && m.Running? && m.pc == Pc(p, k) && Fits(m, base, Known(p.list, k).st)
  }

  ghost predicate Safe(p: Prog, m: Machine, base: seq<Slot>) {
    || (m.Finished? && m.stack == base)
    || (exists k: nat :: AtInstruction(p, m, base, k))
  }

  /** An instruction does what the check says it does. */
  lemma EffectHolds(rt: Runtime, ins: Instr<nat>, text: Instr<string>, list: seq<Item>, next: nat, m: Machine,
                    base: seq<Slot>, st: seq<Kind>)
    requires Fits(m, base, st) && !text.Jump? && ins == Resolve(list, Narrow(text)) && Effect(text, st).Some?
    ensures var m1 := Execute(rt, ins, next, m);
      if text == Simple(OP_RETURN) then m1.Finished? && m1.stack == base
      else Fits(m1, base, Effect(text, st).value) && m1.pc == next
  {
    hide Target;
    match text
    case Simple(op) =>
      if IsFileOp(op) {
        FileHolds(rt, op, next, m, base, st);
      } else if Arity(op) > 0 {
        OperatorHolds(rt, op, next, m, base, st);
      } else {
        OpHolds(rt, op, next, m, base, st);
      }
    case _ =>
  }

  lemma OpHolds(rt: Runtime, op: int, next: nat, m: Machine, base: seq<Slot>, st: seq<Kind>)
    requires Fits(m, base, st) && SimpleEffect(op, st).Some? && !IsFileOp(op) && Arity(op) == 0
    ensures var m1 := SimpleStep(rt, op, next, m);
      if op == OP_RETURN then m1.Finished? && m1.stack == base
      else Fits(m1, base, SimpleEffect(op, st).value) && m1.pc == next
  {
    hide Apply;
    if st != [] {
      assert m.stack[|m.stack| - 1] == m.stack[|base| + (|st| - 1)];
    }
    if |st| >= 2 {
      assert m.stack[|m.stack| - 2] == m.stack[|base| + (|st| - 2)];
    }
  }

  lemma OperatorHolds(rt: Runtime, op: int, next: nat, m: Machine, base: seq<Slot>, st: seq<Kind>)
    requires Fits(m, base, st) && SimpleEffect(op, st).Some? && !IsFileOp(op) && Arity(op) > 0
    ensures var m1 := SimpleStep(rt, op, next, m); Fits(m1, base, SimpleEffect(op, st).value) && m1.pc == next
  {
    hide Apply, Values;
    assert SimpleEffect(op, st).value == Less(st, Arity(op)) + [Anything];
  }

  lemma FileHolds(rt: Runtime, op: int, next: nat, m: Machine, base: seq<Slot>, st: seq<Kind>)
    requires Fits(m, base, st) && SimpleEffect(op, st).Some? && IsFileOp(op)
    ensures var m1 := SimpleStep(rt, op, next, m); Fits(m1, base, SimpleEffect(op, st).value) && m1.pc == next
  {
    hide Values;
    var n := FileOperands(op);
    assert m.stack[|m.stack| - n..][0] == m.stack[|base| + (|st| - n)];
  }

  /** From a place that is not past a jump the machine reaches an instruction. */
  lemma {:induction false} Arrive(p: Prog, m: Machine, base: seq<Slot>, k: nat)
    requires Assembled(p) && Passes(p.list) && k < |p.list| && p.list[|p.list| - 1].I?
    requires m.Running? && m.pc == Pc(p, k) && Fits(m, base, Known(p.list, k).st) && !Known(p.list, k).jumped
    ensures Safe(p, m, base)
    decreases |p.list| - k
  {
    hide Assembled, Pc, Fits;
    if p.list[k].I? {
      assert AtInstruction(p, m, base, k);
    } else {
      BeforeAll(p.list, k, |p.list|);
      BeforeAll(p.list, k + 1, |p.list|);
      BeforeNext(p.list, k);
      FitsLess(m, base, Known(p.list, k).st, Known(p.list, k + 1).st);
      LabelHere(p, k);
      Arrive(p, m, base, k + 1);
    }
  }

  /** After a label the check knows what the label was given. */
  lemma LabelKnown(list: seq<Item>, j: nat)
    requires Passes(list) && j < |list| && list[j].D?
    ensures var t := Known(list, j + 1);
      !t.jumped && list[j].name in t.labs && t.st == t.labs[list[j].name]
      && list[j].name in Known(list, |list|).labs && Known(list, |list|).labs[list[j].name] == t.st
  {
    BeforeAll(list, j, |list|);
    BeforeAll(list, j + 1, |list|);
    BeforeNext(list, j);
  }

  lemma JumpKnown(list: seq<Item>, k: nat)
    requires Passes(list) && k < |list| && list[k].I? && list[k].ins.Jump?
    ensures var name, st := list[k].ins.target, Landing(list[k].ins.op, Known(list, k).st);
      && st.Some? && name in Known(list, |list|).labs
      && AtMost(st.value, Known(list, |list|).labs[name])
      && (list[k].ins.op != OP_JMP ==> Known(list, k + 1).st == st.value && !Known(list, k + 1).jumped)
  {
    BeforeAll(list, k, |list|);
    BeforeAll(list, k + 1, |list|);
    BeforeNext(list, k);
  }

  lemma PlainKnown(list: seq<Item>, k: nat)
    requires Passes(list) && k < |list| && list[k].I? && !list[k].ins.Jump?
    ensures Effect(list[k].ins, Known(list, k).st) == Some(Known(list, k + 1).st) && !Known(list, k + 1).jumped
  {
    BeforeAll(list, k, |list|);
    BeforeAll(list, k + 1, |list|);
    BeforeNext(list, k);
    hide Effect;
  }

  lemma LandingHolds(rt: Runtime, op: int, target: nat, next: nat, m: Machine, base: seq<Slot>, st: seq<Kind>)
    requires Fits(m, base, st) && Landing(op, st).Some?
    ensures var m1 := JumpStep(rt, op, target, next, m);
      m1.Running? && Fits(m1, base, Landing(op, st).value) && (m1.pc == target || (op != OP_JMP && m1.pc == next))
  {
    FitsForget(m, base, st);
    hide Sign;
  }

  lemma JumpSafe(p: Prog, m: Machine, base: seq<Slot>, k: nat, j: nat)
    requires Assembled(p) && Passes(p.list) && p.list != [] && p.list[|p.list| - 1] == Op(OP_RETURN)
    requires AtInstruction(p, m, base, k) && p.list[k].ins.Jump? && j < |p.list| && p.list[j] == D(p.list[k].ins.target)
    ensures Safe(p, Run(p.rt, p.code, m, 1), base)
  {
    hide Assembled, Passes, Fits, Pc, Run, Known, Safe, Effect, JumpStep, Landing, AtMost;
    var st, ins := Known(p.list, k).st, p.list[k].ins;
    var m1 := Run(p.rt, p.code, m, 1);
    JumpRun(p, k, ins.op, ins.target, j, m);
    JumpKnown(p.list, k);
    LandingHolds(p.rt, ins.op, Pc(p, j), Pc(p, k + 1), m, base, st);
    if m1.pc == Pc(p, j) {
      LabelKnown(p.list, j);
      FitsLess(m1, base, Landing(ins.op, st).value, Known(p.list, j + 1).st);
      ArriveNext(p, m1, base, j + 1);
    } else {
      ArriveNext(p, m1, base, k + 1);
    }
  }

  lemma PlainSafe(p: Prog, m: Machine, base: seq<Slot>, k: nat)
    requires Assembled(p) && Passes(p.list) && p.list != [] && p.list[|p.list| - 1] == Op(OP_RETURN)
    requires AtInstruction(p, m, base, k) && !p.list[k].ins.Jump?
    ensures Safe(p, Run(p.rt, p.code, m, 1), base)
  {
    hide Assembled, Passes, Fits, Pc, Run, Known, Safe, Effect, Execute, Resolve;
    var ins, m1 := p.list[k].ins, Run(p.rt, p.code, m, 1);
    PlainStep(p, k, ins, m);
    PlainKnown(p.list, k);
    EffectHolds(p.rt, Resolve(p.list, Narrow(ins)), ins, p.list, Pc(p, k + 1), m, base, Known(p.list, k).st);
    if ins == Simple(OP_RETURN) {
      EndedSafe(p, m1, base);
    } else {
      ArriveNext(p, m1, base, k + 1);
    }
  }

  /** One step from a safe state leads to a safe state. */
  lemma StepSafe(p: Prog, m: Machine, base: seq<Slot>, k: nat)
    requires Assembled(p) && Passes(p.list) && p.list != [] && p.list[|p.list| - 1] == Op(OP_RETURN)
    requires AtInstruction(p, m, base, k)
    ensures Safe(p, Step(p.rt, p.code, m), base)
  {
    hide Passes, Fits, Pc, Step, Run, Known, Safe, Image, Distinct, Encodable, WellPlaced;
    RunOne(p.rt, p.code, m);
    if p.list[k].ins.Jump? {
      ClosedAt(p.list, k);
      var j :| 0 <= j < |p.list| && p.list[j] == D(p.list[k].ins.target);
      JumpSafe(p, m, base, k, j);
    } else {
      PlainSafe(p, m, base, k);
    }
  }

  lemma EndedSafe(p: Prog, m: Machine, base: seq<Slot>)
    requires m.Finished? && m.stack == base
    ensures Safe(p, m, base)
  {
  }

  /** The program's last instruction is its RETURN, so there is always a next one. */
  lemma ArriveNext(p: Prog, m: Machine, base: seq<Slot>, k: nat)
    requires Assembled(p) && Passes(p.list) && 0 < k <= |p.list| && p.list[|p.list| - 1] == Op(OP_RETURN)
    requires k < |p.list| || p.list[k - 1] != Op(OP_RETURN)
    requires Fits(m, base, Known(p.list, k).st) && m.pc == Pc(p, k) && !Known(p.list, k).jumped
    ensures Safe(p, m, base)
  {
    hide Assembled, Passes, Pc, Known, Safe;
    Arrive(p, m, base, k);
  }

  lemma {:induction false} RunSafe(p: Prog, m: Machine, base: seq<Slot>, n: nat)
    requires Assembled(p) && Passes(p.list) && p.list != [] && p.list[|p.list| - 1] == Op(OP_RETURN) && Safe(p, m, base)
    ensures Safe(p, Run(p.rt, p.code, m, n), base)
    decreases n
  {
    hide Assembled, Passes, AtInstruction, Step;
    if n > 0 {
      if m.Finished? {
        Stopped(p.rt, p.code, m, n);
      } else {
        var k: nat :| AtInstruction(p, m, base, k);
        StepSafe(p, m, base, k);
        RunSafe(p, Step(p.rt, p.code, m), base, n - 1);
      }
    }
  }

  lemma SafeFacts(p: Prog, m: Machine, base: seq<Slot>)
    requires Safe(p, m, base)
    ensures !m.Broken? && (m.Running? ==> base <= m.stack) && (m.Finished? ==> m.stack == base)
  {
  }
}
