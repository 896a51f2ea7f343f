/** The stack machine that runs object code, for the opcodes the modelled statements
    use.  What an operator computes, and what a file operation does, is a parameter. */
module Machines {
  import opened Outcomes
  import opened Bytes
  import opened Isa
  import opened Listing
  import opened Names

  /** Integers and strings are told apart; any other value is a number of its own. */
  datatype Value = Number(n: int) | Chars(s: seq<byte>) | Other(tag: int)

  const UNASSIGNED := Other(0)

  /** The status of a file operation on a record that another process has locked */
  const LOCK_HELD: int := 3011

  /** What a file operation answers: a status, the state of the files, and the record
      to be stored, if any. */
  datatype Reply = Reply(status: int, world: int, record: Option<Value>)

  /** area: the size of a COMMON area that exists before the program is entered.
      shared: what is in an area's cells when a block is bound to it.
      level: the command processor level, which is part of the unnamed area's name. */
  datatype Runtime = Runtime(
    apply: (int, seq<Value>) -> Value,
    truth: Value -> bool,
    sign: Value -> int,
    file: (int, set<int>, seq<Value>, int) -> Reply,
    area: seq<byte> -> Option<nat>,
    shared: (seq<byte>, nat) -> Value,
    level: nat)

  /** Stack entries: a value, or the address of a variable. */
  datatype Slot = Val(v: Value) | Ref(loc: Loc)

  /** modes: prefix opcodes that the next file operation will see. */
  datatype Machine =
    | Running(pc: nat, stack: seq<Slot>, store: map<Loc, Value>, modes: set<int>, world: int)
    | Finished(stack: seq<Slot>, store: map<Loc, Value>, world: int)
    | Broken

  function Get(store: map<Loc, Value>, loc: Loc): Value {
    if loc in store then store[loc] else UNASSIGNED
  }

  /** An address is followed when the value is used. */
  function Deref(store: map<Loc, Value>, slot: Slot): Value {
    match slot
    case Val(v) => v
    case Ref(loc) => Get(store, loc)
  }

  function Values(store: map<Loc, Value>, slots: seq<Slot>): (vs: seq<Value>)
    ensures |vs| == |slots|
  {
    seq(|slots|, i requires 0 <= i < |slots| => Deref(store, slots[i]))
  }

  /** Integers are kept in 32 bits; beyond them the interpreter turns to floating point. */
  predicate Fits32(n: int) {
    -0x8000_0000 <= n < 0x8000_0000
  }

  function Exact(n: int): Option<Value> {
    if Fits32(n) then Some(Number(n)) else None
  }

  function Flag(b: bool): Option<Value> {
    Some(Number(if b then 1 else 0))
  }

  /** What an operator makes of one integer, and of two, the second on top */
  function OfOne(op: int, a: int): Option<Value> {
    if op == OP_NEG then Some(Number(Wrap32(-a)))
    else if op == OP_INC then Exact(a + 1)
    else if op == OP_DEC then Exact(a - 1)
    else None
  }

  function OfTwo(op: int, a: int, b: int): Option<Value> {
    if op == OP_ADD then Exact(a + b)
    else if op == OP_SUB then Exact(a - b)
    else if op == OP_MUL then Exact(a * b)
    else if op == OP_EQ then Flag(a == b)
    else if op == OP_NE then Flag(a != b)
    else if op == OP_LT then Flag(a < b)
    else if op == OP_GT then Flag(a > b)
    else if op == OP_LE then Flag(a <= b)
    else if op == OP_GE then Flag(a >= b)
    else if op == OP_AND then Flag(a != 0 && b != 0)
    else if op == OP_OR then Flag(a != 0 || b != 0)
    else None
  }

  /** What is known of integers and of joining two strings; the rest is a parameter. */
  function Computed(op: int, args: seq<Value>): Option<Value> {
    if |args| == 1 && args[0].Number? then OfOne(op, args[0].n)
    else if |args| == 2 && args[0].Number? && args[1].Number? then OfTwo(op, args[0].n, args[1].n)
    else if (op == OP_CAT || op == OP_APPEND) && |args| == 2 && args[0].Chars? && args[1].Chars? then
      Some(Chars(args[0].s + args[1].s))
    else None
  }

  function Apply(rt: Runtime, op: int, args: seq<Value>): Value {
    match Computed(op, args)
    case Some(v) => v
    case None => rt.apply(op, args)
  }

  function Truth(rt: Runtime, v: Value): bool {
    if v.Number? then v.n != 0 else rt.truth(v)
  }

  function Sign(rt: Runtime, v: Value): int {
    if v.Number? then v.n else rt.sign(v)
  }

  /** Operands of an expression operator; 0 for other opcodes. */
  function Arity(op: int): (n: nat)
    ensures n > 0 ==> IsPlainOp(op)
  {
    if op == OP_NEG then 1
    else if op in {OP_ADD, OP_SUB, OP_MUL, OP_DIV, OP_IDIV, OP_PWR, OP_CAT, OP_EQ, OP_NE, OP_GT, OP_LT, OP_GE, OP_LE,
                   OP_AND, OP_OR, OP_MATCHES, OP_SUBSTRE} then 2
    else if op == OP_SUBSTR then 3
    else if op == OP_EXTRACT || op == OP_FIELD then 4
    else 0
  }

  predicate IsMode(op: int) {
    op == OP_ONERROR || op == OP_NOWAIT || op == OP_ULOCK || op == OP_LLOCK
  }

  /** File operations take two operands; READ stores a record in a third below them. */
  predicate IsFileOp(op: int) {
    op == OP_DELETE || op == OP_READ || op == OP_LOCKREC
  }

  function FileOperands(op: int): nat {
    if op == OP_READ then 3 else 2
  }

  function Push(m: Machine, pc: nat, slot: Slot): Machine
    requires m.Running?
  {
    m.(pc := pc, stack := m.stack + [slot])
  }

  function Top(m: Machine): Slot
    requires m.Running? && m.stack != []
  {
    m.stack[|m.stack| - 1]
  }

  function Drop(stack: seq<Slot>, n: nat): seq<Slot>
    requires n <= |stack|
  {
    stack[..|stack| - n]
  }

  /** Assign to the variable n entries below the top, and drop it and what is above. */
  function Assign(m: Machine, pc: nat, n: nat, v: Value): Machine
    requires m.Running? && n > 0
  {
    if n > |m.stack| || !m.stack[|m.stack| - n].Ref? then Broken
    else m.(pc := pc, stack := Drop(m.stack, n), store := m.store[m.stack[|m.stack| - n].loc := v])
  }

  /** Whether a jump opcode jumps, given the value it pops. */
  function Taken(rt: Runtime, op: int, v: Value): Option<bool> {
    if op == OP_JFALSE then Some(!Truth(rt, v))
    else if op == OP_JTRUE then Some(Truth(rt, v))
    else if op == OP_JZE then Some(Sign(rt, v) == 0)
    else if op == OP_JNZ then Some(Sign(rt, v) != 0)
    else if op == OP_JPZ then Some(Sign(rt, v) >= 0)
    else None
  }

  function JumpStep(rt: Runtime, op: int, target: nat, next: nat, m: Machine): Machine
    requires m.Running?
  {
    if op == OP_JMP then m.(pc := target)
    else if m.stack == [] then Broken
    else match Taken(rt, op, Deref(m.store, Top(m)))
      case None => Broken
      case Some(jumps) => m.(pc := if jumps then target else next, stack := Drop(m.stack, 1))
  }

  function FileStep(rt: Runtime, op: int, next: nat, m: Machine): Machine
    requires m.Running?
  {
    var n := FileOperands(op);
    if n > |m.stack| then Broken
    else
      var slots := m.stack[|m.stack| - n..];
      var reply := rt.file(op, m.modes, Values(m.store, slots), m.world);
      if op == OP_READ && reply.record.Some? && !slots[0].Ref? then Broken
      else
        Running(next, Drop(m.stack, n) + [Val(Number(reply.status))],
                if op == OP_READ && reply.record.Some? then m.store[slots[0].loc := reply.record.value] else m.store,
                {}, reply.world)
  }

  function SimpleStep(rt: Runtime, op: int, next: nat, m: Machine): Machine
    requires m.Running?
  {
    if op == OP_LD0 then Push(m, next, Val(Number(0)))
    else if op == OP_LD1 then Push(m, next, Val(Number(1)))
    else if op == OP_LDNULL then Push(m, next, Val(Chars([])))
    else if op == OP_NULL then m.(pc := next)
    else if op == OP_RETURN then Finished(m.stack, m.store, m.world)
    else if IsMode(op) then m.(pc := next, modes := m.modes + {op})
    else if IsFileOp(op) then FileStep(rt, op, next, m)
    else if m.stack == [] then Broken
    else if op == OP_POP then m.(pc := next, stack := Drop(m.stack, 1))
    else if op == OP_DUP then Push(m, next, Top(m))
    else if op == OP_STZ then Assign(m, next, 1, Number(0))
    else if op == OP_STNULL then Assign(m, next, 1, Chars([]))
    else if op == OP_INC || op == OP_DEC then Assign(m, next, 1, Apply(rt, op, [Deref(m.store, Top(m))]))
    else if op == OP_STOR then Assign(m, next, 2, Deref(m.store, Top(m)))
    else if op == OP_APPEND && |m.stack| >= 2 then
      Assign(m, next, 2, Apply(rt, op, Values(m.store, m.stack[|m.stack| - 2..])))
    else if 0 < Arity(op) <= |m.stack| then
      var args := Values(m.store, m.stack[|m.stack| - Arity(op)..]);
      m.(pc := next, stack := Drop(m.stack, Arity(op)) + [Val(Apply(rt, op, args))])
    else Broken
  }

  function Execute(rt: Runtime, ins: Instr<nat>, next: nat, m: Machine): Machine
    requires m.Running?
  {
    match ins
    case Simple(op) => SimpleStep(rt, op, next, m)
    case ShortInt(n) => Push(m, next, Val(Number(n)))
    case LongInt(n) => Push(m, next, Val(Number(n)))
    case Text(s) => Push(m, next, Val(Chars(s)))
    case ShortLocal(v) => Push(m, next, Ref(LocalVar(v)))
    case Local(v) => Push(m, next, Ref(LocalVar(v)))
    case Common(v, offset) => Push(m, next, Ref(CommonVar(v, offset)))
    case Jump(op, target) => JumpStep(rt, op, target, next, m)
  }

  /** The cells 1 to n of the block with variable number v are those of the area. */
  function Bound(rt: Runtime, name: seq<byte>, v: nat, n: nat, store: map<Loc, Value>): map<Loc, Value> {
    if n == 0 then store else Bound(rt, name, v, n - 1, store)[CommonVar(v, n) := rt.shared(name, n)]
  }

  /** The area of the unnamed block has the level in its name. */
  function AreaName(rt: Runtime, name: seq<byte>): seq<byte> {
    if name == TextBytes("$") then TextBytes("$" + Decimal(rt.level)) else name
  }

  /** op_common(): the variable number and the size are kept in 16 signed bits, and there
      is no variable and no new area with a negative one.  The name is at most 32 bytes, an
      area that exists must be large enough, and then the code that would give its arrays
      their dimensions is skipped. */
  function BindStep(rt: Runtime, code: seq<byte>, m: Machine): Machine
    requires m.Running?
  {
    var pc := m.pc;
    if pc + 6 > |code| then Broken
    else
      var v, size := Signed(UnLE(code[pc + 1..pc + 3]), 2), Signed(UnLE(code[pc + 3..pc + 5]), 2);
      var len: nat := code[pc + 5] % 64;
      if v < 0 || len > 32 || pc + 9 + len > |code| then Broken
      else
        var area, skip := AreaName(rt, code[pc + 6..pc + 6 + len]), UnLE(code[pc + 6 + len..pc + 9 + len]);
        match rt.area(area)
        case None => if size < 0 then Broken else m.(pc := pc + 9 + len, store := Bound(rt, area, v, size, m.store))
        case Some(rows) =>
          if rows < size then Broken
          else m.(pc := skip, store := Bound(rt, area, v, if size < 0 then 0 else size, m.store))
  }

  function Step(rt: Runtime, code: seq<byte>, m: Machine): Machine {
    if !m.Running? then m
    else match Decode(code, m.pc)
      case None => if m.pc < |code| && code[m.pc] == OP_COMMON then BindStep(rt, code, m) else Broken
      case Some(d) => Execute(rt, d.0, d.1, m)
  }

  function Run(rt: Runtime, code: seq<byte>, m: Machine, n: nat): Machine
    decreases n
  {
    if n == 0 then m else Run(rt, code, Step(rt, code, m), n - 1)
  }

  lemma {:induction false} RunAdd(rt: Runtime, code: seq<byte>, m: Machine, a: nat, b: nat)
    ensures Run(rt, code, m, a + b) == Run(rt, code, Run(rt, code, m, a), b)
    decreases a
  {
    if a > 0 {
      RunAdd(rt, code, Step(rt, code, m), a - 1, b);
    }
  }

  /** A machine that has stopped stays as it is. */
  lemma {:induction false} Stopped(rt: Runtime, code: seq<byte>, m: Machine, n: nat)
    requires !m.Running?
    ensures Run(rt, code, m, n) == m
  {
    if n > 0 {
      Stopped(rt, code, m, n - 1);
    }
  }

  lemma RunOne(rt: Runtime, code: seq<byte>, m: Machine)
    ensures Run(rt, code, m, 1) == Step(rt, code, m)
  {
    assert Run(rt, code, Step(rt, code, m), 0) == Step(rt, code, m);
  }
}
