/** What programs mean, without reference to their code: values of expressions, and
    runs of properly nested statements. */
module Meanings {
  import opened Outcomes
  import opened Isa
  import opened Listing
  import opened Syntax
  import opened Programs
  import opened ConstructStack
  import opened Machines

  type Env = map<string, Value>

  function Lookup(env: Env, name: string): Value {
    if name in env then env[name] else UNASSIGNED
  }

  function ArgCount(args: Exprs): nat {
    if args.NoArgs? then 0 else ArgCount(args.init) + 1
  }

  /** Operators have as many operands as their opcode takes. */
  predicate FormedExpr(e: Expr) {
    match e
    case Num(_) => true
    case Str(s) => IsByteText(s)
    case Var(_) => true
    case App(op, args) => 0 < Arity(op) == ArgCount(args) && FormedArgs(args)
    case IfThen(c, a, b) => FormedExpr(c) && FormedExpr(a) && FormedExpr(b)
  }

  predicate FormedArgs(args: Exprs) {
    args.Args? ==> FormedArgs(args.init) && FormedExpr(args.last)
  }

  /** A literal beyond 32 bits means what is left of it. */
  function Eval(rt: Runtime, e: Expr, env: Env): Value {
    match e
    case Num(n) => Number(Wrap32(n))
    case Str(s) => Chars(TextBytes(s))
    case Var(name) => Lookup(env, name)
    case App(op, args) => Apply(rt, op, EvalArgs(rt, args, env))
    case IfThen(c, a, b) => if Truth(rt, Eval(rt, c, env)) then Eval(rt, a, env) else Eval(rt, b, env)
  }

  function EvalArgs(rt: Runtime, args: Exprs, env: Env): (vs: seq<Value>)
    ensures |vs| == ArgCount(args)
  {
    match args
    case NoArgs => []
    case Args(init, last) => EvalArgs(rt, init, env) + [Eval(rt, last, env)]
  }

  /** How a statement ended: at its end, by leaving the loop around it, by going on with
      the loop's next round, or with a GOTO. */
  datatype Signal = Normal | Break | Again | Go(name: string)

  /** Spin: the rounds allowed to each loop have been used up. */
  datatype Result = Done(signal: Signal, env: Env, world: int) | Spin

  predicate FormedSet(op: int, e: Expr, short: bool) {
    && FormedExpr(e)
    && (op == OP_STOR || op == OP_APPEND || op == OP_ADD || op == OP_SUB || op == OP_MUL || op == OP_DIV)
    && (short ==>
        || (op == OP_STOR && (e == Num(0) || e == Str("")))
        || ((op == OP_ADD || op == OP_SUB) && e == Num(1)))
  }

  /** The variable a record is read into */
  function Receiver(args: Exprs): Option<string> {
    match args
    case Args(Args(Args(NoArgs, Var(name)), _), _) => Some(name)
    case _ => None
  }

  predicate FormedCall(call: Call, args: Exprs, thn: Clause, els: Clause) {
    && FormedArgs(args)
    && IsFileOp(call.op) && ArgCount(args) == FileOperands(call.op)
    && (call.op == OP_READ ==> Receiver(args).Some?)
    && (call.lock == 0 || call.lock == OP_ULOCK || call.lock == OP_LLOCK)
    && (call.thenElse <==> thn.Clause? || els.Clause?)
  }

  predicate FormedBlock(b: Block) {
    b.Seq? ==> FormedBlock(b.init) && FormedStmt(b.last)
  }

  predicate FormedClause(k: Clause) {
    k.Clause? ==> FormedBlock(k.body)
  }

  predicate FormedStmt(s: Stmt) {
    match s
    case Set(_, op, e, short) => FormedSet(op, e, short)
    case Loop(body) => FormedBlock(body)
    case Test(_, e) => FormedExpr(e)
    case If(c, thn, els) => FormedExpr(c) && FormedClause(thn) && FormedClause(els) && (thn.Clause? || els.Clause?)
    case Case(arms) => FormedArms(arms)
    case File(call, args, onError, locked, thn, els) =>
      && FormedCall(call, args, thn, els) && (locked.Clause? ==> call.canLock)
      && FormedClause(onError) && FormedClause(locked) && FormedClause(thn) && FormedClause(els)
    case _ => true
  }

  predicate FormedArms(arms: Arms) {
    arms.Arm? ==> FormedArms(arms.init) && FormedExpr(arms.cond) && FormedBlock(arms.body)
  }

  /** The value a variable gets.  += 1 and -= 1 at the end of a line have an operator
      of their own. */
  function Stored(rt: Runtime, op: int, e: Expr, short: bool, was: Value, env: Env): Value {
    if op == OP_STOR then Eval(rt, e, env)
    else if op == OP_APPEND then Apply(rt, op, [was, Eval(rt, e, env)])
    else if short then Apply(rt, if op == OP_ADD then OP_INC else OP_DEC, [was])
    else Apply(rt, op, [was, Eval(rt, e, env)])
  }

  /** Run a block; every loop in it is given f rounds. */
  function ExecBlock(rt: Runtime, b: Block, f: nat, env: Env, w: int): Result
    decreases f, b, 0
  {
    match b
    case Empty => Done(Normal, env, w)
    case Seq(init, last) => ThenStmt(rt, ExecBlock(rt, init, f, env, w), last, f)
  }

  /** A statement is run after a normal end. */
  function ThenStmt(rt: Runtime, r: Result, s: Stmt, f: nat): Result
    decreases f, s, 2
  {
    if r.Done? && r.signal.Normal? then ExecStmt(rt, s, f, r.env, r.world) else r
  }

  /** What a loop does after a round: the next one, unless it is left. */
  function AfterRound(rt: Runtime, r: Result, s: Stmt, f: nat): Result
    requires s.Loop?
    decreases f, s, 2
  {
    match r
    case Spin => Spin
    case Done(signal, env, w) =>
      if signal.Break? then Done(Normal, env, w)
      else if signal.Go? then r
      else ExecStmt(rt, s, f, env, w)
  }

  function ExecClause(rt: Runtime, k: Clause, f: nat, env: Env, w: int): Result
    decreases f, k, 0
  {
    if k.Absent? then Done(Normal, env, w) else ExecBlock(rt, k.body, f, env, w)
  }

  function ExecStmt(rt: Runtime, s: Stmt, f: nat, env: Env, w: int): Result
    decreases f, s, 1
  {
    match s
    case Set(name, op, e, short) => Done(Normal, env[name := Stored(rt, op, e, short, Lookup(env, name), env)], w)
    case Loop(body) => if f == 0 then Spin else AfterRound(rt, ExecBlock(rt, body, f, env, w), s, f - 1)
    case Test(until, e) => Done(if Truth(rt, Eval(rt, e, env)) == until then Break else Normal, env, w)
    case Leave(again) => Done(if again then Again else Break, env, w)
    case If(c, thn, els) =>
      if Truth(rt, Eval(rt, c, env)) then ExecClause(rt, thn, f, env, w) else ExecClause(rt, els, f, env, w)
    case Case(arms) =>
      match ExecArms(rt, arms, f, env, w) {
        case None => Done(Normal, env, w)
        case Some(r) => r
      }
    case File(_, _, _, _, _, _) => ExecFile(rt, s, f, env, w)
    case Goto(name) => Done(Go(name), env, w)
    case _ => Done(Normal, env, w)
  }

  /** The first element whose condition holds, if there is one. */
  function ExecArms(rt: Runtime, arms: Arms, f: nat, env: Env, w: int): Option<Result>
    decreases f, arms, 0
  {
    match arms
    case NoArms => None
    case Arm(init, cond, body) =>
      match ExecArms(rt, init, f, env, w)
      case Some(r) => Some(r)
      case None => if Truth(rt, Eval(rt, cond, env)) then Some(ExecBlock(rt, body, f, env, w)) else None
  }

  /** The prefixes a file operation is given. */
  function Modes(call: Call, onError: Clause, locked: Clause): set<int> {
    (if call.lock > 0 then {call.lock as int} else {})
    + (if locked.Clause? then {OP_NOWAIT} else {})
    + (if onError.Clause? then {OP_ONERROR} else {})
  }

  /** A record that was read goes to the first operand. */
  function Receive(call: Call, args: Exprs, reply: Reply, env: Env): Env {
    if call.op == OP_READ && reply.record.Some? && Receiver(args).Some?
    then env[Receiver(args).value := reply.record.value] else env
  }

  /** The status selects the clause that is run. */
  function ExecFile(rt: Runtime, s: Stmt, f: nat, env: Env, w: int): Result
    requires s.File?
    decreases f, s, 0
  {
    var reply := rt.file(s.call.op, Modes(s.call, s.onError, s.locked), EvalArgs(rt, s.args, env), w);
    var env', w' := Receive(s.call, s.args, reply, env), reply.world;
    if s.onError.Clause? && reply.status < 0 then ExecClause(rt, s.onError, f, env', w')
    else if s.locked.Clause? && reply.status == LOCK_HELD then ExecClause(rt, s.locked, f, env', w')
    else if !s.call.thenElse then Done(Normal, env', w')
    else if reply.status == 0 then ExecClause(rt, s.thn, f, env', w')
    else ExecClause(rt, s.els, f, env', w')
  }

  /** Run a block from a label in it, wherever the label stands: what follows it in its
      block, then what follows that block, and so on. */
  function EnterBlock(rt: Runtime, b: Block, name: string, f: nat, env: Env, w: int): Result
    decreases f, b, 0
  {
    match b
    case Empty => Done(Normal, env, w)
    case Seq(init, last) =>
      if name in BlockLabs(init).marks then ThenStmt(rt, EnterBlock(rt, init, name, f, env, w), last, f)
      else EnterStmt(rt, last, name, f, env, w)
  }

  function EnterClause(rt: Runtime, k: Clause, name: string, f: nat, env: Env, w: int): Result
    decreases f, k, 0
  {
    if k.Absent? then Done(Normal, env, w) else EnterBlock(rt, k.body, name, f, env, w)
  }

  /** A clause is entered without its condition, a loop in the midst of a round. */
  function EnterStmt(rt: Runtime, s: Stmt, name: string, f: nat, env: Env, w: int): Result
    decreases f, s, 3
  {
    match s
    case Loop(body) => AfterRound(rt, EnterBlock(rt, body, name, f, env, w), s, f)
    case If(_, thn, els) => EnterClause(rt, if name in ClauseLabs(thn).marks then thn else els, name, f, env, w)
    case Case(arms) => EnterArms(rt, arms, name, f, env, w)
    case File(_, _, onError, locked, thn, els) =>
      EnterClause(rt,
                  if name in ClauseLabs(onError).marks then onError
                  else if name in ClauseLabs(locked).marks then locked
                  else if name in ClauseLabs(thn).marks then thn
                  else els,
                  name, f, env, w)
    case _ => Done(Normal, env, w)
  }

  function EnterArms(rt: Runtime, arms: Arms, name: string, f: nat, env: Env, w: int): Result
    decreases f, arms, 0
  {
    match arms
    case NoArms => Done(Normal, env, w)
    case Arm(init, _, body) =>
      if name in ArmsLabs(init).marks then EnterArms(rt, init, name, f, env, w)
      else EnterBlock(rt, body, name, f, env, w)
  }

  /** A whole program: every GOTO is followed to its label.  The allowance bounds the rounds
      of each loop and the number of GOTOs. */
  function ExecProgram(rt: Runtime, p: Block, f: nat, env: Env, w: int): Result {
    Follow(rt, p, ExecBlock(rt, p, f, env, w), f)
  }

  function Follow(rt: Runtime, p: Block, r: Result, f: nat): Result
    decreases f
  {
    if r.Spin? || !r.signal.Go? || r.signal.name !in BlockLabs(p).marks then r
    else if f == 0 then Spin
    else Follow(rt, p, EnterBlock(rt, p, r.signal.name, f - 1, r.env, r.world), f - 1)
  }
}
