/** Properly nested programs, and their code without a construct stack: a statement's
    labels are named after its own number, and leaving a loop after the loop's. */
module Structure {
  import opened Outcomes
  import opened Isa
  import opened Listing
  import opened Syntax
  import opened Programs
  import opened Names
  import opened Generate
  import opened ConstructStack

  /** A program read so far: the blocks around each open loop, outermost first, and
      the block being read. */
  datatype Partial = Partial(frames: seq<Block>, cur: Block)

  /** A properly nested program: LOOP and REPEAT have become Loop, and WHILE, UNTIL,
      EXIT and CONTINUE occur only inside a loop. */
  predicate NestedBlock(b: Block, inLoop: bool) {
    b.Seq? ==> NestedBlock(b.init, inLoop) && NestedStmt(b.last, inLoop)
  }

  predicate NestedClause(k: Clause, inLoop: bool) {
    k.Clause? ==> NestedBlock(k.body, inLoop)
  }

  predicate NestedStmt(s: Stmt, inLoop: bool) {
    match s
    case Loop(body) => NestedBlock(body, true)
    case Test(_, _) => inLoop
    case Leave(_) => inLoop
    case If(_, thn, els) => NestedClause(thn, inLoop) && NestedClause(els, inLoop)
    case Case(arms) => NestedArms(arms, inLoop)
    case File(_, _, onError, locked, thn, els) =>
      && NestedClause(onError, inLoop) && NestedClause(locked, inLoop)
      && NestedClause(thn, inLoop) && NestedClause(els, inLoop)
    case LabelMark(name) => !IsGenerated(name)
    case Goto(name) => !IsGenerated(name)
    case LoopMark => false
    case RepeatMark => false
    case _ => true
  }

  predicate NestedArms(arms: Arms, inLoop: bool) {
    arms.Arm? ==> NestedArms(arms.init, inLoop) && NestedBlock(arms.body, inLoop)
  }

  predicate NestedPartial(o: Partial, inLoop: bool) {
    && (forall i :: 0 <= i < |o.frames| ==> NestedBlock(o.frames[i], inLoop || i > 0))
    && NestedBlock(o.cur, inLoop || o.frames != [])
  }

  /** Match every LOOP with its REPEAT.  None where a REPEAT has no LOOP, where a clause
      leaves a loop open, or where a loop is left from outside. */
  function NestBlock(b: Block, inLoop: bool): (r: Option<Partial>)
    ensures r.Some? ==> NestedPartial(r.value, inLoop)
    decreases b, 0
  {
    match b
    case Empty => Some(Partial([], Empty))
    case Seq(init, last) =>
      match NestBlock(init, inLoop)
      case None => None
      case Some(o) =>
        if last.LoopMark? then Some(Partial(o.frames + [o.cur], Empty))
        else if last.RepeatMark? then CloseLoop(o)
        else match NestStmt(last, inLoop || o.frames != [])
          case None => None
          case Some(s) => Some(Partial(o.frames, Seq(o.cur, s)))
  }

  function CloseLoop(o: Partial): Option<Partial> {
    if o.frames == [] then None
    else Some(Partial(o.frames[..|o.frames| - 1], Seq(o.frames[|o.frames| - 1], Loop(o.cur))))
  }

  /** A block without open loops. */
  function NestWhole(b: Block, inLoop: bool): (r: Option<Block>)
    ensures r.Some? ==> NestedBlock(r.value, inLoop)
    decreases b, 1
  {
    match NestBlock(b, inLoop)
    case None => None
    case Some(o) => if o.frames == [] then Some(o.cur) else None
  }

  function NestClause(k: Clause, inLoop: bool): (r: Option<Clause>)
    ensures r.Some? ==> NestedClause(r.value, inLoop)
    decreases k, 0
  {
    match k
    case Absent => Some(Absent)
    case Clause(b) =>
      match NestWhole(b, inLoop)
      case None => None
      case Some(p) => Some(Clause(p))
  }

  function NestStmt(s: Stmt, inLoop: bool): (r: Option<Stmt>)
    ensures r.Some? ==> NestedStmt(r.value, inLoop)
    decreases s, 0
  {
    match s
    case If(c, thn, els) =>
      match NestClause(thn, inLoop) {
        case None => None
        case Some(t) =>
          match NestClause(els, inLoop)
          case None => None
          case Some(e) => Some(If(c, t, e))
      }
    case Case(arms) =>
      match NestArms(arms, inLoop) {
        case None => None
        case Some(a) => Some(Case(a))
      }
    case File(call, args, onError, locked, thn, els) =>
      match NestClause(onError, inLoop) {
        case None => None
        case Some(o) =>
          match NestClause(locked, inLoop)
          case None => None
          case Some(l) =>
            match NestClause(thn, inLoop)
            case None => None
            case Some(t) =>
              match NestClause(els, inLoop)
              case None => None
              case Some(e) => Some(File(call, args, o, l, t, e))
      }
    case Test(_, _) => if inLoop then Some(s) else None
    case Leave(_) => if inLoop then Some(s) else None
    case LabelMark(name) => if IsGenerated(name) then None else Some(s)
    case Goto(name) => if IsGenerated(name) then None else Some(s)
    case LoopMark => None
    case RepeatMark => None
    case Loop(_) => None
    case _ => Some(s)
  }

  function NestArms(arms: Arms, inLoop: bool): (r: Option<Arms>)
    ensures r.Some? ==> NestedArms(r.value, inLoop)
    decreases arms, 0
  {
    match arms
    case NoArms => Some(NoArms)
    case Arm(init, cond, body) =>
      match NestArms(init, inLoop)
      case None => None
      case Some(a) =>
        match NestWhole(body, inLoop)
        case None => None
        case Some(p) => Some(Arm(a, cond, p))
  }

  function Count(arms: Arms): nat {
    if arms.NoArms? then 0 else Count(arms.init) + 1
  }

  function Opened(c: Ctx): Ctx {
    c.(next := c.next + 1)
  }

  function Jmp(op: int, n: int, suffix: string): Item {
    I(Jump(op, LoopLabel(n, suffix)))
  }

  function Lbl(n: int, suffix: string): Item {
    D(LoopLabel(n, suffix))
  }

  function LoopLabel(n: int, suffix: string): string {
    if n < 0 then "" else LabelName(n, suffix)
  }

  function AfterBlock(b: Block, c: Ctx): Ctx {
    match b
    case Empty => c
    case Seq(init, last) => AfterStmt(last, AfterBlock(init, c))
  }

  function AfterClause(k: Clause, c: Ctx): Ctx {
    if k.Absent? then c else AfterBlock(k.body, c)
  }

  function AfterStmt(s: Stmt, c: Ctx): Ctx {
    match s
    case Set(name, op, e, short) => if short then AfterE(Var(name), c) else AfterE(e, AfterE(Var(name), c))
    case Loop(body) => AfterBlock(body, Opened(c))
    case Test(op, e) => AfterE(e, c)
    case If(cond, thn, els) => AfterClause(els, AfterClause(thn, Opened(AfterE(cond, c))))
    case Case(arms) => AfterArms(arms, Opened(c))
    case File(call, args, onError, locked, thn, els) =>
      AfterClause(els, AfterClause(thn, AfterClause(locked, AfterClause(onError, Opened(AfterArgs(args, c))))))
    case _ => c
  }

  function AfterArms(arms: Arms, c: Ctx): Ctx {
    match arms
    case NoArms => c
    case Arm(init, cond, body) => AfterBlock(body, AfterE(cond, AfterArms(init, c)))
  }

  /** The code of a block inside loop lp, or outside every loop if lp is negative. */
  function EmitBlock(b: Block, c: Ctx, lp: int): seq<Item>
    decreases b, 0
  {
    match b
    case Empty => []
    case Seq(init, last) => EmitBlock(init, c, lp) + EmitStmt(last, AfterBlock(init, c), lp)
  }

  function EmitClause(k: Clause, c: Ctx, lp: int): seq<Item>
    decreases k, 0
  {
    if k.Absent? then [] else EmitBlock(k.body, c, lp)
  }

  function EmitStmt(s: Stmt, c: Ctx, lp: int): seq<Item>
    decreases s, 3
  {
    match s
    case Set(name, op, e, short) => EmitE(Var(name), c) + StoreCode(op, e, short, AfterE(Var(name), c))
    case Loop(body) =>
      [Lbl(c.next, "R")] + EmitBlock(body, Opened(c), c.next) + [Jmp(OP_JMP, c.next, "R")] + [Lbl(c.next, "X")]
    case Test(until, e) => EmitE(e, c) + [Jmp(TestOp(until), lp, "X")]
    case Leave(again) => [Jmp(OP_JMP, lp, LeaveSuffix(again))]
    case If(cond, _, _) => EmitE(cond, c) + EmitIf(s, AfterE(cond, c).next, Opened(AfterE(cond, c)), lp)
    case Case(arms) => EmitArms(arms, c.next, Opened(c), lp) + [Lbl(c.next, "X")]
    case File(call, args, _, _, _, _) =>
      EmitArgs(args, c) + EmitFile(s, AfterArgs(args, c).next, Opened(AfterArgs(args, c)), lp)
    case LabelMark(name) => [D(name)]
    case Goto(name) => [I(Jump(OP_JMP, name))]
    case LoopMark => []
    case RepeatMark => []
  }

  /** After the condition */
  function EmitIf(s: Stmt, n: nat, c: Ctx, lp: int): seq<Item>
    requires s.If?
    decreases s, 2
  {
    if s.thn.Absent? then [Jmp(OP_JTRUE, n, "X")] + EmitLast(s.els, n, c, lp)
    else [Jmp(OP_JFALSE, n, "E")] + EmitThen(s, n, c, lp)
  }

  function EmitThen(s: Stmt, n: nat, c: Ctx, lp: int): seq<Item>
    requires s.If?
    decreases s, 1
  {
    EmitClause(s.thn, c, lp)
    + if s.els.Absent? then [Lbl(n, "E")]
      else [Jmp(OP_JMP, n, "X")] + [Lbl(n, "E")] + EmitLast(s.els, n, AfterClause(s.thn, c), lp)
  }

  /** The last clause of a statement and its exit label */
  function EmitLast(k: Clause, n: nat, c: Ctx, lp: int): seq<Item>
    decreases k, 1
  {
    EmitClause(k, c, lp) + [Lbl(n, "X")]
  }

  function EmitArms(arms: Arms, n: nat, c: Ctx, lp: int): seq<Item>
    decreases arms, 0
  {
    match arms
    case NoArms => []
    case Arm(init, cond, body) =>
      EmitArms(init, n, c, lp) + EmitArm(cond, body, n, Count(init) + 1, AfterArms(init, c), lp)
  }

  /** The k-th element: its condition, its statements, and the way to its successor. */
  function EmitArm(cond: Expr, body: Block, n: nat, k: nat, c: Ctx, lp: int): seq<Item>
    decreases body, 1
  {
    EmitE(cond, c) + [Jmp(OP_JFALSE, n, CaseSuffix(k))] + EmitBlock(body, AfterE(cond, c), lp)
    + [Jmp(OP_JMP, n, "X")] + [Lbl(n, CaseSuffix(k))]
  }

  /** After the operands */
  function EmitFile(s: Stmt, n: nat, c: Ctx, lp: int): seq<Item>
    requires s.File?
    decreases s, 2
  {
    var c1 := AfterClause(s.onError, c);
    EmitLock(s.call, s.locked) + EmitCall(s.call, s.onError, n, c, lp) + EmitLocked(s.locked, n, c1, lp)
    + EmitChoice(s, n, AfterClause(s.locked, c1), lp)
  }

  function EmitLock(call: Call, locked: Clause): seq<Item> {
    (if call.lock > 0 then [Op(call.lock)] else [])
    + (if call.canLock then [Op(if locked.Clause? then OP_NOWAIT else OP_NULL)] else [])
  }

  /** A clause that ends by leaving the statement. */
  function EmitAside(op: int, k: Clause, suffix: string, n: nat, c: Ctx, lp: int): seq<Item>
    decreases k, 1
  {
    [Jmp(op, n, suffix)] + [Op(OP_POP)] + EmitClause(k, c, lp) + [Jmp(OP_JMP, n, "X")] + [Lbl(n, suffix)]
  }

  function EmitCall(call: Call, onError: Clause, n: nat, c: Ctx, lp: int): seq<Item>
    decreases onError, 2
  {
    if onError.Absent? then [Op(call.op)]
    else ([Op(OP_ONERROR)] + [Op(call.op)] + [Op(OP_DUP)]) + EmitAside(OP_JPZ, onError, "A", n, c, lp)
  }

  function EmitLocked(locked: Clause, n: nat, c: Ctx, lp: int): seq<Item>
    decreases locked, 2
  {
    if locked.Absent? then []
    else ([Op(OP_DUP)] + [I(NumberLoad(ER_LCK))] + [Op(OP_EQ)]) + EmitAside(OP_JZE, locked, "B", n, c, lp)
  }

  function EmitChoice(s: Stmt, n: nat, c: Ctx, lp: int): seq<Item>
    requires s.File?
    decreases s, 1
  {
    if !s.call.thenElse then [Op(OP_POP)] + [Lbl(n, "X")]
    else if s.thn.Absent? then [Jmp(OP_JZE, n, "X")] + EmitLast(s.els, n, c, lp)
    else [Jmp(OP_JNZ, n, "E")] + EmitSuccess(s, n, c, lp)
  }

  function EmitSuccess(s: Stmt, n: nat, c: Ctx, lp: int): seq<Item>
    requires s.File?
    decreases s, 0
  {
    EmitClause(s.thn, c, lp)
    + if s.els.Absent? then [Lbl(n, "E")] + [Lbl(n, "X")]
      else [Jmp(OP_JMP, n, "X")] + [Lbl(n, "E")] + EmitLast(s.els, n, AfterClause(s.thn, c), lp)
  }
}
