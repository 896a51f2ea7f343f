/** The code of statements as the construct stack decides it: every jump and label of a
    construct is named after the entry that is on top when it is emitted. */
module ConstructStack {
  import opened Isa
  import opened Listing
  import opened Syntax
  import opened Programs
  import opened Names
  import opened Generate

  /** The listing so far, jump_stack (innermost first), and the tables. */
  datatype GState = GState(list: seq<Item>, stack: seq<Entry>, ctx: Ctx)

  datatype Gen = Bad | Good(g: GState) {
    predicate IsFailure() { Bad? }
    function PropagateFailure(): Gen requires Bad? { Bad }
    function Extract(): GState requires Good? { g }
  }

  function Put(g: GState, items: seq<Item>): GState {
    g.(list := g.list + items)
  }

  /** set_label() */
  function Define(g: GState, name: string): Gen {
    if D(name) in g.list then Bad else Good(Put(g, [D(name)]))
  }

  function Value(g: GState, e: Expr): GState {
    GState(g.list + EmitE(e, g.ctx), g.stack, AfterE(e, g.ctx))
  }

  function Open(g: GState, kind: Construct): GState {
    GState(g.list, [Entry(kind, g.ctx.next, 0)] + g.stack, g.ctx.(next := g.ctx.next + 1))
  }

  predicate IsTop(g: GState, kind: Construct) {
    g.stack != [] && g.stack[0].kind == kind
  }

  function TopLabel(g: GState, suffix: string): string {
    if g.stack == [] then "" else LabelName(g.stack[0].number, suffix)
  }

  function JumpTop(g: GState, op: int, suffix: string): GState {
    Put(g, [I(Jump(op, TopLabel(g, suffix)))])
  }

  /** The last label of a construct; its entry goes. */
  function Close(g: GState, suffix: string): Gen {
    if g.stack == [] then Bad
    else
      var g1 :- Define(g, TopLabel(g, suffix));
      Good(g1.(stack := g1.stack[1..]))
  }

  /** The number of the innermost open loop. */
  function FindLoop(stack: seq<Entry>): (r: int)
    ensures -1 <= r
    ensures r >= 0 ==> exists i :: 0 <= i < |stack| && stack[i].kind.LoopEntry? && stack[i].number == r
    ensures r < 0 ==> forall i :: 0 <= i < |stack| ==> !stack[i].kind.LoopEntry?
  {
    if stack == [] then -1
    else if stack[0].kind.LoopEntry? then stack[0].number
    else
      var r := FindLoop(stack[1..]);
      assert r >= 0 ==> forall i :: 0 <= i < |stack[1..]| ==> stack[1..][i] == stack[i + 1];
      r
  }

  /** The jump that leaves the loop */
  function TestOp(until: bool): int {
    if until then OP_JTRUE else OP_JFALSE
  }

  function LeaveSuffix(again: bool): string {
    if again then "R" else "X"
  }

  /** The opcode of a short store */
  function ShortOp(op: int, e: Expr): int {
    if op == OP_ADD then OP_INC
    else if op == OP_SUB then OP_DEC
    else if e.Str? then OP_STNULL
    else OP_STZ
  }

  /** What follows the reference to the variable. */
  function StoreCode(op: int, e: Expr, short: bool, c: Ctx): seq<Item> {
    if short then [Op(ShortOp(op, e))]
    else if op == OP_STOR || op == OP_APPEND then EmitE(e, c) + [Op(op)]
    else [Op(OP_DUP)] + EmitE(e, c) + [Op(op)] + [Op(OP_STOR)]
  }

  function GenSet(name: string, op: int, e: Expr, short: bool, g: GState): GState {
    var g1 := Value(g, Var(name));
    GState(g1.list + StoreCode(op, e, short, g1.ctx), g1.stack, if short then g1.ctx else AfterE(e, g1.ctx))
  }

  function GenBlock(b: Block, g: GState): Gen
    decreases b, 0
  {
    match b
    case Empty => Good(g)
    case Seq(init, last) =>
      var g1 :- GenBlock(init, g);
      GenStmt(last, g1)
  }

  function GenClause(k: Clause, g: GState): Gen
    decreases k, 0
  {
    match k
    case Absent => Good(g)
    case Clause(b) => GenBlock(b, g)
  }

  /** The scanner never delivers a name in generated form, so that Bad is no case of
      the compiler's. */
  function GenStmt(s: Stmt, g: GState): Gen
    decreases s, 3
  {
    match s
    case Set(name, op, e, short) => Good(GenSet(name, op, e, short, g))
    case LoopMark => GenLoopMark(g)
    case RepeatMark => GenRepeat(g)
    case Loop(_) => Bad
    case Test(until, e) => if FindLoop(g.stack) < 0 then Bad else Good(GenTest(TestOp(until), e, g))
    case Leave(again) => if FindLoop(g.stack) < 0 then Bad else Good(GenLeave(LeaveSuffix(again), g))
    case If(c, _, _) => GenIf(s, Open(Value(g, c), IfEntry))
    case Case(arms) =>
      var g1 :- GenElements(arms, Open(g, CaseEntry));
      Close(g1, "X")
    case File(call, args, _, _, _, _) => GenFile(s, GenOperands(call, args, g))
    case LabelMark(name) => if IsGenerated(name) then Bad else Define(g, name)
    case Goto(name) => if IsGenerated(name) then Bad else Good(Put(g, [I(Jump(OP_JMP, name))]))
  }

  /** st_loop() */
  function GenLoopMark(g: GState): Gen {
    Define(Open(g, LoopEntry), LabelName(g.ctx.next, "R"))
  }

  /** st_repeat() */
  function GenRepeat(g: GState): Gen {
    if IsTop(g, LoopEntry) then Close(JumpTop(g, OP_JMP, "R"), "X") else Bad
  }

  function GenTest(op: int, e: Expr, g: GState): GState
    requires FindLoop(g.stack) >= 0
  {
    Put(Value(g, e), [I(Jump(op, LabelName(FindLoop(g.stack), "X")))])
  }

  function GenLeave(suffix: string, g: GState): GState
    requires FindLoop(g.stack) >= 0
  {
    Put(g, [I(Jump(OP_JMP, LabelName(FindLoop(g.stack), suffix)))])
  }

  /** if_back_end(), from its jump on */
  function GenIf(s: Stmt, g: GState): Gen
    requires s.If?
    decreases s, 2
  {
    if s.thn.Absent? then GenElse(s.els, JumpTop(g, OP_JTRUE, "X")) else GenThen(s, JumpTop(g, OP_JFALSE, "E"))
  }

  /** The THEN clause, and the ELSE clause if there is one. */
  function GenThen(s: Stmt, g: GState): Gen
    requires s.If?
    decreases s, 1
  {
    var g1 :- GenClause(s.thn, g);
    if !IsTop(g1, IfEntry) then Bad
    else if s.els.Absent? then Close(g1, "E")
    else
      var g2 :- Define(JumpTop(g1, OP_JMP, "X"), TopLabel(g1, "E"));
      GenElse(s.els, g2)
  }

  /** if_else_clause() */
  function GenElse(els: Clause, g: GState): Gen
    decreases els, 1
  {
    var g1 :- GenClause(els, g);
    if IsTop(g1, IfEntry) then Close(g1, "X") else Bad
  }

  /** Between the elements of a CASE: a jump to its end and the next element's label,
      both only after a first element. */
  function NextArm(g: GState): Gen {
    if g.stack == [] then Bad
    else
      var g1 :- if g.stack[0].element == 0 then Good(g)
                else Define(JumpTop(g, OP_JMP, "X"), TopLabel(g, CaseSuffix(g.stack[0].element)));
      Good(g1.(stack := [g1.stack[0].(element := g1.stack[0].element + 1)] + g1.stack[1..]))
  }

  function GenArms(arms: Arms, g: GState): Gen
    decreases arms, 0
  {
    match arms
    case NoArms => Good(g)
    case Arm(init, cond, body) =>
      var g1 :- GenArms(init, g);
      var g2 :- NextArm(g1);
      GenArm(cond, body, g2)
  }

  /** The elements, and the jump and label after the last one. */
  function GenElements(arms: Arms, g: GState): Gen
    decreases arms, 1
  {
    var g1 :- GenArms(arms, g);
    NextArm(g1)
  }

  function GenArm(cond: Expr, body: Block, g: GState): Gen
    decreases body, 1
  {
    var g1 := Value(g, cond);
    if !IsTop(g1, CaseEntry) then Bad
    else GenBlock(body, JumpTop(g1, OP_JFALSE, CaseSuffix(g1.stack[0].element)))
  }

  const ER_LCK: int := 3011

  /** back_end(), after the operands; t is where a NULL may have been left. */
  function GenFile(s: Stmt, g: GState): Gen
    requires s.File?
    decreases s, 2
  {
    var g1 :- GenCall(s.call, s.onError, g);
    var g2 :- GenLocked(s.call, s.locked, |g.list| - 1, g1);
    GenChoice(s, g2)
  }

  function Operands(args: Exprs, g: GState): GState {
    GState(g.list + EmitArgs(args, g.ctx), g.stack, AfterArgs(args, g.ctx))
  }

  /** Everything before the clauses; a NULL is left where a NOWAIT may be needed. */
  function GenOperands(call: Call, args: Exprs, g: GState): GState {
    Put(Open(Operands(args, g), BackEndEntry), LockCode(call))
  }

  function LockCode(call: Call): seq<Item> {
    (if call.lock > 0 then [Op(call.lock)] else []) + (if call.canLock then [Op(OP_NULL)] else [])
  }

  /** A clause that is taken by leaving its construct's end label. */
  function GenAside(k: Clause, suffix: string, g: GState): Gen
    decreases k, 1
  {
    var g1 :- GenClause(k, g);
    if !IsTop(g1, BackEndEntry) then Bad
    else Define(JumpTop(g1, OP_JMP, "X"), TopLabel(g1, suffix))
  }

  function GenCall(call: Call, onError: Clause, g: GState): Gen
    decreases onError, 2
  {
    if onError.Absent? then Good(Put(g, [Op(call.op)]))
    else
      var g1 := Put(g, [Op(OP_ONERROR)] + [Op(call.op)] + [Op(OP_DUP)]);
      GenAside(onError, "A", Put(JumpTop(g1, OP_JPZ, "A"), [Op(OP_POP)]))
  }

  /** LOCKED turns the NULL at position t into a NOWAIT. */
  function GenLocked(call: Call, locked: Clause, t: int, g: GState): Gen
    decreases locked, 2
  {
    if locked.Absent? then Good(g)
    else if !call.canLock || !(0 <= t < |g.list|) then Bad
    else
      var g1 := Put(g.(list := g.list[t := Op(OP_NOWAIT)]), [Op(OP_DUP)] + [I(NumberLoad(ER_LCK))] + [Op(OP_EQ)]);
      GenAside(locked, "B", Put(JumpTop(g1, OP_JZE, "B"), [Op(OP_POP)]))
  }

  /** THEN and ELSE, or a POP of the status where neither is allowed. */
  function GenChoice(s: Stmt, g: GState): Gen
    requires s.File?
    decreases s, 1
  {
    if !s.call.thenElse then
      if s.thn.Clause? || s.els.Clause? then Bad else Close(Put(g, [Op(OP_POP)]), "X")
    else if s.thn.Absent? then GenOther(s.els, JumpTop(g, OP_JZE, "X"))
    else GenSuccess(s, JumpTop(g, OP_JNZ, "E"))
  }

  function GenSuccess(s: Stmt, g: GState): Gen
    requires s.File?
    decreases s, 0
  {
    var g1 :- GenClause(s.thn, g);
    if !IsTop(g1, BackEndEntry) then Bad
    else if s.els.Absent? then
      var g2 :- Define(g1, TopLabel(g1, "E"));
      Close(g2, "X")
    else
      var g2 :- Define(JumpTop(g1, OP_JMP, "X"), TopLabel(g1, "E"));
      GenOther(s.els, g2)
  }

  /** process_else_clause() and the exit label */
  function GenOther(els: Clause, g: GState): Gen
    decreases els, 1
  {
    var g1 :- GenClause(els, g);
    if IsTop(g1, BackEndEntry) then Close(g1, "X") else Bad
  }
}
