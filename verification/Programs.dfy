/** Statements, and the construct stack they are compiled with. */
module Programs {
  import opened Syntax

  datatype Construct = LoopEntry | BackEndEntry | CaseEntry | IfEntry | IfExprEntry

  /** One open construct: its kind, its number, and for CASE the element count. */
  datatype Entry = Entry(kind: Construct, number: nat, element: nat)

  /** A file operation: a lock opcode (0 for none), its own opcode, whether a LOCKED
      clause may follow, and whether THEN or ELSE must. */
  datatype Call = Call(lock: nat, op: nat, canLock: bool, thenElse: bool)

  /** The compiler reads a program as a flat sequence in which LOOP and REPEAT are
      statements of their own; a properly nested program has Loop instead.
      Set: op is STOR for =, APPEND for :=, and the arithmetic opcode for the others;
      short: the value is a constant with an opcode of its own.
      Test: WHILE and UNTIL.  Leave: EXIT, and CONTINUE if again. */
  datatype Stmt =
    | Set(name: string, op: int, e: Expr, short: bool)
    | LoopMark
    | RepeatMark
    | Loop(body: Block)
    | Test(until: bool, e: Expr)
    | Leave(again: bool)
    | If(cond: Expr, thn: Clause, els: Clause)
    | Case(arms: Arms)
    | File(call: Call, args: Exprs, onError: Clause, locked: Clause, thn: Clause, els: Clause)
    | LabelMark(name: string)
    | Goto(name: string)

  datatype Block = Empty | Seq(init: Block, last: Stmt)

  datatype Clause = Absent | Clause(body: Block)

  datatype Arms = NoArms | Arm(init: Arms, cond: Expr, body: Block)

  /** The programmer's labels: where they stand and where they are gone to. */
  datatype Labs = Labs(marks: seq<string>, gotos: seq<string>)

  const NoLabs := Labs([], [])

  function Join(x: Labs, y: Labs): Labs {
    Labs(x.marks + y.marks, x.gotos + y.gotos)
  }

  function BlockLabs(b: Block): Labs {
    if b.Empty? then NoLabs else Join(BlockLabs(b.init), StmtLabs(b.last))
  }

  function ClauseLabs(k: Clause): Labs {
    if k.Absent? then NoLabs else BlockLabs(k.body)
  }

  function StmtLabs(s: Stmt): Labs {
    match s
    case Loop(body) => BlockLabs(body)
    case If(_, thn, els) => Join(ClauseLabs(thn), ClauseLabs(els))
    case Case(arms) => ArmsLabs(arms)
    case File(_, _, onError, locked, thn, els) =>
      Join(Join(ClauseLabs(onError), ClauseLabs(locked)), Join(ClauseLabs(thn), ClauseLabs(els)))
    case LabelMark(name) => Labs([name], [])
    case Goto(name) => Labs([], [name])
    case _ => NoLabs
  }

  function ArmsLabs(arms: Arms): Labs {
    if arms.NoArms? then NoLabs else Join(ArmsLabs(arms.init), BlockLabs(arms.body))
  }
}
