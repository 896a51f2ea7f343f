# A verified model of the BASIC bootstrap compiler

The repository builds its database system from BASIC programs, and the first of them can only
be compiled by `bbcmp.py`, a single-pass compiler written in Python. It reads tokens, and while
it reads it writes the object code into one byte array: expressions through an operator stack,
statements through a stack of open constructs, forward jumps through chains of addresses that
are threaded through the code itself and filled in when the label turns up. There is no syntax
tree and no second pass. The object code is then run by an interpreter written in C.

The project models that compiler with the state it has (a byte array, a label table, a symbol
table, the two stacks, one token of look-ahead), models the interpreter's steps on the same
bytes, and proves:

- which sources are compiled, exactly: those that are accepted, which is a condition on the source
  alone, and whose code fits the image;
- that an accepted source is a properly nested program, although REPEAT, END CASE and the ends of
  clauses are matched only through the stack of open constructs;
- that the bytes are the two-pass assembly of that program, with every jump filled in, and that
  the chains of unresolved addresses are exactly the unresolved slots at every moment;
- that running those bytes from the header's start offset does what the source means, that it
  stops only when the source ends, and that it runs for ever exactly when the source does, for
  programs with GOTOs into and out of loops, clauses and CASE elements as for any other;
- that what is read is what is written: expressions, statements and COMMON statements are also
  given the other way round, as trees with a way of writing each, and every source that is written
  so is read back as the tree it was written from; laws on the tokens say what +=, WHILE, UNTIL, EXIT,
  LOOP, IF, CASE, a minus sign and the file operations do; and a program of four lines is
  followed from its source to its code, which counts to the number in it, whatever it is;
- that no accepted program takes anything from the stack that was there before it, or stores
  through anything but an address;
- that no two names share a cell of storage, for locals, COMMON blocks and LOCAL routines;
- that the code which binds COMMON blocks, placed behind the program and entered first, binds them
  in the order of their creation and then enters the program with an unchanged stack.

Beside the compiler it covers the jump lists of ON GOTO and ON GOSUB, the packing of compiled
objects into a library and the interpreter's walk over it, the opcode name tables, and the byte
relays with which one process hands a client's connection over to another: that they lose nothing,
under every behaviour of the system, and that what waits is delivered when the system lets it.

Modules, in the order they build on each other:

- `Outcomes`, `Bytes`, `Isa`: failures, little-endian numbers, instructions.
- `Cells`, `Listing`, `CodeImages`, `Chains`, `Linking`, `JumpLists`: the image as a class over a
  byte array; what its bytes mean while labels are still open; the assembled program.
- `Syntax`, `Grammar`, `Precedence`, `OperatorStack`, `Generate`, `Labels`, `Compilers`: expressions,
  read by a specification with one function a precedence level and compiled by a class with an
  operator stack and a priority stack.
- `Storages`, `CommonBlocks`, `Names`, `Heading`: the one symbol table, COMMON statements, LOCAL pools.
- `Programs`, `StatementGrammar`, `ConstructStack`, `Growth`, `Room`, `Overruns`, `Rejection`, `Statements`:
  statements, what they do to the stack of open constructs, and when their code is too long.
- `Structure`, `CaseCount`, `Nesting`, `Closure`, `Compilation`, `Acceptance`: the nested program, and the
  whole compile.
- `Machines`, `Meanings`, `Runs`, `StatementRuns`, `Entries`, `UserLabels`, `Forms`, `Shapes`, `Prelude`,
  `Correctness`, `Allowances`: the interpreter, the meaning of the source, that the bytes keep it, and
  laws of that meaning.
- `StackTypes`, `StackLevels`: one pass over the code that gives every place the kinds of entries on
  the stack, its soundness for the interpreter, and that every accepted program passes.
- `Phrases`, `ExprLaws`, `Spelling`, `Scripts`, `ReadingBack`, `Refusals`, `Headings`, `Sources`: expressions,
  statements and COMMON statements as they are written, with keywords and an operator table of their
  own, that reading gives them back, and what is not read; `StatementLaws`, `LoopLaws`: what they do, said of the tokens; `Counting`: a
  program followed from its tokens to its run; `ShortForms`: no load is longer than it has to be.
- `Library`, `OpcodeTables`: the other tables that are built.
- `Wiring`, `Relays`, `Echoes`, `Exchanges`: the relays, over a record of every system call and its
  answer.

## What is assumed

- Tokens come from the scanner as its own checks leave them: a line fits the token tables, names
  begin with a letter, a digit or a dot and may end in a colon (`Syntax.Scanned`).
- Integers within 32 bits are added, subtracted, multiplied, negated, counted up and down, compared
  and joined by AND and OR as the interpreter does it, and strings are joined and appended to
  (`Machines.Computed`). What operators make of anything else, what a file operation answers (a
  status, a value, the next state of the files), and what a COMMON area holds are parameters of the
  interpreter (`Machines.Runtime`), and the meaning of the source uses the same ones. Everything
  about order, operands, stack, prefixes, addresses, jumps and stores is modelled.
- A byte array of 128000 bytes; an index past its end, and a value that does not fit its bytes, end
  the compile, as the exceptions of the original do.
- What the interpreter asks of COMMON blocks, which the compiler does not check: names of at most 32
  bytes, fewer than 32768 members, because it keeps the size in 16 signed bits
  (`Prelude.BindExactly`), no block `/$n/` beside the unnamed block of a program that runs at
  command level n, because the two would be one area (`Prelude.AreasApartExactly`), and areas
  that exist already being as large as the block (`Correctness.BlocksFit`, `Prelude.AreasFit`).
- A program has fewer than 32768 variables: the compiler writes the number as 16 unsigned bits, the
  interpreter reads them as signed (`Correctness.EntersExactly`).
- Long integer literals are cut to 32 bits by the emitter; the meaning of a literal is the value
  that is left (`Isa.Wrap32`).

## Model

| member | source | states |
|---|---|---|
| Compilation.Comp | sdb_ai/sd64/gplbld/bbcmp.py:10102-10330 | a compile ends well if and only if the source is accepted and its program, its RETURN and its prelude fit the image; it then leaves the linked code of the nested program it read, every label defined, the prelude, and a header that tells size, start and number of variables |
| Acceptance.AcceptedExactly | sdb_ai/sd64/gplbld/bbcmp.py:10102-10198 | a source is accepted if and only if it can be read, is properly nested, defines no label twice and every label it goes to, has block names that can be written, and needs fewer than 65536 variables; generated labels can never collide |
| Nesting.AcceptedIsNested | sdb_ai/sd64/gplbld/bbcmp.py:7529-7806 | a compile that starts and ends with no open construct has compiled a properly nested program, and its code is the code generated from that program's tree, although no routine checks the nesting |
| Nesting.ElementsNest | sdb_ai/sd64/gplbld/bbcmp.py:2599-2729 | the elements of a CASE whose END pops whatever construct is on top: if as many CASE constructs are open afterwards, the construct that is popped was its own |
| CaseCount.BlockCases | sdb_ai/sd64/gplbld/bbcmp.py:2599-2729 | no statement lowers the number of open CASE constructs, so one lost inside a clause stays lost and the compile is refused at its end |
| Compilation.NestedIsClosed | sdb_ai/sd64/gplbld/bbcmp.py:10141-10199 | the code of a nested program in which the programmer's labels are defined has no jump without a label |
| Compilation.UndefinedLabels | sdb_ai/sd64/gplbld/bbcmp.py:10175-10199 | the look through the label table for negative entries finds an undefined label exactly when some jump to a programmer's label has none |
| Compilation.CompFinish | sdb_ai/sd64/gplbld/bbcmp.py:10141-10199 | a RETURN ends the program; the end of the compile fails only for an open construct, an undefined label of the programmer's, or a RETURN that does not fit |
| Compilation.Lines | sdb_ai/sd64/gplbld/bbcmp.py:10102-10140 | reading line by line while emitting is the same as reading the whole source and then generating its code: in result, listing, construct stack and tables, and it fails if and only if the source cannot be read, cannot be generated, or its code does not fit |
| Compilation.FinalHeader | sdb_ai/sd64/gplbld/bbcmp.py:9424-9512 | the header's magic number, start offset, number of variables and object size are in their places and none overwrites another; it fails exactly when the variables do not fit two bytes |
| Correctness.MeaningKept | sdb_ai/sd64/gplbld/bbcmp.py:7394-7870 | if the source ends, GOTOs or not, the compiled program ends, with the source's values in every variable's cell, the same files, and the stack it was entered with |
| Correctness.StopsOnlyAtEnd | sdb_ai/sd64/gplbld/bbcmp.py:10141-10199 | if the compiled program stops at all, it stops at its last RETURN, and the source ends with that result |
| Correctness.DivergenceKept | sdb_ai/sd64/gplbld/bbcmp.py:4121-4137 | the source runs for ever if and only if the compiled program does, whether by its loops or by its GOTOs |
| Correctness.BindsFirst | sdb_ai/sd64/gplbld/bbcmp.py:10248-10273 | from the header's start offset every COMMON block is bound, in the order of creation and to an area of its own, and the program's first instruction is reached with the stack as it was at every step |
| Correctness.EntersExactly | sdb_ai/sd64/gplsrc/kernel.c:906-925 | a compiled program gets the variables it has, or can be entered at all, if and only if there are fewer than 32768 |
| Entries.EnterBlockRun | sdb_ai/sd64/gplbld/bbcmp.py:3566-3608 | from a label in the midst of loops, clauses and CASE elements the code goes on as the program does from there, and leaves by the way the program leaves |
| Correctness.FollowRun | sdb_ai/sd64/gplbld/bbcmp.py:3566-3608 | following a program's GOTOs one after the other is what its code does, each taking at least a step |
| Allowances.OneResult | sdb_ai/sd64/gplbld/bbcmp.py:4709-4734 | a program that ends has one result: the allowance of rounds and GOTOs that its meaning is computed with does not matter |
| Allowances.Structured | sdb_ai/sd64/gplbld/bbcmp.py:7394-7527 | a program without GOTO means what its nesting says |
| Allowances.BackIsLoop | sdb_ai/sd64/gplbld/bbcmp.py:3566-3608 | going back to a label by GOTO while a condition holds is LOOP ... WHILE ... REPEAT: one ends exactly when the other does, with the same values and files |
| UserLabels.BlockMarks | sdb_ai/sd64/gplbld/bbcmp.py:2499-2545 | the labels in a program's code are generated ones and the programmer's own: a GOTO that finds a label finds one of the program's |
| StackLevels.NeverBreaks | sdb_ai/sd64/gplbld/bbcmp.py:3566-3608 | after any number of steps of any accepted program, GOTOs included, the interpreter has not broken, what was on the stack before is still there, and on ending it is all that is there |
| StackLevels.CompiledPasses | sdb_ai/sd64/gplbld/bbcmp.py:7394-7870 | the code of every accepted program passes the one-pass stack check: every place is reached with the same number and kinds of entries from everywhere |
| StackTypes.RunSafe | sdb_ai/sd64/gplsrc/op_jumps.c:430-470 | code that passes the stack check keeps the interpreter safe for every number of steps |
| StackTypes.EffectHolds | sdb_ai/sd64/gplsrc/op_loads.c:324-560 | one instruction of the interpreter does to the stack what the stack check says of it |
| Linking.BackpatchedIsAssembled | sdb_ai/sd64/gplbld/bbcmp.py:9770-9878 | the image filled in by chains in one pass is, byte for byte, the assembly of the listing with every label's address known beforehand |
| Linking.FetchAt | sdb_ai/sd64/gplbld/bbcmp.py:8158-8201 | decoding the image at the address of an instruction gives that instruction with its jump target resolved, and the address of the next one |
| Chains.ChainIsExact | sdb_ai/sd64/gplbld/bbcmp.py:8168-8201 | at any moment of a compile, following the links from an undefined label's table entry visits exactly that label's slots, latest first |
| Chains.SlotsApart | sdb_ai/sd64/gplbld/bbcmp.py:8168-8201 | those slots are three bytes each, do not overlap, lie in the code, and none is missing, so the walk terminates |
| CodeImages.CodeImage.EmitJumpAddr | sdb_ai/sd64/gplbld/bbcmp.py:8168-8201 | writes an address or a link so that bytes and label table again agree with the emitted cells; fails exactly when three bytes do not fit |
| CodeImages.CodeImage.FillChain | sdb_ai/sd64/gplbld/bbcmp.py:9836-9868 | the loop over the chain fills in every slot of the label and changes no other byte |
| CodeImages.CodeImage.SetLabel | sdb_ai/sd64/gplbld/bbcmp.py:9770-9878 | fails exactly on a label that has an address; otherwise the listing has the label at its end and only the label's slots have changed |
| Cells.SlotsInside | sdb_ai/sd64/gplbld/bbcmp.py:9836-9868 | those bytes are neither in the header nor past the end of the code |
| CodeImages.CodeImage.EmitMultibyteValue | sdb_ai/sd64/gplbld/bbcmp.py:8133-8146 | the low-order bytes, least significant first, of any value and any count, appended; fails exactly when they do not fit |
| CodeImages.CodeImage.EmitSimple | sdb_ai/sd64/gplbld/bbcmp.py:7945-7974 | one or two opcode bytes; which opcodes can be written |
| CodeImages.CodeImage.EmitVarLoad | sdb_ai/sd64/gplbld/bbcmp.py:7976-8006 | the load of a local or COMMON variable in its shortest form |
| CodeImages.CodeImage.EmitStringLoad | sdb_ai/sd64/gplbld/bbcmp.py:8008-8043 | a constant of any length as chunks of at most 255 bytes joined by concatenations; fails on a character that is no byte or on a full image |
| CodeImages.CodeImage.EmitNumericLoad | sdb_ai/sd64/gplbld/bbcmp.py:8045-8074 | the short, long or special load of an integer |
| CodeImages.CodeImage.Replace | sdb_ai/sd64/gplbld/bbcmp.py:7720-7790 | overwriting an opcode emitted earlier replaces one item of the listing and nothing else |
| Isa.DecodeEncode | sdb_ai/sd64/gplbld/bbcmp.py:7945-8166 | what the emitters write for an instruction is read back by the interpreter's fetch as that instruction, wherever it lies, except that a long integer comes back cut to 32 bits |
| Isa.Wrap32Exact | sdb_ai/sd64/gplbld/bbcmp.py:8045-8074 | a literal is kept if and only if it is in the range of 32 signed bits |
| Isa.LongIntExact | sdb_ai/sd64/gplsrc/op_loads.c:429-476 | the load of a literal gives the literal back if and only if it is in that range |
| Bytes.LERoundTrip | sdb_ai/sd64/gplbld/bbcmp.py:8133-8146 | an unsigned value that fits its width is read back from its bytes |
| Bytes.SignedRoundTrip | sdb_ai/sd64/gplbld/bbcmp.py:8133-8146 | a signed value is read back if and only if it fits its width |
| Bytes.LEDigit | sdb_ai/sd64/gplbld/bbcmp.py:8133-8146 | byte i of a value is its digit of weight 256 to the i |
| ShortForms.NumberShortest | sdb_ai/sd64/gplbld/bbcmp.py:8045-8074 | no instruction that loads an integer is shorter than the one emitted for it |
| ShortForms.VariableShortest | sdb_ai/sd64/gplbld/bbcmp.py:7976-8006 | none that loads a variable is shorter than the one emitted for it |
| ShortForms.FewestChunks | sdb_ai/sd64/gplbld/bbcmp.py:8008-8043 | a string constant is not loaded in more pieces than it needs |
| Compilers.Compiler.Expression | sdb_ai/sd64/gplbld/bbcmp.py:8776-8882 | the operator-stack loop reads exactly the expressions of the layered grammar, emits the postfix code of the tree that grammar gives, numbers labels as that tree does, and leaves the stacks below as they were; a pending minus is left on the operator stack for the caller; it fails only if there is no expression or the code of the whole expression does not fit |
| Compilers.Compiler.InsertOperator | sdb_ai/sd64/gplbld/bbcmp.py:8884-8913 | every stacked operator that binds at least as tightly is emitted, the new one is stacked, and what the grammar makes of the rest is unchanged |
| Compilers.Compiler.Flush | sdb_ai/sd64/gplbld/bbcmp.py:8860-8882 | the remaining operators complete the tree of the expression |
| Compilers.Compiler.Item | sdb_ai/sd64/gplbld/bbcmp.py:8915-9123 | an operand with its signs, brackets, IF expression and extractions |
| Compilers.Compiler.Conditional | sdb_ai/sd64/gplbld/bbcmp.py:8922-9123 | IF, THEN and ELSE inside an expression, with labels that no other code defines |
| Compilers.Compiler.FieldRole | sdb_ai/sd64/gplbld/bbcmp.py:8586-8753 | the search along the line decides as the grammar does whether a < begins an extraction |
| Compilers.Compiler.EmitVariable | sdb_ai/sd64/gplbld/bbcmp.py:9158-9298 | a scalar is found or made in the symbol table, and loaded from its cell |
| Phrases.ReadPhrase | sdb_ai/sd64/gplbld/bbcmp.py:8776-8913 | whatever expression is written, with signs, brackets and operators of any priority, is read as the tree that its writing means, provided no < is followed on its line by a > that would close it |
| Spelling.ExprWritten | sdb_ai/sd64/gplbld/bbcmp.py:8776-9123 | and nothing else is read: whatever is read as an expression is the writing of its tree, every bracket, comma and word of it, with operators grouped by their priorities |
| ExprLaws.ReadBack | sdb_ai/sd64/gplbld/bbcmp.py:8776-9123 | every tree can be written, and is read back from what is written for it, whatever follows that cannot continue an expression |
| ExprLaws.ChoiceChooses | sdb_ai/sd64/gplbld/bbcmp.py:8922-9123 | IF in an expression has the value of the side its condition selects |
| ExprLaws.MinusNegates | sdb_ai/sd64/gplbld/bbcmp.py:8915-9123 | a minus gives the negative of the item's value, for numbers, which take the sign themselves, as for all others |
| ExprLaws.MinusInNumber | sdb_ai/sd64/gplbld/bbcmp.py:8993-9123 | except that an extraction from a number with a sign is made from the negative number |
| ExprLaws.SignsCancel | sdb_ai/sd64/gplbld/bbcmp.py:8915-9123 | two minuses cancel, and a plus does nothing |
| Room.ResumeNoRoom | sdb_ai/sd64/gplbld/bbcmp.py:8884-8913 | if what has been emitted of an expression does not fit, neither does the expression the grammar reads, whatever operators are still pending |
| Overruns.FileRoom | sdb_ai/sd64/gplbld/bbcmp.py:7529-7806 | if any part of a file operation does not fit, the operation does not, although LOCKED rewrites a byte emitted before |
| Precedence.PopFrame | sdb_ai/sd64/gplbld/bbcmp.py:8884-8913 | taking an operator off the stack leaves what the grammar reads unchanged if the next operator binds no tighter |
| Precedence.PushFrame | sdb_ai/sd64/gplbld/bbcmp.py:8884-8913 | so does stacking an operator that binds tighter than all of them |
| Precedence.LevelIsClimb | sdb_ai/sd64/gplbld/bbcmp.py:8776-8882 | the grammar's levels are one climb over the operators from below |
| Names.LabelNameInjective | sdb_ai/sd64/gplbld/bbcmp.py:7394-7492 | a generated label determines its number and its suffix, so constructs never share labels |
| Labels.LabelledE | sdb_ai/sd64/gplbld/bbcmp.py:8922-9123 | an expression defines only labels numbered by itself |
| Closure.BlockLinked | sdb_ai/sd64/gplbld/bbcmp.py:4121-4137 | every generated jump of a nested program goes to a label of its own statement or of the loop around it |
| Rejection.LinesStay | sdb_ai/sd64/gplbld/bbcmp.py:10102-10140 | once generation has failed or the code has become too long, no reading further makes the source compile |
| Growth.BlockKeeps | sdb_ai/sd64/gplbld/bbcmp.py:7529-7806 | compiling a block changes nothing that was emitted before it, although LOCKED overwrites a NULL emitted earlier |
| Statements.Statement | sdb_ai/sd64/gplbld/bbcmp.py:8304-8412 | one statement is read as the grammar says and changes listing, construct stack and tables as its generation says; fails as they do |
| Statements.ProcLine | sdb_ai/sd64/gplbld/bbcmp.py:8273-8302 | so does one line with its label and its statements |
| Statements.Assignment | sdb_ai/sd64/gplbld/bbcmp.py:8398-8584 | =, :=, +=, -=, *= and /= with their short stores of 0, 1 and the empty string |
| Statements.IfStatement | sdb_ai/sd64/gplbld/bbcmp.py:7394-7527 | THEN and ELSE in one-line and multi-line form |
| Statements.CaseStatement | sdb_ai/sd64/gplbld/bbcmp.py:2599-2729 | BEGIN CASE to END CASE, with the unchecked pop at its end |
| Statements.LoopStart | sdb_ai/sd64/gplbld/bbcmp.py:4121-4137 | LOOP opens a construct and defines its label |
| Statements.Repeat | sdb_ai/sd64/gplbld/bbcmp.py:4709-4734 | REPEAT is refused unless a loop is on top, and closes it |
| Statements.WhileUntil | sdb_ai/sd64/gplbld/bbcmp.py:4956-5003 | WHILE and UNTIL jump to the end of the innermost loop, which need not be on top of the stack |
| Statements.ContinueExit | sdb_ai/sd64/gplbld/bbcmp.py:7851-7870 | EXIT and CONTINUE jump to the end or the start of the innermost loop |
| Statements.GotoLabel | sdb_ai/sd64/gplbld/bbcmp.py:3566-3607 | GOTO to a label of the programmer's, defined or not |
| Statements.Label | sdb_ai/sd64/gplbld/bbcmp.py:2499-2545 | a label at the beginning of a line, numeric or with a colon |
| Statements.BackEnd | sdb_ai/sd64/gplbld/bbcmp.py:7529-7806 | the clauses of a file operation: ON ERROR, LOCKED (which turns a NULL emitted earlier into a NOWAIT), THEN and ELSE, in every combination |
| Statements.Read | sdb_ai/sd64/gplbld/bbcmp.py:7352-7392 | READ, READU and READL; the record goes to the named variable |
| Statements.Delete | sdb_ai/sd64/gplbld/bbcmp.py:3050-3076 | DELETE and DELETEU |
| Statements.RecordLock | sdb_ai/sd64/gplbld/bbcmp.py:7332-7350 | RECORDLOCKU and RECORDLOCKL |
| ReadingBack.ReadCmd | sdb_ai/sd64/gplbld/bbcmp.py:8304-8412 | whatever statement is written, with its clauses on one line or on several, is read as the tree that its writing means |
| ReadingBack.ReadItems | sdb_ai/sd64/gplbld/bbcmp.py:2599-2729 | so are the elements of a CASE |
| ReadingBack.ReadParts | sdb_ai/sd64/gplbld/bbcmp.py:7529-7806 | so are ON ERROR, LOCKED, THEN and ELSE of a file operation, in every combination and with a line end before any of them |
| ReadingBack.ReadLines | sdb_ai/sd64/gplbld/bbcmp.py:8273-8302 | so are the lines of a program, with their labels |
| Refusals.NeedsStatement | sdb_ai/sd64/gplbld/bbcmp.py:8379-8412 | a statement begins with one of its words or sets a variable |
| Refusals.ReadNeeds | sdb_ai/sd64/gplbld/bbcmp.py:7352-7392 | there is no READ without a variable, FROM, a file and a comma |
| Refusals.IfNeeds | sdb_ai/sd64/gplbld/bbcmp.py:7394-7527 | no IF without a condition and THEN or ELSE |
| Refusals.CaseNeeds | sdb_ai/sd64/gplbld/bbcmp.py:2599-2729 | no BEGIN without CASE at the end of its line and END CASE behind the elements |
| Sources.SourceReads | sdb_ai/sd64/gplbld/bbcmp.py:10102-10140 | so is a whole source: its COMMON statements go into the table, and its lines are read as statements |
| Sources.OneMore | sdb_ai/sd64/gplsrc/op_arith.c:648-679 | at the end of a line `X += 1` takes an integer to the next, as `X = X + 1` does |
| Sources.OneLess | sdb_ai/sd64/gplsrc/op_arith.c:303-334 | and `X -= 1` to the one before, as `X = X - 1` does |
| StatementLaws.SetStores | sdb_ai/sd64/gplbld/bbcmp.py:8398-8584 | `X = e` gives X the value of e |
| StatementLaws.OperatesOn | sdb_ai/sd64/gplbld/bbcmp.py:8398-8584 | `X += e`, `X -= e`, `X *= e` and `X /= e` do what `X = X + (e)`, `X = X - (e)`, `X = X * (e)` and `X = X / (e)` do |
| StatementLaws.Appends | sdb_ai/sd64/gplsrc/op_str1.c:151-322 | `X := e` puts a string behind the string in X |
| StatementLaws.WhileIsIf | sdb_ai/sd64/gplbld/bbcmp.py:4973-5003 | WHILE and a condition do what IF, the condition, ELSE EXIT do |
| StatementLaws.UntilIsIf | sdb_ai/sd64/gplbld/bbcmp.py:4956-5003 | UNTIL and a condition do what IF, the condition, THEN EXIT do |
| StatementLaws.ExitLeaves | sdb_ai/sd64/gplbld/bbcmp.py:7851-7870 | EXIT leaves the loop and CONTINUE goes on with its next round, in every environment |
| StatementLaws.IfChooses | sdb_ai/sd64/gplbld/bbcmp.py:7394-7527 | IF runs the THEN clause where its condition holds and the ELSE clause where it does not |
| StatementLaws.CaseChooses | sdb_ai/sd64/gplbld/bbcmp.py:2599-2729 | BEGIN CASE runs the first element whose condition holds, and nothing if there is none |
| StatementLaws.FileAsks | sdb_ai/sd64/gplbld/bbcmp.py:7529-7806 | a file operation asks once, with its lock, without waiting where there is a LOCKED clause, coming back on an error where there is ON ERROR; a record that was read goes to its variable, and the status selects the clause |
| LoopLaws.LoopRounds | sdb_ai/sd64/gplbld/bbcmp.py:4121-4137 | whatever lines stand between LOOP and REPEAT are run in rounds, until a round leaves the loop |
| Counting.CountingAccepted | sdb_ai/sd64/gplbld/bbcmp.py:10102-10198 | LOOP, `WHILE N < k`, `N += 1`, REPEAT are accepted, for every number k |
| Counting.Counts | sdb_ai/sd64/gplbld/bbcmp.py:4956-5003 | that program takes N from any number up to k to k |
| Counting.CompiledCounts | sdb_ai/sd64/gplbld/bbcmp.py:10102-10330 | and so does its code |
| Runs.ExprRun | sdb_ai/sd64/gplsrc/op_loads.c:324-560 | running an expression's code pushes one entry that stands for the expression's value, and changes nothing else |
| Runs.TextRun | sdb_ai/sd64/gplsrc/op_loads.c:529-560 | running the chunks of a string constant pushes the whole constant, whatever its length |
| StatementRuns.BlockRun | sdb_ai/sd64/gplbld/bbcmp.py:7394-7870 | running a block's code does what the block means, for every number of rounds that its loops take, and leaves by the way the block leaves |
| StatementRuns.LoopRun | sdb_ai/sd64/gplbld/bbcmp.py:4121-4137 | a loop's rounds, its exits and its continuations |
| StatementRuns.FileRun | sdb_ai/sd64/gplbld/bbcmp.py:7529-7806 | a file operation runs the clause that its status selects; the status is off the stack on every way out |
| Heading.Common | sdb_ai/sd64/gplbld/bbcmp.py:5073-5223 | a COMMON statement, named, unnamed or in slashes, is read into the symbol table as specified, and refused when it is not in order |
| Heading.Head | sdb_ai/sd64/gplbld/bbcmp.py:5073-5223 | so are all COMMON statements at the head of a program; no code is emitted |
| Headings.CommonReads | sdb_ai/sd64/gplbld/bbcmp.py:5073-5120 | a COMMON statement with a name between its slashes, with or without a prefix and in any case of letters, declares its members in the block of that name in capitals; without slashes, or with nothing between them, in the unnamed block |
| Headings.NameNeeds | sdb_ai/sd64/gplbld/bbcmp.py:9725-9744 | a token that is no string, consists of the characters of names and has a slash behind it is all that is read as a name between slashes |
| Headings.BlocksByName | sdb_ai/sd64/gplbld/bbcmp.py:9725-9744 | two members of COMMON statements are in the same block if and only if their statements name the same one |
| Headings.AreaByName | sdb_ai/sd64/gplsrc/op_array.c:110-125 | once the blocks are bound, a member's cell is that of the area which has the name its statement names |
| CommonBlocks.DeclaredExactly | sdb_ai/sd64/gplbld/bbcmp.py:5092-5223 | a COMMON statement succeeds if and only if its names are new and distinct and its dimensions are positive; its members then lie behind each other at the end of the block, nothing else moves, and the order of blocks grows only by a new block |
| CommonBlocks.IndexIsPlace | sdb_ai/sd64/gplbld/bbcmp.py:5205-5212 | a member's common index is the place of its block in the order of creation if and only if the block is new or was created last: the index is the number of blocks, which is wrong for a member added to an earlier block |
| CommonBlocks.AddedLater | sdb_ai/sd64/gplbld/bbcmp.py:5205-5212 | three COMMON statements for A, B and A again give the second member of A the index of B |
| Storages.CellsApart | sdb_ai/sd64/gplbld/bbcmp.py:9514-9594 | two names with the same cell are the same name, at every moment of a compile |
| Storages.OffsetsFilled | sdb_ai/sd64/gplbld/bbcmp.py:5092-5223 | every offset of a block belongs to exactly one name |
| CommonBlocks.LocalPlaced | sdb_ai/sd64/gplbld/bbcmp.py:3802-4014 | the return value, arguments and PRIVATE variables of a LOCAL routine keep all cells apart |
| CommonBlocks.ResolveApart | sdb_ai/sd64/gplbld/bbcmp.py:9533-9561 | inside a LOCAL routine, two names of the source that are found in one cell are the same, whether they are the routine's or the program's |
| CommonBlocks.PoolsApart | sdb_ai/sd64/gplbld/bbcmp.py:3798-3802 | prefixed names of different routines differ |
| Prelude.EmitPrelude | sdb_ai/sd64/gplbld/bbcmp.py:10208-10322 | one OP_COMMON a block, each followed by its own skip label, then the jump to the program; nothing is emitted without blocks |
| Prelude.PreludeRun | sdb_ai/sd64/gplsrc/op_array.c:71-235 | running that code binds the blocks one after the other and arrives at the program, the stack unchanged at every step |
| Prelude.BindExactly | sdb_ai/sd64/gplsrc/op_array.c:85-130 | the interpreter binds a block, with a name of at most 32 bytes, if and only if its variable number and, for a new area, its number of members are below 32768; an area that exists has to be large enough, which a negative size always passes |
| Prelude.AreasApartExactly | sdb_ai/sd64/gplsrc/op_array.c:110-125 | different blocks have different areas unless the unnamed block and one named like its area at the current command level are both there, and only then |
| Prelude.SharedArea | sdb_ai/sd64/gplsrc/op_array.c:110-125 | `COMMON A` and `COMMON /$1/ B` at command level 1 share their cell |
| Prelude.BoundBlock | sdb_ai/sd64/gplsrc/op_array.c:71-235 | afterwards a member's cell is the area's cell, whatever other blocks were bound before or after |
| Prelude.OthersBound | sdb_ai/sd64/gplsrc/op_array.c:71-235 | and no other cell has changed |
| Names.ComLabelApart | sdb_ai/sd64/gplbld/bbcmp.py:10261-10263 | the prelude's skip labels are no label of a construct and none of the programmer's |
| Names.ComLabelInjective | sdb_ai/sd64/gplbld/bbcmp.py:10261-10263 | different blocks have different skip labels |
| JumpLists.EmitJumpList | sdb_ai/sd64/gplbld/bbcmp.py:4336-4396 | the opcode, the count in one byte or escaped by a zero in two, and an address slot for each label; fails exactly when it does not fit |
| JumpLists.JumpsToSelected | sdb_ai/sd64/gplsrc/op_jumps.c:835-877 | the computed jump goes to the label its selector stands for, or past the list in the Pick style, for every selector and every list of fewer than 32768 labels |
| JumpLists.PastExactly | sdb_ai/sd64/gplsrc/op_jumps.c:835-877 | the return address of an ON GOSUB is the end of its list if and only if the list has fewer than 32768 labels: the interpreter keeps the count in 16 signed bits |
| Library.Pack | sdb_ai/sd64/gplbld/pcode_bld.py:153-174 | the objects, each padded to a word; fails only when the library does not fit, and what it gives short of that loses padding only |
| Library.WalkFindsAll | sdb_ai/sd64/gplsrc/sd.c:903-919 | walking a packed library by the sizes in the headers finds every object, byte for byte and in order |
| Library.CompiledIsObject | sdb_ai/sd64/gplbld/bbcmp.py:9424-9512 | what a compile writes out is an object that the walk can find |
| Library.PackedAligned | sdb_ai/sd64/gplbld/pcode_bld.py:153-174 | a packed library ends at a word boundary, so packing more keeps every start aligned |
| OpcodeTables.Prefixed.Insert | sdb_ai/sd64/gplbld/gen_includes.py:179-191 | the table stays ascending; a value that is there keeps its name |
| OpcodeTables.Collect | sdb_ai/sd64/gplbld/gen_includes.py:225-270 | from the lines in any order: an ascending table with the first name of every value |
| OpcodeTables.AscendingUnique | sdb_ai/sd64/gplbld/gen_includes.py:179-191 | such a table is determined by what it says |
| OpcodeTables.TableLines | sdb_ai/sd64/gplbld/gen_includes.py:280-309 | the table is split into lines of eight names, each behind the separator from the one before, which concatenate to the joined table |
| OpcodeTables.TableReadBack | sdb_ai/sd64/gplbld/gen_includes.py:280-309 | splitting the table at its value marks gives the names back |
| Relays.Cutover | sdb_ai/sd64/gplbld/probe-relaycutover.c:116-185 | every run, under every behaviour of the system, is a phase with the front and, once the front's end has been seen and the session has come, a phase with the session; in every round each side that the poll reports is read, the pipe is asked and is read when bytes wait, and an exit code is returned for the event that it stands for and for no other |
| Relays.NothingLost | sdb_ai/sd64/gplbld/probe-relaycutover.c:116-185 | in such a run the client's bytes go to the front and then to the session, the front's and then the session's bytes go to the client, none lost, doubled or reordered |
| Relays.NothingLostYet | sdb_ai/sd64/gplbld/probe-relaycutover.c:116-150 | before the front's end is seen nothing has been doubled or reordered either, and the session has neither been given nor asked for a byte |
| Relays.Delivered | sdb_ai/sd64/gplbld/probe-relaycutover.c:158-185 | bytes that wait in the session's pipe have reached the client after as many rounds as there are bytes, if the run has not ended |
| Relays.Forwarded | sdb_ai/sd64/gplbld/probe-relaycutover.c:158-185 | and so have the client's bytes reached the session, while the poll reports them |
| Relays.FrontDelivered | sdb_ai/sd64/gplbld/probe-relaycutover.c:116-150 | and the front's bytes the client, in the first phase |
| Relays.Pump | sdb_ai/sd64/gplbld/probe-relaycutover.c:49-94 | one pump: what was taken has been given, or an error is reported |
| Echoes.EchoUntilEof | sdb_ai/sd64/gplbld/probe-sessionsp-child.c:123-172 | every round writes when bytes are pending and the poll reports room, and reads when none are and it reports something; the echo ends when the end has been seen and nothing is pending, with the count of bytes sent back, or with -1 after a failure |
| Echoes.NothingLost | sdb_ai/sd64/gplbld/probe-sessionsp-child.c:123-172 | at every moment what was read is what was written back and the part of the buffer still pending |
| Echoes.Echoed | sdb_ai/sd64/gplbld/probe-sessionsp-child.c:123-172 | to a client that lets every byte through and then ends, all its bytes have gone back after two rounds a byte and two more, and their number is returned |
| Exchanges.Relay | sdb_ai/sd64/gplbld/probe-relaysp-child.c:116-206 | every round reads each side that the poll reports, the network first, and sends on all of it before it goes on, waiting for room as often as there is none; it ends with 0 at an end and 2 at an error or a time-out, and the counts are those of the bytes sent |
| Exchanges.Flow | sdb_ai/sd64/gplbld/probe-relaysp-child.c:116-206 | between the rounds and at a clean end every byte taken on either side was given to the other, in order; after an error none was given that was not taken |
| Exchanges.SentOn | sdb_ai/sd64/gplbld/probe-relaysp-child.c:153-204 | bytes that one side has have reached the other after as many rounds as there are bytes, if the polls report them and the run has not ended |

## Left out

- FOR and NEXT, GOSUB, RETURN TO, and the statements of ON GOTO and ON GOSUB around their jump lists. The head of a FOR loop is reached once with the initial value on the stack and afterwards without it, told apart by a flag of the interpreter, and its control variable is compiled by moving back in the token list; the interpreter's return stack is not modelled.
- Statements and functions beyond those in `StatementGrammar` (most of them are refused by the original as not coded, or emit their operands and one opcode); the model refuses them.
- Functions, arrays, matrices and @variables in expressions; field, substring and array assignments; floating-point literals; the format operator's qualifier.
- `$DEFINE` tokens, remarks inside a line, line splitting and the scanner: a source is its tokens.
- Compilation.Comp: compiles the modelled statements only, so that neither matrices in a block, with their DIMCOM code, nor direct calls, with their stores, occur.
- Compilation.CompFinish: not the complaint about matrices without dimensions, nor the STOP before the end of a LOCAL routine.
- Compilation.FinalHeader: program name, compile time, number of arguments, stack depth, flags, line table and cross-reference fields.
- Correctness.MeaningKept: for the modelled statements, in systems as under "What is assumed"; an operator that ends the run with an error is a value of the operator's own; INC, DEC and APPEND are operators of the interpreter of their own, known for integers and strings, since they differ from additions on arrays of values.
- Correctness.StopsOnlyAtEnd: likewise.
- Correctness.DivergenceKept: likewise.
- Correctness.BindsFirst: no DIMCOM code and no stores for direct calls stand between the blocks' code and the jump to the program.
- Prelude.EmitPrelude: likewise; with no matrix in a block its skip address is that of the next block's code.
- Prelude.PreludeRun: likewise; VARSET and uninitialised commons are not modelled.
- Isa.DecodeEncode: covers the instructions of the modelled statements; floating-point loads are not among them, and a jump list is read where the interpreter reads it, by its opcode's own code (`JumpLists`).
- CodeImages.CodeImage.EmitNumericLoad: integers; not the load of a floating-point literal.
- Compilers.Compiler.Item: numbers, strings, scalars, brackets, signs, IF expressions and extractions; not hexadecimal and floating-point literals, functions, arrays and @variables.
- Compilers.Compiler.EmitVariable: scalars; not `$DEFINE`d tokens, functions and matrices.
- Statements.Statement: the statements of `StatementGrammar`; the others of the dispatcher are refused.
- Statements.Assignment: to a scalar; not to a field, a substring or an element of an array.
- Statements.WhileUntil: finds LOOP; FOR entries, which end the search too, do not occur.
- Statements.ContinueExit: likewise.
- Statements.GotoLabel: not the prefix that a label gets inside a LOCAL routine.
- Statements.Label: likewise; and where a label ends the source, the original looks at the first character of the next token, of which there may be none, depending on its line buffer, while the model accepts the label.
- Statements.BackEnd: the three stacks on which the clauses are kept are parameters, since one caller always pushes and pops them; not the call without an opcode of its own, nor the one for which THEN and ELSE are optional.
- Statements.Read: not READV, which has a field number for a further operand.
- Heading.Common: scalar members; not matrices, the Pick style, or a statement that a semicolon ends.
- Heading.Head: COMMON statements before all others.
- CommonBlocks.LocalPlaced: a LOCAL routine's names as a list, without the reading of its parameter list and dimensions, and without its code.
- OpcodeTables.Collect: a line is its value and its name; the reading of the lines and the table of simple opcodes are not modelled.
- Grammar, as coded: the priority of ** is tested against the look-ahead instead of the operator, so all operators group to the left; < followed by a > that the scanner joined to = or to >< splits a token in a way that crashes, which is a failure here.
- Phrases.ReadPhrase: written expressions in which a < has a > behind it on its line that the search would take for its own; there the search decides, and `Compilers.Compiler.FieldRole` states how.
- Spelling.ExprWritten: for sources without ><, which is read as two tokens where it closes a field reference.
- ReadingBack.ReadCmd: the clauses of one line hold statements that have no clauses themselves; those of several lines hold any.
- ReadingBack.ReadLines: without blank lines, remarks, empty statements between semicolons, and labels in front of END.
- Relays: each loop takes a bound on its rounds, and every statement holds for every bound; after a time-out the relay reads and drops what it finds, as coded; a pump on the session's pipe takes "nothing yet" for an error, as coded.
- Concurrency between processes, file formats, the installer and the editors: they would add members without adding to these results.
