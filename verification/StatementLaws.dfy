/** What the statements do, said of the tokens they are written with. */
module StatementLaws {
  import opened Outcomes
  import opened Bytes
  import opened Isa
  import opened Syntax
  import opened Programs
  import opened Grammar
  import opened StatementGrammar
  import opened Phrases
  import opened Scripts
  import opened ReadingBack
  import opened Machines
  import opened Meanings
  import opened ExprLaws
  import opened Sources

  /** Two pieces of source begin with statements that do the same. */
  ghost predicate SameRun(rt: Runtime, a: seq<Token>, b: seq<Token>) {
    && a != [] && b != [] && First(a).Ok? && First(b).Ok?
    && forall f: nat, env, w :: ExecBlock(rt, First(a).value, f, env, w) == ExecBlock(rt, First(b).value, f, env, w)
  }

  /** The statement at the beginning of these tokens always comes to this. */
  ghost predicate Comes(rt: Runtime, a: seq<Token>, signal: Signal) {
    && a != [] && First(a).Ok?
    && forall f: nat, env, w :: ExecBlock(rt, First(a).value, f, env, w) == Done(signal, env, w)
  }

  lemma FirstCmd(c: Cmd, us: seq<Token>)
    requires CmdOk(c, us)
    ensures First(PrintCmd(c) + us) == Ok(Seq(Empty, CmdTree(c, Last(us))), Left(c, us))
  {
    hide PrintCmd, CmdOk, ParseStmt, CmdTree, Left;
    ReadCmd(Empty, c, us);
    assert (PrintCmd(c) + us)[1..] == PrintCmd(c)[1..] + us;
  }

  /** EXIT leaves the loop, CONTINUE goes on with its next round. */
  lemma ExitLeaves(rt: Runtime, us: seq<Token>)
    requires Ending(us)
    ensures Comes(rt, [Word("EXIT")] + us, Break) && Comes(rt, [Word("CONTINUE")] + us, Again)
  {
    hide ParseStmt, ExecStmt, Ending;
    FirstCmd(ExitCmd, us);
    FirstCmd(ContinueCmd, us);
    forall f: nat, env, w
      ensures ExecBlock(rt, Seq(Empty, Leave(false)), f, env, w) == Done(Break, env, w)
      ensures ExecBlock(rt, Seq(Empty, Leave(true)), f, env, w) == Done(Again, env, w)
    {
      LeaveRuns(rt, f, env, w);
    }
  }

  lemma LeaveRuns(rt: Runtime, f: nat, env: Env, w: int)
    ensures ExecBlock(rt, Seq(Empty, Leave(false)), f, env, w) == Done(Break, env, w)
    ensures ExecBlock(rt, Seq(Empty, Leave(true)), f, env, w) == Done(Again, env, w)
  {
    hide ExecBlock;
    Alone(rt, Leave(false), f, env, w);
    Alone(rt, Leave(true), f, env, w);
  }

  const ExitPart := Inline(false, MoreCmds(ExitCmd, NoCmds))

  lemma ExitOk(us: seq<Token>)
    requires Ending(us) && Look(us).kind != TKN_SEMICOLON
    ensures PartOk(ExitPart, us) && PrintPart([Word("ELSE")], ExitPart) == [Word("ELSE"), Word("EXIT")]
    ensures PrintPart([Word("THEN")], ExitPart) == [Word("THEN"), Word("EXIT")]
    ensures PartTree(ExitPart, Last(us)) == Clause(Seq(Empty, Leave(false)))
  {
    hide Ending;
    var g := MoreCmds(ExitCmd, NoCmds);
    assert PrintCmd(ExitCmd) == [Word("EXIT")];
    assert PrintCmds(g) == PrintCmd(ExitCmd) + [] == [Word("EXIT")];
    assert PrintClause(ExitPart) == PrintCmds(g);
    assert CmdTree(ExitCmd, Last(us)) == Leave(false);
    assert CmdsTree(Empty, g, Last(us)) == CmdsTree(Seq(Empty, Leave(false)), NoCmds, Last(us));
    assert CmdOk(ExitCmd, us) && CmdsOk(g, us) && PlainCmds(g);
  }

  /** The end of a line, with another line behind it that begins a statement */
  predicate LineEnd(us: seq<Token>) {
    us == [] || (us[0] == EndToken && Fresh(us[1..]))
  }

  lemma LineEndFacts(us: seq<Token>)
    requires LineEnd(us)
    ensures Ending(us) && Settled(us) && Stops(us) && Look(us) == EndToken && Last(us)
    ensures Upper(Look(us).text) != "DO"
  {
    Capitals("");
  }

  /** WHILE and UNTIL */
  lemma TestReads(until: bool, e: Phrase, us: seq<Token>)
    requires Sound(e) && Clear(e, us) && LineEnd(us)
    ensures First([Word(if until then "UNTIL" else "WHILE")] + Print(e) + us)
         == Ok(Seq(Empty, Test(until, Tree(e))), us)
  {
    hide ParseStmt, Print, Clear, Sound, LineEnd, Ending, Settled, Tree, Upper, Stops;
    LineEndFacts(us);
    var c := While(until, e, false);
    WhileFits(until, e, us);
    assert PrintCmd(c) == [Word(if until then "UNTIL" else "WHILE")] + Print(e);
    FirstCmd(c, us);
  }

  lemma WhileFits(until: bool, e: Phrase, us: seq<Token>)
    requires PhraseOk(e, us) && Ending(us) && Upper(Look(us).text) != "DO"
    ensures CmdOk(While(until, e, false), us)
  {
    hide PhraseOk, Ending, Upper;
  }

  /** IF with one clause that is EXIT */
  lemma ExitIfReads(thn: bool, e: Phrase, us: seq<Token>)
    requires var words := [Word(if thn then "THEN" else "ELSE"), Word("EXIT")];
      Sound(e) && Clear(e, words + us) && LineEnd(us)
    ensures var words := [Word(if thn then "THEN" else "ELSE"), Word("EXIT")];
      var exit := Clause(Seq(Empty, Leave(false)));
      var r := First([Word("IF")] + Print(e) + words + us);
      r.Ok? && r.value == Seq(Empty, If(Tree(e), if thn then exit else Absent, if thn then Absent else exit))
  {
    hide ParseStmt, Print, Clear, Sound, LineEnd, Ending, Settled, Tree, Upper, Stops, PartOk, PartTree, PrintPart;
    var words := [Word(if thn then "THEN" else "ELSE"), Word("EXIT")];
    LineEndFacts(us);
    ExitOk(us);
    NoPartNothing([Word("THEN")], us);
    NoPartNothing([Word("ELSE")], us);
    NoPartNothing([Word("THEN")], words + us);
    var c := if thn then Cond(e, ExitPart, NoPart) else Cond(e, NoPart, ExitPart);
    NonePrints([Word("THEN")]);
    NonePrints([Word("ELSE")]);
    CondPrint(c);
    assert PrintCmd(c) == [Word("IF")] + Print(e) + words;
    NoPartOk(words + us);
    NoPartOk(us);
    WordStops(words + us);
    CondFits(c, us);
    FirstCmd(c, us);
    CondTree(c, true);
  }

  lemma NonePrints(words: seq<Token>)
    ensures PrintPart(words, NoPart) == []
  {
  }

  lemma NoPartOk(us: seq<Token>)
    ensures PartOk(NoPart, us)
  {
  }

  lemma WordStops(us: seq<Token>)
    requires us != [] && us[0].kind == TKN_NAME
    ensures Stops(us)
  {
  }

  lemma CondFits(c: Cmd, us: seq<Token>)
    requires c.Cond? && Ending(us) && Settled(us) && (c.thn != NoPart || c.els != NoPart)
    requires var more := PrintPart([Word("ELSE")], c.els) + us;
      PhraseOk(c.c, PrintPart([Word("THEN")], c.thn) + more) && PartOk(c.thn, more) && PartOk(c.els, us)
    ensures CmdOk(c, us)
  {
    hide PhraseOk, PartOk, PrintPart, Ending, Settled;
  }

  /** WHILE c does what IF c ELSE EXIT does, and UNTIL c what IF c THEN EXIT does. */
  lemma WhileIsIf(rt: Runtime, e: Phrase, us: seq<Token>)
    requires Sound(e) && Clear(e, us) && Clear(e, [Word("ELSE"), Word("EXIT")] + us) && LineEnd(us)
    ensures SameRun(rt, [Word("WHILE")] + Print(e) + us, [Word("IF")] + Print(e) + [Word("ELSE"), Word("EXIT")] + us)
  {
    hide ParseStmt, Print, Clear, Sound, Tree, LineEnd, ExecBlock;
    TestReads(false, e, us);
    ExitIfReads(false, e, us);
    forall f: nat, env, w
      ensures ExecBlock(rt, Seq(Empty, Test(false, Tree(e))), f, env, w)
           == ExecBlock(rt, Seq(Empty, If(Tree(e), Absent, Clause(Seq(Empty, Leave(false))))), f, env, w)
    {
      TestsAlike(rt, false, Tree(e), f, env, w);
    }
  }

  lemma UntilIsIf(rt: Runtime, e: Phrase, us: seq<Token>)
    requires Sound(e) && Clear(e, us) && Clear(e, [Word("THEN"), Word("EXIT")] + us) && LineEnd(us)
    ensures SameRun(rt, [Word("UNTIL")] + Print(e) + us, [Word("IF")] + Print(e) + [Word("THEN"), Word("EXIT")] + us)
  {
    hide ParseStmt, Print, Clear, Sound, Tree, LineEnd, ExecBlock;
    TestReads(true, e, us);
    ExitIfReads(true, e, us);
    forall f: nat, env, w
      ensures ExecBlock(rt, Seq(Empty, Test(true, Tree(e))), f, env, w)
           == ExecBlock(rt, Seq(Empty, If(Tree(e), Clause(Seq(Empty, Leave(false))), Absent)), f, env, w)
    {
      TestsAlike(rt, true, Tree(e), f, env, w);
    }
  }

  lemma TestsAlike(rt: Runtime, until: bool, c: Expr, f: nat, env: Env, w: int)
    ensures var exit := Clause(Seq(Empty, Leave(false)));
      ExecBlock(rt, Seq(Empty, Test(until, c)), f, env, w)
      == ExecBlock(rt, Seq(Empty, If(c, if until then exit else Absent, if until then Absent else exit)), f, env, w)
  {
    hide ExecBlock, Eval;
    var exit := Clause(Seq(Empty, Leave(false)));
    Alone(rt, Test(until, c), f, env, w);
    Alone(rt, If(c, if until then exit else Absent, if until then Absent else exit), f, env, w);
    LeaveRuns(rt, f, env, w);
  }

  /** IF runs the THEN clause where its condition holds, and otherwise the ELSE clause; a
      clause that is not there does nothing. */
  lemma IfChooses(rt: Runtime, c: Cmd, us: seq<Token>, f: nat, env: Env, w: int)
    requires c.Cond? && CmdOk(c, us)
    ensures var r := First(PrintCmd(c) + us); var holds := Truth(rt, Eval(rt, Tree(c.c), env));
      && r.Ok?
      && (holds ==> ExecBlock(rt, r.value, f, env, w) == PartRun(rt, c.thn, Before(c.els, Last(us)), f, env, w))
      && (!holds ==> ExecBlock(rt, r.value, f, env, w) == PartRun(rt, c.els, Last(us), f, env, w))
  {
    hide ParseStmt, PrintCmd, CmdOk, CmdTree, ExecBlock, PartTree, Tree, Eval, Left;
    FirstCmd(c, us);
    CondTree(c, Last(us));
    Alone(rt, CmdTree(c, Last(us)), f, env, w);
    PartRuns(rt, c.thn, Before(c.els, Last(us)), f, env, w);
    PartRuns(rt, c.els, Last(us), f, env, w);
  }

  /** What a written clause comes to */
  function PartRun(rt: Runtime, p: Part, last: bool, f: nat, env: Env, w: int): Result {
    match p
    case NoPart => Done(Normal, env, w)
    case Inline(_, g) => ExecBlock(rt, CmdsTree(Empty, g, last), f, env, w)
    case Below(_, ls) => ExecBlock(rt, LinesTree(Empty, ls), f, env, w)
  }

  lemma PartRuns(rt: Runtime, p: Part, last: bool, f: nat, env: Env, w: int)
    ensures ExecClause(rt, PartTree(p, last), f, env, w) == PartRun(rt, p, last, f, env, w)
  {
    hide ExecBlock, CmdsTree, LinesTree;
  }

  /** The first element whose condition holds, in the order they are written */
  function Chosen(rt: Runtime, items: Items, env: Env): Option<Block> {
    match items
    case NoItems => None
    case MoreItems(c, on, ls, more) =>
      if Truth(rt, Eval(rt, Tree(c), env)) then Some(LinesTree(CmdsTree(Empty, on, true), ls))
      else Chosen(rt, more, env)
  }

  lemma {:induction false} ItemsChoose(rt: Runtime, arms: Arms, items: Items, f: nat, env: Env, w: int)
    ensures ExecArms(rt, ItemsTree(arms, items), f, env, w)
         == match ExecArms(rt, arms, f, env, w)
            case Some(r) => Some(r)
            case None =>
              match Chosen(rt, items, env)
              case None => None
              case Some(b) => Some(ExecBlock(rt, b, f, env, w))
    decreases items
  {
    hide ExecBlock, Eval, Tree, LinesTree, CmdsTree;
    match items
    case NoItems =>
    case MoreItems(c, on, ls, more) =>
      var b := LinesTree(CmdsTree(Empty, on, true), ls);
      ItemsChoose(rt, Arm(arms, Tree(c), b), more, f, env, w);
      ArmTries(rt, arms, Tree(c), b, f, env, w);
  }

  lemma ArmTries(rt: Runtime, init: Arms, c: Expr, b: Block, f: nat, env: Env, w: int)
    ensures ExecArms(rt, Arm(init, c, b), f, env, w)
         == match ExecArms(rt, init, f, env, w)
            case Some(r) => Some(r)
            case None => if Truth(rt, Eval(rt, c, env)) then Some(ExecBlock(rt, b, f, env, w)) else None
  {
    hide ExecBlock, Eval;
  }

  /** BEGIN CASE runs the first element whose condition holds, and nothing if there is none. */
  lemma CaseChooses(rt: Runtime, items: Items, us: seq<Token>, f: nat, env: Env, w: int)
    requires CmdOk(Cases(items), us)
    ensures var r := First(PrintCmd(Cases(items)) + us);
      && r.Ok?
      && ExecBlock(rt, r.value, f, env, w)
         == match Chosen(rt, items, env)
            case None => Done(Normal, env, w)
            case Some(b) => ExecBlock(rt, b, f, env, w)
  {
    hide ParseStmt, PrintCmd, CmdOk, ExecBlock, ItemsTree, Chosen, Left;
    FirstCmd(Cases(items), us);
    ItemsChoose(rt, NoArms, items, f, env, w);
    Alone(rt, Case(ItemsTree(NoArms, items)), f, env, w);
  }

  // Assignments

  /** The operator of +=, -=, *= and /= */
  function Operator(sign: Token): Token {
    if sign.kind == TKN_ADDEQ then Plus
    else if sign.kind == TKN_SUBEQ then Minus
    else if sign.kind == TKN_MULTEQ then Token(28, "*")
    else Token(TKN_DIV, "/")
  }

  /** X = e gives X the value of e. */
  lemma SetStores(rt: Runtime, name: string, e: Phrase, us: seq<Token>, f: nat, env: Env, w: int)
    requires Sound(e) && Clear(e, us) && Stops(us)
    ensures var r := First([Word(name), Equals] + Print(e) + us);
      r.Ok? && ExecBlock(rt, r.value, f, env, w) == Done(Normal, env[name := Eval(rt, Tree(e), env)], w)
  {
    hide Print, Sound, Clear, Stops, Tree, Short, First, ExecBlock, Eval;
    ReadSet(name, Equals, e, us);
    var s := Set(name, OP_STOR, Tree(e), Last(us) && Short(Equals, e));
    Alone(rt, s, f, env, w);
    SetRuns(rt, name, OP_STOR, Tree(e), s.short, Eval(rt, Tree(e), env), f, env, w);
  }

  /** X += e, X -= e, X *= e and X /= e do what X = X + (e), X = X - (e), X = X * (e) and
      X = X / (e) do, but for the short forms of += 1 and -= 1. */
  lemma OperatesOn(rt: Runtime, name: string, sign: Token, e: Phrase, us: seq<Token>)
    requires sign.kind in {TKN_ADDEQ, TKN_SUBEQ, TKN_MULTEQ, TKN_DIVEQ} && Free(name) && !(Last(us) && Short(sign, e))
    requires Sound(e) && Clear(e, us) && Clear(e, [CloseBracket] + us) && Stops(us)
    ensures SameRun(rt, [Word(name), sign] + Print(e) + us,
                    [Word(name), Equals, Word(name), Operator(sign)] + Print(Group(e)) + us)
  {
    hide Print, Sound, Clear, Stops, Tree, Short, First, ExecBlock, Upper;
    var d := Dyadic(Operator(sign), Named(name), Group(e));
    var op := SetOf(sign.kind).value;
    OperationSound(name, sign, e, us);
    ReadSet(name, sign, e, us);
    ReadSet(name, Equals, d, us);
    assert [Word(name), Equals] + Print(d) + us
        == [Word(name), Equals, Word(name), Operator(sign)] + Print(Group(e)) + us;
    assert !Short(Equals, d) by { NotShort(d); }
    forall f: nat, env, w
      ensures ExecBlock(rt, Seq(Empty, Set(name, op, Tree(e), false)), f, env, w)
           == ExecBlock(rt, Seq(Empty, Set(name, OP_STOR, App(op, Two(Var(name), Tree(e))), false)), f, env, w)
    {
      OperationRuns(rt, name, op, Tree(e), f, env, w);
    }
  }

  /** X := e puts a string behind the string in X. */
  lemma Appends(rt: Runtime, name: string, sign: Token, e: Phrase, us: seq<Token>, a: seq<byte>, b: seq<byte>, f: nat,
                env: Env, w: int)
    requires sign.kind == TKN_CATEQ && Sound(e) && Clear(e, us) && Stops(us)
    requires Lookup(env, name) == Chars(a) && Eval(rt, Tree(e), env) == Chars(b)
    ensures var r := First([Word(name), sign] + Print(e) + us);
      r.Ok? && ExecBlock(rt, r.value, f, env, w) == Done(Normal, env[name := Chars(a + b)], w)
  {
    hide Print, Sound, Clear, Stops, Tree, First, ExecBlock, Eval, Lookup;
    ReadSet(name, sign, e, us);
    var s := Set(name, OP_APPEND, Tree(e), false);
    Alone(rt, s, f, env, w);
    SetRuns(rt, name, OP_APPEND, Tree(e), false, Chars(a + b), f, env, w);
  }

  lemma NotShort(d: Phrase)
    requires d.Dyadic?
    ensures !Short(Equals, d)
  {
  }

  lemma OperationSound(name: string, sign: Token, e: Phrase, us: seq<Token>)
    requires sign.kind in {TKN_ADDEQ, TKN_SUBEQ, TKN_MULTEQ, TKN_DIVEQ} && Free(name)
    requires Sound(e) && Clear(e, [CloseBracket] + us)
    ensures var d := Dyadic(Operator(sign), Named(name), Group(e));
      && Sound(d) && Clear(d, us) && Print(d) == [Word(name), Operator(sign)] + Print(Group(e))
      && Tree(d) == App(SetOf(sign.kind).value, Two(Var(name), Tree(e)))
  {
    hide Upper;
    Capitals(Operator(sign).text);
    DyadicTree(Operator(sign), Named(name), Group(e));
    PlainTree(Named(name));
    GroupTree(e);
  }

  lemma OperationRuns(rt: Runtime, name: string, op: int, e: Expr, f: nat, env: Env, w: int)
    requires op in {OP_ADD, OP_SUB, OP_MUL, OP_DIV}
    ensures ExecBlock(rt, Seq(Empty, Set(name, op, e, false)), f, env, w)
         == ExecBlock(rt, Seq(Empty, Set(name, OP_STOR, App(op, Two(Var(name), e)), false)), f, env, w)
  {
    hide ExecBlock, Lookup;
    Alone(rt, Set(name, op, e, false), f, env, w);
    Alone(rt, Set(name, OP_STOR, App(op, Two(Var(name), e)), false), f, env, w);
    assert EvalArgs(rt, NoArgs, env) == [];
    assert EvalArgs(rt, One(Var(name)), env) == [Lookup(env, name)];
    assert EvalArgs(rt, Two(Var(name), e), env) == [Lookup(env, name), Eval(rt, e, env)];
  }

  // File operations

  /** The locks that the keywords ask for */
  function LockOf(verb: Verb): set<int> {
    match verb
    case DeleteU => {OP_ULOCK}
    case LockU => {OP_ULOCK}
    case ReadU => {OP_ULOCK}
    case LockL => {OP_LLOCK}
    case ReadL => {OP_LLOCK}
    case _ => {}
  }

  function OperationOf(verb: Verb): int {
    if verb.Delete? || verb.DeleteU? then OP_DELETE
    else if verb.LockL? || verb.LockU? then OP_LOCKREC
    else OP_READ
  }

  /** What the interpreter is asked for: the lock, not to wait where there is a LOCKED
      clause, and to come back on an error where there is an ON ERROR clause */
  function Asked(rt: Runtime, c: Cmd, env: Env, w: int): Reply
    requires c.FileCmd?
  {
    var modes := LockOf(c.verb) + (if c.locked == NoPart then {} else {OP_NOWAIT})
                 + (if c.onError == NoPart then {} else {OP_ONERROR});
    var file, key := Eval(rt, Tree(c.f), env), Eval(rt, Tree(c.k), env);
    rt.file(OperationOf(c.verb), modes, if Reads(c.verb) then [Lookup(env, c.v), file, key] else [file, key], w)
  }

  /** A file operation asks once, puts a record that it read into its variable, and runs the
      clause that the answer selects: ON ERROR for a negative status, LOCKED for 3011, THEN
      for 0, and ELSE for any other. */
  function FileComes(rt: Runtime, c: Cmd, last: bool, f: nat, env: Env, w: int): Result
    requires c.FileCmd?
  {
    var reply := Asked(rt, c, env, w);
    var env' := if Reads(c.verb) && reply.record.Some? then env[c.v := reply.record.value] else env;
    var l3 := Before(c.els, last);
    var l2 := Before(c.thn, l3);
    if c.onError != NoPart && reply.status < 0 then
      PartRun(rt, c.onError, Before(c.locked, l2), f, env', reply.world)
    else if c.locked != NoPart && reply.status == 3011 then PartRun(rt, c.locked, l2, f, env', reply.world)
    else if !Reads(c.verb) then Done(Normal, env', reply.world)
    else if reply.status == 0 then PartRun(rt, c.thn, l3, f, env', reply.world)
    else PartRun(rt, c.els, last, f, env', reply.world)
  }

  lemma FileAsks(rt: Runtime, c: Cmd, us: seq<Token>, f: nat, env: Env, w: int)
    requires c.FileCmd? && CmdOk(c, us)
    ensures var r := First(PrintCmd(c) + us);
      r.Ok? && ExecBlock(rt, r.value, f, env, w) == FileComes(rt, c, Last(us), f, env, w)
  {
    hide First, PrintCmd, CmdOk, CmdTree, ExecBlock, Left, FileComes;
    FirstCmd(c, us);
    Alone(rt, CmdTree(c, Last(us)), f, env, w);
    FileRuns(rt, c, Last(us), f, env, w);
  }

  lemma FileRuns(rt: Runtime, c: Cmd, last: bool, f: nat, env: Env, w: int)
    requires c.FileCmd?
    ensures ExecStmt(rt, CmdTree(c, last), f, env, w) == FileComes(rt, c, last, f, env, w)
  {
    hide ExecBlock, PartTree, CmdTree, Asked, PartRun, ExecClause, Receive, Modes, EvalArgs;
    var reply := Asked(rt, c, env, w);
    var env' := if Reads(c.verb) && reply.record.Some? then env[c.v := reply.record.value] else env;
    var l3 := Before(c.els, last);
    var l2 := Before(c.thn, l3);
    var l1 := Before(c.locked, l2);
    PartRuns(rt, c.onError, l1, f, env', reply.world);
    PartRuns(rt, c.locked, l2, f, env', reply.world);
    PartRuns(rt, c.thn, l3, f, env', reply.world);
    PartRuns(rt, c.els, last, f, env', reply.world);
    PartHasTree(c.onError, l1);
    PartHasTree(c.locked, l2);
    FileTree(rt, c, last, env, w);
  }

  /** The operands and prefixes of the tree are those that are written. */
  lemma FileTree(rt: Runtime, c: Cmd, last: bool, env: Env, w: int)
    requires c.FileCmd?
    ensures var s := CmdTree(c, last);
      && s.File? && s.call.op == OperationOf(c.verb) && (s.call.thenElse <==> Reads(c.verb))
      && s.onError == PartTree(c.onError, Before(c.locked, Before(c.thn, Before(c.els, last))))
      && s.locked == PartTree(c.locked, Before(c.thn, Before(c.els, last)))
      && s.thn == PartTree(c.thn, Before(c.els, last)) && s.els == PartTree(c.els, last)
      && rt.file(s.call.op, Modes(s.call, s.onError, s.locked), EvalArgs(rt, s.args, env), w) == Asked(rt, c, env, w)
      && forall reply: Reply ::
           Receive(s.call, s.args, reply, env)
           == if Reads(c.verb) && reply.record.Some? then env[c.v := reply.record.value] else env
  {
    hide PartTree, Tree, Eval;
    var s := CmdTree(c, last);
    PartHasTree(c.onError, Before(c.locked, Before(c.thn, Before(c.els, last))));
    PartHasTree(c.locked, Before(c.thn, Before(c.els, last)));
    var file, key := Tree(c.f), Tree(c.k);
    assert EvalArgs(rt, NoArgs, env) == [];
    assert EvalArgs(rt, One(file), env) == [Eval(rt, file, env)];
    assert EvalArgs(rt, Two(file, key), env) == [Eval(rt, file, env), Eval(rt, key, env)];
    ReadArgs(rt, c.v, file, key, env);
  }

  lemma ReadArgs(rt: Runtime, v: string, file: Expr, key: Expr, env: Env)
    ensures EvalArgs(rt, Three(Var(v), file, key), env) == [Lookup(env, v), Eval(rt, file, env), Eval(rt, key, env)]
    ensures Receiver(Three(Var(v), file, key)) == Some(v)
  {
    hide Lookup;
    assert EvalArgs(rt, NoArgs, env) == [];
    assert Eval(rt, Var(v), env) == Lookup(env, v);
    assert EvalArgs(rt, One(Var(v)), env) == [Lookup(env, v)];
    assert EvalArgs(rt, Two(Var(v), file), env) == [Lookup(env, v), Eval(rt, file, env)];
  }
}
