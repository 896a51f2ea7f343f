/** Statements as they are written, and what each way of writing means: the other way round
    from reading, with keywords and tables of its own. */
module Scripts {
  import opened Outcomes
  import opened Isa
  import opened Syntax
  import opened Programs
  import opened StatementGrammar
  import opened Phrases

  /** The ways of writing a file operation */
  datatype Verb = Delete | DeleteU | LockL | LockU | Read | ReadL | ReadU

  /** Where a GOTO goes: GOTO x, GO TO x or GO x, and with a colon after the label or not */
  datatype Way = Way(go: bool, to: bool, kind: int, colon: bool)

  datatype Cmd =
    | Assign(name: string, sign: Token, e: Phrase)
    | LoopCmd
    | RepeatCmd
    | ExitCmd
    | ContinueCmd
    | While(until: bool, c: Phrase, doWord: bool)
    | Cond(c: Phrase, thn: Part, els: Part)
    | Cases(items: Items)
    | GoCmd(way: Way, target: string)
    | FileCmd(verb: Verb, v: string, f: Phrase, k: Phrase, onError: Part, locked: Part, thn: Part, els: Part)

  /** Commands separated by semicolons */
  datatype Cmds = NoCmds | MoreCmds(first: Cmd, more: Cmds)

  /** A clause on its keyword's line, or on lines of its own up to END; low: the keyword
      itself begins a line. */
  datatype Part = NoPart | Inline(low: bool, g: Cmds) | Below(low: bool, ls: Lines)

  /** A label: a name and a colon, a label token, or a number with a colon or without */
  datatype Mark = NoMark | Colon(name: string) | Joined(name: string) | Numbered(kind: int, text: string, colon: bool)

  datatype Line = Line(mark: Mark, g: Cmds)

  datatype Lines = NoLines | MoreLines(first: Line, more: Lines)

  /** CASE and its condition, commands on the same line, and lines */
  datatype Items = NoItems | MoreItems(c: Phrase, on: Cmds, ls: Lines, more: Items)

  const Semi := Token(TKN_SEMICOLON, ";")
  const ColonToken := Token(TKN_COLON, ":")

  function VerbWord(verb: Verb): string {
    match verb
    case Delete => "DELETE"
    case DeleteU => "DELETEU"
    case LockL => "RECORDLOCKL"
    case LockU => "RECORDLOCKU"
    case Read => "READ"
    case ReadL => "READL"
    case ReadU => "READU"
  }

  function VerbCall(verb: Verb): Call {
    match verb
    case Delete => Call(0, OP_DELETE, false, false)
    case DeleteU => Call(OP_ULOCK, OP_DELETE, false, false)
    case LockL => Call(OP_LLOCK, OP_LOCKREC, true, false)
    case LockU => Call(OP_ULOCK, OP_LOCKREC, true, false)
    case Read => Call(0, OP_READ, false, true)
    case ReadL => Call(OP_LLOCK, OP_READ, true, true)
    case ReadU => Call(OP_ULOCK, OP_READ, true, true)
  }

  predicate Reads(verb: Verb) {
    verb.Read? || verb.ReadL? || verb.ReadU?
  }

  // Writing

  function PrintCmd(c: Cmd): (ts: seq<Token>)
    ensures ts != []
    decreases c, 1
  {
    match c
    case Assign(name, sign, e) => [Word(name)] + ([sign] + Print(e))
    case LoopCmd => [Word("LOOP")]
    case RepeatCmd => [Word("REPEAT")]
    case ExitCmd => [Word("EXIT")]
    case ContinueCmd => [Word("CONTINUE")]
    case While(until, e, doWord) =>
      [Word(if until then "UNTIL" else "WHILE")] + (Print(e) + if doWord then [Word("DO")] else [])
    case Cond(e, thn, els) =>
      [Word("IF")] + (Print(e) + (PrintPart([Word("THEN")], thn) + PrintPart([Word("ELSE")], els)))
    case Cases(items) =>
      [Word("BEGIN")] + ([Word("CASE"), EndToken] + (PrintItems(items) + [Word("END"), Word("CASE")]))
    case GoCmd(way, target) =>
      [Word(if way.go then "GO" else "GOTO")]
      + ((if way.go && way.to then [Word("TO")] else [])
         + ([Token(way.kind, target)] + if way.colon then [ColonToken] else []))
    case FileCmd(verb, v, f, k, onError, locked, thn, els) =>
      [Word(VerbWord(verb))]
      + ((if Reads(verb) then [Word(v), Word("FROM")] else [])
         + (Print(f) + ([Comma] + (Print(k) + PrintParts(c)))))
  }

  /** The clauses of a file operation */
  function PrintParts(c: Cmd): seq<Token>
    requires c.FileCmd?
    decreases c, 0, 1
  {
    PrintPart([Word("ON"), Word("ERROR")], c.onError) + PrintFromLocked(c)
  }

  function PrintFromLocked(c: Cmd): seq<Token>
    requires c.FileCmd?
    decreases c, 0, 0
  {
    PrintPart([Word("LOCKED")], c.locked) + (PrintPart([Word("THEN")], c.thn) + PrintPart([Word("ELSE")], c.els))
  }

  function PrintPart(words: seq<Token>, p: Part): seq<Token>
    decreases p, 2
  {
    match p
    case NoPart => []
    case Inline(low, _) => (if low then [EndToken] else []) + (words + PrintClause(p))
    case Below(low, _) => (if low then [EndToken] else []) + (words + PrintClause(p))
  }

  function PrintClause(p: Part): seq<Token>
    decreases p, 1
  {
    match p
    case NoPart => []
    case Inline(_, g) => PrintCmds(g)
    case Below(_, ls) => [EndToken] + (PrintLines(ls) + [Word("END")])
  }

  function PrintCmds(g: Cmds): seq<Token>
    decreases g, 0
  {
    match g
    case NoCmds => []
    case MoreCmds(c, more) => PrintCmd(c) + if more.NoCmds? then [] else [Semi] + PrintCmds(more)
  }

  function PrintMark(m: Mark): seq<Token> {
    match m
    case NoMark => []
    case Colon(name) => [Word(name), ColonToken]
    case Joined(name) => [Token(TKN_LABEL, name + ":")]
    case Numbered(kind, text, colon) => [Token(kind, text)] + if colon then [ColonToken] else []
  }

  function PrintLines(ls: Lines): seq<Token>
    decreases ls, 0
  {
    match ls
    case NoLines => []
    case MoreLines(l, more) => PrintMark(l.mark) + (PrintCmds(l.g) + ([EndToken] + PrintLines(more)))
  }

  function PrintItems(items: Items): seq<Token>
    decreases items, 0
  {
    match items
    case NoItems => []
    case MoreItems(c, on, ls, more) =>
      [Word("CASE")]
      + (Print(c)
         + ((if on.NoCmds? then [] else [Semi] + PrintCmds(on)) + ([EndToken] + (PrintLines(ls) + PrintItems(more)))))
  }

  // Meaning

  function SetOf(kind: int): Option<int> {
    match kind
    case 16 => Some(OP_STOR)
    case 32 => Some(OP_ADD)
    case 33 => Some(OP_SUB)
    case 36 => Some(OP_APPEND)
    case 40 => Some(OP_MUL)
    case 41 => Some(OP_DIV)
    case _ => None
  }

  /** = 0, = "", += 1 and -= 1 before the end of a line */
  predicate Short(sign: Token, e: Phrase) {
    || (sign.kind == 16 && (e == Digits(0, 0) || e == Quoted("")))
    || ((sign.kind == 32 || sign.kind == 33) && e == Digits(0, 1))
  }

  /** A label token may begin with its colon. */
  function Target(kind: int, text: string): string {
    if kind == TKN_LABEL && text != "" && text[0] == ':' then text[1..] else text
  }

  /** last: the end of the line, or of the source, comes next. */
  function CmdTree(c: Cmd, last: bool): Stmt
    decreases c, 0
  {
    match c
    case Assign(name, sign, e) =>
      Set(name, if SetOf(sign.kind).Some? then SetOf(sign.kind).value else 0, Tree(e), last && Short(sign, e))
    case LoopCmd => LoopMark
    case RepeatCmd => RepeatMark
    case ExitCmd => Leave(false)
    case ContinueCmd => Leave(true)
    case While(until, e, _) => Test(until, Tree(e))
    case Cond(e, thn, els) => If(Tree(e), PartTree(thn, Before(els, last)), PartTree(els, last))
    case Cases(items) => Case(ItemsTree(NoArms, items))
    case GoCmd(way, target) => Goto(Target(way.kind, target))
    case FileCmd(verb, v, f, k, onError, locked, thn, els) =>
      var args := if Reads(verb) then Three(Var(v), Tree(f), Tree(k)) else Two(Tree(f), Tree(k));
      File(VerbCall(verb), args,
           PartTree(onError, Before(locked, Before(thn, Before(els, last)))),
           PartTree(locked, Before(thn, Before(els, last))), PartTree(thn, Before(els, last)), PartTree(els, last))
  }

  /** Whether a line ends before this part, or before what follows if there is none */
  predicate Before(p: Part, last: bool) {
    if p.NoPart? then last else p.low
  }

  function PartTree(p: Part, last: bool): Clause
    decreases p, 1
  {
    match p
    case NoPart => Absent
    case Inline(_, g) => Clause(CmdsTree(Empty, g, last))
    case Below(_, ls) => Clause(LinesTree(Empty, ls))
  }

  /** Behind what there is already */
  function CmdsTree(acc: Block, g: Cmds, last: bool): Block
    decreases g, 0
  {
    match g
    case NoCmds => acc
    case MoreCmds(c, more) => CmdsTree(Seq(acc, CmdTree(c, last && more.NoCmds?)), more, last)
  }

  function MarkTree(acc: Block, m: Mark): Block {
    match m
    case NoMark => acc
    case Colon(name) => Seq(acc, LabelMark(name))
    case Joined(name) => Seq(acc, LabelMark(name))
    case Numbered(_, text, _) => Seq(acc, LabelMark(text))
  }

  function LinesTree(acc: Block, ls: Lines): Block
    decreases ls, 0
  {
    match ls
    case NoLines => acc
    case MoreLines(l, more) => LinesTree(CmdsTree(MarkTree(acc, l.mark), l.g, true), more)
  }

  function ItemsTree(arms: Arms, items: Items): Arms
    decreases items, 0
  {
    match items
    case NoItems => arms
    case MoreItems(c, on, ls, more) => ItemsTree(Arm(arms, Tree(c), LinesTree(CmdsTree(Empty, on, true), ls)), more)
  }

  // What may be written

  /** Names that are no words of the language where a statement or a line begins */
  predicate PlainName(name: string) {
    && Free(name) && name != "" && name[0] != '*' && name[0] != '!'
    && Upper(name) !in {"CASE", "COMMON", "END", "ERROR"}
  }

  /** What may follow a command: the end of the line, a semicolon, or a clause */
  predicate Ending(us: seq<Token>) {
    us == [] || us[0].kind == TKN_END || us[0] == Semi
    || (us[0].kind == TKN_NAME && Upper(us[0].text) in {"ON", "LOCKED", "THEN", "ELSE"})
  }

  /** A line that goes on with none of the clauses */
  predicate Fresh(ts: seq<Token>) {
    ts == [] || (ts[0].kind != TKN_END && ts[0].kind != TKN_SEMICOLON
                 && Upper(ts[0].text) !in {"ON", "LOCKED", "THEN", "ELSE"})
  }

  /** The end of a line that is followed by a fresh one, or a semicolon */
  predicate Settled(us: seq<Token>) {
    us == [] || us[0] == Semi || (us[0].kind == TKN_END && Fresh(us[1..]))
  }

  predicate IsPlainCmd(c: Cmd) {
    !c.Cond? && !c.Cases? && !c.FileCmd?
  }

  predicate PlainCmds(g: Cmds) {
    g.MoreCmds? ==> IsPlainCmd(g.first) && PlainCmds(g.more)
  }

  predicate PhraseOk(e: Phrase, us: seq<Token>) {
    Sound(e) && Clear(e, us) && Stops(us)
  }

  predicate WhileOk(e: Phrase, doWord: bool, us: seq<Token>) {
    if doWord then PhraseOk(e, [Word("DO")] + us) else PhraseOk(e, us) && Upper(Look(us).text) != "DO"
  }

  predicate GoOk(way: Way, target: string, us: seq<Token>) {
    && (way.kind in {TKN_NAME, TKN_NUM, TKN_FLOAT} || (way.kind == TKN_LABEL && target != "" && !way.colon))
    && (way.colon || Look(us).kind != TKN_COLON)
    && (way.go && !way.to ==> Upper(target) != "TO")
  }

  /** A command, and what follows it */
  predicate CmdOk(c: Cmd, us: seq<Token>)
    decreases c, 1
  {
    Ending(us)
    && match c
    case Assign(name, sign, e) => PlainName(name) && SetOf(sign.kind).Some? && PhraseOk(e, us)
    case LoopCmd => true
    case RepeatCmd => true
    case ExitCmd => true
    case ContinueCmd => true
    case While(_, e, doWord) => WhileOk(e, doWord, us)
    case Cond(e, thn, els) =>
      var more := PrintPart([Word("ELSE")], els) + us;
      && PhraseOk(e, PrintPart([Word("THEN")], thn) + more)
      && (thn != NoPart || els != NoPart) && PartOk(thn, more) && PartOk(els, us)
      && (els.NoPart? ==> Settled(us))
    case Cases(items) => ItemsOk(items, [Word("END"), Word("CASE")] + us)
    case GoCmd(way, target) => GoOk(way, target, us)
    case FileCmd(verb, v, f, k, onError, locked, thn, els) =>
      && PhraseOk(f, [Comma] + (Print(k) + (PrintParts(c) + us))) && (!verb.Delete? && !verb.DeleteU? ==> f.Named?)
      && PhraseOk(k, PrintParts(c) + us) && PartsOk(c, us)
  }

  /** The clauses of a file operation */
  predicate PartsOk(c: Cmd, us: seq<Token>)
    requires c.FileCmd?
    decreases c, 0
  {
    var afterElse := us;
    var afterThen := PrintPart([Word("ELSE")], c.els) + us;
    var afterLocked := PrintPart([Word("THEN")], c.thn) + afterThen;
    && PartOk(c.onError, PrintPart([Word("LOCKED")], c.locked) + afterLocked) && PartOk(c.locked, afterLocked)
    && PartOk(c.thn, afterThen) && PartOk(c.els, us)
    && (c.locked != NoPart ==> VerbCall(c.verb).canLock)
    && (Reads(c.verb) <==> c.thn != NoPart || c.els != NoPart)
    && (c.els.NoPart? ==> Settled(us))
  }

  predicate PartOk(p: Part, us: seq<Token>)
    decreases p, 1
  {
    match p
    case NoPart => true
    case Inline(_, g) => g != NoCmds && PlainCmds(g) && CmdsOk(g, us) && Look(us).kind != TKN_SEMICOLON
    case Below(_, ls) => LinesOk(ls, [Word("END")] + us)
  }

  predicate CmdsOk(g: Cmds, us: seq<Token>)
    decreases g, 0
  {
    match g
    case NoCmds => true
    case MoreCmds(c, more) =>
      if more.NoCmds? then CmdOk(c, us) else CmdOk(c, [Semi] + (PrintCmds(more) + us)) && CmdsOk(more, us)
  }

  predicate MarkOk(m: Mark) {
    match m
    case NoMark => true
    case Colon(name) => PlainName(name)
    case Joined(name) => PlainName(name)
    case Numbered(kind, text, _) => (kind == TKN_NUM || kind == TKN_FLOAT) && PlainName(text)
  }

  predicate LineOk(l: Line, us: seq<Token>)
    decreases l, 0
  {
    && MarkOk(l.mark) && (l.mark != NoMark || l.g != NoCmds) && CmdsOk(l.g, [EndToken] + us)
    && Fresh(us)
  }

  predicate LinesOk(ls: Lines, us: seq<Token>)
    decreases ls, 0
  {
    match ls
    case NoLines => Fresh(us)
    case MoreLines(l, more) => LineOk(l, PrintLines(more) + us) && LinesOk(more, us)
  }

  predicate ItemsOk(items: Items, us: seq<Token>)
    decreases items, 0
  {
    match items
    case NoItems => true
    case MoreItems(c, on, ls, more) =>
      var rest := PrintItems(more) + us;
      var lines := [EndToken] + (PrintLines(ls) + rest);
      && PhraseOk(c, (if on.NoCmds? then [] else [Semi] + PrintCmds(on)) + lines)
      && CmdsOk(on, lines) && LinesOk(ls, rest) && ItemsOk(more, us)
  }

  /** What is left of us when a command has been read: looking for a clause that is not
      there goes past the end of a line. */
  predicate Eats(c: Cmd) {
    match c
    case Cond(_, _, els) => els.NoPart?
    case FileCmd(verb, _, _, _, onError, locked, thn, els) =>
      els.NoPart? && (thn != NoPart || (locked.NoPart? && (VerbCall(verb).canLock || onError.NoPart?)))
    case _ => false
  }

  function Left(c: Cmd, us: seq<Token>): seq<Token> {
    if Eats(c) then EndLine(us) else us
  }

  function LeftAll(g: Cmds, us: seq<Token>): seq<Token> {
    match g
    case NoCmds => us
    case MoreCmds(c, more) => if more.NoCmds? then Left(c, us) else LeftAll(more, us)
  }

  predicate Last(us: seq<Token>) {
    Look(us).kind == TKN_END
  }
}
