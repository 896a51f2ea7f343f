/** Statements that are written are read back as what was written, in every layout. */
module ReadingBack {
  import opened Isa
  import opened Syntax
  import opened Names
  import opened Programs
  import opened Grammar
  import opened StatementGrammar
  import opened Phrases
  import opened Scripts

  /** Words in capitals are what they are. */
  lemma Capitals(word: string)
    requires forall i :: 0 <= i < |word| ==> !('a' <= word[i] <= 'z')
    ensures Upper(word) == word
  {
  }

  /** A word that is a statement, and not a variable */
  predicate NoAssign(us: seq<Token>) {
    Look(us).kind !in {5, 12, 16, 32, 33, 36, 40, 41, 47}
  }

  lemma EndingNoAssign(us: seq<Token>)
    requires Ending(us)
    ensures NoAssign(us) && Look(us).kind != TKN_COLON && Stops(us)
  {
  }

  lemma KeywordStmt(acc: Block, word: string, ts: seq<Token>, s: Stmt, us: seq<Token>)
    requires NoAssign(ts) && Upper(word) != "END" && ParseKeyword(Word(word), ts) == Ok(s, us)
    ensures ParseStmt(acc, Word(word), ts) == Ok(Seq(acc, s), us)
  {
    hide ParseKeyword, ParseSet, Upper;
  }

  lemma {:induction false} PhraseStarts(e: Phrase)
    requires Sound(e)
    ensures Print(e)[0].kind in {TKN_NAME, TKN_NUM, TKN_STRING, TKN_LBR, TKN_PLUS, TKN_MINUS}
  {
    match e
    case Dyadic(_, l, _) => PhraseStarts(l);
    case Slice(x, _) => PhraseStarts(x);
    case Element(x, _) => PhraseStarts(x);
    case _ =>
  }

  predicate NoEnd(ts: seq<Token>) {
    forall i :: 0 <= i < |ts| ==> ts[i].kind != TKN_END
  }

  lemma NoEndConcat(a: seq<Token>, b: seq<Token>)
    requires NoEnd(a) && NoEnd(b)
    ensures NoEnd(a + b)
  {
  }

  lemma NoEndOne(t: Token)
    requires t.kind != TKN_END
    ensures NoEnd([t])
  {
  }

  lemma {:induction false} PhraseNoEnd(e: Phrase)
    requires Sound(e)
    ensures NoEnd(Print(e))
    decreases e
  {
    hide NoEnd;
    match e
    case Group(x) =>
      PhraseNoEnd(x);
      NoEndAround(OpenBracket, Print(x), CloseBracket);
    case Signed(minus, x) =>
      PhraseNoEnd(x);
      NoEndOne(Token(TKN_MINUS, "-"));
      NoEndOne(Token(TKN_PLUS, "+"));
      NoEndConcat([if minus then Token(TKN_MINUS, "-") else Token(TKN_PLUS, "+")], Print(x));
    case Dyadic(sign, l, r) =>
      PhraseNoEnd(l);
      PhraseNoEnd(r);
      NoEndOne(sign);
      NoEndConcat(Print(l), [sign]);
      NoEndConcat(Print(l) + [sign], Print(r));
    case Choice(c, a, b) =>
      PhraseNoEnd(c);
      PhraseNoEnd(a);
      PhraseNoEnd(b);
      NoEndAround(Word("IF"), Print(c), Word("THEN"));
      NoEndConcat([Word("IF")] + Print(c) + [Word("THEN")], Print(a));
      NoEndOne(Word("ELSE"));
      NoEndConcat([Word("IF")] + Print(c) + [Word("THEN")] + Print(a), [Word("ELSE")]);
      NoEndConcat([Word("IF")] + Print(c) + [Word("THEN")] + Print(a) + [Word("ELSE")], Print(b));
    case Slice(x, at) =>
      PhraseNoEnd(x);
      PositionsNoEnd(at);
      NoEndOne(OpenSquare);
      NoEndOne(CloseSquare);
      NoEndConcat(Print(x), [OpenSquare]);
      NoEndConcat(Print(x) + [OpenSquare], PrintAt(at));
      NoEndConcat(Print(x) + [OpenSquare] + PrintAt(at), [CloseSquare]);
    case Element(x, at) =>
      PhraseNoEnd(x);
      PositionsNoEnd(at);
      NoEndOne(OpenAngle);
      NoEndOne(CloseAngle);
      NoEndConcat(Print(x), [OpenAngle]);
      NoEndConcat(Print(x) + [OpenAngle], PrintAt(at));
      NoEndConcat(Print(x) + [OpenAngle] + PrintAt(at), [CloseAngle]);
    case _ => NoEndOne(Print(e)[0]);
  }

  lemma NoEndAround(t: Token, a: seq<Token>, t': Token)
    requires NoEnd(a) && t.kind != TKN_END && t'.kind != TKN_END
    ensures NoEnd([t] + a + [t'])
  {
  }

  lemma PositionsNoEnd(at: Positions)
    requires SoundAt(at)
    ensures NoEnd(PrintAt(at))
    decreases at
  {
    hide Sound, Print;
    match at
    case At1(a) => PhraseNoEnd(a);
    case At2(a, b) =>
      PhraseNoEnd(a);
      PhraseNoEnd(b);
    case At3(a, b, c) =>
      PhraseNoEnd(a);
      PhraseNoEnd(b);
      PhraseNoEnd(c);
  }

  // Assignments

  /** The reader's test for a short store is that of the writing. */
  lemma ShortExactly(sign: Token, e: Phrase, us: seq<Token>)
    requires Sound(e) && SetOf(sign.kind).Some?
    ensures var ts := Print(e) + us;
      IsShort(sign.kind, Look(ts)) && Look(Tail(ts)).kind == TKN_END <==> Last(us) && Short(sign, e)
    ensures Last(us) && Short(sign, e) ==> |Print(e)| == 1
  {
    var ts := Print(e) + us;
    PhraseNoEnd(e);
    if |Print(e)| > 1 {
      assert ts[1..][0] == Print(e)[1];
    } else {
      assert ts[1..] == us;
      OneTokenSays(e);
    }
  }

  lemma {:induction false} LongPrint(e: Phrase)
    ensures |Print(e)| >= 1
    ensures !(e.Digits? || e.Quoted? || e.Named?) ==> |Print(e)| > 1
  {
  }

  /** A phrase of one token is a number, a string or a name, and its text says which. */
  lemma OneTokenSays(e: Phrase)
    requires |Print(e)| == 1
    ensures e.Digits? || e.Quoted? || e.Named?
    ensures e.Digits? && Print(e)[0].text == "0" ==> e == Digits(0, 0)
    ensures e.Digits? && Print(e)[0].text == "1" ==> e == Digits(0, 1)
  {
    LongPrint(e);
    if e.Digits? && |Print(e)[0].text| == 1 {
      var s := Zeros(e.zeros) + Decimal(e.n);
      assert |Decimal(e.n)| >= 1;
      assert e.zeros == 0;
      DecimalLength(e.n);
      assert Decimal(e.n) == [Digit(e.n)];
      assert s == Decimal(e.n) && s[0] == Digit(e.n);
      assert "0"[0] == '0' && "1"[0] == '1';
    }
  }

  lemma ReadAssign(acc: Block, name: string, sign: Token, e: Phrase, us: seq<Token>)
    requires SetOf(sign.kind).Some? && PhraseOk(e, us)
    ensures ParseStmt(acc, Word(name), [sign] + Print(e) + us)
         == Ok(Seq(acc, CmdTree(Assign(name, sign, e), Last(us))), us)
  {
    hide Print, PhraseOk, ParseExpr, ParseSet, ParseKeyword, Tree, IsShort, Short;
    var ts := [sign] + Print(e) + us;
    assert Tail(ts) == Print(e) + us && Look(ts) == sign;
    OkPhrase(e, us);
    SetReads(name, sign, e, us);
    SetStmt(acc, name, sign, Print(e) + us);
  }

  lemma SetStmt(acc: Block, name: string, sign: Token, ts: seq<Token>)
    requires SetOf(sign.kind).Some? && ParseSet(name, sign.kind, ts).Ok?
    ensures ParseStmt(acc, Word(name), [sign] + ts)
         == Ok(Seq(acc, ParseSet(name, sign.kind, ts).value), ParseSet(name, sign.kind, ts).rest)
  {
    hide ParseSet, ParseKeyword, ParseEnd, Upper;
    assert Tail([sign] + ts) == ts;
  }

  lemma SetReads(name: string, sign: Token, e: Phrase, us: seq<Token>)
    requires SetOf(sign.kind).Some? && Sound(e) && ParseExpr(Print(e) + us) == Ok(Tree(e), us)
    ensures ParseSet(name, sign.kind, Print(e) + us) == Ok(CmdTree(Assign(name, sign, e), Last(us)), us)
  {
    hide Print, Sound, ParseExpr, Tree, IsShort, DecimalValue;
    ShortExactly(sign, e, us);
    if Last(us) && Short(sign, e) {
      ShortValue(e);
      assert Tail(Print(e) + us) == us;
    }
  }

  lemma ShortValue(e: Phrase)
    requires e == Digits(0, 0) || e == Quoted("") || e == Digits(0, 1)
    ensures Tree(e) == if e.Quoted? then Str("") else Num(DecimalValue(Print(e)[0].text))
    ensures Print(e)[0].kind == TKN_STRING <==> e.Quoted?
  {
    if e.Digits? {
      DigitsBack(e.zeros, e.n);
    }
    assert Tree(e) == Bare(e, false);
  }

  // Words and jumps

  lemma ReadWord(acc: Block, c: Cmd, us: seq<Token>)
    requires Ending(us) && (c.LoopCmd? || c.RepeatCmd? || c.ExitCmd? || c.ContinueCmd?)
    ensures ParseStmt(acc, PrintCmd(c)[0], us) == Ok(Seq(acc, CmdTree(c, Last(us))), us) && |PrintCmd(c)| == 1
  {
    hide Upper, ParseKeyword, ParseStmt, Ending;
    EndingNoAssign(us);
    WordKeyword(c, us);
    KeywordStmt(acc, PrintCmd(c)[0].text, us, CmdTree(c, Last(us)), us);
  }

  lemma WordKeyword(c: Cmd, us: seq<Token>)
    requires c.LoopCmd? || c.RepeatCmd? || c.ExitCmd? || c.ContinueCmd?
    ensures ParseKeyword(PrintCmd(c)[0], us) == Ok(CmdTree(c, Last(us)), us) && Upper(PrintCmd(c)[0].text) != "END"
  {
    hide Upper, ParseFileKeyword, ParseTest, ParseIfStmt, ParseCase, ParseGoto;
    Capitals("LOOP");
    Capitals("REPEAT");
    Capitals("EXIT");
    Capitals("CONTINUE");
  }

  lemma ReadWhile(acc: Block, until: bool, e: Phrase, doWord: bool, us: seq<Token>)
    requires Ending(us) && WhileOk(e, doWord, us)
    ensures var word := if until then "UNTIL" else "WHILE";
      ParseStmt(acc, Word(word), Print(e) + (if doWord then [Word("DO")] else []) + us)
      == Ok(Seq(acc, Test(until, Tree(e))), us)
  {
    hide Print, PhraseOk, ParseKeyword, ParseStmt, ParseTest, Upper, Ending;
    var word := if until then "UNTIL" else "WHILE";
    var ts := Print(e) + ((if doWord then [Word("DO")] else []) + us);
    assert Print(e) + (if doWord then [Word("DO")] else []) + us == ts;
    Capitals("UNTIL");
    Capitals("WHILE");
    ReadTest(until, e, doWord, us);
    TestKeyword(until, ts);
    assert Sound(e) by { SoundOk(e, doWord, us); }
    PhraseStarts(e);
    assert ts[0] == Print(e)[0];
    KeywordStmt(acc, word, ts, Test(until, Tree(e)), us);
  }

  lemma SoundOk(e: Phrase, doWord: bool, us: seq<Token>)
    requires WhileOk(e, doWord, us)
    ensures Sound(e)
  {
  }

  lemma ReadTest(until: bool, e: Phrase, doWord: bool, us: seq<Token>)
    requires WhileOk(e, doWord, us)
    ensures ParseTest(until, Print(e) + ((if doWord then [Word("DO")] else []) + us)) == Ok(Test(until, Tree(e)), us)
  {
    hide Print, Clear, Sound, Stops, ParseExpr, Upper, Tree;
    Capitals("DO");
    if doWord {
      ReadPhrase(e, [Word("DO")] + us);
      assert Tail([Word("DO")] + us) == us;
    } else {
      assert [] + us == us;
      ReadPhrase(e, us);
    }
  }

  lemma TestKeyword(until: bool, ts: seq<Token>)
    ensures ParseKeyword(Word(if until then "UNTIL" else "WHILE"), ts) == ParseTest(until, ts)
  {
    hide Upper, ParseTest, ParseFileKeyword, ParseIfStmt, ParseCase, ParseGoto;
    Capitals("UNTIL");
    Capitals("WHILE");
  }

  lemma ReadGo(acc: Block, way: Way, target: string, us: seq<Token>)
    requires Ending(us) && GoOk(way, target, us)
    ensures var word := if way.go then "GO" else "GOTO";
      var to := if way.go && way.to then [Word("TO")] else [];
      ParseStmt(acc, Word(word), to + ([Token(way.kind, target)] + (if way.colon then [ColonToken] else [])) + us)
      == Ok(Seq(acc, Goto(Target(way.kind, target))), us)
  {
    hide Upper, ParseKeyword, ParseStmt, ParseGoto, Ending;
    var word, to := if way.go then "GO" else "GOTO", if way.go && way.to then [Word("TO")] else [];
    var place := [Token(way.kind, target)] + (if way.colon then [ColonToken] else []) + us;
    var ts := to + ([Token(way.kind, target)] + (if way.colon then [ColonToken] else [])) + us;
    Capitals("GO");
    Capitals("GOTO");
    Capitals("TO");
    assert ts == to + place;
    assert Tail([Word("TO")] + place) == place;
    ReadTarget(way, target, us);
    GoKeyword(ts, place, way);
    KeywordStmt(acc, word, ts, Goto(Target(way.kind, target)), us);
  }

  lemma GoKeyword(ts: seq<Token>, place: seq<Token>, way: Way)
    requires place != [] && ts == (if way.go && way.to then [Word("TO")] else []) + place
    requires way.go && !way.to ==> Upper(place[0].text) != "TO"
    ensures ParseKeyword(Word(if way.go then "GO" else "GOTO"), ts) == ParseGoto(place)
  {
    hide ParseKeyword, ParseGoto, Upper;
    GoWords(ts);
    Capitals("TO");
    assert Tail([Word("TO")] + place) == place && [] + place == place;
  }

  lemma GoWords(ts: seq<Token>)
    ensures ParseKeyword(Word("GO"), ts) == ParseGoto(if IsWord(Look(ts), "TO") then Tail(ts) else ts)
    ensures ParseKeyword(Word("GOTO"), ts) == ParseGoto(ts)
  {
    hide Upper, ParseGoto, ParseTest, ParseFileKeyword, ParseIfStmt, ParseCase;
    Capitals("GO");
    Capitals("GOTO");
    hide IsWord;
  }

  lemma ReadTarget(way: Way, target: string, us: seq<Token>)
    requires GoOk(way, target, us)
    ensures ParseGoto([Token(way.kind, target)] + (if way.colon then [ColonToken] else []) + us)
         == Ok(Goto(Target(way.kind, target)), us)
  {
    hide Upper;
    var colon := if way.colon then [ColonToken] else [];
    var ts := [Token(way.kind, target)] + colon + us;
    assert ts[1..] == colon + us;
    if way.colon {
      assert Tail(colon + us) == us;
    }
  }

  /** A command without clauses */
  lemma ReadPlain(acc: Block, c: Cmd, us: seq<Token>)
    requires IsPlainCmd(c) && CmdOk(c, us)
    ensures ParseStmt(acc, PrintCmd(c)[0], PrintCmd(c)[1..] + us) == Ok(Seq(acc, CmdTree(c, Last(us))), us)
  {
    hide Print, Tree, ParseStmt, PhraseOk, Upper, WhileOk, GoOk, Ending;
    if c.Assign? {
      ReadAssign(acc, c.name, c.sign, c.e, us);
    } else if c.While? {
      ReadWhile(acc, c.until, c.c, c.doWord, us);
    } else if c.GoCmd? {
      ReadGo(acc, c.way, c.target, us);
    } else {
      ReadWord(acc, c, us);
      assert PrintCmd(c)[1..] + us == us;
    }
  }

  // Clauses

  lemma {:induction false} PlainStays(g: Cmds, us: seq<Token>)
    requires PlainCmds(g)
    ensures LeftAll(g, us) == us
  {
    if g.MoreCmds? {
      PlainStays(g.more, us);
    }
  }

  lemma PartStarts(words: seq<Token>, p: Part, us: seq<Token>)
    requires p != NoPart && words != [] && words[0].kind == TKN_NAME
    ensures EndLine(PrintPart(words, p) + us) == words + (PrintClause(p) + us)
  {
    hide PrintClause;
    var rest := words + (PrintClause(p) + us);
    assert words + PrintClause(p) + us == rest;
    if p.low {
      assert PrintPart(words, p) + us == [EndToken] + rest;
      assert Tail([EndToken] + rest) == rest;
    } else {
      assert PrintPart(words, p) + us == rest;
    }
  }

  lemma BeforeIs(words: seq<Token>, p: Part, us: seq<Token>)
    requires words != [] && words[0].kind == TKN_NAME
    ensures Last(PrintPart(words, p) + us) == Before(p, Last(us))
  {
    hide PrintClause;
    assert [] + us == us;
  }

  /** The commands on the clause's own line, or the lines up to END */
  lemma ReadClause(p: Part, us: seq<Token>)
    requires p != NoPart && PartOk(p, us) && Ending(us)
    ensures ParseClause(PrintClause(p) + us) == Ok(PartTree(p, Last(us)).body, us)
    decreases p, 1
  {
    hide ParseGroup, ParseBody, PrintCmds, PrintLines, CmdsOk, LinesOk, Ending;
    if p.Inline? {
      CmdsStart(p.g);
      PlainStays(p.g, us);
      var ts := PrintCmds(p.g) + us;
      assert ts[0] == PrintCmds(p.g)[0] && ts[1..] == PrintCmds(p.g)[1..] + us;
      ReadCmds(Empty, p.g, us);
    } else {
      var rest := PrintLines(p.ls) + ([Word("END")] + us);
      assert PrintClause(p) + us == [EndToken] + rest;
      assert Tail([EndToken] + rest) == rest;
      ReadBody(Empty, p.ls, us);
    }
  }

  /** A clause that may be left out */
  lemma ReadOptional(word: string, p: Part, us: seq<Token>)
    requires p != NoPart && PartOk(p, us) && Ending(us) && Upper(word) == word
    ensures ParseOptional(word, [Word(word)] + (PrintClause(p) + us)) == Ok(PartTree(p, Last(us)), us)
    decreases p, 2
  {
    hide ParseClause, PrintClause, PartOk, Ending, Upper, CmdsTree, LinesTree;
    ReadClause(p, us);
    var ts := [Word(word)] + (PrintClause(p) + us);
    assert Tail(ts) == PrintClause(p) + us;
    PartHasTree(p, Last(us));
  }

  lemma PartHasTree(p: Part, last: bool)
    ensures PartTree(p, last).Absent? <==> p.NoPart?
  {
  }

  lemma NotOptional(word: string, ts: seq<Token>)
    requires ts == [] || Upper(ts[0].text) != word
    ensures ParseOptional(word, ts) == Ok(Absent, ts)
  {
  }

  /** After a settled end no clause comes. */
  lemma SettledEnds(us: seq<Token>)
    requires Settled(us)
    ensures EndLine(EndLine(us)) == EndLine(us) && Ending(us)
    ensures var t := Look(EndLine(us));
      !IsWord(t, "ON") && !IsWord(t, "LOCKED") && !IsWord(t, "THEN") && !IsWord(t, "ELSE")
  {
    Capitals(";");
  }

  // IF

  lemma ReadCond(e: Phrase, thn: Part, els: Part, us: seq<Token>)
    requires CmdOk(Cond(e, thn, els), us)
    ensures ParseIfStmt(Print(e) + (PrintPart([Word("THEN")], thn) + PrintPart([Word("ELSE")], els)) + us)
         == Ok(CmdTree(Cond(e, thn, els), Last(us)), Left(Cond(e, thn, els), us))
    decreases Cond(e, thn, els), 10
  {
    CondFacts(Cond(e, thn, els), us);
    hide Print, PrintPart, Tree, PhraseOk, PartOk, ParseBranches, Ending, Settled, CmdOk, CmdTree, Left;
    var more := PrintPart([Word("ELSE")], els) + us;
    var ts := PrintPart([Word("THEN")], thn) + more;
    assert Print(e) + (PrintPart([Word("THEN")], thn) + PrintPart([Word("ELSE")], els)) + us == Print(e) + ts;
    assert ParseExpr(Print(e) + ts) == Ok(Tree(e), ts) by { OkPhrase(e, ts); }
    ReadBranches(Cond(e, thn, els), us);
  }

  lemma OkPhrase(e: Phrase, us: seq<Token>)
    requires PhraseOk(e, us)
    ensures ParseExpr(Print(e) + us) == Ok(Tree(e), us) && Sound(e)
  {
    hide ParseExpr, Sound, Clear, Print, Tree, Stops;
    ReadPhrase(e, us);
  }

  lemma NoPartNothing(words: seq<Token>, us: seq<Token>)
    ensures PrintPart(words, NoPart) + us == us && PartTree(NoPart, true) == PartTree(NoPart, false) == Absent
  {
    assert [] + us == us;
  }

  lemma PartEnds(words: seq<Token>, p: Part, us: seq<Token>)
    requires words != [] && words[0].kind == TKN_NAME && Upper(words[0].text) in {"ON", "LOCKED", "THEN", "ELSE"}
    requires Ending(us)
    ensures Ending(PrintPart(words, p) + us)
  {
    hide PrintClause, Upper;
    assert [] + us == us;
  }

  lemma ReadBranches(c: Cmd, us: seq<Token>)
    requires c.Cond? && CmdOk(c, us)
    ensures ParseBranches(Tree(c.c),
                          EndLine(PrintPart([Word("THEN")], c.thn) + (PrintPart([Word("ELSE")], c.els) + us)))
         == Ok(CmdTree(c, Last(us)), Left(c, us))
    decreases c, 9
  {
    hide PrintPart, PrintClause, PartTree, PartOk, ParseBranches, ParseClause, ParseThen, Ending, Settled, Upper,
         EndLine, Tree, CmdOk, CmdTree, ParseOptional;
    CondFacts(c, us);
    Capitals("THEN");
    Capitals("ELSE");
    var thn, els := c.thn, c.els;
    var more := PrintPart([Word("ELSE")], els) + us;
    BeforeIs([Word("ELSE")], els, us);
    PartEnds([Word("ELSE")], els, us);
    if thn != NoPart {
      PartStarts([Word("THEN")], thn, more);
      ReadClause(thn, more);
      PartBody(thn, Last(more));
      var ts := [Word("THEN")] + (PrintClause(thn) + more);
      assert Tail(ts) == PrintClause(thn) + more;
      ReadElse(els, us);
      ThenReads(Tree(c.c), PrintClause(thn) + more, PartTree(thn, Last(more)), more);
      BranchThen(Tree(c.c), ts);
    } else {
      NoPartNothing([Word("THEN")], more);
      PartStarts([Word("ELSE")], els, us);
      ReadClause(els, us);
      PartBody(els, Last(us));
      BranchElse(Tree(c.c), PrintClause(els) + us);
    }
    CondTree(c, Last(us));
  }

  lemma CondTree(c: Cmd, last: bool)
    requires c.Cond?
    ensures CmdTree(c, last) == If(Tree(c.c), PartTree(c.thn, Before(c.els, last)), PartTree(c.els, last))
    ensures PartTree(NoPart, last) == Absent
  {
    hide Tree;
  }

  lemma BranchThen(e: Expr, ts: seq<Token>)
    requires ts != [] && ts[0] == Word("THEN")
    ensures ParseBranches(e, ts) == ParseThen(e, Tail(ts))
  {
    hide ParseThen, Upper;
    Capitals("THEN");
  }

  lemma BranchElse(e: Expr, ts: seq<Token>)
    requires ParseClause(ts).Ok?
    ensures ParseBranches(e, [Word("ELSE")] + ts)
         == Ok(If(e, Absent, Clause(ParseClause(ts).value)), ParseClause(ts).rest)
  {
    hide ParseClause, Upper;
    Capitals("ELSE");
    assert Tail([Word("ELSE")] + ts) == ts;
  }

  lemma CondFacts(c: Cmd, us: seq<Token>)
    requires c.Cond? && CmdOk(c, us)
    ensures var more := PrintPart([Word("ELSE")], c.els) + us;
      && PhraseOk(c.c, PrintPart([Word("THEN")], c.thn) + more)
      && (c.thn != NoPart || c.els != NoPart) && PartOk(c.thn, more) && PartOk(c.els, us) && Ending(us)
      && (c.els.NoPart? ==> Settled(us))
  {
    hide PrintPart, PhraseOk, PartOk, Ending, Settled;
  }

  lemma PartBody(p: Part, last: bool)
    requires p != NoPart
    ensures PartTree(p, last).Clause? && PartTree(p, last) == Clause(PartTree(p, last).body)
  {
  }

  lemma ThenReads(c: Expr, ts: seq<Token>, k: Clause, more: seq<Token>)
    requires k.Clause? && ParseClause(ts) == Ok(k.body, more) && ParseOptional("ELSE", EndLine(more)).Ok?
    ensures ParseThen(c, ts)
         == Ok(If(c, k, ParseOptional("ELSE", EndLine(more)).value), ParseOptional("ELSE", EndLine(more)).rest)
  {
    hide ParseClause, ParseOptional, EndLine;
  }

  /** The ELSE clause, or none */
  lemma ReadElse(els: Part, us: seq<Token>)
    requires PartOk(els, us) && Ending(us) && (els.NoPart? ==> Settled(us))
    ensures ParseOptional("ELSE", EndLine(PrintPart([Word("ELSE")], els) + us))
         == Ok(PartTree(els, Last(us)), if els.NoPart? then EndLine(us) else us)
    decreases els, 3
  {
    hide PrintPart, PrintClause, PartTree, PartOk, ParseOptional, Ending, Settled, Upper, EndLine;
    Capitals("ELSE");
    if els.NoPart? {
      NoPartNothing([Word("ELSE")], us);
      SettledEnds(us);
      NoWordHere("ELSE", EndLine(us));
    } else {
      PartStarts([Word("ELSE")], els, us);
      ReadOptional("ELSE", els, us);
    }
  }

  lemma NoWordHere(word: string, ts: seq<Token>)
    requires !IsWord(Look(ts), word)
    ensures ParseOptional(word, ts) == Ok(Absent, ts)
  {
    hide Upper;
  }

  // Commands and lines

  lemma CmdsStart(g: Cmds)
    requires g != NoCmds
    ensures PrintCmds(g) != [] && PrintCmds(g)[0] == PrintCmd(g.first)[0] && PrintCmds(g)[0].kind == TKN_NAME
  {
    hide Print, PrintParts, PrintItems, PrintPart;
  }

  /** Any command */
  lemma ReadCmd(acc: Block, c: Cmd, us: seq<Token>)
    requires CmdOk(c, us)
    ensures ParseStmt(acc, PrintCmd(c)[0], PrintCmd(c)[1..] + us) == Ok(Seq(acc, CmdTree(c, Last(us))), Left(c, us))
    decreases c, 20
  {
    hide PrintCmd, CmdOk, ParseStmt, CmdTree;
    if c.Cond? {
      ReadCondCmd(acc, c, us);
    } else if c.Cases? {
      ReadCasesCmd(acc, c, us);
    } else if c.FileCmd? {
      ReadFileCmd(acc, c, us);
    } else {
      ReadPlain(acc, c, us);
    }
  }

  lemma ReadCondCmd(acc: Block, c: Cmd, us: seq<Token>)
    requires c.Cond? && CmdOk(c, us)
    ensures ParseStmt(acc, PrintCmd(c)[0], PrintCmd(c)[1..] + us) == Ok(Seq(acc, CmdTree(c, Last(us))), Left(c, us))
    decreases c, 19
  {
    hide PrintCmd, PrintPart, Print, CmdOk, ParseStmt, ParseIfStmt, ParseKeyword, CmdTree, PhraseOk, Upper, PartOk,
         Ending, Settled, Tree, ParseExpr, Left;
    var rest := Print(c.c) + (PrintPart([Word("THEN")], c.thn) + PrintPart([Word("ELSE")], c.els));
    CondPrint(c);
    CondFacts(c, us);
    OkPhrase(c.c, PrintPart([Word("THEN")], c.thn) + (PrintPart([Word("ELSE")], c.els) + us));
    PhraseStarts(c.c);
    assert (rest + us)[0] == Print(c.c)[0];
    ReadCond(c.c, c.thn, c.els, us);
    IfKeyword(rest + us);
    Capitals("IF");
    KeywordStmt(acc, "IF", rest + us, CmdTree(c, Last(us)), Left(c, us));
  }

  lemma CondPrint(c: Cmd)
    requires c.Cond?
    ensures PrintCmd(c)[0] == Word("IF")
    ensures PrintCmd(c)[1..] == Print(c.c) + (PrintPart([Word("THEN")], c.thn) + PrintPart([Word("ELSE")], c.els))
  {
    hide Print, PrintPart;
  }

  lemma IfKeyword(ts: seq<Token>)
    ensures ParseKeyword(Word("IF"), ts) == ParseIfStmt(ts)
  {
    hide Upper, ParseFileKeyword, ParseTest, ParseIfStmt, ParseCase, ParseGoto;
    Capitals("IF");
  }

  /** Commands separated by semicolons */
  lemma ReadCmds(acc: Block, g: Cmds, us: seq<Token>)
    requires g != NoCmds && CmdsOk(g, us) && Look(LeftAll(g, us)).kind != TKN_SEMICOLON
    ensures ParseGroup(acc, PrintCmds(g)[0], PrintCmds(g)[1..] + us) == Ok(CmdsTree(acc, g, Last(us)), LeftAll(g, us))
    decreases g, 0
  {
    hide PrintCmd, CmdOk, ParseStmt, CmdTree, Left;
    var c, more := g.first, g.more;
    if more.NoCmds? {
      assert PrintCmds(g) == PrintCmd(c);
      ReadCmd(acc, c, us);
      GroupEnds(acc, PrintCmd(c)[0], PrintCmd(c)[1..] + us);
    } else {
      CmdsStart(more);
      var rest := [Semi] + (PrintCmds(more) + us);
      assert PrintCmds(g)[1..] + us == PrintCmd(c)[1..] + rest;
      ReadCmd(acc, c, rest);
      LeftSemi(c, rest);
      assert Tail(rest) == PrintCmds(more) + us && (PrintCmds(more) + us)[0] == PrintCmds(more)[0];
      assert Tail(Tail(rest)) == PrintCmds(more)[1..] + us;
      var b := Seq(acc, CmdTree(c, false));
      ReadCmds(b, more, us);
      GroupGoes(acc, PrintCmd(c)[0], PrintCmd(c)[1..] + rest);
    }
  }

  lemma LeftSemi(c: Cmd, us: seq<Token>)
    requires us != [] && us[0] == Semi
    ensures Left(c, us) == us && !Last(us)
  {
  }

  lemma GroupEnds(acc: Block, t: Token, ts: seq<Token>)
    requires ParseStmt(acc, t, ts).Ok? && Look(ParseStmt(acc, t, ts).rest).kind != TKN_SEMICOLON
    ensures ParseGroup(acc, t, ts) == ParseStmt(acc, t, ts)
  {
    hide ParseStmt;
  }

  lemma GroupGoes(acc: Block, t: Token, ts: seq<Token>)
    requires ParseStmt(acc, t, ts).Ok? && Look(ParseStmt(acc, t, ts).rest).kind == TKN_SEMICOLON
    ensures var r := ParseStmt(acc, t, ts);
      ParseGroup(acc, t, ts) == ParseGroup(r.value, Look(Tail(r.rest)), Tail(Tail(r.rest)))
  {
    hide ParseStmt;
  }

  // Lines

  /** The first two tokens of a command are no label, no remark and no END. */
  lemma CmdFirst(c: Cmd, us: seq<Token>)
    requires CmdOk(c, us)
    ensures var t := PrintCmd(c)[0];
      && t.kind == TKN_NAME && t.text != "" && t.text[0] != '*' && t.text[0] != '!'
      && Upper(t.text) !in {"END", "CASE", "COMMON", "ON", "LOCKED", "THEN", "ELSE"}
    ensures Look(PrintCmd(c)[1..] + us).kind != TKN_COLON
  {
    hide PrintCmd, CmdOk, Upper;
    if c.Assign? {
      AssignFirst(c, us);
    } else {
      KeywordFirst(c);
    }
    CmdSecond(c, us);
  }

  lemma AssignFirst(c: Cmd, us: seq<Token>)
    requires c.Assign? && CmdOk(c, us)
    ensures PrintCmd(c)[0] == Word(c.name) && PlainName(c.name)
  {
    hide Print, PhraseOk, Ending, Upper;
  }

  lemma KeywordFirst(c: Cmd)
    requires !c.Assign?
    ensures var t := PrintCmd(c)[0];
      && t.kind == TKN_NAME && t.text != "" && t.text[0] != '*' && t.text[0] != '!'
      && Upper(t.text) !in {"END", "CASE", "COMMON", "ON", "LOCKED", "THEN", "ELSE"}
  {
    hide Print, PrintPart, PrintParts, PrintItems, PrintCmd, Upper;
    FirstWord(c);
    WordUpper(c);
  }

  /** The keyword of a command */
  function KeyOf(c: Cmd): string {
    match c
    case Assign(name, _, _) => name
    case LoopCmd => "LOOP"
    case RepeatCmd => "REPEAT"
    case ExitCmd => "EXIT"
    case ContinueCmd => "CONTINUE"
    case While(until, _, _) => if until then "UNTIL" else "WHILE"
    case Cond(_, _, _) => "IF"
    case Cases(_) => "BEGIN"
    case GoCmd(way, _) => if way.go then "GO" else "GOTO"
    case FileCmd(verb, _, _, _, _, _, _, _) => VerbWord(verb)
  }

  lemma FirstWord(c: Cmd)
    ensures PrintCmd(c)[0] == Word(KeyOf(c))
  {
    hide Print, PrintPart, PrintParts, PrintItems;
  }

  lemma WordUpper(c: Cmd)
    requires !c.Assign?
    ensures Upper(KeyOf(c)) == KeyOf(c)
  {
    Capitals(KeyOf(c));
  }

  lemma VerbWords(verb: Verb)
    ensures Upper(VerbWord(verb)) == VerbWord(verb)
  {
    Capitals("DELETE");
    Capitals("DELETEU");
    Capitals("RECORDLOCKL");
    Capitals("RECORDLOCKU");
    Capitals("READ");
    Capitals("READL");
    Capitals("READU");
  }

  lemma CmdSecond(c: Cmd, us: seq<Token>)
    requires CmdOk(c, us)
    ensures Look(PrintCmd(c)[1..] + us).kind != TKN_COLON
  {
    hide PrintPart, PrintParts, PrintItems, PartOk, PartsOk, ItemsOk, Upper, Clear, Stops, Print, Sound;
    match c
    case While(_, e, _) => PhraseStarts(e);
    case Cond(e, _, _) => PhraseStarts(e);
    case FileCmd(_, _, f, _, _, _, _, _) => PhraseStarts(f);
    case _ =>
  }

  /** What the reader finds after a label: the first token of what is written, or the end
      of the line */
  lemma ReadMark(acc: Block, l: Line, us: seq<Token>)
    requires LineOk(l, us)
    ensures var ts := PrintCmds(l.g) + ([EndToken] + us); var all := PrintMark(l.mark) + ts;
      && ts != [] && all != [] && TakeLabel(acc, all[0], all[1..]) == Start(MarkTree(acc, l.mark), ts[0], ts[1..])
      && TakeLabel(MarkTree(acc, l.mark), ts[0], ts[1..]) == Start(MarkTree(acc, l.mark), ts[0], ts[1..])
      && Upper(ts[0].text) != "END" && Upper(ts[0].text) != "CASE"
  {
    hide PrintCmds, Upper, TakeLabel, PrintMark, MarkTree;
    LineStart(l, us);
    MarkTaken(acc, l.mark, PrintCmds(l.g) + ([EndToken] + us));
    NotMark(MarkTree(acc, l.mark), PrintCmds(l.g) + ([EndToken] + us));
  }

  /** The beginning of a line without a label */
  predicate Begins(ts: seq<Token>) {
    && ts != [] && (ts[0].kind == TKN_END || ts[0].kind == TKN_NAME)
    && (ts[0].kind == TKN_NAME ==> ts[0].text != "" && ts[0].text[0] != '*' && ts[0].text[0] != '!')
    && (ts[0].kind == TKN_NAME ==> Look(ts[1..]).kind != TKN_COLON)
  }

  lemma NotMark(acc: Block, ts: seq<Token>)
    requires Begins(ts)
    ensures TakeLabel(acc, ts[0], ts[1..]) == Start(acc, ts[0], ts[1..])
  {
  }

  lemma Behind(acc: Block, ts: seq<Token>)
    requires Begins(ts)
    ensures AfterLabel(acc, ts) == Start(acc, ts[0], ts[1..])
  {
  }

  lemma MarkTaken(acc: Block, m: Mark, ts: seq<Token>)
    requires MarkOk(m) && Begins(ts)
    ensures var all := PrintMark(m) + ts;
      all != [] && TakeLabel(acc, all[0], all[1..]) == Start(MarkTree(acc, m), ts[0], ts[1..])
  {
    hide AfterLabel, Upper;
    var all := PrintMark(m) + ts;
    Behind(MarkTree(acc, m), ts);
    match m
    case NoMark =>
      assert all == ts;
      NotMark(acc, ts);
    case Colon(name) => assert Tail(all[1..]) == ts;
    case Joined(name) => assert all[1..] == ts && (name + ":")[..|name|] == name;
    case Numbered(kind, text, colon) => assert if colon then Tail(all[1..]) == ts else all[1..] == ts;
  }

  lemma LineStart(l: Line, us: seq<Token>)
    requires LineOk(l, us)
    ensures var ts := PrintCmds(l.g) + ([EndToken] + us);
      Begins(ts) && Upper(ts[0].text) !in {"END", "CASE", "COMMON", "ON", "LOCKED", "THEN", "ELSE"}
  {
    hide CmdOk, PrintCmd;
    var end := [EndToken] + us;
    if l.g.NoCmds? {
      assert PrintCmds(l.g) + end == end;
      Capitals("");
    } else {
      var c, more := l.g.first, l.g.more;
      var rest := if more.NoCmds? then end else [Semi] + (PrintCmds(more) + end);
      assert PrintCmds(l.g) + end == PrintCmd(c) + rest;
      CmdFirst(c, rest);
      assert (PrintCmd(c) + rest)[1..] == PrintCmd(c)[1..] + rest;
    }
  }

  /** The commands of a line, once its label has been taken */
  lemma ReadRest(acc: Block, l: Line, us: seq<Token>)
    requires LineOk(l, us)
    ensures var ts := PrintCmds(l.g) + ([EndToken] + us);
      var b := MarkTree(acc, l.mark);
      ts != [] && ParsePrefetched(b, ts[0], ts[1..]) == Ok(CmdsTree(b, l.g, true), us)
    decreases l, 1
  {
    hide CmdsOk, PrintCmd, CmdsTree, ParseGroup;
    var end := [EndToken] + us;
    var ts, b := PrintCmds(l.g) + end, MarkTree(acc, l.mark);
    ReadMark(acc, l, us);
    assert Tail(end) == us;
    FreshStays(us);
    if l.g.NoCmds? {
      assert ts == end;
      EmptyLine(b, us);
    } else {
      CmdsStart(l.g);
      assert ts[0] == PrintCmds(l.g)[0] && ts[1..] == PrintCmds(l.g)[1..] + end;
      LineCmds(l, us);
      LeftOfLine(l.g, us);
      ReadCmds(b, l.g, end);
    }
  }

  lemma LineCmds(l: Line, us: seq<Token>)
    requires LineOk(l, us)
    ensures CmdsOk(l.g, [EndToken] + us) && Fresh(us)
  {
    hide CmdsOk;
  }

  lemma FreshStays(us: seq<Token>)
    requires Fresh(us)
    ensures EndLine(us) == us && Look(us).kind != TKN_SEMICOLON
  {
  }

  lemma EmptyLine(b: Block, us: seq<Token>)
    requires Look(us).kind != TKN_SEMICOLON
    ensures ParseGroup(b, EndToken, us) == Ok(b, us) && CmdsTree(b, NoCmds, true) == b
  {
  }

  lemma {:induction false} LeftOfLine(g: Cmds, us: seq<Token>)
    requires Fresh(us) && g != NoCmds
    ensures EndLine(LeftAll(g, [EndToken] + us)) == us && Last([EndToken] + us)
    ensures Look(LeftAll(g, [EndToken] + us)).kind != TKN_SEMICOLON
  {
    assert Tail([EndToken] + us) == us;
    if g.more != NoCmds {
      LeftOfLine(g.more, us);
    }
  }

  /** A line of the source */
  lemma ReadLine(acc: Block, l: Line, us: seq<Token>)
    requires LineOk(l, us)
    ensures ParseLine(acc, PrintMark(l.mark) + (PrintCmds(l.g) + ([EndToken] + us)))
         == Ok(CmdsTree(MarkTree(acc, l.mark), l.g, true), us)
    decreases l, 2
  {
    hide LineOk, ParseGroup, CmdsTree, PrintCmds, TakeLabel, Upper;
    ReadMark(acc, l, us);
    ReadRest(acc, l, us);
    var ts := PrintCmds(l.g) + ([EndToken] + us);
    var all := PrintMark(l.mark) + ts;
    SameStart(acc, all[0], all[1..], MarkTree(acc, l.mark), ts[0], ts[1..]);
    assert Tail(all) == all[1..];
  }

  lemma SameStart(acc: Block, t: Token, ts: seq<Token>, acc': Block, t': Token, ts': seq<Token>)
    requires TakeLabel(acc, t, ts) == TakeLabel(acc', t', ts') == Start(acc', t', ts')
    ensures ParsePrefetched(acc, t, ts) == ParsePrefetched(acc', t', ts')
  {
    hide ParseGroup, TakeLabel;
  }

  lemma LinesFirst(l: Line, more: Lines, us: seq<Token>)
    requires LinesOk(MoreLines(l, more), us)
    ensures LineOk(l, PrintLines(more) + us) && LinesOk(more, us)
    ensures PrintLines(MoreLines(l, more)) + us
         == PrintMark(l.mark) + (PrintCmds(l.g) + ([EndToken] + (PrintLines(more) + us)))
  {
    hide LineOk, PrintCmds, PrintMark;
  }

  /** The lines of a clause, up to its END */
  lemma ReadBody(acc: Block, ls: Lines, us: seq<Token>)
    requires LinesOk(ls, [Word("END")] + us) && Ending(us)
    ensures ParseBody(acc, PrintLines(ls) + ([Word("END")] + us)) == Ok(LinesTree(acc, ls), us)
    decreases ls, 3
  {
    var end := [Word("END")] + us;
    match ls
    case NoLines =>
      assert PrintLines(ls) + end == end && end[1..] == us;
      BodyEnds(acc, us);
    case MoreLines(l, more) =>
      hide LinesOk, PrintLines, PrintMark, PrintCmds, ParsePrefetched, CmdsTree, LineOk, Upper, TakeLabel, Ending;
      LinesFirst(l, more, end);
      var rest := PrintLines(more) + end;
      var ts := PrintCmds(l.g) + ([EndToken] + rest);
      ReadMark(acc, l, rest);
      ReadRest(acc, l, rest);
      ReadBody(CmdsTree(MarkTree(acc, l.mark), l.g, true), more, us);
      BodyGoes(acc, PrintMark(l.mark) + ts, MarkTree(acc, l.mark), ts[0], ts[1..]);
  }

  lemma BodyEnds(acc: Block, us: seq<Token>)
    requires Ending(us)
    ensures ParseBody(acc, [Word("END")] + us) == Ok(acc, us)
  {
    Capitals("END");
    assert ([Word("END")] + us)[1..] == us;
    hide Upper;
  }

  lemma BodyGoes(acc: Block, all: seq<Token>, b: Block, t: Token, ts: seq<Token>)
    requires all != [] && TakeLabel(acc, all[0], all[1..]) == Start(b, t, ts) && Upper(t.text) != "END"
    requires ParsePrefetched(b, t, ts).Ok?
    ensures ParseBody(acc, all) == ParseBody(ParsePrefetched(b, t, ts).value, ParsePrefetched(b, t, ts).rest)
  {
    hide TakeLabel, ParsePrefetched, Upper;
  }

  /** The lines of an element of a CASE */
  lemma ReadElement(acc: Block, ls: Lines, us: seq<Token>)
    requires LinesOk(ls, us) && us != [] && (us[0] == Word("CASE") || us[0] == Word("END"))
    ensures ParseElement(acc, PrintLines(ls) + us) == Ok(LinesTree(acc, ls), us)
    decreases ls, 3
  {
    Capitals("CASE");
    Capitals("END");
    match ls
    case NoLines => assert PrintLines(ls) + us == us;
    case MoreLines(l, more) =>
      hide LinesOk, PrintLines, PrintMark, PrintCmds, ParseLine, CmdsTree, LineOk, Upper;
      LinesFirst(l, more, us);
      var rest := PrintLines(more) + us;
      var all := PrintMark(l.mark) + (PrintCmds(l.g) + ([EndToken] + rest));
      LineWord(l, rest);
      ReadLine(acc, l, rest);
      LineFresh(l, rest);
      ReadElement(CmdsTree(MarkTree(acc, l.mark), l.g, true), more, us);
  }

  lemma LineFresh(l: Line, us: seq<Token>)
    requires LineOk(l, us)
    ensures EndLine(us) == us
  {
    hide CmdsOk;
  }

  /** No line begins with END or CASE. */
  lemma LineWord(l: Line, us: seq<Token>)
    requires LineOk(l, us)
    ensures var all := PrintMark(l.mark) + (PrintCmds(l.g) + ([EndToken] + us));
      && all != [] && !IsWord(all[0], "CASE") && !IsWord(all[0], "END") && all[0].kind != TKN_SEMICOLON
      && (all[0].kind == TKN_END ==> false)
      && Upper(all[0].text) !in {"COMMON", "ON", "LOCKED", "THEN", "ELSE"}
  {
    LineStart(l, us);
    hide PrintCmds, Upper;
    var ts := PrintCmds(l.g) + ([EndToken] + us);
    match l.mark
    case NoMark =>
      NotBlank(l, us);
      assert PrintMark(l.mark) + ts == ts;
    case Colon(name) =>
    case Joined(name) => ColonWord(name);
    case Numbered(kind, text, colon) =>
  }

  /** Nor with COMMON. */
  lemma LinesStart(ls: Lines)
    requires LinesOk(ls, [])
    ensures PrintLines(ls) != [] ==>
      PrintLines(ls)[0].kind != TKN_END && Upper(PrintLines(ls)[0].text) != "COMMON"
  {
    if ls.MoreLines? {
      hide LinesOk, PrintLines, PrintMark, PrintCmds, LineOk, Upper;
      LinesFirst(ls.first, ls.more, []);
      assert PrintLines(ls) + [] == PrintLines(ls) && PrintLines(ls.more) + [] == PrintLines(ls.more);
      LineWord(ls.first, PrintLines(ls.more));
    }
  }

  lemma NotBlank(l: Line, us: seq<Token>)
    requires LineOk(l, us) && l.mark.NoMark?
    ensures (PrintCmds(l.g) + ([EndToken] + us))[0].kind == TKN_NAME
  {
    CmdsStart(l.g);
  }

  lemma ColonWord(name: string)
    ensures Upper(name + ":") !in {"ON", "LOCKED", "THEN", "ELSE", "CASE", "COMMON", "END"}
  {
    var s := Upper(name + ":");
    assert s[|s| - 1] == ':';
    assert "ON"[1] == 'N' && "LOCKED"[5] == 'D' && "THEN"[3] == 'N' && "ELSE"[3] == 'E' && "CASE"[3] == 'E';
    assert "END"[2] == 'D' && "COMMON"[5] == 'N';
  }

  /** The lines of a source */
  lemma ReadLines(acc: Block, ls: Lines)
    requires LinesOk(ls, [])
    ensures ParseLines(acc, PrintLines(ls)) == Ok(LinesTree(acc, ls), [])
    decreases ls
  {
    match ls
    case NoLines =>
    case MoreLines(l, more) =>
      hide LinesOk, PrintLines, PrintMark, PrintCmds, ParseLine, CmdsTree, LineOk;
      LinesFirst(l, more, []);
      assert PrintLines(more) + [] == PrintLines(more) && PrintLines(ls) + [] == PrintLines(ls);
      ReadLine(acc, l, PrintLines(more));
      ReadLines(CmdsTree(MarkTree(acc, l.mark), l.g, true), more);
  }

  // CASE

  lemma ReadCasesCmd(acc: Block, c: Cmd, us: seq<Token>)
    requires c.Cases? && CmdOk(c, us)
    ensures ParseStmt(acc, PrintCmd(c)[0], PrintCmd(c)[1..] + us) == Ok(Seq(acc, CmdTree(c, Last(us))), Left(c, us))
    decreases c, 19
  {
    hide PrintItems, ItemsOk, ParseStmt, ParseArms, ParseKeyword, ParseCase, Upper, Ending;
    var end := [Word("END"), Word("CASE")] + us;
    var ts := [Word("CASE"), EndToken] + (PrintItems(c.items) + end);
    assert PrintCmd(c)[1..] + us == ts;
    hide PrintCmd;
    ReadItems(NoArms, c.items, end);
    CaseReads(PrintItems(c.items), CmdTree(c, Last(us)).arms, us);
    BeginKeyword(ts);
    Capitals("BEGIN");
    KeywordStmt(acc, "BEGIN", ts, CmdTree(c, Last(us)), us);
  }

  lemma CaseReads(items: seq<Token>, arms: Arms, us: seq<Token>)
    requires var end := [Word("END"), Word("CASE")] + us; ParseArms(NoArms, items + end) == Ok(arms, end)
    ensures ParseCase([Word("CASE"), EndToken] + (items + ([Word("END"), Word("CASE")] + us))) == Ok(Case(arms), us)
  {
    hide ParseArms, Upper;
    Capitals("CASE");
    var end := [Word("END"), Word("CASE")] + us;
    var ts := [Word("CASE"), EndToken] + (items + end);
    assert Tail(ts) == [EndToken] + (items + end) && Tail(Tail(ts)) == items + end;
    assert Tail(end) == [Word("CASE")] + us && Tail(Tail(end)) == us;
  }

  lemma BeginKeyword(ts: seq<Token>)
    ensures ParseKeyword(Word("BEGIN"), ts) == ParseCase(ts)
  {
    hide Upper, ParseFileKeyword, ParseTest, ParseIfStmt, ParseCase, ParseGoto;
    Capitals("BEGIN");
  }

  lemma ItemsFirst(c: Phrase, on: Cmds, ls: Lines, more: Items, us: seq<Token>)
    requires ItemsOk(MoreItems(c, on, ls, more), us)
    ensures var rest := PrintItems(more) + us;
      var lines := [EndToken] + (PrintLines(ls) + rest);
      var first := if on.NoCmds? then [] else [Semi] + PrintCmds(on);
      && PhraseOk(c, first + lines) && CmdsOk(on, lines) && LinesOk(ls, rest) && ItemsOk(more, us)
      && PrintItems(MoreItems(c, on, ls, more)) + us == [Word("CASE")] + (Print(c) + (first + lines))
  {
    hide PhraseOk, CmdsOk, LinesOk, Print, PrintCmds, PrintLines;
    var rest := PrintItems(more) + us;
    var first := if on.NoCmds? then [] else [Semi] + PrintCmds(on);
    SixShape(Word("CASE"), Print(c), first, PrintLines(ls), PrintItems(more), us);
  }

  lemma SixShape(t: Token, a: seq<Token>, b: seq<Token>, c: seq<Token>, d: seq<Token>, us: seq<Token>)
    ensures [t] + (a + (b + ([EndToken] + (c + d)))) + us == [t] + (a + (b + ([EndToken] + (c + (d + us)))))
  {
  }

  /** The elements up to END */
  lemma ReadItems(arms: Arms, items: Items, us: seq<Token>)
    requires ItemsOk(items, us) && us != [] && us[0] == Word("END")
    ensures ParseArms(arms, PrintItems(items) + us) == Ok(ItemsTree(arms, items), us)
    decreases items, 3
  {
    match items
    case NoItems =>
      hide ParseArm, Upper;
      Capitals("END");
      assert PrintItems(items) + us == us;
    case MoreItems(c, on, ls, more) =>
      hide ItemsOk, PrintItems, PrintLines, PrintCmds, Print, ParseArm, ParseArms, Tree, LinesTree, CmdsTree, Upper,
           PhraseOk, CmdsOk, LinesOk, ParseExpr, ParseFirst, ParseElement, EndLine;
      ItemsFirst(c, on, ls, more, us);
      var rest := PrintItems(more) + us;
      var first := if on.NoCmds? then [] else [Semi] + PrintCmds(on);
      var lines := [EndToken] + (PrintLines(ls) + rest);
      var b := CmdsTree(Empty, on, true);
      ItemsNext(more, us);
      OkPhrase(c, first + lines);
      LinesNext(ls, rest);
      ReadFirstLine(on, PrintLines(ls) + rest);
      ReadElement(b, ls, rest);
      ItemReads(arms, Print(c), Tree(c), first + lines, b, LinesTree(b, ls), rest);
      ReadItems(Arm(arms, Tree(c), LinesTree(b, ls)), more, us);
      ItemsGo(arms, Print(c) + (first + lines), Arm(arms, Tree(c), LinesTree(b, ls)), rest);
  }

  lemma ItemsGo(arms: Arms, ts: seq<Token>, more: Arms, rest: seq<Token>)
    requires ParseArm(arms, ts) == Ok(more, rest)
    ensures ParseArms(arms, [Word("CASE")] + ts) == ParseArms(more, rest)
  {
    hide ParseArm, Upper;
    Capitals("CASE");
    assert Tail([Word("CASE")] + ts) == ts;
  }

  lemma ItemsNext(items: Items, us: seq<Token>)
    requires us != [] && us[0] == Word("END")
    ensures var ts := PrintItems(items) + us; ts != [] && (ts[0] == Word("CASE") || ts[0] == Word("END"))
  {
    hide Print, PrintLines, PrintCmds;
  }

  /** One element, from its parts */
  lemma ItemReads(arms: Arms, c: seq<Token>, e: Expr, first: seq<Token>, b: Block, body: Block, rest: seq<Token>)
    requires ParseExpr(c + first) == Ok(e, first) && ParseFirst(first).Ok? && ParseFirst(first).value == b
    requires ParseElement(b, EndLine(ParseFirst(first).rest)) == Ok(body, rest)
    ensures ParseArm(arms, c + first) == Ok(Arm(arms, e, body), rest)
  {
    hide ParseExpr, ParseFirst, ParseElement, EndLine;
  }

  lemma LinesNext(ls: Lines, rest: seq<Token>)
    requires LinesOk(ls, rest) && rest != [] && (rest[0] == Word("CASE") || rest[0] == Word("END"))
    ensures Fresh(PrintLines(ls) + rest)
  {
    Capitals("CASE");
    Capitals("END");
    if ls.NoLines? {
      assert PrintLines(ls) + rest == rest;
    } else {
      hide LinesOk, PrintLines, LineOk, PrintCmds, Upper;
      LinesFirst(ls.first, ls.more, rest);
      LineWord(ls.first, PrintLines(ls.more) + rest);
    }
  }

  /** Commands on the line of the CASE */
  lemma ReadFirstLine(on: Cmds, more: seq<Token>)
    requires CmdsOk(on, [EndToken] + more) && Fresh(more)
    ensures var r := ParseFirst((if on.NoCmds? then [] else [Semi] + PrintCmds(on)) + ([EndToken] + more));
      r.Ok? && r.value == CmdsTree(Empty, on, true) && EndLine(r.rest) == more
    decreases on, 3
  {
    hide PrintCmds, CmdsOk, ParseGroup, ParseFirst, CmdsTree;
    var lines := [EndToken] + more;
    if on.NoCmds? {
      assert [] + lines == lines && Tail(lines) == more;
      assert CmdsTree(Empty, on, true) == Empty by { EmptyTree(Empty); }
      FirstNothing(lines);
    } else {
      CmdsStart(on);
      FirstGroup(PrintCmds(on) + lines);
      assert [Semi] + PrintCmds(on) + lines == [Semi] + (PrintCmds(on) + lines);
      assert (PrintCmds(on) + lines)[1..] == PrintCmds(on)[1..] + lines;
      LeftOfLine(on, more);
      ReadCmds(Empty, on, lines);
      FreshStays(more);
    }
  }

  lemma EmptyTree(acc: Block)
    ensures CmdsTree(acc, NoCmds, true) == acc
  {
  }

  lemma FirstNothing(ts: seq<Token>)
    requires ts != [] && ts[0].kind == TKN_END
    ensures ParseFirst(ts) == Ok(Empty, ts)
  {
    hide ParseGroup;
  }

  lemma FirstGroup(ts: seq<Token>)
    requires ts != [] && ts[0].kind != TKN_END
    ensures ParseFirst([Semi] + ts) == ParseGroup(Empty, ts[0], ts[1..])
  {
    hide ParseGroup;
    assert Tail([Semi] + ts) == ts;
  }

  // File operations

  lemma ReadFileCmd(acc: Block, c: Cmd, us: seq<Token>)
    requires c.FileCmd? && CmdOk(c, us)
    ensures ParseStmt(acc, PrintCmd(c)[0], PrintCmd(c)[1..] + us) == Ok(Seq(acc, CmdTree(c, Last(us))), Left(c, us))
    decreases c, 19
  {
    hide PrintCmd, PrintParts, Print, CmdOk, ParseStmt, ParseKeyword, CmdTree, PhraseOk, PartsOk, Upper, Ending, Tree,
         ParseExpr, Left, VerbWord;
    var key := [Comma] + (Print(c.k) + (PrintParts(c) + us));
    var into := if Reads(c.verb) then [Word(c.v), Word("FROM")] else [];
    var ts := into + (Print(c.f) + key);
    FilePrint(c, us);
    FileOk(c, us);
    OkPhrase(c.f, key);
    PhraseStarts(c.f);
    assert (Print(c.f) + key)[0] == Print(c.f)[0];
    ReadVerb(c, us);
    VerbWords(c.verb);
    NotEnd(c.verb);
    KeywordStmt(acc, VerbWord(c.verb), ts, CmdTree(c, Last(us)), Left(c, us));
  }

  lemma NotEnd(verb: Verb)
    ensures VerbWord(verb) != "END"
  {
  }

  lemma FilePrint(c: Cmd, us: seq<Token>)
    requires c.FileCmd?
    ensures PrintCmd(c)[0] == Word(VerbWord(c.verb))
    ensures PrintCmd(c)[1..] + us
         == (if Reads(c.verb) then [Word(c.v), Word("FROM")] else [])
            + (Print(c.f) + ([Comma] + (Print(c.k) + (PrintParts(c) + us))))
  {
    hide Print, PrintParts;
    var into := if Reads(c.verb) then [Word(c.v), Word("FROM")] else [];
    FileShape(Word(VerbWord(c.verb)), into, Print(c.f), Print(c.k), PrintParts(c), us);
  }

  lemma FileShape(t: Token, a: seq<Token>, b: seq<Token>, c: seq<Token>, d: seq<Token>, us: seq<Token>)
    ensures ([t] + (a + (b + ([Comma] + (c + d)))))[1..] + us == a + (b + ([Comma] + (c + (d + us))))
  {
  }

  lemma FileOk(c: Cmd, us: seq<Token>)
    requires c.FileCmd? && CmdOk(c, us)
    ensures Ending(us) && PhraseOk(c.f, [Comma] + (Print(c.k) + (PrintParts(c) + us)))
    ensures !c.verb.Delete? && !c.verb.DeleteU? ==> c.f.Named?
    ensures PhraseOk(c.k, PrintParts(c) + us) && PartsOk(c, us)
  {
    hide PhraseOk, PrintParts, PartsOk;
  }

  /** From the keyword to the clauses */
  lemma ReadVerb(c: Cmd, us: seq<Token>)
    requires c.FileCmd? && CmdOk(c, us)
    ensures ParseKeyword(Word(VerbWord(c.verb)),
                         (if Reads(c.verb) then [Word(c.v), Word("FROM")] else [])
                         + (Print(c.f) + ([Comma] + (Print(c.k) + (PrintParts(c) + us)))))
         == Ok(CmdTree(c, Last(us)), Left(c, us))
    decreases c, 18
  {
    hide PrintParts, CmdOk, PhraseOk, PartsOk, Upper, Ending, ParseKey, ParseExpr, CmdTree, Tree, Left, Print,
         ParseKeyword, ParseDelete, ParseRecordLock, ParseRead;
    FileOk(c, us);
    var key := [Comma] + (Print(c.k) + (PrintParts(c) + us));
    var ts := Print(c.f) + key;
    OkPhrase(c.f, key);
    ReadKey(c, us);
    if Reads(c.verb) {
      VerbKeyword(c.verb, [Word(c.v), Word("FROM")] + ts);
      NamedTree(c.f);
      ReadsFrom(LockNumber(c.verb), c.v, c.f.name, key);
    } else {
      assert [] + ts == ts;
      VerbKeyword(c.verb, ts);
      if c.f.Named? {
        NamedTree(c.f);
        LocksRecord(LockNumber(c.verb), c.f.name, key);
      }
      Deletes(LockNumber(c.verb), c.f, key);
    }
  }

  function LockNumber(verb: Verb): nat {
    VerbCall(verb).lock
  }

  lemma Deletes(lock: nat, f: Phrase, key: seq<Token>)
    requires ParseExpr(Print(f) + key) == Ok(Tree(f), key)
    ensures ParseDelete(lock, Print(f) + key) == ParseKey(Call(lock, OP_DELETE, false, false), One(Tree(f)), key)
  {
    hide ParseExpr, Print, Tree, ParseKey;
  }

  lemma LocksRecord(lock: nat, file: string, key: seq<Token>)
    ensures ParseRecordLock(lock, [Word(file)] + key)
         == ParseKey(Call(lock, OP_LOCKREC, true, false), One(Var(file)), key)
  {
    hide ParseKey;
    assert Tail([Word(file)] + key) == key;
  }

  lemma ReadsFrom(lock: nat, v: string, file: string, key: seq<Token>)
    ensures ParseRead(lock, [Word(v), Word("FROM")] + ([Word(file)] + key))
         == ParseKey(Call(lock, OP_READ, lock > 0, true), Two(Var(v), Var(file)), key)
  {
    hide ParseKey, Upper;
    Capitals("FROM");
    var ts := [Word(file)] + key;
    var all := [Word(v), Word("FROM")] + ts;
    assert Tail(all) == [Word("FROM")] + ts && Tail(Tail(all)) == ts && Tail(ts) == key;
  }

  lemma NamedTree(e: Phrase)
    requires e.Named?
    ensures Tree(e) == Var(e.name) && Print(e) == [Word(e.name)]
  {
    assert Tree(e) == Bare(e, false);
  }

  lemma VerbKeyword(verb: Verb, ts: seq<Token>)
    ensures ParseKeyword(Word(VerbWord(verb)), ts)
         == match verb
            case Delete => ParseDelete(0, ts)
            case DeleteU => ParseDelete(OP_ULOCK, ts)
            case LockL => ParseRecordLock(OP_LLOCK, ts)
            case LockU => ParseRecordLock(OP_ULOCK, ts)
            case Read => ParseRead(0, ts)
            case ReadL => ParseRead(OP_LLOCK, ts)
            case ReadU => ParseRead(OP_ULOCK, ts)
  {
    hide Upper, ParseTest, ParseIfStmt, ParseCase, ParseGoto, ParseDelete, ParseRecordLock, ParseRead;
    VerbWords(verb);
  }

  function ArgsOf(c: Cmd): Exprs
    requires c.FileCmd?
  {
    if Reads(c.verb) then Three(Var(c.v), Tree(c.f), Tree(c.k)) else Two(Tree(c.f), Tree(c.k))
  }

  /** The record id and the clauses */
  lemma ReadKey(c: Cmd, us: seq<Token>)
    requires c.FileCmd? && PhraseOk(c.k, PrintParts(c) + us) && PartsOk(c, us) && Ending(us)
    ensures var args := if Reads(c.verb) then Two(Var(c.v), Tree(c.f)) else One(Tree(c.f));
      ParseKey(VerbCall(c.verb), args, [Comma] + (Print(c.k) + (PrintParts(c) + us)))
      == Ok(CmdTree(c, Last(us)), Left(c, us))
    decreases c, 17
  {
    hide PrintParts, PhraseOk, PartsOk, Ending, ParseFile, ParseExpr, Tree, Print, CmdTree, Left;
    var parts := PrintParts(c) + us;
    OkPhrase(c.k, parts);
    assert Tail([Comma] + (Print(c.k) + parts)) == Print(c.k) + parts;
    ReadParts(c, us);
  }

  /** What comes after ON ERROR, after LOCKED, and after THEN */
  function AfterThen(c: Cmd, us: seq<Token>): seq<Token>
    requires c.FileCmd?
  {
    PrintPart([Word("ELSE")], c.els) + us
  }

  function AfterLocked(c: Cmd, us: seq<Token>): seq<Token>
    requires c.FileCmd?
  {
    PrintPart([Word("THEN")], c.thn) + AfterThen(c, us)
  }

  function AfterError(c: Cmd, us: seq<Token>): seq<Token>
    requires c.FileCmd?
  {
    PrintPart([Word("LOCKED")], c.locked) + AfterLocked(c, us)
  }

  predicate Once(ts: seq<Token>) {
    EndLine(EndLine(ts)) == EndLine(ts)
  }

  lemma PartOnce(words: seq<Token>, p: Part, us: seq<Token>)
    requires words != [] && words[0].kind == TKN_NAME && (p.NoPart? ==> Once(us))
    ensures Once(PrintPart(words, p) + us)
  {
    hide PrintPart, PrintClause;
    if p.NoPart? {
      NoPartNothing(words, us);
    } else {
      PartStarts(words, p, us);
    }
  }

  lemma Upcoming(words: seq<Token>, p: Part, us: seq<Token>, word: string)
    requires words != [] && words[0].kind == TKN_NAME
    requires p != NoPart ==> Upper(words[0].text) != word
    requires p.NoPart? ==> !IsWord(Look(EndLine(us)), word)
    ensures !IsWord(Look(EndLine(PrintPart(words, p) + us)), word)
  {
    hide PrintPart, PrintClause, Upper;
    if p.NoPart? {
      NoPartNothing(words, us);
    } else {
      PartStarts(words, p, us);
    }
  }

  /** The clauses, one after the other */
  lemma ReadParts(c: Cmd, us: seq<Token>)
    requires c.FileCmd? && PartsOk(c, us) && Ending(us)
    ensures ParseFile(VerbCall(c.verb), ArgsOf(c), PrintParts(c) + us) == Ok(CmdTree(c, Last(us)), Left(c, us))
    decreases c, 16
  {
    hide PrintPart, PartTree, PartOk, ParseOnError, ParseLocked, ParseChoice, EndLine, Upper, Ending, Settled, Tree,
         VerbCall;
    assert PrintParts(c) + us == PrintPart([Word("ON"), Word("ERROR")], c.onError) + AfterError(c, us) by {
      PartsShape(c, us);
    }
    ReadOnError(c, us);
    ReadLocked(c, us, c.onError.NoPart?);
    PartLasts(c, us);
    ReadChoice(c, us, c.locked.NoPart? && (VerbCall(c.verb).canLock || c.onError.NoPart?));
  }

  lemma PartsShape(c: Cmd, us: seq<Token>)
    requires c.FileCmd?
    ensures PrintParts(c) + us == PrintPart([Word("ON"), Word("ERROR")], c.onError) + AfterError(c, us)
  {
    hide PrintPart;
  }

  lemma PartLasts(c: Cmd, us: seq<Token>)
    requires c.FileCmd?
    ensures Last(AfterThen(c, us)) == Before(c.els, Last(us))
    ensures Last(AfterLocked(c, us)) == Before(c.thn, Before(c.els, Last(us)))
    ensures Last(AfterError(c, us)) == Before(c.locked, Before(c.thn, Before(c.els, Last(us))))
  {
    hide PrintPart;
    BeforeIs([Word("ELSE")], c.els, us);
    BeforeIs([Word("THEN")], c.thn, AfterThen(c, us));
    BeforeIs([Word("LOCKED")], c.locked, AfterLocked(c, us));
  }

  lemma PartFacts(c: Cmd, us: seq<Token>)
    requires c.FileCmd? && PartsOk(c, us) && Ending(us)
    ensures PartOk(c.onError, AfterError(c, us)) && PartOk(c.locked, AfterLocked(c, us))
    ensures PartOk(c.thn, AfterThen(c, us)) && PartOk(c.els, us)
    ensures c.locked != NoPart ==> VerbCall(c.verb).canLock
    ensures VerbCall(c.verb).thenElse <==> c.thn != NoPart || c.els != NoPart
    ensures c.els.NoPart? ==> Settled(us)
    ensures Ending(AfterThen(c, us)) && Ending(AfterLocked(c, us)) && Ending(AfterError(c, us))
    ensures Once(AfterThen(c, us)) && Once(AfterLocked(c, us)) && Once(AfterError(c, us))
  {
    hide PrintPart, PartOk, Ending, Settled, Upper, Once;
    Capitals("ELSE");
    Capitals("THEN");
    Capitals("LOCKED");
    if c.els.NoPart? {
      SettledOnce(us);
    }
    PartEnds([Word("ELSE")], c.els, us);
    PartEnds([Word("THEN")], c.thn, AfterThen(c, us));
    PartEnds([Word("LOCKED")], c.locked, AfterLocked(c, us));
    PartOnce([Word("ELSE")], c.els, us);
    PartOnce([Word("THEN")], c.thn, AfterThen(c, us));
    PartOnce([Word("LOCKED")], c.locked, AfterLocked(c, us));
  }

  lemma SettledOnce(us: seq<Token>)
    requires Settled(us)
    ensures Once(us)
  {
    SettledEnds(us);
  }

  lemma ReadOnError(c: Cmd, us: seq<Token>)
    requires c.FileCmd? && PartsOk(c, us) && Ending(us)
    ensures ParseOnError(EndLine(PrintPart([Word("ON"), Word("ERROR")], c.onError) + AfterError(c, us)))
         == Ok(PartTree(c.onError, Last(AfterError(c, us))),
               if c.onError.NoPart? then EndLine(AfterError(c, us)) else AfterError(c, us))
    decreases c, 15
  {
    hide PrintPart, PrintClause, PartTree, PartOk, PartsOk, ParseOptional, Ending, Settled, Upper, EndLine, AfterError;
    Capitals("ON");
    Capitals("ERROR");
    PartFacts(c, us);
    var rest := AfterError(c, us);
    if c.onError.NoPart? {
      NoPartNothing([Word("ON"), Word("ERROR")], rest);
      NotOn(c, us);
    } else {
      PartStarts([Word("ON"), Word("ERROR")], c.onError, rest);
      var ts := [Word("ON"), Word("ERROR")] + (PrintClause(c.onError) + rest);
      assert Tail(ts) == [Word("ERROR")] + (PrintClause(c.onError) + rest);
      ReadOptional("ERROR", c.onError, rest);
    }
  }

  lemma NotOn(c: Cmd, us: seq<Token>)
    requires c.FileCmd? && PartsOk(c, us) && Ending(us)
    ensures !IsWord(Look(EndLine(AfterError(c, us))), "ON")
  {
    hide PrintPart, PartOk, Ending, Settled, Upper, EndLine;
    Capitals("ELSE");
    Capitals("THEN");
    Capitals("LOCKED");
    if c.els.NoPart? {
      SettledEnds(us);
    }
    Upcoming([Word("ELSE")], c.els, us, "ON");
    Upcoming([Word("THEN")], c.thn, AfterThen(c, us), "ON");
    Upcoming([Word("LOCKED")], c.locked, AfterLocked(c, us), "ON");
  }

  lemma NotLocked(c: Cmd, us: seq<Token>)
    requires c.FileCmd? && PartsOk(c, us) && Ending(us)
    ensures !IsWord(Look(EndLine(AfterLocked(c, us))), "LOCKED")
  {
    hide PrintPart, PartOk, Ending, Settled, Upper, EndLine;
    Capitals("ELSE");
    Capitals("THEN");
    if c.els.NoPart? {
      SettledEnds(us);
    }
    Upcoming([Word("ELSE")], c.els, us, "LOCKED");
    Upcoming([Word("THEN")], c.thn, AfterThen(c, us), "LOCKED");
  }

  lemma ReadLocked(c: Cmd, us: seq<Token>, eaten: bool)
    requires c.FileCmd? && PartsOk(c, us) && Ending(us)
    ensures ParseLocked(VerbCall(c.verb), if eaten then EndLine(AfterError(c, us)) else AfterError(c, us))
         == Ok(PartTree(c.locked, Last(AfterLocked(c, us))),
               if c.locked.NoPart? && (VerbCall(c.verb).canLock || eaten) then EndLine(AfterLocked(c, us))
               else AfterLocked(c, us))
    decreases c, 15
  {
    hide PrintPart, PrintClause, PartTree, PartOk, PartsOk, ParseOptional, Ending, Settled, Upper, EndLine, AfterLocked,
         VerbCall;
    Capitals("LOCKED");
    PartFacts(c, us);
    var rest := AfterLocked(c, us);
    if c.locked.NoPart? {
      NoPartNothing([Word("LOCKED")], rest);
      NotLocked(c, us);
      NoWordHere("LOCKED", EndLine(rest));
    } else {
      PartStarts([Word("LOCKED")], c.locked, rest);
      ReadOptional("LOCKED", c.locked, rest);
    }
  }

  lemma ReadChoice(c: Cmd, us: seq<Token>, eaten: bool)
    requires c.FileCmd? && PartsOk(c, us) && Ending(us)
    ensures forall args, onError, locked ::
      ParseChoice(VerbCall(c.verb), args, onError, locked,
                  if eaten then EndLine(AfterLocked(c, us)) else AfterLocked(c, us))
      == Ok(File(VerbCall(c.verb), args, onError, locked, PartTree(c.thn, Last(AfterThen(c, us))),
                 PartTree(c.els, Last(us))),
            if c.els.NoPart? && (c.thn != NoPart || eaten) then EndLine(us) else us)
    decreases c, 15
  {
    hide PrintPart, PrintClause, PartTree, PartOk, PartsOk, ParseClause, ParseSuccess, Ending, Settled, Upper, EndLine,
         AfterThen, VerbCall;
    Capitals("THEN");
    Capitals("ELSE");
    PartFacts(c, us);
    var rest := AfterThen(c, us);
    if c.thn.NoPart? {
      NoPartNothing([Word("THEN")], rest);
      assert PartTree(c.thn, Last(rest)) == Absent;
      ReadLastPart(c, us);
    } else {
      PartStarts([Word("THEN")], c.thn, rest);
      ReadClause(c.thn, rest);
      PartBody(c.thn, Last(rest));
      ElsePart(c, us);
      var ts := [Word("THEN")] + (PrintClause(c.thn) + rest);
      assert Tail(ts) == PrintClause(c.thn) + rest;
      forall args, onError, locked
        ensures ParseSuccess(VerbCall(c.verb), args, onError, locked, Tail(ts))
             == Ok(File(VerbCall(c.verb), args, onError, locked, PartTree(c.thn, Last(rest)),
                        PartTree(c.els, Last(us))),
                   if c.els.NoPart? then EndLine(us) else us)
      {
        SuccessReads(VerbCall(c.verb), args, onError, locked, Tail(ts), PartTree(c.thn, Last(rest)), rest);
      }
    }
  }

  /** ELSE without THEN, or neither */
  lemma ReadLastPart(c: Cmd, us: seq<Token>)
    requires c.FileCmd? && PartsOk(c, us) && Ending(us)
    ensures c.els.NoPart? ==> AfterThen(c, us) == us && PartTree(c.els, Last(us)) == Absent
    ensures c.els != NoPart ==>
      && EndLine(AfterThen(c, us)) == [Word("ELSE")] + (PrintClause(c.els) + us)
      && Tail([Word("ELSE")] + (PrintClause(c.els) + us)) == PrintClause(c.els) + us
      && ParseClause(PrintClause(c.els) + us) == Ok(PartTree(c.els, Last(us)).body, us)
      && PartTree(c.els, Last(us)) == Clause(PartTree(c.els, Last(us)).body)
    decreases c, 14
  {
    hide PrintPart, PrintClause, PartTree, PartOk, PartsOk, ParseClause, Ending, Settled, Upper, EndLine;
    PartFacts(c, us);
    if c.els.NoPart? {
      NoPartNothing([Word("ELSE")], us);
    } else {
      PartStarts([Word("ELSE")], c.els, us);
      ReadClause(c.els, us);
      PartBody(c.els, Last(us));
    }
  }

  lemma ElsePart(c: Cmd, us: seq<Token>)
    requires c.FileCmd? && PartsOk(c, us) && Ending(us)
    ensures ParseOptional("ELSE", EndLine(AfterThen(c, us)))
         == Ok(PartTree(c.els, Last(us)), if c.els.NoPart? then EndLine(us) else us)
    decreases c, 14
  {
    hide PrintPart, PrintClause, PartTree, PartOk, PartsOk, ParseOptional, Ending, Settled, Upper, EndLine;
    PartFacts(c, us);
    ReadElse(c.els, us);
  }

  lemma SuccessReads(call: Call, args: Exprs, onError: Clause, locked: Clause, ts: seq<Token>, k: Clause,
                     more: seq<Token>)
    requires k.Clause? && ParseClause(ts) == Ok(k.body, more) && ParseOptional("ELSE", EndLine(more)).Ok?
    ensures var r := ParseOptional("ELSE", EndLine(more));
      ParseSuccess(call, args, onError, locked, ts) == Ok(File(call, args, onError, locked, k, r.value), r.rest)
  {
    hide ParseClause, ParseOptional, EndLine;
  }
}
