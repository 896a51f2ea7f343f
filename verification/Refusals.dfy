/** What is not a statement: words without which nothing is read. */
module Refusals {
  import opened Syntax
  import opened Programs
  import opened Grammar
  import opened StatementGrammar
  import opened Phrases
  import opened Scripts
  import opened ReadingBack
  import opened Sources

  /** The words that begin a statement, where no variable of that name is set */
  predicate IsStatement(word: string) {
    word in {"LOOP", "REPEAT", "EXIT", "CONTINUE", "WHILE", "UNTIL", "IF", "BEGIN", "GOTO", "GO", "END",
             "DELETE", "DELETEU", "READ", "READL", "READU", "RECORDLOCKL", "RECORDLOCKU"}
  }

  /** A line that begins with any other word sets a variable. */
  lemma NeedsStatement(word: string, us: seq<Token>)
    requires First([Word(word)] + us).Ok?
    ensures SetOf(Look(us).kind).Some? || IsStatement(Upper(word))
  {
    hide Upper, ParseSet, ParseEnd, ParseKeyword, IsStatement;
    assert ([Word(word)] + us)[1..] == us;
    KeywordKnown(word, us);
    EndKnown(word);
  }

  lemma EndKnown(word: string)
    ensures Upper(word) == "END" ==> IsStatement(Upper(word))
  {
  }

  lemma KeywordKnown(word: string, us: seq<Token>)
    ensures ParseKeyword(Word(word), us).Ok? ==> IsStatement(Upper(word))
  {
    hide Upper, ParseTest, ParseIfStmt, ParseCase, ParseGoto, ParseDelete, ParseRead, ParseRecordLock;
    if !IsStatement(Upper(word)) {
      assert ParseKeyword(Word(word), us) == ParseFileKeyword(Word(word), us);
      assert ParseFileKeyword(Word(word), us) == Err;
    }
  }

  /** The statement of a keyword */
  lemma ByKeyword(word: string, us: seq<Token>)
    requires First([Word(word)] + us).Ok? && NoAssign(us) && Upper(word) != "END"
    ensures ParseKeyword(Word(word), us).Ok?
  {
    hide Upper, ParseKeyword;
    assert ([Word(word)] + us)[1..] == us;
  }

  /** READ, READL and READU: a variable, FROM, a file and a comma */
  lemma ReadNeeds(verb: Verb, us: seq<Token>)
    requires Reads(verb) && First([Word(VerbWord(verb))] + us).Ok? && NoAssign(us)
    ensures |us| >= 4 && us[0].kind == TKN_NAME && IsWord(us[1], "FROM")
    ensures us[2].kind == TKN_NAME && us[3].kind == TKN_COMMA
  {
    hide ParseKeyword, First;
    VerbWords(verb);
    ByKeyword(VerbWord(verb), us);
    VerbKeyword(verb, us);
    ReadTokens(LockNumber(verb), us);
  }

  lemma ReadTokens(lock: nat, us: seq<Token>)
    requires ParseRead(lock, us).Ok?
    ensures |us| >= 4 && us[0].kind == TKN_NAME && IsWord(us[1], "FROM")
    ensures us[2].kind == TKN_NAME && us[3].kind == TKN_COMMA
  {
    hide Upper, ParseExpr, ParseFile;
  }

  /** RECORDLOCKL and RECORDLOCKU: a file and a comma */
  lemma LockNeeds(verb: Verb, us: seq<Token>)
    requires (verb.LockL? || verb.LockU?) && First([Word(VerbWord(verb))] + us).Ok? && NoAssign(us)
    ensures |us| >= 2 && us[0].kind == TKN_NAME && us[1].kind == TKN_COMMA
  {
    hide ParseKeyword, First;
    VerbWords(verb);
    ByKeyword(VerbWord(verb), us);
    VerbKeyword(verb, us);
    LockTokens(LockNumber(verb), us);
  }

  lemma LockTokens(lock: nat, us: seq<Token>)
    requires ParseRecordLock(lock, us).Ok?
    ensures |us| >= 2 && us[0].kind == TKN_NAME && us[1].kind == TKN_COMMA
  {
    hide ParseExpr, ParseFile;
  }

  /** DELETE and DELETEU: an expression and a comma */
  lemma DeleteNeeds(verb: Verb, us: seq<Token>)
    requires (verb.Delete? || verb.DeleteU?) && First([Word(VerbWord(verb))] + us).Ok? && NoAssign(us)
    ensures ParseExpr(us).Ok? && Look(ParseExpr(us).rest).kind == TKN_COMMA
  {
    hide ParseKeyword, First, ParseExpr;
    VerbWords(verb);
    ByKeyword(VerbWord(verb), us);
    VerbKeyword(verb, us);
    DeleteTokens(LockNumber(verb), us);
  }

  lemma DeleteTokens(lock: nat, us: seq<Token>)
    requires ParseDelete(lock, us).Ok?
    ensures ParseExpr(us).Ok? && Look(ParseExpr(us).rest).kind == TKN_COMMA
  {
    hide ParseExpr, ParseFile;
  }

  /** IF: a condition, and THEN or ELSE behind it or on the next line */
  lemma IfNeeds(us: seq<Token>)
    requires First([Word("IF")] + us).Ok? && NoAssign(us)
    ensures ParseExpr(us).Ok?
    ensures var next := Look(EndLine(ParseExpr(us).rest)); IsWord(next, "THEN") || IsWord(next, "ELSE")
  {
    hide ParseKeyword, First, ParseExpr;
    Capitals("IF");
    ByKeyword("IF", us);
    IfKeyword(us);
    IfTokens(us);
  }

  lemma IfTokens(us: seq<Token>)
    requires ParseIfStmt(us).Ok?
    ensures ParseExpr(us).Ok?
    ensures var next := Look(EndLine(ParseExpr(us).rest)); IsWord(next, "THEN") || IsWord(next, "ELSE")
  {
    hide ParseExpr, ParseThen, ParseClause, Upper;
  }

  /** BEGIN: CASE and the end of the line, and END CASE behind the elements */
  lemma CaseNeeds(us: seq<Token>)
    requires First([Word("BEGIN")] + us).Ok? && NoAssign(us)
    ensures |us| >= 1 && IsWord(us[0], "CASE") && Look(us[1..]).kind == TKN_END
    ensures var r := ParseArms(NoArms, Tail(us[1..]));
      r.Ok? && |r.rest| >= 2 && IsWord(r.rest[0], "END") && IsWord(r.rest[1], "CASE")
  {
    hide ParseKeyword, First, ParseArms;
    Capitals("BEGIN");
    ByKeyword("BEGIN", us);
    BeginKeyword(us);
    CaseTokens(us);
  }

  lemma CaseTokens(us: seq<Token>)
    requires ParseCase(us).Ok?
    ensures |us| >= 1 && IsWord(us[0], "CASE") && Look(us[1..]).kind == TKN_END
    ensures var r := ParseArms(NoArms, Tail(us[1..]));
      r.Ok? && |r.rest| >= 2 && IsWord(r.rest[0], "END") && IsWord(r.rest[1], "CASE")
  {
    hide ParseArms, Upper;
    assert Tail(us) == us[1..];
    ArmsEnd(NoArms, Tail(us[1..]));
  }

  lemma {:induction false} ArmsEnd(arms: Arms, ts: seq<Token>)
    requires ParseArms(arms, ts).Ok?
    ensures var rest := ParseArms(arms, ts).rest; rest == [] || IsWord(rest[0], "END")
    decreases |ts|
  {
    hide ParseArm, Upper;
    if !IsWord(Look(ts), "END") && ts != [] {
      var r := ParseArm(arms, Tail(ts));
      ArmsEnd(r.value, r.rest);
    }
  }

  /** GOTO: a name or a number */
  lemma GoNeeds(us: seq<Token>)
    requires First([Word("GOTO")] + us).Ok? && NoAssign(us)
    ensures us != [] && us[0].kind in {TKN_LABEL, TKN_NAME, TKN_NUM, TKN_FLOAT, TKN_NAME_LBR}
  {
    hide ParseKeyword, First;
    Capitals("GOTO");
    ByKeyword("GOTO", us);
    GoWords(us);
    assert ParseGoto(us).Ok?;
  }
}
