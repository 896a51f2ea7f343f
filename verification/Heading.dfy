/** The COMMON statements at the head of a program. */
module Heading {
  import opened Outcomes
  import opened Listing
  import opened CodeImages
  import opened Syntax
  import opened StatementGrammar
  import opened Storages
  import opened CommonBlocks
  import opened Labels
  import opened Compilers
  import opened Statements

  /** name_chars */
  predicate IsNameChar(c: char) {
    'A' <= c <= 'Z' || '0' <= c <= '9' || c == '.' || c == '$' || c == '%' || c == '_'
  }

  predicate IsCallName(s: string) {
    forall i :: 0 <= i < |s| ==> IsNameChar(s[i])
  }

  /** A line that starts with the statement, not with a variable or label of that name */
  predicate StartsCommon(ts: seq<Token>) {
    && Look(ts).kind == TKN_NAME && IsWord(Look(ts), "COMMON")
    && Look(Tail(ts)).kind in {TKN_NAME, TKN_NAME_LBR, TKN_DIV, TKN_IDIV}
  }

  /** The characters that may come before a name, with the texts that the scanner gives
      them */
  predicate IsPrefix(t: Token) {
    || (t.kind == TKN_DOLLAR && t.text == "$")
    || (t.kind == TKN_UNDERSCORE && t.text == "_")
    || (t.kind == TKN_OR && (t.text == "!" || Upper(t.text) == "OR"))
  }

  /** The text that is taken as a name: none at the end of a line */
  function NameOf(t: Token): string {
    if t.kind == TKN_END then "" else Upper(t.text)
  }

  /** get_name(), and the slash after it.  A line may end where the name should be. */
  function ReadName(prefix: string, ts: seq<Token>): Option<(string, seq<Token>)> {
    var t := Look(ts);
    if t.kind == TKN_STRING || !IsCallName(NameOf(t)) || Look(Tail(ts)).kind != TKN_DIV then None
    else Some((if prefix + NameOf(t) == "" then "$" else prefix + NameOf(t), Tail(Tail(ts))))
  }

  /** The name between the slashes; $ for a block without one */
  function ReadBlock(ts: seq<Token>): Option<(string, seq<Token>)> {
    if Look(ts).kind == TKN_IDIV then Some(("$", Tail(ts)))
    else if Look(ts).kind == TKN_DIV then
      var us := Tail(ts);
      match if IsPrefix(Look(us)) then ReadName(Look(us).text, Tail(us)) else ReadName("", us)
      case None => None
      case Some(r) => Some(r)
    else Some(("$", ts))
  }

  /** Scalars, separated by commas, to the end of the line. */
  function ReadMembers(ts: seq<Token>, st: Storage, b: string): Option<(Storage, seq<Token>)>
    decreases |ts|
  {
    if Look(ts).kind != TKN_NAME then None
    else match Added(st, b, Scalar(Look(ts).text))
      case None => None
      case Some(st1) =>
        if Look(Tail(ts)).kind == TKN_COMMA then ReadMembers(Tail(Tail(ts)), st1, b)
        else if Look(Tail(ts)).kind == TKN_SEMICOLON then None
        else Some((st1, EndLine(Tail(ts))))
  }

  function ReadCommon(ts: seq<Token>, st: Storage): Option<(Storage, seq<Token>)> {
    match ReadBlock(ts)
    case None => None
    case Some(r) => ReadMembers(r.1, st, r.0)
  }

  lemma {:induction false} MembersShorter(ts: seq<Token>, st: Storage, b: string)
    ensures var r := ReadMembers(ts, st, b); r.Some? ==> |r.value.1| < |ts|
    decreases |ts|
  {
    if Look(ts).kind == TKN_NAME && Added(st, b, Scalar(Look(ts).text)).Some? {
      if Look(Tail(ts)).kind == TKN_COMMA {
        MembersShorter(Tail(Tail(ts)), Added(st, b, Scalar(Look(ts).text)).value, b);
      }
    }
  }

  lemma CommonShorter(ts: seq<Token>, st: Storage)
    ensures var r := ReadCommon(ts, st); r.Some? ==> |r.value.1| < |ts|
  {
    hide ReadMembers;
    match ReadBlock(ts)
    case None =>
    case Some(r) => MembersShorter(r.1, st, r.0);
  }

  /** Blank lines and COMMON statements; the table they leave, and the other lines */
  function ReadHead(ts: seq<Token>, st: Storage): Option<(Storage, seq<Token>)>
    decreases |ts|
  {
    if ts == [] then Some((st, ts))
    else if Look(ts).kind == TKN_END then ReadHead(EndLine(Tail(ts)), st)
    else if !StartsCommon(ts) then Some((st, ts))
    else
      CommonShorter(Tail(ts), st);
      match ReadCommon(Tail(ts), st)
      case None => None
      case Some(r) => ReadHead(r.1, r.0)
  }

  /** One member of st_common_common()'s loop */
  method AddMember(c: Compiler, b: string, name: string) returns (r: Outcome)
    requires Ready(c)
    modifies c`vars
    ensures r.Pass? <==> Added(old(c.vars), b, Scalar(name)).Some?
    ensures r.Fail? ==> r.error == Rejected
    ensures Ready(c) && (r.Pass? ==> c.vars == Added(old(c.vars), b, Scalar(name)).value)
  {
    hide CodeImage.Valid, Labelled, Scanned;
    var st := c.vars;
    if b !in st.blocks {
      st := st.(table := st.table + [b], count := st.count + 1,
                blocks := st.blocks[b := CommonBlock(st.count, 0, [], [], [], [])], order := st.order + [b]);
    }
    var block := st.blocks[b];
    var offset := |block.cells| + 1;
    if name in st.info {
      return Fail(Rejected);
    }
    var more := CommonBlock(block.varNo, offset, block.names + [name], block.rows + [0], block.cols + [0],
                            block.cells + [name]);
    c.vars := st.(info := st.info[name := CommonVar(block.varNo, offset)],
                  attrs := st.attrs[name := Attr(0, |st.order|)],
                  blocks := st.blocks[b := more]);
    return Pass;
  }

  method BlockName(c: Compiler) returns (r: Outcome, b: string)
    requires Ready(c)
    modifies c
    ensures r.Fail? ==> r.error == Rejected && ReadBlock(old(c.rest)) == None
    ensures r.Pass? ==> Ready(c) && State(c) == old(State(c)) && ReadBlock(old(c.rest)) == Some((b, c.rest))
  {
    hide Ready;
    b := "$";
    if Look(c.rest).kind == TKN_IDIV {
      Next(c);
    } else if Look(c.rest).kind == TKN_DIV {
      Next(c);
      var prefix := "";
      if IsPrefix(Look(c.rest)) {
        prefix := Look(c.rest).text;
        Next(c);
      }
      if Look(c.rest).kind == TKN_STRING {
        return Fail(Rejected), b;
      }
      Next(c);
      var name := NameOf(c.token);
      if !IsCallName(name) || Look(c.rest).kind != TKN_DIV {
        return Fail(Rejected), b;
      }
      Next(c);
      if |prefix + name| > 0 {
        b := prefix + name;
      }
    }
    return Pass, b;
  }

  /** st_common() */
  method Common(c: Compiler) returns (r: Outcome)
    requires Ready(c)
    modifies c
    ensures r.Fail? ==> r.error == Rejected && ReadCommon(old(c.rest), old(c.vars)) == None
    ensures r.Pass? ==> Ready(c) && ReadCommon(old(c.rest), old(c.vars)) == Some((c.vars, c.rest))
    ensures r.Pass? ==> c.image.list == old(c.image.list)
    ensures r.Pass? ==> c.jumpStack == old(c.jumpStack) && c.jumpNo == old(c.jumpNo)
  {
    hide Ready, Added, ReadBlock;
    var b;
    r, b := BlockName(c);
    if r.Fail? {
      return;
    }
    ghost var ts, st := c.rest, c.vars;
    while true
      invariant Ready(c) && ReadMembers(ts, st, b) == ReadMembers(c.rest, c.vars, b)
      invariant c.image.list == old(c.image.list) && c.jumpStack == old(c.jumpStack) && c.jumpNo == old(c.jumpNo)
      decreases |c.rest|
    {
      if Look(c.rest).kind != TKN_NAME {
        return Fail(Rejected);
      }
      Next(c);
      r := AddMember(c, b, c.token.text);
      if r.Fail? || Look(c.rest).kind == TKN_SEMICOLON {
        return Fail(Rejected);
      }
      if Look(c.rest).kind != TKN_COMMA {
        break;
      }
      Next(c);
    }
    SkipLineEnd(c);
    return Pass;
  }

  /** The first lines of comp() */
  method Head(c: Compiler) returns (r: Outcome)
    requires Ready(c)
    modifies c
    ensures r.Fail? ==> r.error == Rejected && ReadHead(old(c.rest), old(c.vars)) == None
    ensures r.Pass? ==> Ready(c) && ReadHead(old(c.rest), old(c.vars)) == Some((c.vars, c.rest))
    ensures r.Pass? ==> c.image.list == old(c.image.list)
    ensures r.Pass? ==> c.jumpStack == old(c.jumpStack) && c.jumpNo == old(c.jumpNo)
  {
    hide Ready, ReadCommon;
    while c.rest != [] && (Look(c.rest).kind == TKN_END || StartsCommon(c.rest))
      invariant Ready(c) && ReadHead(old(c.rest), old(c.vars)) == ReadHead(c.rest, c.vars)
      invariant c.image.list == old(c.image.list) && c.jumpStack == old(c.jumpStack) && c.jumpNo == old(c.jumpNo)
      decreases |c.rest|
    {
      ghost var ts, st := c.rest, c.vars;
      Next(c);
      if c.token.kind == TKN_END {
        SkipLineEnd(c);
      } else {
        CommonShorter(Tail(ts), st);
        r := Common(c);
        if r.Fail? {
          return;
        }
      }
    }
    return Pass;
  }

  /** What the head leaves: a table in order, with blocks of members only. */
  ghost predicate GoodHead(st: Storage) {
    WellPlaced(st) && Filled(st) && forall b :: b in st.blocks ==> !IsPool(b)
  }

  lemma NamedNoPool(ts: seq<Token>)
    ensures var r := ReadBlock(ts); r.Some? ==> !IsPool(r.value.0)
  {
    hide ReadName;
    if Look(ts).kind == TKN_DIV {
      var us := Tail(ts);
      if IsPrefix(Look(us)) {
        PrefixNoPool(Look(us));
        ReadNoPool(Look(us).text, Tail(us));
      } else {
        ReadNoPool("", us);
      }
    }
  }

  lemma PrefixNoPool(t: Token)
    requires IsPrefix(t)
    ensures !IsPool(t.text)
  {
    assert t.kind == TKN_OR && t.text != "!" ==> |t.text| == 2 && Upper(t.text)[1] == 'R';
  }

  lemma ReadNoPool(prefix: string, ts: seq<Token>)
    requires !IsPool(prefix)
    ensures var r := ReadName(prefix, ts); r.Some? ==> !IsPool(r.value.0)
  {
    hide Look, Tail;
    var text := NameOf(Look(ts));
    assert prefix + "" == prefix;
    if text != "" && IsCallName(text) {
      assert IsNameChar(text[|text| - 1]);
      assert (prefix + text)[|prefix + text| - 1] == text[|text| - 1];
    }
  }

  lemma AddedGood(st: Storage, b: string, m: Member)
    requires GoodHead(st) && !IsPool(b) && Added(st, b, m).Some?
    ensures GoodHead(Added(st, b, m).value)
  {
    hide WellPlaced, Filled;
    AddedPlaced(st, b, m);
    AddedFilled(st, b, m);
  }

  lemma {:induction false} MembersGood(ts: seq<Token>, st: Storage, b: string)
    requires GoodHead(st) && !IsPool(b)
    ensures var r := ReadMembers(ts, st, b); r.Some? ==> GoodHead(r.value.0)
    decreases |ts|
  {
    hide GoodHead, Added;
    if Look(ts).kind == TKN_NAME && Added(st, b, Scalar(Look(ts).text)).Some? {
      AddedGood(st, b, Scalar(Look(ts).text));
      if Look(Tail(ts)).kind == TKN_COMMA {
        MembersGood(Tail(Tail(ts)), Added(st, b, Scalar(Look(ts).text)).value, b);
      }
    }
  }

  /** No COMMON statement at the head spoils the table. */
  lemma {:induction false} HeadGood(ts: seq<Token>, st: Storage)
    requires GoodHead(st)
    ensures var r := ReadHead(ts, st); r.Some? ==> GoodHead(r.value.0)
    decreases |ts|
  {
    hide GoodHead, ReadMembers, ReadBlock;
    if ts == [] {
    } else if Look(ts).kind == TKN_END {
      HeadGood(EndLine(Tail(ts)), st);
    } else if StartsCommon(ts) {
      CommonShorter(Tail(ts), st);
      NamedNoPool(Tail(ts));
      match ReadBlock(Tail(ts)) {
        case None =>
        case Some(r) =>
          MembersGood(r.1, st, r.0);
          match ReadMembers(r.1, st, r.0) {
            case None =>
            case Some(more) => HeadGood(more.1, more.0);
          }
      }
    }
  }
}
