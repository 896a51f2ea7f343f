/** COMMON statements as they are written, and that every member is put into the block its
    statement names. */
module Headings {
  import opened Outcomes
  import opened Syntax
  import opened StatementGrammar
  import opened Phrases
  import opened Storages
  import opened CommonBlocks
  import opened Heading
  import opened Machines
  import opened Listing
  import opened Prelude
  import opened Correctness

  /** Between the slashes: nothing, at the end of a line too, or a name, which may be any
      token, behind a character that call names begin with */
  datatype Slashes = NoSlashes | TwoSlashes | LineEndSlashes | Name(prefix: string, kind: int, text: string)

  datatype Com = Com(block: Slashes, first: string, more: seq<string>)

  function PrefixToken(prefix: string): Token {
    if prefix == "$" then Token(TKN_DOLLAR, "$")
    else if prefix == "_" then Token(TKN_UNDERSCORE, "_")
    else Token(TKN_OR, "!")
  }

  const Slash := Token(TKN_DIV, "/")

  function PrintSlashes(b: Slashes): seq<Token> {
    match b
    case NoSlashes => []
    case TwoSlashes => [Token(TKN_IDIV, "//")]
    case LineEndSlashes => [Slash, EndToken, Slash]
    case Name(prefix, kind, text) =>
      [Slash] + (if prefix == "" then [] else [PrefixToken(prefix)]) + [Token(kind, text), Slash]
  }

  function PrintNames(names: seq<string>): seq<Token> {
    if names == [] then [EndToken] else [Comma, Word(names[0])] + PrintNames(names[1..])
  }

  function PrintCom(c: Com): seq<Token> {
    PrintSlashes(c.block) + ([Word(c.first)] + PrintNames(c.more))
  }

  function PrintHead(coms: seq<Com>): seq<Token> {
    if coms == [] then [] else [Word("COMMON")] + PrintCom(coms[0]) + PrintHead(coms[1..])
  }

  /** The block that is meant */
  function BlockOf(b: Slashes): string {
    if b.Name? then b.prefix + Upper(b.text) else "$"
  }

  predicate CallChar(c: char) {
    || 'A' <= c <= 'Z' || '0' <= c <= '9' || c in {'.', '$', '%', '_'}
  }

  /** A name of letters, digits and . $ % _, which is no prefix itself */
  predicate SlashesOk(b: Slashes) {
    match b
    case Name(prefix, kind, text) =>
      && prefix in {"", "$", "_", "!"}
      && text != "" && (forall i :: 0 <= i < |text| ==> CallChar(Upper(text)[i]))
      && kind != TKN_END && kind != TKN_STRING && (prefix == "" ==> kind !in {TKN_DOLLAR, TKN_UNDERSCORE, TKN_OR})
    case _ => true
  }

  function Scalars(names: seq<string>): seq<Member> {
    seq(|names|, i requires 0 <= i < |names| => Scalar(names[i]))
  }

  function Members(c: Com): seq<Member> {
    [Scalar(c.first)] + Scalars(c.more)
  }

  lemma NameRead(prefix: string, t: Token, us: seq<Token>)
    requires t.kind != TKN_END && t.kind != TKN_STRING && t.text != ""
    requires forall i :: 0 <= i < |t.text| ==> CallChar(Upper(t.text)[i])
    ensures ReadName(prefix, [t, Slash] + us) == Some((prefix + Upper(t.text), us))
  {
    hide Upper;
    var ts := [t, Slash] + us;
    assert Tail(ts) == [Slash] + us && Tail(Tail(ts)) == us;
    assert |Upper(t.text)| == |t.text| by { UpperLength(t.text); }
    assert IsCallName(Upper(t.text));
    assert (prefix + Upper(t.text)) != "" by { assert |prefix + Upper(t.text)| > 0; }
  }

  lemma UpperLength(s: string)
    ensures |Upper(s)| == |s|
  {
  }

  lemma SlashesRead(b: Slashes, us: seq<Token>)
    requires SlashesOk(b) && Look(us).kind != TKN_DIV && Look(us).kind != TKN_IDIV
    ensures ReadBlock(PrintSlashes(b) + us) == Some((BlockOf(b), us))
  {
    hide Upper, ReadName;
    var ts := PrintSlashes(b) + us;
    match b
    case NoSlashes => assert ts == us;
    case TwoSlashes => assert Tail(ts) == us;
    case LineEndSlashes =>
      assert Tail(ts) == [EndToken, Slash] + us;
      NothingRead(us);
    case Name(prefix, kind, text) =>
      var t := Token(kind, text);
      NameRead(prefix, t, us);
      if prefix == "" {
        assert Tail(ts) == [t, Slash] + us;
        NoPrefix(t, us);
      } else {
        assert Tail(ts) == [PrefixToken(prefix)] + ([t, Slash] + us);
        assert Tail(Tail(ts)) == [t, Slash] + us;
        PrefixRead(prefix);
      }
  }

  lemma NothingRead(us: seq<Token>)
    ensures ReadName("", [EndToken, Slash] + us) == Some(("$", us)) && !IsPrefix(EndToken)
  {
    var ts := [EndToken, Slash] + us;
    assert Tail(ts) == [Slash] + us && Tail(Tail(ts)) == us;
  }

  lemma NoPrefix(t: Token, us: seq<Token>)
    requires t.kind !in {TKN_DOLLAR, TKN_UNDERSCORE, TKN_OR}
    ensures !IsPrefix(Look([t, Slash] + us))
  {
  }

  /** Nothing but a name of such characters is read between two slashes. */
  lemma NameNeeds(t: Token, us: seq<Token>)
    requires !IsPrefix(t) && t.kind != TKN_END && ReadBlock([Slash, t] + us).Some?
    ensures t.kind != TKN_STRING && (forall i :: 0 <= i < |Upper(t.text)| ==> CallChar(Upper(t.text)[i]))
    ensures us != [] && us[0].kind == TKN_DIV
  {
    hide Upper;
    var ts := [Slash, t] + us;
    assert Tail(ts) == [t] + us && Tail(Tail(ts)) == us;
  }

  lemma PrefixRead(prefix: string)
    requires prefix in {"$", "_", "!"}
    ensures IsPrefix(PrefixToken(prefix)) && PrefixToken(prefix).text == prefix
  {
  }

  /** The first member may be taken off the others. */
  lemma {:induction false} DeclaredFirst(st: Storage, b: string, m: Member, ms: seq<Member>)
    ensures Declared(st, b, [m] + ms)
         == match Added(st, b, m) case None => None case Some(st1) => Declared(st1, b, ms)
    decreases |ms|
  {
    hide Added;
    var all := [m] + ms;
    if ms == [] {
      assert all[..0] == [] && all[0] == m;
      assert Declared(st, b, []) == Some(st);
    } else {
      var init, last := ms[..|ms| - 1], ms[|ms| - 1];
      assert all[..|all| - 1] == [m] + init && all[|all| - 1] == last;
      DeclaredFirst(st, b, m, init);
    }
  }

  /** The names of a statement, from the first on */
  lemma {:induction false} NamesRead(first: string, more: seq<string>, us: seq<Token>, st: Storage, b: string)
    ensures ReadMembers([Word(first)] + PrintNames(more) + us, st, b)
         == match Declared(st, b, [Scalar(first)] + Scalars(more)) case None => None case Some(st1) => Some((st1, us))
    decreases |more|
  {
    hide Added, Declared;
    var ts := [Word(first)] + PrintNames(more) + us;
    assert Tail(ts) == PrintNames(more) + us;
    DeclaredFirst(st, b, Scalar(first), Scalars(more));
    if more == [] {
      assert Tail(ts) == [EndToken] + us && EndLine([EndToken] + us) == us;
      assert Scalars(more) == [];
      NoneDeclared(b);
    } else if Added(st, b, Scalar(first)).Some? {
      assert Tail(ts) == [Comma] + ([Word(more[0])] + PrintNames(more[1..]) + us);
      assert Tail(Tail(ts)) == [Word(more[0])] + PrintNames(more[1..]) + us;
      assert Scalars(more) == [Scalar(more[0])] + Scalars(more[1..]);
      NamesRead(more[0], more[1..], us, Added(st, b, Scalar(first)).value, b);
    }
  }

  lemma NoneDeclared(b: string)
    ensures forall st :: Declared(st, b, []) == Some(st)
  {
  }

  /** A COMMON statement declares its names in the block between its slashes. */
  lemma CommonReads(c: Com, us: seq<Token>, st: Storage)
    requires SlashesOk(c.block)
    ensures ReadCommon(PrintCom(c) + us, st)
         == match Declared(st, BlockOf(c.block), Members(c)) case None => None case Some(st1) => Some((st1, us))
  {
    hide ReadBlock, ReadMembers, Declared, BlockOf;
    var rest := [Word(c.first)] + PrintNames(c.more) + us;
    assert PrintCom(c) + us == PrintSlashes(c.block) + rest;
    SlashesRead(c.block, rest);
    NamesRead(c.first, c.more, us, st, BlockOf(c.block));
  }

  /** All of them */
  function DeclaredAll(st: Storage, coms: seq<Com>): Option<Storage>
    decreases |coms|
  {
    if coms == [] then Some(st)
    else match Declared(st, BlockOf(coms[0].block), Members(coms[0]))
      case None => None
      case Some(st1) => DeclaredAll(st1, coms[1..])
  }

  /** What follows is no COMMON statement and no end of a line. */
  predicate Starts(us: seq<Token>) {
    us == [] || (us[0].kind != TKN_END && !StartsCommon(us))
  }

  lemma {:induction false} HeadReads(coms: seq<Com>, us: seq<Token>, st: Storage)
    requires forall i :: 0 <= i < |coms| ==> SlashesOk(coms[i].block)
    requires Starts(us)
    ensures ReadHead(PrintHead(coms) + us, st)
         == match DeclaredAll(st, coms) case None => None case Some(st1) => Some((st1, us))
    decreases |coms|
  {
    hide Declared, BlockOf, ReadCommon, SlashesOk, Upper, PrintCom, Members, Starts, StartsCommon;
    if coms == [] {
      assert PrintHead(coms) + us == us;
      HeadStops(us, st);
    } else {
      var rest := PrintHead(coms[1..]) + us;
      var ts := PrintCom(coms[0]) + rest;
      assert PrintHead(coms) + us == [Word("COMMON")] + ts && Tail([Word("COMMON")] + ts) == ts;
      CommonReads(coms[0], rest, st);
      ComStarts(coms[0], rest);
      match Declared(st, BlockOf(coms[0].block), Members(coms[0])) {
        case None =>
        case Some(st1) => HeadReads(coms[1..], us, st1);
      }
    }
  }

  lemma HeadStops(us: seq<Token>, st: Storage)
    requires Starts(us)
    ensures ReadHead(us, st) == Some((st, us))
  {
    hide ReadCommon;
  }

  lemma ComStarts(c: Com, rest: seq<Token>)
    ensures StartsCommon([Word("COMMON")] + (PrintCom(c) + rest))
  {
    var ts := [Word("COMMON")] + (PrintCom(c) + rest);
    assert Upper("COMMON") == "COMMON";
    assert Tail(ts) == PrintCom(c) + rest;
  }

  lemma {:induction false} TableGrows(st: Storage, b: string, ms: seq<Member>)
    ensures Declared(st, b, ms).Some? ==> st.table <= Declared(st, b, ms).value.table
  {
    hide Sized;
    if ms != [] {
      TableGrows(st, b, ms[..|ms| - 1]);
    }
  }

  /** A name that is there, and where it is, is kept by what is declared later. */
  ghost predicate Kept(st: Storage, st1: Storage) {
    st.table <= st1.table && forall x :: x in st.info ==> x in st1.info && st1.info[x] == st.info[x]
  }

  lemma OneKept(st: Storage, b: string, ms: seq<Member>)
    requires Declared(st, b, ms).Some?
    ensures Kept(st, Declared(st, b, ms).value)
  {
    hide Declared, NewMembers, MembersAt, OrderKept;
    DeclaredExactly(st, b, ms);
    TableGrows(st, b, ms);
  }

  lemma KeptTwice(st: Storage, st1: Storage, st2: Storage)
    requires Kept(st, st1) && Kept(st1, st2)
    ensures Kept(st, st2)
  {
  }

  /** The members of one statement */
  ghost predicate InBlock(st: Storage, b: string, ms: seq<Member>) {
    forall j :: 0 <= j < |ms| ==>
      && ms[j].name in st.info && st.info[ms[j].name].CommonVar? && st.info[ms[j].name].v < |st.table|
      && st.table[st.info[ms[j].name].v] == b
  }

  lemma OneInBlock(st: Storage, b: string, ms: seq<Member>)
    requires WellPlaced(st) && Declared(st, b, ms).Some?
    ensures WellPlaced(Declared(st, b, ms).value) && InBlock(Declared(st, b, ms).value, b, ms)
  {
    hide Declared, NewMembers, OthersKept, OrderKept, AtHome;
    DeclaredExactly(st, b, ms);
    DeclaredPlaced(st, b, ms);
    if ms != [] {
      assert BlockAtHome(Declared(st, b, ms).value, b);
    }
  }

  lemma StillInBlock(st: Storage, st1: Storage, b: string, ms: seq<Member>)
    requires InBlock(st, b, ms) && Kept(st, st1)
    ensures InBlock(st1, b, ms)
  {
  }

  lemma {:induction false} AllInBlocks(st: Storage, coms: seq<Com>)
    requires WellPlaced(st) && DeclaredAll(st, coms).Some?
    ensures var st1 := DeclaredAll(st, coms).value;
      && WellPlaced(st1) && Kept(st, st1)
      && forall i :: 0 <= i < |coms| ==> InBlock(st1, BlockOf(coms[i].block), Members(coms[i]))
    decreases |coms|
  {
    hide WellPlaced, Declared, Kept, InBlock, BlockOf, Members;
    if coms == [] {
      assert Kept(st, st) by { KeptItself(st); }
    } else {
      var b, ms := BlockOf(coms[0].block), Members(coms[0]);
      var st0 := Declared(st, b, ms).value;
      OneKept(st, b, ms);
      OneInBlock(st, b, ms);
      AllInBlocks(st0, coms[1..]);
      var st1 := DeclaredAll(st, coms).value;
      KeptTwice(st, st0, st1);
      StillInBlock(st0, st1, b, ms);
      forall i | 0 <= i < |coms| ensures InBlock(st1, BlockOf(coms[i].block), Members(coms[i])) {
        if i > 0 {
          assert coms[i] == coms[1..][i - 1];
        }
      }
    }
  }

  lemma KeptItself(st: Storage)
    ensures Kept(st, st)
  {
  }

  /** Two names of COMMON statements are in one block exactly when the statements name the
      same one. */
  lemma BlocksByName(coms: seq<Com>, i: nat, j: nat, k: nat, l: nat)
    requires DeclaredAll(NoVariables, coms).Some? && i < |coms| && k < |coms|
    requires j < |Members(coms[i])| && l < |Members(coms[k])|
    ensures var st := DeclaredAll(NoVariables, coms).value;
      var x, y := Members(coms[i])[j].name, Members(coms[k])[l].name;
      && x in st.info && y in st.info && st.info[x].CommonVar? && st.info[y].CommonVar?
      && (st.info[x].v == st.info[y].v <==> BlockOf(coms[i].block) == BlockOf(coms[k].block))
  {
    hide DeclaredAll, Members, BlockOf, InBlock;
    assert WellPlaced(NoVariables);
    AllInBlocks(NoVariables, coms);
    var st := DeclaredAll(NoVariables, coms).value;
    var x, y := Members(coms[i])[j].name, Members(coms[k])[l].name;
    MemberAt(st, BlockOf(coms[i].block), Members(coms[i]), j);
    MemberAt(st, BlockOf(coms[k].block), Members(coms[k]), l);
    hide WellPlaced;
    OneVariable(st, x, y);
  }

  lemma MemberAt(st: Storage, b: string, ms: seq<Member>, j: nat)
    requires InBlock(st, b, ms) && j < |ms|
    ensures var x := ms[j].name;
      x in st.info && st.info[x].CommonVar? && st.info[x].v < |st.table| && st.table[st.info[x].v] == b
  {
  }

  /** A block has one variable. */
  lemma OneVariable(st: Storage, x: string, y: string)
    requires WellPlaced(st) && x in st.info && y in st.info && st.info[x].CommonVar? && st.info[y].CommonVar?
    ensures st.info[x].v < |st.table| && st.info[y].v < |st.table|
    ensures st.info[x].v == st.info[y].v <==> st.table[st.info[x].v] == st.table[st.info[y].v]
  {
    assert AtHome(st, x) && AtHome(st, y);
  }

  /** Once the blocks are bound, a member's cell is that of the area which has its block's
      name. */
  lemma AreaByName(rt: Runtime, coms: seq<Com>, i: nat, j: nat, store: map<Loc, Value>)
    requires forall k :: 0 <= k < |coms| ==> SlashesOk(coms[k].block)
    requires DeclaredAll(NoVariables, coms).Some? && i < |coms| && j < |Members(coms[i])|
    ensures var st := DeclaredAll(NoVariables, coms).value; var x := Members(coms[i])[j].name;
      && AllThere(st) && x in st.info && st.info[x].CommonVar?
      && Get(BoundBlocks(rt, st, |st.order|, store), st.info[x])
         == rt.shared(AreaOf(rt, BlockOf(coms[i].block)), st.info[x].offset)
  {
    hide DeclaredAll, Members, BlockOf, InBlock, SlashesOk, AreaOf, BoundBlocks, ReadHead, GoodHead, WellPlaced, Get;
    HeadReads(coms, [], NoVariables);
    NothingGood();
    HeadGood(PrintHead(coms) + [], NoVariables);
    AllInBlocks(NoVariables, coms);
    var st := DeclaredAll(NoVariables, coms).value;
    MemberAt(st, BlockOf(coms[i].block), Members(coms[i]), j);
    GoodAllThere(st);
    MemberBound(rt, st, st, Members(coms[i])[j].name, store);
  }

  lemma NothingGood()
    ensures GoodHead(NoVariables) && WellPlaced(NoVariables)
  {
  }

  lemma GoodAllThere(st: Storage)
    requires GoodHead(st)
    ensures AllThere(st) && WellPlaced(st)
  {
    hide AtHome, BlockAtHome;
  }
}
