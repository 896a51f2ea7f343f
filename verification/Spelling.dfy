/** Nothing but what can be written is read: every expression that is read is the writing of
    its tree. */
module Spelling {
  import opened Outcomes
  import opened Isa
  import opened Syntax
  import opened Names
  import opened Grammar
  import opened Phrases

  /** What a token says: numbers by their value, the words of an IF in any case of letters,
      signs by their kind, and a > that closes a field reference as any other */
  function Says(t: Token): Token {
    if t.kind == TKN_END_FIELD || t.kind == TKN_GT then CloseAngle
    else if t.kind == TKN_LT then OpenAngle
    else if t.kind == TKN_NUM && DecimalValue(t.text) >= 0 then Token(TKN_NUM, Decimal(DecimalValue(t.text)))
    else if (t.kind == TKN_NAME || t.kind == TKN_STRING) && IsIfWord(t.text) then Word(Upper(t.text))
    else if t.kind in {TKN_LBR, TKN_RBR, TKN_LSQBR, TKN_RSQBR, TKN_COMMA, TKN_PLUS, TKN_MINUS} then Token(t.kind, "")
    else t
  }

  predicate IsIfWord(text: string) {
    Upper(text) in {"IF", "THEN", "ELSE"}
  }

  function Said(ts: seq<Token>): seq<Token> {
    seq(|ts|, i requires 0 <= i < |ts| => Says(ts[i]))
  }

  lemma SaidConcat(a: seq<Token>, b: seq<Token>)
    ensures Said(a + b) == Said(a) + Said(b)
  {
  }

  lemma SaidFirst(ts: seq<Token>)
    requires ts != []
    ensures Said(ts) == [Says(ts[0])] + Said(ts[1..])
  {
  }

  /** Numbers are digits, only names and strings are words, and there is no ><, the only token
      that the reader splits in two. */
  predicate Whole(ts: seq<Token>) {
    forall i :: 0 <= i < |ts| ==>
      && ts[i].kind != TKN_NEX && (ts[i].kind == TKN_NUM ==> DecimalValue(ts[i].text) >= 0)
      && (IsIfWord(ts[i].text) ==> ts[i].kind == TKN_NAME || ts[i].kind == TKN_STRING)
  }

  /** Operators bind as their table says; an IF expression reaches as far as it can. */
  function Hold(w: Phrase): nat {
    if w.Choice? then 0 else Rank(w)
  }

  predicate Grouped(w: Phrase) {
    match w
    case Group(e) => Grouped(e)
    case Signed(_, e) => Grouped(e) && Hold(e) == 0
    case Dyadic(sign, l, r) =>
      SignOf(sign.kind).Some? && Grouped(l) && Grouped(r) && Hold(l) <= Hold(w) && Hold(r) < Hold(w)
    case Choice(c, a, b) => Grouped(c) && Grouped(a) && Grouped(b)
    case Slice(e, at) => Grouped(e) && IsBase(e) && GroupedAt(at)
    case Element(e, at) => Grouped(e) && IsBase(e) && GroupedAt(at)
    case _ => true
  }

  predicate GroupedAt(at: Positions) {
    match at
    case At1(a) => Grouped(a)
    case At2(a, b) => Grouped(a) && Grouped(b)
    case At3(a, b, c) => Grouped(a) && Grouped(b) && Grouped(c)
  }

  predicate IsBase(w: Phrase) {
    !w.Signed? && !w.Dyadic?
  }

  /** The phrase is what these tokens say, up to where the rest begins. */
  predicate Spells(w: Phrase, ts: seq<Token>, rest: seq<Token>) {
    Said(Print(w)) + Said(rest) == Said(ts) && Whole(rest)
  }

  lemma ExprWritten(ts: seq<Token>) returns (w: Phrase)
    requires ParseExpr(ts).Ok? && Whole(ts)
    ensures Grouped(w) && Tree(w) == ParseExpr(ts).value && Spells(w, ts, ParseExpr(ts).rest)
    decreases |ts|, 20
  {
    w := LevelFrom(7, ts);
  }

  lemma LevelFrom(k: nat, ts: seq<Token>) returns (w: Phrase)
    requires k <= 7 && ParseLevel(k, ts).Ok? && Whole(ts)
    ensures Grouped(w) && Hold(w) <= k && Tree(w) == ParseLevel(k, ts).value && Spells(w, ts, ParseLevel(k, ts).rest)
    decreases |ts|, 10 + k
  {
    if k == 0 {
      w := ItemFrom(false, ts);
    } else {
      var l := LevelFrom(k - 1, ts);
      w := LoopFrom(k, l, ts, ParseLevel(k - 1, ts).rest);
    }
  }

  lemma LoopFrom(k: nat, l: Phrase, ts: seq<Token>, us: seq<Token>) returns (w: Phrase)
    requires 1 <= k <= 7 && LoopLevel(k, Tree(l), us).Ok? && Grouped(l) && Hold(l) <= k && Spells(l, ts, us)
    ensures var r := LoopLevel(k, Tree(l), us);
      Grouped(w) && Hold(w) <= k && Tree(w) == r.value && Spells(w, ts, r.rest)
    decreases |us|, 10 + k
  {
    if OpLevel(us) != k {
      w := l;
    } else {
      var r := LevelFrom(k - 1, us[1..]);
      var rest := ParseLevel(k - 1, us[1..]).rest;
      var d := Dyadic(us[0], l, r);
      SameSign(us[0].kind);
      DyadicSpells(l, us[0], r, ts, us, rest);
      w := LoopFrom(k, d, ts, rest);
    }
  }

  lemma DyadicSpells(l: Phrase, sign: Token, r: Phrase, ts: seq<Token>, us: seq<Token>, rest: seq<Token>)
    requires us != [] && sign == us[0] && Spells(l, ts, us) && Spells(r, us[1..], rest)
    ensures Spells(Dyadic(sign, l, r), ts, rest)
  {
    SaidFirst(us);
    SaidConcat(Print(l), [sign]);
    SaidConcat(Print(l) + [sign], Print(r));
    assert Said([sign]) == [Says(sign)];
  }

  lemma ItemFrom(minus: bool, ts: seq<Token>) returns (w: Phrase)
    requires ParseItem(minus, ts).Ok? && Whole(ts)
    ensures var r := ParseItem(minus, ts);
      Grouped(w) && Hold(w) == 0 && Item(w, minus) == r.value && Spells(w, ts, r.rest)
    decreases |ts|, 5
  {
    if ts[0].kind == TKN_PLUS || ts[0].kind == TKN_MINUS {
      var sign := ts[0].kind == TKN_MINUS;
      var e := ItemFrom(minus != sign, ts[1..]);
      w := Signed(sign, e);
      SignedSpells(sign, e, ts, ParseItem(minus, ts).rest);
    } else {
      var base := PrimaryFrom(minus, ts);
      w := PostfixFrom(base, minus, ts, ParsePrimary(minus, ts).rest);
    }
  }

  lemma SignedSpells(sign: bool, e: Phrase, ts: seq<Token>, rest: seq<Token>)
    requires ts != [] && ts[0].kind == (if sign then TKN_MINUS else TKN_PLUS) && Spells(e, ts[1..], rest)
    ensures Spells(Signed(sign, e), ts, rest)
  {
    var t := if sign then Token(TKN_MINUS, "-") else Token(TKN_PLUS, "+");
    SaidFirst(ts);
    SaidConcat([t], Print(e));
    assert Said([t]) == [Says(t)];
  }

  lemma PrimaryFrom(minus: bool, ts: seq<Token>) returns (w: Phrase)
    requires ts != [] && ParsePrimary(minus, ts).Ok? && Whole(ts)
    ensures var r := ParsePrimary(minus, ts);
      && Grouped(w) && IsBase(w) && Bare(w, minus) == r.value && Spells(w, ts, r.rest)
      && (StartsWithDigits(w) <==> ts[0].kind == TKN_NUM)
    decreases |ts|, 4
  {
    hide Spells, Said, Says;
    var t := ts[0];
    if t.kind == TKN_NAME && IsWord(t, "IF") {
      w := ChoiceFrom(t, ts[1..]);
      IfBare(w, minus);
      assert [t] + ts[1..] == ts;
    } else if t.kind == TKN_LBR {
      var e := ExprWritten(ts[1..]);
      w := Group(e);
      GroupBare(e, minus);
      GroupSpells(e, ts, ParseExpr(ts[1..]).rest);
    } else {
      w := if t.kind == TKN_NAME then Named(t.text)
           else if t.kind == TKN_NUM then Digits(0, DecimalValue(t.text))
           else Quoted(t.text);
      OneSpells(t, w, ts);
    }
  }

  lemma IfBare(w: Phrase, minus: bool)
    requires w.Choice?
    ensures Bare(w, minus) == Tree(w) == IfThen(Tree(w.c), Tree(w.a), Tree(w.b))
  {
    assert Tree(w) == Bare(w, false);
  }

  lemma GroupBare(e: Phrase, minus: bool)
    ensures Bare(Group(e), minus) == Tree(e)
  {
  }

  /** A name, a number or a string */
  lemma OneSpells(t: Token, w: Phrase, ts: seq<Token>)
    requires ts != [] && t == ts[0] && Whole(ts)
    requires || (t.kind == TKN_NAME && w == Named(t.text)) || (t.kind == TKN_STRING && w == Quoted(t.text))
             || (t.kind == TKN_NUM && DecimalValue(t.text) >= 0 && w == Digits(0, DecimalValue(t.text)))
    ensures Spells(w, ts, ts[1..])
  {
    SaysSame(t, w);
    hide Says, Said, Print, Whole;
    SaidFirst(ts);
    SaidOne(Print(w)[0]);
    assert Print(w) == [Print(w)[0]];
    WholeTail(ts);
  }

  lemma SaysSame(t: Token, w: Phrase)
    requires || (t.kind == TKN_NAME && w == Named(t.text)) || (t.kind == TKN_STRING && w == Quoted(t.text))
             || (t.kind == TKN_NUM && DecimalValue(t.text) >= 0 && w == Digits(0, DecimalValue(t.text)))
    ensures |Print(w)| == 1 && Says(Print(w)[0]) == Says(t)
  {
    if t.kind == TKN_NUM {
      assert Zeros(0) + Decimal(w.n) == Decimal(w.n);
      DigitsBack(0, w.n);
      hide Decimal, DecimalValue;
    }
  }

  lemma SaidOne(t: Token)
    ensures Said([t]) == [Says(t)]
  {
  }

  lemma GroupSpells(e: Phrase, ts: seq<Token>, us: seq<Token>)
    requires ts != [] && ts[0].kind == TKN_LBR && us != [] && us[0].kind == TKN_RBR && Spells(e, ts[1..], us)
    ensures Spells(Group(e), ts, us[1..])
  {
    SaidFirst(ts);
    SaidFirst(us);
    Around(OpenBracket, Print(e), CloseBracket);
  }

  lemma Around(t: Token, a: seq<Token>, t': Token)
    ensures Said([t] + a + [t']) == [Says(t)] + Said(a) + [Says(t')]
  {
    SaidConcat([t], a);
    SaidConcat([t] + a, [t']);
    assert Said([t]) == [Says(t)] && Said([t']) == [Says(t')];
  }

  /** IF condition THEN value ELSE value */
  lemma ChoiceFrom(t: Token, ts: seq<Token>) returns (w: Phrase)
    requires t.kind == TKN_NAME && IsWord(t, "IF") && ParseIf(ts).Ok? && Whole(ts)
    ensures w.Choice? && Grouped(w) && Tree(w) == ParseIf(ts).value && Spells(w, [t] + ts, ParseIf(ts).rest)
    decreases |ts|, 22
  {
    hide Spells, Said, Says, Upper;
    var c := ExprWritten(ts);
    var us := ParseExpr(ts).rest;
    assert Whole(us) by { SpellsWhole(c, ts, us); }
    var a := ExprWritten(us[1..]);
    var vs := ParseExpr(us[1..]).rest;
    assert Whole(vs) by { SpellsWhole(a, us[1..], vs); }
    var b := ExprWritten(vs[1..]);
    w := Choice(c, a, b);
    IfBare(w, false);
    ChoiceSpells(t, c, a, b, ts, us, vs, ParseExpr(vs[1..]).rest);
  }

  lemma SpellsWhole(w: Phrase, ts: seq<Token>, rest: seq<Token>)
    requires Spells(w, ts, rest)
    ensures Whole(rest)
  {
  }

  lemma ChoiceSpells(t: Token, c: Phrase, a: Phrase, b: Phrase, ts: seq<Token>, us: seq<Token>, vs: seq<Token>,
                     rest: seq<Token>)
    requires t.kind == TKN_NAME && IsWord(t, "IF") && Spells(c, ts, us)
    requires us != [] && IsWord(us[0], "THEN") && Spells(a, us[1..], vs)
    requires vs != [] && IsWord(vs[0], "ELSE") && Spells(b, vs[1..], rest)
    ensures Spells(Choice(c, a, b), [t] + ts, rest)
  {
    WordSays("IF", t);
    WordSays("THEN", us[0]);
    WordSays("ELSE", vs[0]);
    hide Says, Said, Print, IsIfWord, IsWord;
    SaidFirst([t] + ts);
    assert ([t] + ts)[1..] == ts;
    SaidFirst(us);
    SaidFirst(vs);
    IfSaid(Print(c), Print(a), Print(b));
    ChoicePrint(c, a, b);
    SixRegroup([Says(t)], Said(Print(c)), [Says(us[0])], Said(Print(a)), [Says(vs[0])], Said(Print(b)), Said(rest));
  }

  lemma ChoicePrint(c: Phrase, a: Phrase, b: Phrase)
    ensures Print(Choice(c, a, b)) == [Word("IF")] + Print(c) + [Word("THEN")] + Print(a) + [Word("ELSE")] + Print(b)
  {
  }

  lemma SixRegroup<T>(a: seq<T>, b: seq<T>, c: seq<T>, d: seq<T>, e: seq<T>, f: seq<T>, g: seq<T>)
    ensures (a + b + c + d + e + f) + g == a + (b + (c + (d + (e + (f + g)))))
  {
  }

  lemma WordSays(word: string, t: Token)
    requires word in {"IF", "THEN", "ELSE"} && IsWord(t, word)
    requires IsIfWord(t.text) ==> t.kind == TKN_NAME || t.kind == TKN_STRING
    ensures Says(t) == Says(Word(word))
  {
  }

  lemma IfSaid(c: seq<Token>, a: seq<Token>, b: seq<Token>)
    ensures Said([Word("IF")] + c + [Word("THEN")] + a + [Word("ELSE")] + b)
         == [Says(Word("IF"))] + Said(c) + [Says(Word("THEN"))] + Said(a) + [Says(Word("ELSE"))] + Said(b)
  {
    hide Says;
    var x := [Word("IF")] + c + [Word("THEN")];
    Around(Word("IF"), c, Word("THEN"));
    SaidConcat(x, a);
    SaidConcat(x + a, [Word("ELSE")]);
    SaidConcat(x + a + [Word("ELSE")], b);
    assert Said([Word("ELSE")]) == [Says(Word("ELSE"))];
  }

  // Extractions

  function BoundsOf(at: Positions): Bounds {
    match at
    case At1(a) => Bounds(Tree(a), None, None)
    case At2(a, b) => Bounds(Tree(a), Some(Tree(b)), None)
    case At3(a, b, c) => Bounds(Tree(a), Some(Tree(b)), Some(Tree(c)))
  }

  lemma BoundsFrom(ts: seq<Token>) returns (at: Positions)
    requires ParseBounds(ts).Ok? && Whole(ts)
    ensures var r := ParseBounds(ts);
      GroupedAt(at) && BoundsOf(at) == r.value && Said(PrintAt(at)) + Said(r.rest) == Said(ts) && Whole(r.rest)
    decreases |ts|, 22
  {
    var a := ExprWritten(ts);
    var us := ParseExpr(ts).rest;
    at := At1(a);
    if Look(us).kind == TKN_COMMA {
      var b := ExprWritten(us[1..]);
      var vs := ParseExpr(us[1..]).rest;
      at := At2(a, b);
      CommaSaid(Print(a), Print(b), us, vs);
      if Look(vs).kind == TKN_COMMA {
        var c := ExprWritten(vs[1..]);
        at := At3(a, b, c);
        CommaSaid(Print(a) + [Comma] + Print(b), Print(c), vs, ParseExpr(vs[1..]).rest);
      }
    }
  }

  lemma CommaSaid(a: seq<Token>, b: seq<Token>, us: seq<Token>, rest: seq<Token>)
    requires us != [] && us[0].kind == TKN_COMMA && Said(b) + Said(rest) == Said(us[1..])
    ensures Said(a + [Comma] + b) + Said(rest) == Said(a) + Said(us)
  {
    SaidFirst(us);
    SaidConcat(a, [Comma]);
    SaidConcat(a + [Comma], b);
    assert Said([Comma]) == [Says(Comma)];
  }

  lemma PostfixFrom(base: Phrase, minus: bool, ts: seq<Token>, us: seq<Token>) returns (w: Phrase)
    requires ParsePostfix(Bare(base, minus), us).Ok? && Grouped(base) && IsBase(base) && Spells(base, ts, us)
    ensures var r := ParsePostfix(Bare(base, minus), us);
      && Grouped(w) && IsBase(w) && Bare(w, minus) == r.value && Spells(w, ts, r.rest)
      && (StartsWithDigits(w) <==> StartsWithDigits(base))
    decreases |us|, 3
  {
    w := base;
    if us != [] && us[0].kind == TKN_LSQBR {
      w := SliceFrom(base, minus, ts, us);
    } else if us != [] && us[0].kind == TKN_LT && Classify(us).Field? {
      w := ElementFrom(base, minus, ts, us);
    }
  }

  lemma SliceFrom(base: Phrase, minus: bool, ts: seq<Token>, us: seq<Token>) returns (w: Phrase)
    requires ParsePostfix(Bare(base, minus), us).Ok? && Grouped(base) && IsBase(base) && Spells(base, ts, us)
    requires us != [] && us[0].kind == TKN_LSQBR
    ensures var r := ParsePostfix(Bare(base, minus), us);
      && Grouped(w) && IsBase(w) && Bare(w, minus) == r.value && Spells(w, ts, r.rest)
      && (StartsWithDigits(w) <==> StartsWithDigits(base))
    decreases |us|, 2
  {
    hide Said, Says, Spells, Whole, Extraction, BoundsOf;
    SpellsWhole(base, ts, us);
    WholeTail(us);
    var at := BoundsFrom(us[1..]);
    var rest := ParseBounds(us[1..]).rest;
    SliceSpells(base, at, ts, us, rest);
    SliceBare(base, at, minus);
    w := PostfixFrom(Slice(base, at), minus, ts, rest[1..]);
  }

  lemma ElementFrom(base: Phrase, minus: bool, ts: seq<Token>, us: seq<Token>) returns (w: Phrase)
    requires ParsePostfix(Bare(base, minus), us).Ok? && Grouped(base) && IsBase(base) && Spells(base, ts, us)
    requires us != [] && us[0].kind == TKN_LT && Classify(us).Field?
    ensures var r := ParsePostfix(Bare(base, minus), us);
      && Grouped(w) && IsBase(w) && Bare(w, minus) == r.value && Spells(w, ts, r.rest)
      && (StartsWithDigits(w) <==> StartsWithDigits(base))
    decreases |us|, 2
  {
    hide Said, Says, Classify, Spells, Whole, FieldOf, BoundsOf;
    SpellsWhole(base, ts, us);
    var marked := Classify(us).marked;
    MarkedSays(us);
    WholeTail(marked);
    var at := BoundsFrom(marked[1..]);
    var rest := ParseBounds(marked[1..]).rest;
    ElementSpells(base, at, ts, us, marked, rest);
    SliceBare(base, at, minus);
    w := PostfixFrom(Element(base, at), minus, ts, rest[1..]);
  }

  lemma WholeTail(ts: seq<Token>)
    requires Whole(ts) && ts != []
    ensures Whole(ts[1..])
  {
  }

  lemma SliceBare(base: Phrase, at: Positions, minus: bool)
    ensures Bare(Slice(base, at), minus) == Extraction(Bare(base, minus), BoundsOf(at))
    ensures Bare(Element(base, at), minus) == FieldOf(Bare(base, minus), BoundsOf(at))
  {
  }

  lemma SliceSpells(base: Phrase, at: Positions, ts: seq<Token>, us: seq<Token>, rest: seq<Token>)
    requires Spells(base, ts, us) && us != [] && us[0].kind == TKN_LSQBR && rest != [] && rest[0].kind == TKN_RSQBR
    requires Said(PrintAt(at)) + Said(rest) == Said(us[1..]) && Whole(rest)
    ensures Spells(Slice(base, at), ts, rest[1..])
  {
    assert Says(us[0]) == Says(OpenSquare) && Says(rest[0]) == Says(CloseSquare);
    hide Said, Says, Print, PrintAt;
    SaidFirst(us);
    SaidFirst(rest);
    PartSaid(Print(base), OpenSquare, PrintAt(at), CloseSquare, rest);
    SlicePrint(base, at);
  }

  /** An extraction behind its base */
  lemma PartSaid(base: seq<Token>, t: Token, at: seq<Token>, t': Token, rest: seq<Token>)
    requires rest != []
    ensures Said(base + [t] + at + [t']) + Said(rest[1..])
         == Said(base) + ([Says(t)] + (Said(at) + ([Says(t')] + Said(rest[1..]))))
  {
    hide Said, Says;
    SaidConcat(base, [t] + at + [t']);
    assert base + ([t] + at + [t']) == base + [t] + at + [t'];
    Around(t, at, t');
    FourRegroup(Said(base), [Says(t)], Said(at), [Says(t')], Said(rest[1..]));
  }

  lemma FourRegroup<T>(a: seq<T>, b: seq<T>, c: seq<T>, d: seq<T>, e: seq<T>)
    ensures (a + (b + c + d)) + e == a + (b + (c + (d + e)))
  {
  }

  lemma SlicePrint(base: Phrase, at: Positions)
    ensures Print(Slice(base, at)) == Print(base) + [OpenSquare] + PrintAt(at) + [CloseSquare]
    ensures Print(Element(base, at)) == Print(base) + [OpenAngle] + PrintAt(at) + [CloseAngle]
  {
  }

  /** Marking the closing > changes nothing that is said. */
  lemma MarkedSays(us: seq<Token>)
    requires us != [] && Classify(us).Field? && Whole(us)
    ensures var marked := Classify(us).marked; |marked| == |us| && Said(marked) == Said(us) && Whole(marked)
  {
    hide Closing;
  }

  lemma ElementSpells(base: Phrase, at: Positions, ts: seq<Token>, us: seq<Token>, marked: seq<Token>,
                      rest: seq<Token>)
    requires Spells(base, ts, us) && us != [] && us[0].kind == TKN_LT && |marked| == |us| && Said(marked) == Said(us)
    requires rest != [] && rest[0].kind == TKN_END_FIELD
    requires Said(PrintAt(at)) + Said(rest) == Said(marked[1..]) && Whole(rest)
    ensures Spells(Element(base, at), ts, rest[1..])
  {
    assert Says(us[0]) == Says(OpenAngle) && Says(rest[0]) == Says(CloseAngle);
    hide Said, Says, Print, PrintAt;
    SaidFirst(us);
    SaidFirst(marked);
    SaidFirst(rest);
    assert Said(us)[1..] == Said(us[1..]) && Said(marked)[1..] == Said(marked[1..]);
    PartSaid(Print(base), OpenAngle, PrintAt(at), CloseAngle, rest);
    SlicePrint(base, at);
  }
}
