/** Code that is too long for the image stays too long when more is emitted after it: so an
    expression whose beginning does not fit does not fit. */
module Room {
  import opened Isa
  import opened Listing
  import opened Syntax
  import opened Grammar
  import opened Names
  import opened Generate
  import opened Precedence
  import opened OperatorStack

  /** There is no expression, or no room for its code. */
  ghost predicate NoRoom(p: Parse<Expr>, list: seq<Item>, c: Ctx) {
    p.Err? || Long(list + EmitE(p.value, c))
  }

  lemma LeadsFrom(done: seq<Item>, a: seq<Item>, b: seq<Item>)
    requires Long(done + a) && a <= b
    ensures Long(done + b)
  {
    hide Long;
    assert done + a <= done + b;
    LongStart(done + a, done + b);
  }

  lemma BinLeads(op: int, l: Expr, r: Expr, c: Ctx)
    ensures EmitE(l, c) <= EmitE(Bin(op, l, r), c)
  {
    BinCode(op, l, r, c);
  }

  lemma {:induction false} LoopLeads(k: nat, e: Expr, ts: seq<Token>, c: Ctx)
    requires 1 <= k <= 7 && LoopLevel(k, e, ts).Ok?
    ensures EmitE(e, c) <= EmitE(LoopLevel(k, e, ts).value, c)
    decreases |ts|
  {
    hide EmitE, ParseLevel, OpLevel, Opcode;
    if OpLevel(ts) == k {
      var right := ParseLevel(k - 1, ts[1..]);
      BinLeads(Opcode(ts[0].kind), e, right.value, c);
      LoopLeads(k, Bin(Opcode(ts[0].kind), e, right.value), right.rest, c);
    }
  }

  lemma {:induction false} ClimbLeads(k: nat, hi: nat, e: Expr, ts: seq<Token>, c: Ctx)
    requires k <= hi <= 7 && Climb(k, hi, e, ts).Ok?
    ensures EmitE(e, c) <= EmitE(Climb(k, hi, e, ts).value, c)
    decreases hi - k
  {
    hide EmitE, LoopLevel;
    if k < hi {
      var more := LoopLevel(k + 1, e, ts);
      LoopLeads(k + 1, e, ts, c);
      ClimbLeads(k + 1, hi, more.value, more.rest, c);
    }
  }

  /** What has been emitted of an expression is where its code begins. */
  lemma {:induction false} ResumeLeads(fs: seq<Frame>, k: nat, e: Expr, ts: seq<Token>, c: Ctx)
    requires Stacked(fs) && k <= Ceiling(fs) && Resume(fs, k, e, ts).Ok?
    ensures Code(fs, e, c) <= EmitE(Resume(fs, k, e, ts).value, c)
    decreases |fs|
  {
    hide EmitE, Climb;
    var more := Climb(k, Ceiling(fs), e, ts);
    ClimbLeads(k, Ceiling(fs), e, ts, FramesCtx(fs, c));
    if fs == [] {
      assert Code(fs, e, c) == EmitE(e, c);
    } else {
      var top, below := fs[|fs| - 1], fs[..|fs| - 1];
      PopCode(fs, more.value, c);
      ResumeLeads(below, top.level - 1, Bin(top.op, top.left, more.value), more.rest, c);
    }
  }

  lemma ResumeNoRoom(fs: seq<Frame>, e: Expr, ts: seq<Token>, c: Ctx, done: seq<Item>)
    requires Stacked(fs) && Long(done + Code(fs, e, c))
    ensures NoRoom(Resume(fs, 0, e, ts), done, c)
  {
    hide Resume, Code, EmitE, Long;
    if Resume(fs, 0, e, ts).Ok? {
      ResumeLeads(fs, 0, e, ts, c);
      LeadsFrom(done, Code(fs, e, c), EmitE(Resume(fs, 0, e, ts).value, c));
    }
  }

  lemma {:induction false} PostfixLeads(e: Expr, ts: seq<Token>, c: Ctx)
    requires ParsePostfix(e, ts).Ok?
    ensures EmitE(e, c) <= EmitE(ParsePostfix(e, ts).value, c)
    decreases |ts|
  {
    hide EmitE, ParseBounds, Classify, Extraction, FieldOf, BoundCode;
    if Look(ts).kind == TKN_LSQBR {
      var b := ParseBounds(ts[1..]);
      ExtractionCode(e, b.value, c);
      PostfixLeads(Extraction(e, b.value), b.rest[1..], c);
    } else if Look(ts).kind == TKN_LT && Classify(ts).Field? {
      var b := ParseBounds(Classify(ts).marked[1..]);
      FieldCode(e, b.value, c);
      PostfixLeads(FieldOf(e, b.value), b.rest[1..], c);
    }
  }

  lemma PostfixNoRoom(e: Expr, ts: seq<Token>, c: Ctx, done: seq<Item>)
    requires Long(done + EmitE(e, c))
    ensures NoRoom(ParsePostfix(e, ts), done, c)
  {
    hide ParsePostfix, EmitE, Long;
    if ParsePostfix(e, ts).Ok? {
      PostfixLeads(e, ts, c);
      LeadsFrom(done, EmitE(e, c), EmitE(ParsePostfix(e, ts).value, c));
    }
  }

  lemma PostfixRoom(e: Expr, ts: seq<Token>, c: Ctx, done: seq<Item>)
    ensures Long(done + EmitE(e, c)) ==> NoRoom(ParsePostfix(e, ts), done, c)
  {
    hide ParsePostfix, EmitE, Long;
    if Long(done + EmitE(e, c)) {
      PostfixNoRoom(e, ts, c, done);
    }
  }

  /** An operand of a pending expression */
  lemma OperandNoRoom(fs: seq<Frame>, p: Parse<Expr>, c: Ctx, done: seq<Item>)
    requires Stacked(fs) && NoRoom(p, done + FramesCode(fs, c), FramesCtx(fs, c))
    ensures NoRoom(match p case Err => Err case Ok(e, ts) => Resume(fs, 0, e, ts), done, c)
  {
    hide Resume, Stacked, FramesCode, FramesCtx, EmitE, Long;
    if p.Ok? {
      CodeAfter(done, fs, p.value, c);
      ResumeNoRoom(fs, p.value, p.rest, c, done);
    }
  }

  /** A pending minus adds its operator. */
  lemma NegNoRoom(e: Expr, c: Ctx, done: seq<Item>)
    requires Long(done + EmitE(e, c))
    ensures Long(done + EmitE(App(OP_NEG, One(e)), c))
  {
    hide EmitE, Long;
    NegCode(e, c);
    LeadsFrom(done, EmitE(e, c), EmitE(App(OP_NEG, One(e)), c));
  }

  lemma ItemNoRoom(minus: bool, t: Token, rest: seq<Token>, c: Ctx, done: seq<Item>)
    requires t.kind != TKN_PLUS && t.kind != TKN_MINUS && NoRoom(ParsePrimary(minus, [t] + rest), done, c)
    ensures NoRoom(ParseItem(minus, [t] + rest), done, c)
  {
    hide ParsePrimary, ParsePostfix, ParseItem, EmitE, Long;
    PrimaryStep(minus, t, rest);
    match ParsePrimary(minus, [t] + rest)
    case Err =>
    case Ok(base, us) =>
      PostfixNoRoom(base, us, c, done);
      SignedNoRoom(minus, t, rest, c, done);
  }

  lemma SignedNoRoom(minus: bool, t: Token, rest: seq<Token>, c: Ctx, done: seq<Item>)
    requires t.kind != TKN_PLUS && t.kind != TKN_MINUS
    requires var p := ParsePrimary(minus, [t] + rest); p.Ok? && NoRoom(ParsePostfix(p.value, p.rest), done, c)
    ensures NoRoom(ParseItem(minus, [t] + rest), done, c)
  {
    hide ParsePrimary, ParsePostfix, ParseItem, EmitE, Long;
    PrimaryStep(minus, t, rest);
    var p := ParsePrimary(minus, [t] + rest);
    match ParsePostfix(p.value, p.rest)
    case Err =>
    case Ok(e, _) =>
      if minus {
        NegNoRoom(e, c, done);
      }
  }

  /** The beginnings of a conditional */
  lemma IfNoRoom(done: seq<Item>, t: Expr, a: Expr, b: Expr, c: Ctx)
    ensures var n, c1 := AfterE(t, c).next, AfterE(t, c); var c2 := c1.(next := n + 1); var c3 := AfterE(a, c2);
      var test := done + EmitE(t, c) + [I(Jump(OP_JFALSE, LabelName(n, "E")))];
      var turn := test + EmitE(a, c2) + [I(Jump(OP_JMP, LabelName(n, "X")))];
      || Long(done + EmitE(t, c)) || Long(test) || Long(turn) || Long(turn + [D(LabelName(n, "E"))] + EmitE(b, c3))
      ==> Long(done + EmitE(IfThen(t, a, b), c))
  {
    hide EmitE, AfterE, Long, LabelName;
    IfCode(done, t, a, b, c);
    var n, c1 := AfterE(t, c).next, AfterE(t, c);
    var c2 := c1.(next := n + 1);
    var s0 := done + EmitE(t, c);
    var s1 := s0 + [I(Jump(OP_JFALSE, LabelName(n, "E")))];
    var s2 := s1 + EmitE(a, c2);
    var s3 := s2 + [I(Jump(OP_JMP, LabelName(n, "X")))];
    var s4 := s3 + [D(LabelName(n, "E"))];
    var s5 := s4 + EmitE(b, AfterE(a, c2));
    LongMore(s0, [I(Jump(OP_JFALSE, LabelName(n, "E")))]);
    LongMore(s1, EmitE(a, c2));
    LongMore(s2, [I(Jump(OP_JMP, LabelName(n, "X")))]);
    LongMore(s3, [D(LabelName(n, "E"))]);
    LongMore(s4, EmitE(b, AfterE(a, c2)));
    LongMore(s5, [D(LabelName(n, "X"))]);
  }

  lemma IfStep(ts: seq<Token>)
    ensures ParseIf(ts)
         == match ParseExpr(ts) case Err => Err case Ok(t, rest) => ParseValues(t, rest)
  {
    hide ParseExpr, ParseValues;
  }

  lemma ConditionNoRoom(ts: seq<Token>, c: Ctx, done: seq<Item>)
    requires NoRoom(ParseExpr(ts), done, c)
    ensures NoRoom(ParseIf(ts), done, c)
  {
    hide ParseExpr, EmitE, AfterE, Long, LabelName, IsWord;
    assert ParseExpr(ts).Ok? ==> ParseIf(ts) == ParseValues(ParseExpr(ts).value, ParseExpr(ts).rest);
    if ParseIf(ts).Ok? {
      var e := ParseIf(ts).value;
      IfNoRoom(done, e.c, e.a, e.b, c);
    }
  }

  lemma TestRoom(t: Expr, ts: seq<Token>, c: Ctx, done: seq<Item>)
    ensures Long(done + EmitE(t, c) + [I(Jump(OP_JFALSE, LabelName(AfterE(t, c).next, "E")))]) ==>
              NoRoom(ParseValues(t, ts), done, c)
  {
    hide ParseExpr, EmitE, AfterE, Long, LabelName, IsWord;
    if ParseValues(t, ts).Ok? {
      var e := ParseValues(t, ts).value;
      IfNoRoom(done, t, e.a, e.b, c);
    }
  }

  lemma ValuesRoom(t: Expr, ts: seq<Token>, c: Ctx, done: seq<Item>)
    requires ts != [] && IsWord(ts[0], "THEN")
    ensures var n, c2 := AfterE(t, c).next, AfterE(t, c).(next := AfterE(t, c).next + 1);
      var test := done + EmitE(t, c) + [I(Jump(OP_JFALSE, LabelName(n, "E")))];
      var p := ParseExpr(ts[1..]);
      && (p.Err? || Long(test + EmitE(p.value, c2) + [I(Jump(OP_JMP, LabelName(n, "X")))])
          ==> NoRoom(ParseValues(t, ts), done, c))
      && (p.Ok? && p.rest != [] ==>
          NoRoom(ParseExpr(p.rest[1..]),
                 test + EmitE(p.value, c2) + [I(Jump(OP_JMP, LabelName(n, "X")))] + [D(LabelName(n, "E"))],
                 AfterE(p.value, c2))
          ==> NoRoom(ParseValues(t, ts), done, c))
  {
    hide ParseExpr, EmitE, AfterE, Long, LabelName, IsWord;
    if ParseValues(t, ts).Ok? {
      var e := ParseValues(t, ts).value;
      IfNoRoom(done, t, e.a, e.b, c);
    }
  }

  /** The beginnings of a bound list */
  lemma BoundsNoRoom(list: seq<Item>, b: Bounds, zero: bool, c: Ctx)
    ensures var c1 := AfterE(b.first, c);
      var one := list + EmitE(b.first, c);
      var two := one + if b.second.Some? || zero then EmitE(OrZero(b.second), c1) else [];
      var three := two + if b.third.Some? || zero then EmitE(OrZero(b.third), AfterE(OrZero(b.second), c1)) else [];
      Long(one) || Long(two) || Long(three) ==> Long(list + BoundCode(b, zero, c))
  {
    hide EmitE, AfterE, Long, BoundCode;
    BoundRegroup(list, b, zero, c);
    var c1 := AfterE(b.first, c);
    var one := list + EmitE(b.first, c);
    var more := if b.second.Some? || zero then EmitE(OrZero(b.second), c1) else [];
    LongMore(one, more);
    LongMore(one + more, if b.third.Some? || zero then EmitE(OrZero(b.third), AfterE(OrZero(b.second), c1)) else []);
  }

  /** An extraction whose positions do not fit, or whose operator does not */
  lemma FieldRoom(e: Expr, ts: seq<Token>, c: Ctx, done: seq<Item>)
    requires Look(ts).kind == TKN_LT && Classify(ts).Field?
    ensures var b := ParseBounds(Classify(ts).marked[1..]);
      b.Ok? && Long(done + EmitE(e, c) + BoundCode(b.value, true, AfterE(e, c))) ==>
        NoRoom(ParsePostfix(e, ts), done, c)
    ensures var b := ParseBounds(Classify(ts).marked[1..]);
      b.Ok? && Long(done + EmitE(e, c) + BoundCode(b.value, true, AfterE(e, c)) + [Op(OP_EXTRACT)]) ==>
        NoRoom(ParsePostfix(e, ts), done, c)
  {
    hide EmitE, AfterE, Long, BoundCode, ParsePostfix, ParseBounds, Classify;
    FieldStep(e, ts);
    match ParseBounds(Classify(ts).marked[1..])
    case Err =>
    case Ok(b, rest) =>
      FieldCode(e, b, c);
      Regroup3(done, EmitE(e, c), BoundCode(b, true, AfterE(e, c)), [Op(OP_EXTRACT)]);
      LongMore(done + EmitE(e, c) + BoundCode(b, true, AfterE(e, c)), [Op(OP_EXTRACT)]);
      if Look(rest).kind == TKN_END_FIELD {
        PostfixRoom(FieldOf(e, b), rest[1..], c, done);
      }
  }

  lemma SubstringRoom(e: Expr, ts: seq<Token>, c: Ctx, done: seq<Item>)
    requires Look(ts).kind == TKN_LSQBR
    ensures var b := ParseBounds(ts[1..]);
      b.Ok? && Long(done + EmitE(e, c) + BoundCode(b.value, false, AfterE(e, c))) ==>
        NoRoom(ParsePostfix(e, ts), done, c)
    ensures var b := ParseBounds(ts[1..]);
      b.Ok? && Long(done + EmitE(e, c) + BoundCode(b.value, false, AfterE(e, c)) + [Op(ExtractionOp(b.value))]) ==>
        NoRoom(ParsePostfix(e, ts), done, c)
  {
    hide EmitE, AfterE, Long, BoundCode, ParsePostfix, ParseBounds, Extraction;
    SubstringStep(e, ts);
    match ParseBounds(ts[1..])
    case Err =>
    case Ok(b, rest) =>
      ExtractionCode(e, b, c);
      Regroup3(done, EmitE(e, c), BoundCode(b, false, AfterE(e, c)), [Op(ExtractionOp(b))]);
      LongMore(done + EmitE(e, c) + BoundCode(b, false, AfterE(e, c)), [Op(ExtractionOp(b))]);
      if Look(rest).kind == TKN_RSQBR {
        PostfixRoom(Extraction(e, b), rest[1..], c, done);
      }
  }

  function ExtractionOp(b: Bounds): int {
    if b.second.None? then OP_SUBSTRE else if b.third.None? then OP_SUBSTR else OP_FIELD
  }
}
