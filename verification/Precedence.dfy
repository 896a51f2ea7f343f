/** Why the operator stack reads the same tree as recursive descent.

    A frame is an operator on the stack with the operand to its left.  Resume says
    what the recursive-descent parser still has to do when those frames are pending:
    finish the current operand at each level below the top frame's, close the top
    frame, and go on.  Pushing, popping and finishing leave Resume unchanged. */
module Precedence {
  import opened Outcomes
  import opened Isa
  import opened Syntax
  import opened Grammar

  datatype Frame = Frame(left: Expr, op: int, level: nat)

  /** Read the operators of levels k + 1 to hi that follow an operand. */
  function Climb(k: nat, hi: nat, e: Expr, ts: seq<Token>): (r: Parse<Expr>)
    requires k <= hi <= 7
    ensures r.Ok? ==> |r.rest| <= |ts|
    decreases hi - k
  {
    if k == hi then Ok(e, ts)
    else match LoopLevel(k + 1, e, ts)
      case Err => Err
      case Ok(e', rest) => Climb(k + 1, hi, e', rest)
  }

  /** Levels strictly decrease towards the top of the stack. */
  predicate Stacked(fs: seq<Frame>) {
    && (forall i :: 0 <= i < |fs| ==> 1 <= fs[i].level <= 7)
    && (forall i, j :: 0 <= i < j < |fs| ==> fs[i].level > fs[j].level)
  }

  function Ceiling(fs: seq<Frame>): (h: nat)
    requires Stacked(fs)
    ensures h <= 7
  {
    if fs == [] then 7 else fs[|fs| - 1].level - 1
  }

  function Resume(fs: seq<Frame>, k: nat, e: Expr, ts: seq<Token>): Parse<Expr>
    requires Stacked(fs) && k <= Ceiling(fs)
    decreases |fs|
  {
    match Climb(k, Ceiling(fs), e, ts)
    case Err => Err
    case Ok(e', rest) =>
      if fs == [] then Ok(e', rest)
      else
        var top, below := fs[|fs| - 1], fs[..|fs| - 1];
        Resume(below, top.level - 1, Bin(top.op, top.left, e'), rest)
  }

  /** A level is its operand followed by a climb from below. */
  lemma {:induction false} LevelIsClimb(k: nat, ts: seq<Token>)
    requires k <= 7
    ensures ParseLevel(k, ts) == match ParseItem(false, ts) case Err => Err case Ok(e, rest) => Climb(0, k, e, rest)
  {
    if k > 0 {
      LevelIsClimb(k - 1, ts);
      match ParseItem(false, ts) {
        case Err =>
        case Ok(e, rest) => ClimbSplit(0, k - 1, k, e, rest);
      }
    }
  }

  lemma {:induction false} ClimbSplit(k: nat, m: nat, hi: nat, e: Expr, ts: seq<Token>)
    requires k <= m <= hi <= 7
    ensures Climb(k, hi, e, ts) == match Climb(k, m, e, ts) case Err => Err case Ok(e', rest) => Climb(m, hi, e', rest)
    decreases m - k
  {
    if k < m {
      match LoopLevel(k + 1, e, ts) {
        case Err =>
        case Ok(e', rest) => ClimbSplit(k + 1, m, hi, e', rest);
      }
    }
  }

  /** Levels that the next operator does not have are passed over. */
  lemma {:induction false} ClimbSkip(k: nat, m: nat, hi: nat, e: Expr, ts: seq<Token>)
    requires k <= m <= hi <= 7 && (OpLevel(ts) == 0 || OpLevel(ts) > m)
    ensures Climb(k, hi, e, ts) == Climb(m, hi, e, ts)
    decreases m - k
  {
    if k < m {
      ClimbSkip(k + 1, m, hi, e, ts);
    }
  }

  /** Start: the first operand, with nothing pending. */
  lemma StartExpr(ts: seq<Token>)
    ensures ParseExpr(ts) == match ParseItem(false, ts) case Err => Err case Ok(e, rest) => Resume([], 0, e, rest)
  {
    LevelIsClimb(7, ts);
  }

  /** Pop: an operator that binds no tighter than the top frame, or none, closes it. */
  lemma PopFrame(fs: seq<Frame>, e: Expr, ts: seq<Token>)
    requires Stacked(fs) && fs != []
    requires OpLevel(ts) == 0 || OpLevel(ts) >= fs[|fs| - 1].level
    ensures Stacked(fs[..|fs| - 1])
    ensures Resume(fs, 0, e, ts)
         == Resume(fs[..|fs| - 1], 0, Bin(fs[|fs| - 1].op, fs[|fs| - 1].left, e), ts)
  {
    var top, below := fs[|fs| - 1], fs[..|fs| - 1];
    ClimbSkip(0, Ceiling(fs), Ceiling(fs), e, ts);
    ClimbSkip(0, top.level - 1, Ceiling(below), Bin(top.op, top.left, e), ts);
  }

  /** Meeting an operator of the next level: read its operand and stay on that level. */
  lemma EnterLoop(q: nat, hi: nat, e: Expr, ts: seq<Token>)
    requires 1 <= q <= hi <= 7 && OpLevel(ts) == q
    ensures Climb(q - 1, hi, e, ts) == match ParseLevel(q - 1, ts[1..])
              case Err => Err
              case Ok(right, rest) => Climb(q - 1, hi, Bin(Opcode(ts[0].kind), e, right), rest)
  {
    hide ParseLevel;
  }

  lemma StackFrame(fs: seq<Frame>, f: Frame)
    requires Stacked(fs) && 1 <= f.level <= Ceiling(fs)
    ensures Stacked(fs + [f]) && Ceiling(fs + [f]) == f.level - 1
  {
  }

  lemma ResumeFrame(fs: seq<Frame>, f: Frame, e: Expr, ts: seq<Token>)
    requires Stacked(fs) && 1 <= f.level <= Ceiling(fs) && Stacked(fs + [f])
    ensures Resume(fs + [f], 0, e, ts) == match Climb(0, f.level - 1, e, ts)
              case Err => Err
              case Ok(e', rest) => Resume(fs, f.level - 1, Bin(f.op, f.left, e'), rest)
  {
    hide Climb, Stacked;
    StackFrame(fs, f);
    assert (fs + [f])[..|fs|] == fs;
  }

  /** Push: an operator that binds tighter than every frame opens a new one. */
  lemma PushFrame(fs: seq<Frame>, e: Expr, ts: seq<Token>)
    requires Stacked(fs) && 1 <= OpLevel(ts) <= Ceiling(fs)
    ensures var fs' := fs + [Frame(e, Opcode(ts[0].kind), OpLevel(ts))];
      Stacked(fs') && Resume(fs, 0, e, ts)
        == match ParseItem(false, ts[1..]) case Err => Err case Ok(e', rest) => Resume(fs', 0, e', rest)
  {
    var q, hi, f := OpLevel(ts), Ceiling(fs), Frame(e, Opcode(ts[0].kind), OpLevel(ts));
    StackFrame(fs, f);
    hide ParseLevel, LoopLevel, ParseItem, OpLevel, Opcode, Climb, Stacked;
    ClimbSkip(0, q - 1, hi, e, ts);
    LevelIsClimb(q - 1, ts[1..]);
    EnterLoop(q, hi, e, ts);
    match ParseItem(false, ts[1..]) {
      case Err =>
      case Ok(e', rest) => ResumeFrame(fs, f, e', rest);
    }
  }

  /** Finish: no operator and nothing pending. */
  lemma FinishExpr(e: Expr, ts: seq<Token>)
    requires OpLevel(ts) == 0
    ensures Resume([], 0, e, ts) == Ok(e, ts)
  {
    ClimbSkip(0, 7, 7, e, ts);
  }

  /** At the end of a line there is no expression. */
  lemma EmptyLine(ts: seq<Token>)
    ensures Line(ts) == 0 ==> ParseExpr(ts) == Err
    ensures ts == [] ==> ParseExpr(ts) == ParseItem(false, [EndToken]) == Err
  {
    StartExpr(ts);
  }

  /** Reading past the end gives end-of-line tokens, which start no operand; nor does **. */
  lemma NextItem(ts: seq<Token>)
    ensures ParseItem(false, ts) == ParseItem(false, [Look(ts)] + if ts == [] then [] else ts[1..])
    ensures Look(ts).kind == TKN_PWR ==> ParseItem(false, ts).Err?
  {
    if ts != [] {
      assert ts == [Look(ts)] + ts[1..];
    }
  }

  lemma SignStep(minus: bool, t: Token, rest: seq<Token>)
    requires t.kind == TKN_PLUS || t.kind == TKN_MINUS
    ensures ParseItem(minus, [t] + rest)
         == ParseItem(if t.kind == TKN_MINUS then !minus else minus,
                      [Look(rest)] + if rest == [] then [] else rest[1..])
  {
    assert ([t] + rest)[1..] == rest;
    if rest != [] {
      assert rest == [Look(rest)] + rest[1..];
    }
  }

  lemma PrimaryStep(minus: bool, t: Token, rest: seq<Token>)
    requires t.kind != TKN_PLUS && t.kind != TKN_MINUS
    ensures ParseItem(minus, [t] + rest) == match ParsePrimary(minus, [t] + rest)
              case Err => Err
              case Ok(base, us) =>
                match ParsePostfix(base, us)
                case Err => Err
                case Ok(e, vs) => Ok(if minus && t.kind != TKN_NUM then App(OP_NEG, One(e)) else e, vs)
  {
    assert ([t] + rest)[0] == t;
  }

  lemma PostfixEnd(e: Expr, ts: seq<Token>)
    requires Look(ts).kind != TKN_LSQBR && Look(ts).kind != TKN_LT
    ensures ParsePostfix(e, ts) == Ok(e, ts)
  {
  }

  lemma PostfixOperator(e: Expr, ts: seq<Token>)
    requires Look(ts).kind == TKN_LT && Classify(ts).Operator?
    ensures ParsePostfix(e, ts) == Ok(e, ts)
  {
  }

  lemma PostfixCrash(e: Expr, ts: seq<Token>)
    requires Look(ts).kind == TKN_LT && Classify(ts).Crash?
    ensures ParsePostfix(e, ts).Err?
  {
  }

  lemma NoMore(ts: seq<Token>)
    ensures ParseMore(ts).Ok? && ParseMore(ts).value.None? ==> ParseMore(ts).rest == ts && Look(ts).kind != TKN_COMMA
    ensures Look(ts).kind != TKN_COMMA ==> ParseMore(ts) == Ok(None, ts)
  {
  }

  /** A bound list, part by part. */
  lemma BoundsStep(ts: seq<Token>)
    ensures ParseExpr(ts).Err? ==> ParseBounds(ts).Err?
    ensures ParseExpr(ts).Ok? && ParseMore(ParseExpr(ts).rest).Err? ==> ParseBounds(ts).Err?
    ensures ParseExpr(ts).Ok? && ParseMore(ParseExpr(ts).rest).Ok? ==>
              var more := ParseMore(ParseMore(ParseExpr(ts).rest).rest);
              && (more.Err? ==> ParseBounds(ts).Err?)
              && (more.Ok? ==>
                  ParseBounds(ts)
                  == Ok(Bounds(ParseExpr(ts).value, ParseMore(ParseExpr(ts).rest).value, more.value), more.rest))
  {
    hide ParseExpr, ParseMore;
  }

  /** A bracketed extraction, once its bounds have been read. */
  lemma SubstringStep(e: Expr, ts: seq<Token>)
    requires Look(ts).kind == TKN_LSQBR
    ensures ParseBounds(ts[1..]).Err? ==> ParsePostfix(e, ts).Err?
    ensures var b := ParseBounds(ts[1..]);
      b.Ok? && Look(b.rest).kind != TKN_RSQBR ==> ParsePostfix(e, ts).Err?
    ensures var b := ParseBounds(ts[1..]);
      b.Ok? && Look(b.rest).kind == TKN_RSQBR ==>
        ParsePostfix(e, ts) == ParsePostfix(Extraction(e, b.value), b.rest[1..])
  {
    hide ParseBounds;
  }

  lemma FieldStep(e: Expr, ts: seq<Token>)
    requires Look(ts).kind == TKN_LT && Classify(ts).Field?
    ensures ParseBounds(Classify(ts).marked[1..]).Err? ==> ParsePostfix(e, ts).Err?
    ensures var b := ParseBounds(Classify(ts).marked[1..]);
      b.Ok? && Look(b.rest).kind != TKN_END_FIELD ==> ParsePostfix(e, ts).Err?
    ensures var b := ParseBounds(Classify(ts).marked[1..]);
      b.Ok? && Look(b.rest).kind == TKN_END_FIELD ==>
        ParsePostfix(e, ts) == ParsePostfix(FieldOf(e, b.value), b.rest[1..])
  {
    hide ParseBounds, Classify;
  }

  /** Marking a token changes no line's length. */
  lemma {:induction false} SameLine(ts: seq<Token>, us: seq<Token>)
    requires |ts| == |us| && forall i :: 0 <= i < |ts| ==> (ts[i].kind == TKN_END <==> us[i].kind == TKN_END)
    ensures Line(ts) == Line(us)
    decreases |ts|
  {
    if ts != [] {
      SameLine(ts[1..], us[1..]);
    }
  }

  lemma MarkedLine(ts: seq<Token>, us: seq<Token>)
    requires Scanned(ts) && |ts| == |us|
    requires forall i :: 0 <= i < |ts| ==> (ts[i].kind == TKN_END <==> us[i].kind == TKN_END)
    requires forall i :: 0 <= i < |us| && NameToken(us[i]) ==> us[i] == ts[i]
    ensures Scanned(us) && Line(ts) == Line(us)
  {
    SameLine(ts, us);
    forall i | 0 <= i <= |us| ensures Line(us[i..]) < INIT_TOKENS - 1 {
      SameLine(ts[i..], us[i..]);
    }
  }
}
