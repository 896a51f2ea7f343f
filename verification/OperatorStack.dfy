/** What the operator stack and the code already emitted mean while an expression is
    being compiled. */
module OperatorStack {
  import opened Outcomes
  import opened Isa
  import opened Listing
  import opened Syntax
  import opened Grammar
  import opened Generate
  import opened Precedence

  const STACK_MARK: int := 9999

  /** op_priority */
  function Priority(kind: int): int {
    if Level(kind) == 0 then 0 else 10 * Level(kind) + 11
  }

  /** Above the mark at base lie the pending frames and, on top, a NEG whose operand
      has already been emitted. */
  ghost predicate Pending(ops: seq<int>, pris: seq<int>, base: nat, fs: seq<Frame>, neg: bool, depth: nat) {
    && depth == base + |fs| + (if neg then 1 else 0)
    && depth < |ops| == |pris|
    && pris[base] == STACK_MARK
    && (forall i :: 0 <= i < |fs| ==>
         ops[base + 1 + i] == fs[i].op && 0 <= fs[i].op < 256 && fs[i].level <= 7
         && pris[base + 1 + i] == 10 * fs[i].level + 11)
    && (neg ==> ops[depth] == OP_NEG && pris[depth] == 1)
  }

  /** The top entry, and what remains when it is taken off. */
  lemma PendingTop(ops: seq<int>, pris: seq<int>, base: nat, fs: seq<Frame>, neg: bool, depth: nat)
    requires Pending(ops, pris, base, fs, neg, depth) && depth > base
    ensures depth < |ops| == |pris| && 0 <= ops[depth] < 256 && pris[depth] != STACK_MARK
    ensures neg ==> ops[depth] == OP_NEG && pris[depth] == 1 && Pending(ops, pris, base, fs, false, depth - 1)
    ensures !neg ==> fs != [] && ops[depth] == fs[|fs| - 1].op && pris[depth] == 10 * fs[|fs| - 1].level + 11
    ensures !neg ==> Pending(ops, pris, base, fs[..|fs| - 1], false, depth - 1)
  {
    if !neg {
      assert ops[base + 1 + (|fs| - 1)] == fs[|fs| - 1].op;
    }
  }

  lemma PendingBase(ops: seq<int>, pris: seq<int>, base: nat, fs: seq<Frame>, neg: bool, depth: nat)
    requires Pending(ops, pris, base, fs, neg, depth) && depth <= base
    ensures depth == base && fs == [] && !neg && base < |pris| && pris[base] == STACK_MARK
  {
  }

  lemma OperatorFacts(t: Token, rest: seq<Token>)
    requires OpLevel([t] + rest) > 0
    ensures OpLevel([t] + rest) <= 7 && Priority(t.kind) == 10 * OpLevel([t] + rest) + 11 && 0 <= Opcode(t.kind) < 256
    ensures ([t] + rest)[0] == t && ([t] + rest)[1..] == rest && t.kind != TKN_END
  {
  }

  lemma CeilingFacts(fs: seq<Frame>)
    requires Stacked(fs)
    ensures Ceiling(fs) == if fs == [] then 7 else fs[|fs| - 1].level - 1
  {
  }

  lemma NoFrames()
    ensures Stacked([])
  {
  }

  lemma PendingEmpty(ops: seq<int>, pris: seq<int>, base: nat, c: Ctx)
    requires base < |ops| == |pris| && pris[base] == STACK_MARK
    ensures Pending(ops, pris, base, [], false, base) && Stacked([])
    ensures FramesCode([], c) == [] && FramesCtx([], c) == c
  {
  }

  lemma PendingNeg(ops: seq<int>, pris: seq<int>, base: nat, fs: seq<Frame>, depth: nat)
    requires Pending(ops, pris, base, fs, false, depth) && depth + 1 < |ops|
    requires ops[depth + 1] == OP_NEG && pris[depth + 1] == 1
    ensures Pending(ops, pris, base, fs, true, depth + 1)
  {
  }

  lemma Shorter<T>(a: seq<T>, b: seq<T>, d: nat, base: nat)
    requires base <= d < |a| && d < |b| && a[..d + 1] == b[..d + 1]
    ensures a[..base + 1] == b[..base + 1]
  {
    assert a[..base + 1] == a[..d + 1][..base + 1] && b[..base + 1] == b[..d + 1][..base + 1];
  }

  /** Only the mark at the base has the mark's priority. */
  lemma StackBottom(ops: seq<int>, pris: seq<int>, base: nat, fs: seq<Frame>, neg: bool, depth: nat)
    requires Pending(ops, pris, base, fs, neg, depth)
    ensures base <= depth < |ops| && (depth == base <==> pris[depth] == STACK_MARK)
    ensures depth == base ==> fs == [] && !neg
  {
    if depth > base {
      PendingTop(ops, pris, base, fs, neg, depth);
    }
  }

  lemma SameTop<T>(a: seq<T>, b: seq<T>, d: nat)
    requires d < |a| && d < |b| && a[..d + 1] == b[..d + 1]
    ensures a[d] == b[d]
  {
    assert a[d] == a[..d + 1][d] && b[d] == b[..d + 1][d];
  }

  lemma PendingPush(ops: seq<int>, pris: seq<int>, base: nat, fs: seq<Frame>, depth: nat, f: Frame)
    requires Pending(ops, pris, base, fs, false, depth) && depth + 1 < |ops|
    requires 0 <= f.op < 256 && f.level <= 7
    ensures Pending(ops[depth + 1 := f.op], pris[depth + 1 := 10 * f.level + 11], base, fs + [f], false, depth + 1)
  {
  }

  /** Pending only looks at the stack up to its top. */
  lemma PendingKept(ops: seq<int>, pris: seq<int>, ops': seq<int>, pris': seq<int>, base: nat, fs: seq<Frame>,
                    depth: nat)
    requires Pending(ops, pris, base, fs, false, depth) && |ops'| == |pris'| == |ops|
    requires ops'[..depth + 1] == ops[..depth + 1] && pris'[..depth + 1] == pris[..depth + 1]
    ensures Pending(ops', pris', base, fs, false, depth)
  {
    forall i | 0 <= i <= depth ensures ops'[i] == ops[i] && pris'[i] == pris[i] {
      assert ops'[i] == ops'[..depth + 1][i] && pris'[i] == pris'[..depth + 1][i];
    }
  }

  /** The tables after the operands to the left of the frames' operators. */
  function FramesCtx(fs: seq<Frame>, c: Ctx): Ctx {
    if fs == [] then c else AfterE(fs[|fs| - 1].left, FramesCtx(fs[..|fs| - 1], c))
  }

  /** The code of those operands. */
  function FramesCode(fs: seq<Frame>, c: Ctx): seq<Item> {
    if fs == [] then []
    else FramesCode(fs[..|fs| - 1], c) + EmitE(fs[|fs| - 1].left, FramesCtx(fs[..|fs| - 1], c))
  }

  function Code(fs: seq<Frame>, e: Expr, c: Ctx): seq<Item> {
    FramesCode(fs, c) + EmitE(e, FramesCtx(fs, c))
  }

  lemma CodeAfter(done: seq<Item>, fs: seq<Frame>, e: Expr, c: Ctx)
    ensures (done + FramesCode(fs, c)) + EmitE(e, FramesCtx(fs, c)) == done + Code(fs, e, c)
  {
    Regroup(done, FramesCode(fs, c), EmitE(e, FramesCtx(fs, c)));
  }

  lemma AppCode(op: int, args: Exprs, c: Ctx)
    ensures EmitE(App(op, args), c) == EmitArgs(args, c) + [Op(op)] && AfterE(App(op, args), c) == AfterArgs(args, c)
  {
  }

  lemma ArgsCode(init: Exprs, last: Expr, c: Ctx)
    ensures EmitArgs(Args(init, last), c) == EmitArgs(init, c) + EmitE(last, AfterArgs(init, c))
    ensures AfterArgs(Args(init, last), c) == AfterE(last, AfterArgs(init, c))
  {
  }

  lemma OneCode(e: Expr, c: Ctx)
    ensures EmitArgs(One(e), c) == EmitE(e, c) && AfterArgs(One(e), c) == AfterE(e, c)
  {
    ArgsCode(NoArgs, e, c);
    assert [] + EmitE(e, c) == EmitE(e, c);
  }

  lemma BinCode(op: int, l: Expr, r: Expr, c: Ctx)
    ensures EmitE(Bin(op, l, r), c) == EmitE(l, c) + EmitE(r, AfterE(l, c)) + [Op(op)]
    ensures AfterE(Bin(op, l, r), c) == AfterE(r, AfterE(l, c))
  {
    hide EmitE, EmitArgs, AfterE, AfterArgs;
    AppCode(op, Two(l, r), c);
    ArgsCode(One(l), r, c);
    OneCode(l, c);
  }

  lemma NegCode(e: Expr, c: Ctx)
    ensures EmitE(App(OP_NEG, One(e)), c) == EmitE(e, c) + [Op(OP_NEG)]
    ensures AfterE(App(OP_NEG, One(e)), c) == AfterE(e, c)
  {
    hide EmitE, EmitArgs, AfterE, AfterArgs;
    AppCode(OP_NEG, One(e), c);
    OneCode(e, c);
  }

  /** Emitting the top frame's operator completes its tree. */
  lemma PopCode(fs: seq<Frame>, e: Expr, c: Ctx)
    requires fs != []
    ensures var top, below := fs[|fs| - 1], fs[..|fs| - 1];
      && Code(fs, e, c) + [Op(top.op)] == Code(below, Bin(top.op, top.left, e), c)
      && AfterE(e, FramesCtx(fs, c)) == AfterE(Bin(top.op, top.left, e), FramesCtx(below, c))
  {
    hide EmitE, AfterE;
    var top, below := fs[|fs| - 1], fs[..|fs| - 1];
    var cb := FramesCtx(below, c);
    BinCode(top.op, top.left, e, cb);
    Regroup3(FramesCode(below, c), EmitE(top.left, cb), EmitE(e, FramesCtx(fs, c)), [Op(top.op)]);
  }

  /** A pushed operator's left operand is the code emitted so far. */
  lemma PushCode(fs: seq<Frame>, f: Frame, c: Ctx)
    ensures FramesCode(fs + [f], c) == Code(fs, f.left, c)
    ensures FramesCtx(fs + [f], c) == AfterE(f.left, FramesCtx(fs, c))
  {
    assert (fs + [f])[..|fs|] == fs;
  }

  /** The code of an operator left on the stack for later. */
  function NegPart(neg: bool): seq<Item> {
    if neg then [Op(OP_NEG)] else []
  }

  /** The code of a tree with extractions. */
  lemma ThreeCode(op: int, e: Expr, a: Expr, b: Expr, c: Ctx)
    ensures var c1 := AfterE(e, c); var c2 := AfterE(a, c1);
      && EmitE(App(op, Three(e, a, b)), c) == EmitE(e, c) + EmitE(a, c1) + EmitE(b, c2) + [Op(op)]
      && AfterE(App(op, Three(e, a, b)), c) == AfterE(b, c2)
  {
    hide EmitE, EmitArgs, AfterE, AfterArgs;
    AppCode(op, Three(e, a, b), c);
    ArgsCode(Two(e, a), b, c);
    ArgsCode(One(e), a, c);
    OneCode(e, c);
  }

  lemma FourCode(op: int, e: Expr, a: Expr, b: Expr, d: Expr, c: Ctx)
    ensures var c1 := AfterE(e, c); var c2 := AfterE(a, c1); var c3 := AfterE(b, c2);
      && EmitE(App(op, Four(e, a, b, d)), c)
           == EmitE(e, c) + EmitE(a, c1) + EmitE(b, c2) + EmitE(d, c3) + [Op(op)]
      && AfterE(App(op, Four(e, a, b, d)), c) == AfterE(d, c3)
  {
    hide EmitE, EmitArgs, AfterE, AfterArgs;
    AppCode(op, Four(e, a, b, d), c);
    ArgsCode(Three(e, a, b), d, c);
    ArgsCode(Two(e, a), b, c);
    ArgsCode(One(e), a, c);
    OneCode(e, c);
  }

  /** The code of a bound list; with zeros for missing bounds where they are wanted. */
  function BoundCode(b: Bounds, zero: bool, c: Ctx): seq<Item> {
    var c1 := AfterE(b.first, c);
    EmitE(b.first, c)
    + (if b.second.Some? || zero then EmitE(OrZero(b.second), c1) else [])
    + (if b.third.Some? || zero then EmitE(OrZero(b.third), AfterE(OrZero(b.second), c1)) else [])
  }

  function AfterBounds(b: Bounds, c: Ctx): Ctx {
    AfterE(OrZero(b.third), AfterE(OrZero(b.second), AfterE(b.first, c)))
  }

  lemma BoundRegroup(done: seq<Item>, b: Bounds, zero: bool, c: Ctx)
    ensures var c1 := AfterE(b.first, c);
      done + EmitE(b.first, c) + (if b.second.Some? || zero then EmitE(OrZero(b.second), c1) else [])
      + (if b.third.Some? || zero then EmitE(OrZero(b.third), AfterE(OrZero(b.second), c1)) else [])
      == done + BoundCode(b, zero, c)
  {
    hide EmitE, AfterE;
  }

  lemma Regroup3<T>(a: seq<T>, b: seq<T>, c: seq<T>, d: seq<T>)
    ensures a + b + c + d == a + (b + c + d)
  {
  }

  /** x[a], x[a,b] and x[a,b,c] */
  lemma OneBoundCode(e: Expr, b: Bounds, c: Ctx)
    requires b.second.None? && b.third.None?
    ensures EmitE(Extraction(e, b), c) == EmitE(e, c) + BoundCode(b, false, AfterE(e, c)) + [Op(OP_SUBSTRE)]
    ensures AfterE(Extraction(e, b), c) == AfterBounds(b, AfterE(e, c))
  {
    BinCode(OP_SUBSTRE, e, b.first, c);
    NumberKeeps(0, AfterE(b.first, AfterE(e, c)));
    hide EmitE, AfterE;
  }

  lemma TwoBoundsCode(e: Expr, b: Bounds, c: Ctx)
    requires b.second.Some? && b.third.None?
    ensures EmitE(Extraction(e, b), c) == EmitE(e, c) + BoundCode(b, false, AfterE(e, c)) + [Op(OP_SUBSTR)]
    ensures AfterE(Extraction(e, b), c) == AfterBounds(b, AfterE(e, c))
  {
    hide EmitE, AfterE;
    ThreeCode(OP_SUBSTR, e, b.first, b.second.value, c);
    NumberKeeps(0, AfterE(b.second.value, AfterE(b.first, AfterE(e, c))));
    Regroup3(EmitE(e, c), EmitE(b.first, AfterE(e, c)), EmitE(b.second.value, AfterE(b.first, AfterE(e, c))), []);
  }

  lemma ThreeBoundsCode(e: Expr, b: Bounds, c: Ctx)
    requires b.second.Some? && b.third.Some?
    ensures EmitE(Extraction(e, b), c) == EmitE(e, c) + BoundCode(b, false, AfterE(e, c)) + [Op(OP_FIELD)]
    ensures AfterE(Extraction(e, b), c) == AfterBounds(b, AfterE(e, c))
  {
    hide EmitE, AfterE;
    FourCode(OP_FIELD, e, b.first, b.second.value, b.third.value, c);
    Regroup3(EmitE(e, c), EmitE(b.first, AfterE(e, c)), EmitE(b.second.value, AfterE(b.first, AfterE(e, c))),
             EmitE(b.third.value, AfterE(b.second.value, AfterE(b.first, AfterE(e, c)))));
  }

  lemma ExtractionCode(e: Expr, b: Bounds, c: Ctx)
    requires b.third.Some? ==> b.second.Some?
    ensures EmitE(Extraction(e, b), c)
         == EmitE(e, c) + BoundCode(b, false, AfterE(e, c))
            + [Op(if b.second.None? then OP_SUBSTRE else if b.third.None? then OP_SUBSTR else OP_FIELD)]
    ensures AfterE(Extraction(e, b), c) == AfterBounds(b, AfterE(e, c))
  {
    hide EmitE, AfterE, BoundCode, AfterBounds, Extraction;
    if b.second.None? {
      OneBoundCode(e, b, c);
    } else if b.third.None? {
      TwoBoundsCode(e, b, c);
    } else {
      ThreeBoundsCode(e, b, c);
    }
  }

  lemma FieldCode(e: Expr, b: Bounds, c: Ctx)
    ensures EmitE(FieldOf(e, b), c) == EmitE(e, c) + BoundCode(b, true, AfterE(e, c)) + [Op(OP_EXTRACT)]
    ensures AfterE(FieldOf(e, b), c) == AfterBounds(b, AfterE(e, c))
  {
    FourCode(OP_EXTRACT, e, b.first, OrZero(b.second), OrZero(b.third), c);
    hide EmitE, AfterE;
    var c1 := AfterE(e, c);
    var c2 := AfterE(b.first, c1);
    Regroup3(EmitE(e, c), EmitE(b.first, c1), EmitE(OrZero(b.second), c2),
             EmitE(OrZero(b.third), AfterE(OrZero(b.second), c2)));
  }
}
