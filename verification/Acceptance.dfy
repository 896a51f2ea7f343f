/** Which programs are accepted.  The labels of constructs never collide, with each other
    or with the programmer's, so only proper nesting and the programmer's own labels
    decide. */
module Acceptance {
  import opened Outcomes
  import opened Isa
  import opened Listing
  import opened Syntax
  import opened Grammar
  import opened Programs
  import opened StatementGrammar
  import opened Names
  import opened Storages
  import opened Generate
  import opened Labels
  import opened ConstructStack
  import opened Growth
  import opened Structure
  import opened Nesting
  import opened Meanings
  import opened Forms
  import opened Prelude
  import opened Heading
  import opened Compilation

  /** The names are the programmer's, occur once, and are not defined yet. */
  ghost predicate NewMarks(m: seq<string>, list: seq<Item>) {
    && (forall i :: 0 <= i < |m| ==> !IsGenerated(m[i]) && D(m[i]) !in list)
    && (forall i, j :: 0 <= i < j < |m| ==> m[i] != m[j])
  }

  ghost predicate JumpsTo(list: seq<Item>, name: string) {
    exists op: int :: I(Jump(op, name)) in list
  }

  /** g1 has g's labels, those of x, and generated ones numbered from lo on. */
  ghost predicate Grows(g: GState, g1: GState, lo: nat, x: Labs) {
    && g.ctx.next <= g1.ctx.next
    && (forall name :: D(name) in g.list ==> D(name) in g1.list)
    && (forall name :: name in x.marks ==> D(name) in g1.list)
    && (forall name :: D(name) in g1.list ==> D(name) in g.list || name in x.marks || Numbered(name, lo, g1.ctx.next))
    && (forall name :: !IsGenerated(name) ==> (JumpsTo(g1.list, name) <==> JumpsTo(g.list, name) || name in x.gotos))
  }

  /** This step succeeds exactly when the programmer's labels in it are new. */
  ghost predicate Makes(g: GState, r: Gen, lo: nat, x: Labs, stack: seq<Entry>) {
    && (r.Good? <==> NewMarks(x.marks, g.list))
    && (r.Good? ==> Grows(g, r.g, lo, x) && r.g.stack == stack)
  }

  /** Generated labels so far carry numbers that were taken. */
  ghost predicate Fresh(g: GState) {
    forall name :: D(name) in g.list && IsGenerated(name) ==> Numbered(name, 0, g.ctx.next)
  }

  predicate New(g: GState, n: nat, suffix: string) {
    D(LabelName(n, suffix)) !in g.list
  }

  lemma NumberedIsGenerated(name: string, lo: nat, hi: nat)
    requires Numbered(name, lo, hi)
    ensures IsGenerated(name)
  {
  }

  lemma GrowsFresh(g: GState, g1: GState, lo: nat, x: Labs)
    requires Fresh(g) && Grows(g, g1, lo, x) && NewMarks(x.marks, g.list)
    ensures Fresh(g1)
  {
    forall name | D(name) in g1.list && IsGenerated(name) ensures Numbered(name, 0, g1.ctx.next) {
      if D(name) in g.list {
        NumberedWiden(name, 0, g.ctx.next, 0, g1.ctx.next);
      } else {
        NumberedWiden(name, lo, g1.ctx.next, 0, g1.ctx.next);
      }
    }
  }

  lemma GrowsJoin(g: GState, g1: GState, g2: GState, lo: nat, x: Labs, y: Labs)
    requires Grows(g, g1, lo, x) && Grows(g1, g2, lo, y)
    ensures Grows(g, g2, lo, Join(x, y))
  {
    hide Numbered, JumpsTo;
    forall name | D(name) in g2.list
      ensures D(name) in g.list || name in x.marks + y.marks || Numbered(name, lo, g2.ctx.next)
    {
      if D(name) in g1.list && Numbered(name, lo, g1.ctx.next) {
        NumberedWiden(name, lo, g1.ctx.next, lo, g2.ctx.next);
      }
    }
  }

  lemma GrowsWiden(g: GState, g1: GState, lo: nat, lo': nat, x: Labs)
    requires Grows(g, g1, lo, x) && lo' <= lo
    ensures Grows(g, g1, lo', x)
  {
    hide Numbered, JumpsTo;
    forall name | D(name) in g1.list ensures D(name) in g.list || name in x.marks || Numbered(name, lo', g1.ctx.next) {
      if Numbered(name, lo, g1.ctx.next) {
        NumberedWiden(name, lo, g1.ctx.next, lo', g1.ctx.next);
      }
    }
  }

  /** A label of construct n is not taken by constructs that come later. */
  lemma StaysNew(g: GState, g1: GState, lo: nat, x: Labs, n: nat, suffix: string)
    requires Grows(g, g1, lo, x) && NewMarks(x.marks, g.list) && New(g, n, suffix) && IsSuffix(suffix) && n < lo
    ensures New(g1, n, suffix)
  {
    var name := LabelName(n, suffix);
    if Numbered(name, lo, g1.ctx.next) {
      var m: nat, s: string :| lo <= m < g1.ctx.next && IsSuffix(s) && name == LabelName(m, s);
      LabelNameInjective(n, suffix, m, s);
    }
  }

  /** Nothing has a number that is not taken yet. */
  lemma NextIsNew(g: GState, suffix: string)
    requires Fresh(g) && IsSuffix(suffix)
    ensures New(g, g.ctx.next, suffix)
  {
    var name := LabelName(g.ctx.next, suffix);
    if D(name) in g.list {
      var m: nat, s: string :| 0 <= m < g.ctx.next && IsSuffix(s) && name == LabelName(m, s);
      LabelNameInjective(g.ctx.next, suffix, m, s);
    }
  }

  lemma MarksJoin(g: GState, g1: GState, lo: nat, x: Labs, m: seq<string>)
    requires Grows(g, g1, lo, x)
    ensures NewMarks(x.marks + m, g.list) ==> NewMarks(x.marks, g.list)
    ensures NewMarks(x.marks, g.list) ==> (NewMarks(x.marks + m, g.list) <==> NewMarks(m, g1.list))
  {
    var all := x.marks + m;
    if NewMarks(all, g.list) {
      FirstMarks(x.marks, m, g.list);
      MarksApart(x.marks, m, g.list);
      forall i | 0 <= i < |m| ensures !IsGenerated(m[i]) && D(m[i]) !in g1.list {
        assert all[|x.marks| + i] == m[i];
      }
      forall i, j | 0 <= i < j < |m| ensures m[i] != m[j] {
        assert all[|x.marks| + i] == m[i] && all[|x.marks| + j] == m[j];
      }
    }
    if NewMarks(x.marks, g.list) && NewMarks(m, g1.list) {
      forall i | 0 <= i < |m| ensures D(m[i]) !in g.list && m[i] !in x.marks {
      }
    }
  }

  lemma MarksApart(a: seq<string>, b: seq<string>, list: seq<Item>)
    requires NewMarks(a + b, list)
    ensures forall i :: 0 <= i < |b| ==> b[i] !in a
  {
    forall i, j | 0 <= i < |b| && 0 <= j < |a| ensures b[i] != a[j] {
      assert (a + b)[j] == a[j] && (a + b)[|a| + i] == b[i];
    }
  }

  lemma FirstMarks(a: seq<string>, b: seq<string>, list: seq<Item>)
    requires NewMarks(a + b, list)
    ensures NewMarks(a, list)
  {
    forall i | 0 <= i < |a| ensures !IsGenerated(a[i]) && D(a[i]) !in list {
      assert (a + b)[i] == a[i];
    }
    forall i, j | 0 <= i < j < |a| ensures a[i] != a[j] {
      assert (a + b)[i] == a[i] && (a + b)[j] == a[j];
    }
  }

  /** One step after another */
  lemma Bind(g: GState, r1: Gen, r2: Gen, lo: nat, x: Labs, y: Labs, s1: seq<Entry>, s2: seq<Entry>)
    requires Makes(g, r1, lo, x, s1)
    requires r1.Bad? ==> r2.Bad?
    requires r1.Good? ==> Makes(r1.g, r2, lo, y, s2)
    ensures Makes(g, r2, lo, Join(x, y), s2)
  {
    hide Grows, NewMarks;
    if r1.Good? {
      MarksJoin(g, r1.g, lo, x, y.marks);
      if r2.Good? {
        GrowsJoin(g, r1.g, r2.g, lo, x, y);
      }
    } else {
      OnlyFirst(x.marks, y.marks, g.list);
    }
  }

  lemma OnlyFirst(a: seq<string>, b: seq<string>, list: seq<Item>)
    ensures NewMarks(a + b, list) ==> NewMarks(a, list)
  {
    if NewMarks(a + b, list) {
      FirstMarks(a, b, list);
    }
  }

  lemma NoMarks(x: Labs, list: seq<Item>)
    ensures NewMarks([], list) && Join(NoLabs, x) == x && Join(x, NoLabs) == x
  {
    assert [] + x.marks == x.marks && x.marks + [] == x.marks && [] + x.gotos == x.gotos && x.gotos + [] == x.gotos;
  }

  /** A step after code without the programmer's labels */
  lemma Begin(g: GState, g1: GState, r: Gen, lo: nat, x: Labs, stack: seq<Entry>)
    requires Grows(g, g1, lo, NoLabs) && Makes(g1, r, lo, x, stack)
    ensures Makes(g, r, lo, x, stack)
  {
    hide Grows, NewMarks;
    NoMarks(x, g.list);
    Bind(g, Good(g1), r, lo, NoLabs, x, g1.stack, stack);
  }

  /** A step before code without the programmer's labels */
  lemma Finish(g: GState, r1: Gen, r2: Gen, lo: nat, x: Labs, s1: seq<Entry>, stack: seq<Entry>)
    requires Makes(g, r1, lo, x, s1)
    requires r1.Bad? ==> r2.Bad?
    requires r1.Good? ==> r2.Good? && Grows(r1.g, r2.g, lo, NoLabs) && r2.g.stack == stack
    ensures Makes(g, r2, lo, x, stack)
  {
    hide Grows, NewMarks;
    NoMarks(x, g.list);
    if r1.Good? {
      NoMarks(x, r1.g.list);
    }
    Bind(g, r1, r2, lo, x, NoLabs, s1, stack);
  }

  lemma MakesWiden(g: GState, r: Gen, lo: nat, lo': nat, x: Labs, stack: seq<Entry>)
    requires Makes(g, r, lo, x, stack) && lo' <= lo
    ensures Makes(g, r, lo', x, stack)
  {
    hide Grows, NewMarks;
    if r.Good? {
      GrowsWiden(g, r.g, lo, lo', x);
    }
  }

  /** Labels and jumps are all generated. */
  ghost predicate Own(items: seq<Item>) {
    && (forall name :: D(name) in items ==> IsGenerated(name))
    && (forall op: int, name :: I(Jump(op, name)) in items ==> IsGenerated(name))
  }

  lemma OwnConcat(a: seq<Item>, b: seq<Item>)
    requires Own(a) && Own(b)
    ensures Own(a + b)
  {
  }

  lemma OwnOne(x: Item)
    requires x.D? ==> IsGenerated(x.name)
    requires x.I? && x.ins.Jump? ==> IsGenerated(x.ins.target)
    ensures Own([x])
  {
  }

  lemma {:induction false} TextOwn(s: string)
    ensures Own(TextLoad(s))
  {
    if s != "" {
      MoreOwn(s[ChunkSize(s)..]);
    }
  }

  lemma {:induction false} MoreOwn(s: string)
    ensures Own(MoreText(s))
    decreases |s|
  {
    if s != "" {
      MoreOwn(s[ChunkSize(s)..]);
    }
  }

  lemma {:induction false} ExprOwn(e: Expr, c: Ctx)
    ensures Own(EmitE(e, c))
  {
    match e
    case Num(n) => OwnOne(I(NumberLoad(n)));
    case Str(s) => TextOwn(s);
    case Var(name) => OwnOne(Load(Touched(c, name), name));
    case App(op, args) =>
      hide Own;
      ArgsOwn(args, c);
      OwnOne(Op(op));
      OwnConcat(EmitArgs(args, c), [Op(op)]);
    case IfThen(t, a, b) =>
      hide Own, AfterE;
      var c1 := AfterE(t, c);
      var c2 := c1.(next := c1.next + 1);
      ExprOwn(t, c);
      ExprOwn(a, c2);
      ExprOwn(b, AfterE(a, c2));
      IfOwn(EmitE(t, c), EmitE(a, c2), EmitE(b, AfterE(a, c2)), c1.next);
  }

  lemma IfOwn(t: seq<Item>, a: seq<Item>, b: seq<Item>, n: nat)
    requires Own(t) && Own(a) && Own(b)
    ensures Own(t + [Jmp(OP_JFALSE, n, "E")] + a + [Jmp(OP_JMP, n, "X")] + [Lbl(n, "E")] + b + [Lbl(n, "X")])
  {
    OwnOne(Jmp(OP_JFALSE, n, "E"));
    OwnOne(Jmp(OP_JMP, n, "X"));
    OwnOne(Lbl(n, "E"));
    OwnOne(Lbl(n, "X"));
    hide Own;
    OwnConcat(t, [Jmp(OP_JFALSE, n, "E")]);
    OwnConcat(t + [Jmp(OP_JFALSE, n, "E")], a);
    var q := t + [Jmp(OP_JFALSE, n, "E")] + a;
    OwnConcat(q, [Jmp(OP_JMP, n, "X")]);
    OwnConcat(q + [Jmp(OP_JMP, n, "X")], [Lbl(n, "E")]);
    OwnConcat(q + [Jmp(OP_JMP, n, "X")] + [Lbl(n, "E")], b);
    OwnConcat(q + [Jmp(OP_JMP, n, "X")] + [Lbl(n, "E")] + b, [Lbl(n, "X")]);
  }

  lemma {:induction false} ArgsOwn(args: Exprs, c: Ctx)
    ensures Own(EmitArgs(args, c))
  {
    match args
    case NoArgs =>
    case Args(init, last) =>
      hide Own;
      ArgsOwn(init, c);
      ExprOwn(last, AfterArgs(init, c));
      OwnConcat(EmitArgs(init, c), EmitE(last, AfterArgs(init, c)));
  }

  /** Code of the compiler's own */
  lemma OwnGrows(g: GState, items: seq<Item>, stack: seq<Entry>, c: Ctx, lo: nat)
    requires Own(items) && Labelled(items, lo, c.next) && g.ctx.next <= c.next
    ensures Grows(g, GState(g.list + items, stack, c), lo, NoLabs)
  {
    var list := g.list + items;
    forall name | D(name) in list ensures D(name) in g.list || Numbered(name, lo, c.next) {
    }
    forall name | !IsGenerated(name) ensures JumpsTo(list, name) <==> JumpsTo(g.list, name) {
      if JumpsTo(list, name) {
        var op: int :| I(Jump(op, name)) in list;
        assert I(Jump(op, name)) in g.list;
      }
      if JumpsTo(g.list, name) {
        var op: int :| I(Jump(op, name)) in g.list;
        assert I(Jump(op, name)) in list;
      }
    }
  }

  /** Instructions that jump to no label of the programmer's */
  lemma CodeGrows(g: GState, items: seq<Item>, lo: nat)
    requires Own(items) && forall i :: 0 <= i < |items| ==> items[i].I?
    ensures Grows(g, Put(g, items), lo, NoLabs)
  {
    OwnGrows(g, items, g.stack, g.ctx, lo);
  }

  lemma JumpGrows(g: GState, op: int, suffix: string, lo: nat)
    requires g.stack != []
    ensures Grows(g, JumpTop(g, op, suffix), lo, NoLabs) && JumpTop(g, op, suffix).stack == g.stack
    ensures forall n: nat, s: string :: New(g, n, s) ==> New(JumpTop(g, op, suffix), n, s)
  {
    OwnOne(I(Jump(op, TopLabel(g, suffix))));
    CodeGrows(g, [I(Jump(op, TopLabel(g, suffix)))], lo);
  }

  lemma ValueGrows(g: GState, e: Expr)
    ensures Grows(g, Value(g, e), g.ctx.next, NoLabs) && Value(g, e).stack == g.stack
  {
    ExprOwn(e, g.ctx);
    LabelledE(e, g.ctx);
    OwnGrows(g, EmitE(e, g.ctx), g.stack, AfterE(e, g.ctx), g.ctx.next);
  }

  lemma OpenGrows(g: GState, kind: Construct)
    ensures Grows(g, Open(g, kind), g.ctx.next, NoLabs)
  {
    assert g.list + [] == g.list;
    OwnGrows(g, [], Open(g, kind).stack, Open(g, kind).ctx, g.ctx.next);
  }

  /** A label of the construct on top, defined once */
  lemma DefineOwn(g: GState, n: nat, suffix: string, lo: nat)
    requires New(g, n, suffix) && lo <= n < g.ctx.next && IsSuffix(suffix)
    ensures var r := Define(g, LabelName(n, suffix));
      && r == Good(Put(g, [Lbl(n, suffix)])) && Grows(g, r.g, lo, NoLabs)
      && forall s: string :: IsSuffix(s) && s != suffix && New(g, n, s) ==> New(r.g, n, s)
  {
    var g1 := Put(g, [Lbl(n, suffix)]);
    OwnOne(Lbl(n, suffix));
    LabelledDef([], n, suffix, lo, g.ctx.next);
    assert [] + [Lbl(n, suffix)] == [Lbl(n, suffix)];
    OwnGrows(g, [Lbl(n, suffix)], g.stack, g.ctx, lo);
    forall s: string | IsSuffix(s) && s != suffix && New(g, n, s) ensures New(g1, n, s) {
      if LabelName(n, s) == LabelName(n, suffix) {
        LabelNameInjective(n, s, n, suffix);
      }
    }
  }

  lemma CloseOwn(g: GState, n: nat, suffix: string, lo: nat)
    requires g.stack != [] && g.stack[0].number == n && New(g, n, suffix) && lo <= n < g.ctx.next && IsSuffix(suffix)
    ensures Close(g, suffix).Good? && Grows(g, Close(g, suffix).g, lo, NoLabs)
    ensures Close(g, suffix).g.stack == g.stack[1..]
  {
    hide Numbered, JumpsTo;
    DefineOwn(g, n, suffix, lo);
  }

  /** Entries k of g1 above g's are open loops whose end labels are still to come. */
  ghost predicate LoopsOpen(g: GState, g1: GState, k: nat) {
    && |g1.stack| == k + |g.stack| && g1.stack[k..] == g.stack
    && (forall i :: 0 <= i < k ==>
          var e := g1.stack[i];
          e.kind.LoopEntry? && g.ctx.next <= e.number < g1.ctx.next && New(g1, e.number, "X"))
    && (forall i, j :: 0 <= i < j < k ==> g1.stack[i].number > g1.stack[j].number)
  }

  ghost predicate BlockMade(g: GState, r: Gen, x: Labs, o: Option<Partial>) {
    && (r.Good? <==> NewMarks(x.marks, g.list))
    && (r.Good? && o.Some? ==> Grows(g, r.g, g.ctx.next, x) && LoopsOpen(g, r.g, |o.value.frames|))
  }

  lemma {:induction false} LoopsInside(g: GState, stack: seq<Entry>, k: nat)
    requires |stack| == k + |g.stack| && stack[k..] == g.stack
    requires forall i :: 0 <= i < k ==> stack[i].kind.LoopEntry?
    ensures FindLoop(stack) >= 0 <==> FindLoop(g.stack) >= 0 || k > 0
  {
    if k == 0 {
      assert stack == g.stack;
    }
  }

  lemma {:induction false} BlockMakes(b: Block, g: GState)
    requires Fresh(g) && FormedBlock(b) && BlockIn(b, g).Some?
    ensures BlockMade(g, GenBlock(b, g), BlockLabs(b), BlockIn(b, g))
    decreases b, 0
  {
    hide Fresh, Grows, NewMarks, LoopsOpen, GenStmt, NestStmt, StmtLabs, FormedStmt, FindLoop;
    match b
    case Empty =>
      NoMarks(NoLabs, g.list);
      NothingMade(g);
    case Seq(init, last) =>
      BlockMakes(init, g);
      var r1, x, o := GenBlock(init, g), BlockLabs(init), BlockIn(init, g).value;
      if r1.Good? {
        GrowsFresh(g, r1.g, g.ctx.next, x);
        if last.LoopMark? {
          LoopMakes(g, r1.g, x, |o.frames|);
        } else if last.RepeatMark? {
          RepeatMakes(g, r1.g, x, |o.frames|);
        } else {
          NextMakes(g, r1.g, x, |o.frames|, last);
        }
      } else {
        OnlyFirst(x.marks, StmtLabs(last).marks, g.list);
      }
  }

  lemma NothingMade(g: GState)
    ensures Grows(g, g, g.ctx.next, NoLabs) && LoopsOpen(g, g, 0)
  {
    assert g.list + [] == g.list;
    OwnGrows(g, [], g.stack, g.ctx, g.ctx.next);
  }

  lemma LoopMakes(g: GState, g1: GState, x: Labs, k: nat)
    requires Fresh(g1) && Grows(g, g1, g.ctx.next, x) && LoopsOpen(g, g1, k)
    ensures Join(x, StmtLabs(LoopMark)) == x
    ensures var r := GenStmt(LoopMark, g1); r.Good? && Grows(g, r.g, g.ctx.next, x) && LoopsOpen(g, r.g, k + 1)
  {
    hide Grows, NewMarks, Fresh;
    var n, g2 := g1.ctx.next, Open(g1, LoopEntry);
    NextUp(g, g1, x);
    NoMarks(x, g.list);
    NextIsNew(g1, "R");
    NextIsNew(g1, "X");
    OpenGrows(g1, LoopEntry);
    DefineOwn(g2, n, "R", n);
    var g3 := GenStmt(LoopMark, g1).g;
    GrowsJoin(g1, g2, g3, n, NoLabs, NoLabs);
    NoMarks(NoLabs, g.list);
    GrowsInto(g, g1, g3, x, n);
    forall i | 0 <= i < k + 1 ensures New(g3, g3.stack[i].number, "X") {
      if i > 0 {
        OthersStay(g1, g3, n, g1.stack[i - 1].number);
      }
    }
  }

  lemma GrowsInto(g: GState, g1: GState, g2: GState, x: Labs, lo: nat)
    requires Grows(g, g1, g.ctx.next, x) && Grows(g1, g2, lo, NoLabs) && g.ctx.next <= lo
    ensures Grows(g, g2, g.ctx.next, x)
  {
    hide Grows, NewMarks;
    NoMarks(x, g.list);
    GrowsWiden(g1, g2, lo, g.ctx.next, NoLabs);
    GrowsJoin(g, g1, g2, g.ctx.next, x, NoLabs);
  }

  lemma OthersStay(g: GState, g1: GState, lo: nat, n: nat)
    requires Grows(g, g1, lo, NoLabs) && New(g, n, "X") && n < lo
    ensures New(g1, n, "X")
  {
    hide Grows;
    NoMarks(NoLabs, g.list);
    StaysNew(g, g1, lo, NoLabs, n, "X");
  }

  lemma RepeatMakes(g: GState, g1: GState, x: Labs, k: nat)
    requires Grows(g, g1, g.ctx.next, x) && LoopsOpen(g, g1, k) && k > 0
    ensures Join(x, StmtLabs(RepeatMark)) == x
    ensures var r := GenStmt(RepeatMark, g1); r.Good? && Grows(g, r.g, g.ctx.next, x) && LoopsOpen(g, r.g, k - 1)
  {
    hide Grows, NewMarks;
    var n := g1.stack[0].number;
    NoMarks(x, g.list);
    JumpGrows(g1, OP_JMP, "R", n);
    var g2 := JumpTop(g1, OP_JMP, "R");
    assert New(g2, n, "X");
    CloseOwn(g2, n, "X", n);
    var g3 := Close(g2, "X").g;
    GrowsJoin(g1, g2, g3, n, NoLabs, NoLabs);
    NoMarks(NoLabs, g.list);
    GrowsInto(g, g1, g3, x, n);
    forall i | 0 <= i < k - 1 ensures g3.stack[i] == g1.stack[i + 1] && New(g3, g3.stack[i].number, "X") {
      OthersStay(g1, g3, n, g1.stack[i + 1].number);
    }
  }

  lemma NextMakes(g: GState, g1: GState, x: Labs, k: nat, s: Stmt)
    requires Fresh(g1) && Grows(g, g1, g.ctx.next, x) && NewMarks(x.marks, g.list) && LoopsOpen(g, g1, k)
    requires FormedStmt(s) && NestStmt(s, InLoop(g) || k > 0).Some?
    ensures var r, y := GenStmt(s, g1), Join(x, StmtLabs(s));
      && (r.Good? <==> NewMarks(y.marks, g.list))
      && (r.Good? ==> Grows(g, r.g, g.ctx.next, y) && LoopsOpen(g, r.g, k))
    decreases s, 6
  {
    hide Grows, NewMarks, Fresh, GenStmt, NestStmt, StmtLabs, FormedStmt, FindLoop;
    LoopsInside(g, g1.stack, k);
    StmtMakes(s, g1);
    var r, y := GenStmt(s, g1), StmtLabs(s);
    MarksJoin(g, g1, g.ctx.next, x, y.marks);
    if r.Good? {
      GrowsMore(g, g1, r.g, x, y);
      forall i | 0 <= i < k ensures New(r.g, r.g.stack[i].number, "X") {
        StaysNew(g1, r.g, g1.ctx.next, y, g1.stack[i].number, "X");
      }
      NextUp(g1, r.g, y);
    }
  }

  lemma NextUp(g: GState, g1: GState, x: Labs)
    requires Grows(g, g1, g.ctx.next, x)
    ensures g.ctx.next <= g1.ctx.next
  {
  }

  lemma GrowsMore(g: GState, g1: GState, g2: GState, x: Labs, y: Labs)
    requires Grows(g, g1, g.ctx.next, x) && Grows(g1, g2, g1.ctx.next, y)
    ensures Grows(g, g2, g.ctx.next, Join(x, y))
  {
    NextUp(g, g1, x);
    hide Grows;
    GrowsWiden(g1, g2, g1.ctx.next, g.ctx.next, y);
    GrowsJoin(g, g1, g2, g.ctx.next, x, y);
  }

  lemma WholeMakes(b: Block, g: GState)
    requires Fresh(g) && FormedBlock(b) && WholeIn(b, g).Some?
    ensures Makes(g, GenBlock(b, g), g.ctx.next, BlockLabs(b), g.stack)
    decreases b, 1
  {
    hide Fresh, Grows, NewMarks, GenBlock, FormedBlock, BlockLabs, NestBlock;
    BlockMakes(b, g);
  }

  lemma ClauseMakes(k: Clause, g: GState)
    requires Fresh(g) && FormedClause(k) && ClauseIn(k, g).Some?
    ensures Makes(g, GenClause(k, g), g.ctx.next, ClauseLabs(k), g.stack)
    decreases k, 0
  {
    hide Fresh, Grows, NewMarks, GenBlock, FormedBlock, BlockLabs, NestWhole;
    if k.Clause? {
      WholeMakes(k.body, g);
    } else {
      NothingMade(g);
      NoMarks(NoLabs, g.list);
    }
  }

  lemma StmtMakes(s: Stmt, g: GState)
    requires Fresh(g) && FormedStmt(s) && StmtIn(s, g).Some?
    ensures Makes(g, GenStmt(s, g), g.ctx.next, StmtLabs(s), g.stack)
    decreases s, 5
  {
    StmtFacts(s, g);
    hide Fresh, Grows, NewMarks, GenStmt, StmtLabs, FormedStmt, FindLoop, NestStmt;
    match s {
      case Set(_, _, _, _) => SetMakes(s, g);
      case Test(_, _) => LeaveMakes(s, g);
      case Leave(_) => LeaveMakes(s, g);
      case If(_, _, _) => IfStmtMakes(s, g);
      case Case(arms) => CaseMakes(arms, g);
      case File(_, _, _, _, _, _) => FileStmtMakes(s, g);
      case LabelMark(name) => MarkMakes(name, g);
      case Goto(name) => GotoMakes(name, g);
      case _ => NotNested(s, g);
    }
  }

  lemma StmtFacts(s: Stmt, g: GState)
    requires FormedStmt(s) && StmtIn(s, g).Some?
    ensures s.Case? ==> FormedArms(s.arms)
    ensures s.LabelMark? || s.Goto? ==> !IsGenerated(s.name)
  {
    hide FormedArms, NestArms, FindLoop, IsGenerated;
  }

  lemma NotNested(s: Stmt, g: GState)
    requires s.LoopMark? || s.RepeatMark? || s.Loop?
    ensures StmtIn(s, g).None?
  {
  }

  lemma OpsOwn(op: int)
    ensures Own([Op(op)])
  {
  }

  lemma SetMakes(s: Stmt, g: GState)
    requires s.Set?
    ensures Makes(g, GenStmt(s, g), g.ctx.next, StmtLabs(s), g.stack)
  {
    hide Grows, NewMarks, EmitE, AfterE, FindLoop;
    var g1, lo := Value(g, Var(s.name)), g.ctx.next;
    ValueGrows(g, Var(s.name));
    NextUp(g, g1, NoLabs);
    NoMarks(NoLabs, g.list);
    StoreGrows(s, g1);
    NoMarks(NoLabs, g1.list);
    assert Makes(g1, GenStmt(s, g), g1.ctx.next, NoLabs, g.stack);
    MakesWiden(g1, GenStmt(s, g), g1.ctx.next, lo, NoLabs, g.stack);
    Begin(g, g1, GenStmt(s, g), lo, NoLabs, g.stack);
  }

  lemma StoreGrows(s: Stmt, g: GState)
    requires s.Set?
    ensures var c := if s.short then g.ctx else AfterE(s.e, g.ctx);
      Grows(g, GState(g.list + StoreCode(s.op, s.e, s.short, g.ctx), g.stack, c), g.ctx.next, NoLabs)
  {
    hide Grows, EmitE, AfterE, Own, Labelled;
    var lo, c := g.ctx.next, if s.short then g.ctx else AfterE(s.e, g.ctx);
    OpsOwn(ShortOp(s.op, s.e));
    OpsOwn(s.op);
    OpsOwn(OP_DUP);
    OpsOwn(OP_STOR);
    ExprOwn(s.e, g.ctx);
    LabelledE(s.e, g.ctx);
    NoneLabelled([], lo, c.next);
    LabelledCode([], Simple(ShortOp(s.op, s.e)), lo, c.next);
    LabelledCode([], Simple(OP_DUP), lo, c.next);
    assert [] + [Op(ShortOp(s.op, s.e))] == [Op(ShortOp(s.op, s.e))] && [] + [Op(OP_DUP)] == [Op(OP_DUP)];
    if !s.short {
      var code := EmitE(s.e, g.ctx);
      OwnConcat(code, [Op(s.op)]);
      LabelledCode(code, Simple(s.op), lo, c.next);
      OwnConcat([Op(OP_DUP)], code);
      OwnConcat([Op(OP_DUP)] + code, [Op(s.op)]);
      OwnConcat([Op(OP_DUP)] + code + [Op(s.op)], [Op(OP_STOR)]);
      LabelledConcat([Op(OP_DUP)], code, lo, c.next);
      LabelledCode([Op(OP_DUP)] + code, Simple(s.op), lo, c.next);
      LabelledCode([Op(OP_DUP)] + code + [Op(s.op)], Simple(OP_STOR), lo, c.next);
    }
    OwnGrows(g, StoreCode(s.op, s.e, s.short, g.ctx), g.stack, c, lo);
  }

  lemma NoneLabelled(items: seq<Item>, lo: nat, hi: nat)
    requires items == []
    ensures Labelled(items, lo, hi)
  {
  }

  /** WHILE, UNTIL, EXIT and CONTINUE */
  lemma LeaveMakes(s: Stmt, g: GState)
    requires (s.Test? || s.Leave?) && StmtIn(s, g).Some?
    ensures Makes(g, GenStmt(s, g), g.ctx.next, StmtLabs(s), g.stack)
  {
    hide Grows, NewMarks, EmitE, AfterE;
    NoMarks(NoLabs, g.list);
    var n := FindLoop(g.stack);
    if s.Test? {
      var g1 := Value(g, s.e);
      var items := [I(Jump(TestOp(s.until), LabelName(n, "X")))];
      ValueGrows(g, s.e);
      OwnOne(items[0]);
      CodeGrows(g1, items, g.ctx.next);
      GrowsJoin(g, g1, Put(g1, items), g.ctx.next, NoLabs, NoLabs);
    } else {
      var items := [I(Jump(OP_JMP, LabelName(n, LeaveSuffix(s.again))))];
      OwnOne(items[0]);
      CodeGrows(g, items, g.ctx.next);
    }
  }

  lemma MarkMakes(name: string, g: GState)
    requires !IsGenerated(name)
    ensures Makes(g, GenStmt(LabelMark(name), g), g.ctx.next, StmtLabs(LabelMark(name)), g.stack)
  {
    hide Numbered;
    var x := StmtLabs(LabelMark(name));
    assert x.marks == [name] && x.gotos == [];
    if D(name) !in g.list {
      var list := g.list + [D(name)];
      assert D(name) in list;
      forall other ensures JumpsTo(list, other) <==> JumpsTo(g.list, other) {
        assert forall op: int :: I(Jump(op, other)) in list <==> I(Jump(op, other)) in g.list;
      }
    } else {
      assert x.marks[0] == name;
    }
  }

  lemma GotoMakes(name: string, g: GState)
    requires !IsGenerated(name)
    ensures Makes(g, GenStmt(Goto(name), g), g.ctx.next, StmtLabs(Goto(name)), g.stack)
  {
    hide Numbered;
    var x := StmtLabs(Goto(name));
    assert x.marks == [] && x.gotos == [name];
    var list := g.list + [I(Jump(OP_JMP, name))];
    assert I(Jump(OP_JMP, name)) in list;
    forall other ensures JumpsTo(list, other) <==> JumpsTo(g.list, other) || other == name {
      assert forall op: int :: I(Jump(op, other)) in list <==>
        I(Jump(op, other)) in g.list || (op == OP_JMP && other == name);
    }
  }

  /** Construct n's labels, except perhaps one, are as undefined as before. */
  ghost predicate Spares(g: GState, g1: GState, n: nat, but: string) {
    forall t: string :: IsSuffix(t) && t != but && New(g, n, t) ==> New(g1, n, t)
  }

  lemma LaterSpares(g: GState, g1: GState, lo: nat, x: Labs, n: nat)
    requires Grows(g, g1, lo, x) && NewMarks(x.marks, g.list) && n < lo
    ensures Spares(g, g1, n, "")
  {
    hide Grows, NewMarks;
    forall t: string | IsSuffix(t) && New(g, n, t) ensures New(g1, n, t) {
      StaysNew(g, g1, lo, x, n, t);
    }
  }

  /** The construct on top */
  predicate Topped(g: GState, kind: Construct, n: nat) {
    IsTop(g, kind) && g.stack[0].number == n < g.ctx.next
  }

  /** A clause of construct n */
  lemma PartMakes(k: Clause, g: GState, kind: Construct, n: nat)
    requires Fresh(g) && FormedClause(k) && ClauseIn(k, g).Some? && Topped(g, kind, n)
    ensures var r := GenClause(k, g);
      && Makes(g, r, n, ClauseLabs(k), g.stack)
      && (r.Good? ==> Fresh(r.g) && Topped(r.g, kind, n) && Spares(g, r.g, n, "") && InLoop(r.g) == InLoop(g))
    decreases k, 1
  {
    hide Fresh, Grows, NewMarks, GenClause, FormedClause, ClauseLabs, NestClause, Spares, FindLoop;
    ClauseMakes(k, g);
    var r, x := GenClause(k, g), ClauseLabs(k);
    MakesWiden(g, r, g.ctx.next, n, x, g.stack);
    if r.Good? {
      GrowsFresh(g, r.g, g.ctx.next, x);
      LaterSpares(g, r.g, g.ctx.next, x, n);
      NextUp(g, r.g, x);
    }
  }

  /** The jump to the end, and the label of the next part */
  lemma TurnGrows(g: GState, kind: Construct, n: nat, suffix: string)
    requires Fresh(g) && Topped(g, kind, n) && New(g, n, suffix) && IsSuffix(suffix)
    ensures var g0 := JumpTop(g, OP_JMP, "X"); var r := Define(g0, TopLabel(g, suffix));
      && TopLabel(g, suffix) == LabelName(n, suffix)
      && r.Good? && Grows(g, r.g, n, NoLabs) && Fresh(r.g) && Topped(r.g, kind, n) && r.g.stack == g.stack
      && r.g.ctx == g.ctx && Spares(g, r.g, n, suffix)
  {
    hide Fresh, Grows, NewMarks;
    var g0 := JumpTop(g, OP_JMP, "X");
    JumpGrows(g, OP_JMP, "X", n);
    DefineOwn(g0, n, suffix, n);
    var g1 := Define(g0, LabelName(n, suffix)).g;
    GrowsJoin(g, g0, g1, n, NoLabs, NoLabs);
    NoMarks(NoLabs, g.list);
    GrowsFresh(g, g1, n, NoLabs);
  }

  /** The last clause of a construct, and its end label */
  function LastPart(k: Clause, g: GState, kind: Construct): Gen {
    var g1 :- GenClause(k, g);
    if IsTop(g1, kind) then Close(g1, "X") else Gen.Bad
  }

  lemma LastMakes(k: Clause, g: GState, kind: Construct, n: nat)
    requires Fresh(g) && FormedClause(k) && ClauseIn(k, g).Some? && Topped(g, kind, n) && New(g, n, "X")
    ensures Makes(g, LastPart(k, g, kind), n, ClauseLabs(k), g.stack[1..])
    decreases k, 2
  {
    hide Fresh, Grows, NewMarks, GenClause, FormedClause, ClauseLabs, NestClause, FindLoop, Close;
    PartMakes(k, g, kind, n);
    var r := GenClause(k, g);
    if r.Good? {
      assert New(r.g, n, "X");
      CloseOwn(r.g, n, "X", n);
    }
    Finish(g, r, LastPart(k, g, kind), n, ClauseLabs(k), g.stack, g.stack[1..]);
  }

  /** A clause, the jump over the other one, and the other one */
  function BothParts(a: Clause, b: Clause, g: GState, kind: Construct): Gen {
    var g1 :- GenClause(a, g);
    var g2 :- if IsTop(g1, kind) then Define(JumpTop(g1, OP_JMP, "X"), TopLabel(g1, "E")) else Gen.Bad;
    LastPart(b, g2, kind)
  }

  lemma BothMake(s: Stmt, g: GState, kind: Construct, n: nat)
    requires (s.If? || s.File?) && Fresh(g) && FormedClause(s.thn) && FormedClause(s.els)
    requires ClauseIn(s.thn, g).Some? && ClauseIn(s.els, g).Some?
    requires Topped(g, kind, n) && New(g, n, "E") && New(g, n, "X")
    ensures Makes(g, BothParts(s.thn, s.els, g, kind), n, Join(ClauseLabs(s.thn), ClauseLabs(s.els)), g.stack[1..])
    decreases s, 0
  {
    hide Fresh, Grows, NewMarks, GenClause, FormedClause, ClauseLabs, NestClause, FindLoop, LastPart, Join;
    PartMakes(s.thn, g, kind, n);
    var r1, r := GenClause(s.thn, g), BothParts(s.thn, s.els, g, kind);
    if r1.Good? {
      var g1 := r1.g;
      assert New(g1, n, "E") && New(g1, n, "X");
      TurnGrows(g1, kind, n, "E");
      var g2 := Define(JumpTop(g1, OP_JMP, "X"), TopLabel(g1, "E")).g;
      assert New(g2, n, "X");
      LastMakes(s.els, g2, kind, n);
      Begin(g1, g2, r, n, ClauseLabs(s.els), g.stack[1..]);
    }
    Bind(g, r1, r, n, ClauseLabs(s.thn), ClauseLabs(s.els), g.stack, g.stack[1..]);
  }

  /** A construct begins: its labels are all new. */
  lemma Opening(g: GState, g1: GState, kind: Construct)
    requires Fresh(g) && Grows(g, g1, g.ctx.next, NoLabs) && g1.stack == g.stack && !kind.LoopEntry?
    ensures var g2, n := Open(g1, kind), g1.ctx.next;
      && Fresh(g2) && Topped(g2, kind, n) && g2.stack[1..] == g.stack && InLoop(g2) == InLoop(g)
      && (forall t: string :: IsSuffix(t) ==> New(g2, n, t)) && Grows(g1, g2, n, NoLabs)
  {
    hide Fresh, Grows, NewMarks, FindLoop;
    NoMarks(NoLabs, g.list);
    NoMarks(NoLabs, g1.list);
    GrowsFresh(g, g1, g.ctx.next, NoLabs);
    OpenGrows(g1, kind);
    GrowsFresh(g1, Open(g1, kind), g1.ctx.next, NoLabs);
    OpenFacts(g1, kind);
    forall t: string | IsSuffix(t) ensures New(Open(g1, kind), g1.ctx.next, t) {
      NextIsNew(g1, t);
    }
  }

  lemma Built(g: GState, g1: GState, g2: GState, r: Gen, x: Labs)
    requires Grows(g, g1, g.ctx.next, NoLabs) && Grows(g1, g2, g1.ctx.next, NoLabs)
    requires Makes(g2, r, g1.ctx.next, x, g.stack)
    ensures Makes(g, r, g.ctx.next, x, g.stack)
  {
    NextUp(g, g1, NoLabs);
    hide Grows, NewMarks;
    Begin(g1, g2, r, g1.ctx.next, x, g.stack);
    MakesWiden(g1, r, g1.ctx.next, g.ctx.next, x, g.stack);
    Begin(g, g1, r, g.ctx.next, x, g.stack);
  }

  lemma IfStmtMakes(s: Stmt, g: GState)
    requires s.If? && Fresh(g) && FormedStmt(s) && StmtIn(s, g).Some?
    ensures Makes(g, GenStmt(s, g), g.ctx.next, StmtLabs(s), g.stack)
    decreases s, 3
  {
    hide Fresh, Grows, NewMarks, FormedClause, FormedExpr, FindLoop, NestClause, GenIf, EmitE, AfterE, ClauseLabs, Join;
    var g1 := Value(g, s.cond);
    ValueGrows(g, s.cond);
    Opening(g, g1, IfEntry);
    IfMakes(s, Open(g1, IfEntry), g1.ctx.next);
    Built(g, g1, Open(g1, IfEntry), GenStmt(s, g), StmtLabs(s));
  }

  lemma IfMakes(s: Stmt, g: GState, n: nat)
    requires s.If? && Fresh(g) && FormedClause(s.thn) && FormedClause(s.els)
    requires ClauseIn(s.thn, g).Some? && ClauseIn(s.els, g).Some?
    requires Topped(g, IfEntry, n) && New(g, n, "E") && New(g, n, "X")
    ensures Makes(g, GenIf(s, g), n, Join(ClauseLabs(s.thn), ClauseLabs(s.els)), g.stack[1..])
    decreases s, 2
  {
    hide Fresh, Grows, NewMarks, FormedClause, FindLoop, NestClause, GenThen, GenElse, GenClause, Close;
    if s.thn.Absent? {
      var g1 := JumpTop(g, OP_JTRUE, "X");
      JumpGrows(g, OP_JTRUE, "X", n);
      NoMarks(NoLabs, g.list);
      GrowsFresh(g, g1, n, NoLabs);
      LastMakes(s.els, g1, IfEntry, n);
      ElsePart(s.els, g1);
      NoMarks(ClauseLabs(s.els), g.list);
      Begin(g, g1, GenIf(s, g), n, ClauseLabs(s.els), g.stack[1..]);
    } else {
      var g1 := JumpTop(g, OP_JFALSE, "E");
      JumpGrows(g, OP_JFALSE, "E", n);
      NoMarks(NoLabs, g.list);
      GrowsFresh(g, g1, n, NoLabs);
      ThenMakes(s, g1, n);
      Begin(g, g1, GenIf(s, g), n, Join(ClauseLabs(s.thn), ClauseLabs(s.els)), g.stack[1..]);
    }
  }

  lemma ElsePart(els: Clause, g: GState)
    ensures GenElse(els, g) == LastPart(els, g, IfEntry) && GenOther(els, g) == LastPart(els, g, BackEndEntry)
  {
    hide GenClause, Close;
  }

  lemma ThenMakes(s: Stmt, g: GState, n: nat)
    requires s.If? && s.thn.Clause? && Fresh(g) && FormedClause(s.thn) && FormedClause(s.els)
    requires ClauseIn(s.thn, g).Some? && ClauseIn(s.els, g).Some?
    requires Topped(g, IfEntry, n) && New(g, n, "E") && New(g, n, "X")
    ensures Makes(g, GenThen(s, g), n, Join(ClauseLabs(s.thn), ClauseLabs(s.els)), g.stack[1..])
    decreases s, 1
  {
    hide Fresh, Grows, NewMarks, FormedClause, FindLoop, NestClause, GenClause, GenElse, Close, Define;
    if s.els.Absent? {
      PartMakes(s.thn, g, IfEntry, n);
      var r := GenClause(s.thn, g);
      if r.Good? {
        assert New(r.g, n, "E");
        CloseOwn(r.g, n, "E", n);
      }
      NoMarks(ClauseLabs(s.thn), g.list);
      Finish(g, r, GenThen(s, g), n, ClauseLabs(s.thn), g.stack, g.stack[1..]);
    } else {
      BothMake(s, g, IfEntry, n);
      ThenParts(s, g);
    }
  }

  lemma ThenParts(s: Stmt, g: GState)
    requires s.If? && s.els.Clause?
    ensures GenThen(s, g) == BothParts(s.thn, s.els, g, IfEntry)
  {
    hide GenClause, Define, Close;
  }

  lemma CaseMakes(arms: Arms, g: GState)
    requires Fresh(g) && FormedArms(arms) && StmtIn(Case(arms), g).Some?
    ensures Makes(g, GenStmt(Case(arms), g), g.ctx.next, StmtLabs(Case(arms)), g.stack)
    decreases arms, 2
  {
    hide Fresh, Grows, NewMarks, FormedArms, FindLoop, NestArms, GenElements, ArmsLabs, Close, GenStmt, IsSuffix, New,
         StmtIn, ArmsIn;
    var g0, n := Open(g, CaseEntry), g.ctx.next;
    NothingMade(g);
    Opening(g, g, CaseEntry);
    CaseSplit(arms, g);
    OpenFacts(g, CaseEntry);
    ArmsSame(arms, g, g0);
    ElementsMake(arms, g0, n);
    var r := GenElements(arms, g0);
    if r.Good? {
      SuffixX();
      CloseOwn(r.g, n, "X", n);
    }
    Finish(g0, r, GenStmt(Case(arms), g), n, ArmsLabs(arms), Counted(g0.stack, Count(arms) + 1), g.stack);
    Built(g, g, g0, GenStmt(Case(arms), g), ArmsLabs(arms));
  }

  lemma SuffixX()
    ensures IsSuffix("X")
  {
  }

  lemma CaseSplit(arms: Arms, g: GState)
    ensures var r := GenElements(arms, Open(g, CaseEntry));
      GenStmt(Case(arms), g) == if r.Good? then Close(r.g, "X") else Gen.Bad
  {
    hide GenElements, Close;
  }

  function Counted(stack: seq<Entry>, k: nat): seq<Entry> {
    if stack == [] then [] else [stack[0].(element := k)] + stack[1..]
  }

  lemma {:induction false} ElementsMake(arms: Arms, g: GState, n: nat)
    requires Fresh(g) && FormedArms(arms) && ArmsIn(arms, g).Some? && Topped(g, CaseEntry, n) && g.stack[0].element == 0
    requires forall t: string :: IsSuffix(t) ==> New(g, n, t)
    ensures var r := GenElements(arms, g);
      && Makes(g, r, n, ArmsLabs(arms), Counted(g.stack, Count(arms) + 1))
      && (r.Good? ==> Fresh(r.g) && n < r.g.ctx.next && New(r.g, n, "X")
                      && forall j :: j > Count(arms) ==> New(r.g, n, CaseSuffix(j)))
    decreases arms, 1
  {
    hide Fresh, Grows, NewMarks, FormedBlock, FormedExpr, FindLoop, NestWhole, GenArm, NextArm, BlockLabs, Join;
    match arms
    case NoArms =>
      FirstElement(g);
      NothingMade(g);
      GrowsWiden(g, g, g.ctx.next, n, NoLabs);
      FirstGrows(g, n);
      assert New(g, n, "X");
    case Arm(init, cond, body) =>
      ElementsMake(init, g, n);
      var r1, r := GenElements(init, g), GenElements(arms, g);
      ElementsSplit(init, cond, body, g);
      if r1.Good? {
        SameLoop(g, Count(init) + 1);
        CasesDiffer(n, Count(init) + 1);
        ArmMakes(cond, body, r1.g, n);
        assert Counted(r1.g.stack, Count(init) + 2) == Counted(g.stack, Count(arms) + 1);
      }
      Bind(g, r1, r, n, ArmsLabs(init), BlockLabs(body), Counted(g.stack, Count(init) + 1),
           Counted(g.stack, Count(arms) + 1));
  }

  lemma FirstGrows(g: GState, n: nat)
    requires Fresh(g) && g.stack != [] && g.stack[0].element == 0 && n < g.ctx.next && Grows(g, g, n, NoLabs)
    ensures var r := NextArm(g);
      Makes(g, r, n, NoLabs, Counted(g.stack, 1)) && r.Good? && r.g.list == g.list && r.g.ctx == g.ctx && Fresh(r.g)
  {
    NoMarks(NoLabs, g.list);
  }

  lemma CasesDiffer(n: nat, k: nat)
    ensures CaseSuffix(k) != "X" && forall j :: j > k ==> CaseSuffix(j) != CaseSuffix(k)
  {
    forall j: nat | j > k ensures CaseSuffix(j) != CaseSuffix(k) {
      if CaseSuffix(j) == CaseSuffix(k) {
        CaseSuffixInjective(j, k);
      }
    }
  }

  lemma ElementsSplit(init: Arms, cond: Expr, body: Block, g: GState)
    ensures var r1 := GenElements(init, g); var r := GenElements(Arm(init, cond, body), g);
      && (r1.Bad? ==> r.Bad?)
      && (r1.Good? ==> r == ArmPart(cond, body, r1.g))
  {
    hide GenArm, NextArm;
  }

  /** An element, and the way to the next one */
  function ArmPart(cond: Expr, body: Block, g: GState): Gen {
    var g1 :- GenArm(cond, body, g);
    NextArm(g1)
  }

  lemma ArmMakes(cond: Expr, body: Block, g: GState, n: nat)
    requires Fresh(g) && FormedBlock(body) && WholeIn(body, g).Some? && Topped(g, CaseEntry, n)
    requires g.stack[0].element > 0 && New(g, n, CaseSuffix(g.stack[0].element))
    ensures var k, r := g.stack[0].element, ArmPart(cond, body, g);
      && Makes(g, r, n, BlockLabs(body), Counted(g.stack, k + 1))
      && (r.Good? ==> Fresh(r.g) && n < r.g.ctx.next && Spares(g, r.g, n, CaseSuffix(k)))
    decreases body, 2
  {
    hide Fresh, Grows, NewMarks, FormedBlock, FindLoop, NestWhole, GenBlock, BlockLabs, EmitE, AfterE, NextArm, Spares;
    var k, g1 := g.stack[0].element, Value(g, cond);
    var g2, lo := JumpTop(g1, OP_JFALSE, CaseSuffix(k)), g.ctx.next;
    BeforeBody(g, cond, n);
    WholeMakes(body, g2);
    var r, x := GenBlock(body, g2), BlockLabs(body);
    MakesWiden(g2, r, g2.ctx.next, lo, x, g.stack);
    Begin(g, g2, r, lo, x, g.stack);
    if r.Good? {
      GrowsFresh(g, r.g, lo, x);
      LaterSpares(g, r.g, lo, x, n);
      NextUp(g, r.g, x);
      SparesOne(g, r.g, n, "", CaseSuffix(k));
      NextArmMakes(r.g, n, k);
      SparesJoin(g, r.g, NextArm(r.g).g, n, CaseSuffix(k));
    }
    MakesWiden(g, r, lo, n, x, g.stack);
    Finish(g, r, ArmPart(cond, body, g), n, x, g.stack, Counted(g.stack, k + 1));
    if r.Good? {
      NextUp(g, r.g, x);
    }
  }

  lemma SparesOne(g: GState, g1: GState, n: nat, but: string, t: string)
    requires Spares(g, g1, n, but)
    ensures IsSuffix(t) && t != but && New(g, n, t) ==> New(g1, n, t)
  {
  }

  lemma SparesJoin(g: GState, g1: GState, g2: GState, n: nat, but: string)
    requires Spares(g, g1, n, "") && Spares(g1, g2, n, but)
    ensures Spares(g, g2, n, but)
  {
    hide New;
  }

  /** The condition of an element, and the jump over its statements */
  lemma BeforeBody(g: GState, cond: Expr, n: nat)
    requires Fresh(g) && Topped(g, CaseEntry, n)
    ensures var g2 := JumpTop(Value(g, cond), OP_JFALSE, CaseSuffix(g.stack[0].element));
      Grows(g, g2, g.ctx.next, NoLabs) && Fresh(g2) && g2.stack == g.stack && g.ctx.next <= g2.ctx.next
  {
    hide Fresh, Grows, NewMarks, EmitE, AfterE;
    var g1 := Value(g, cond);
    var g2, lo := JumpTop(g1, OP_JFALSE, CaseSuffix(g.stack[0].element)), g.ctx.next;
    ValueGrows(g, cond);
    NextUp(g, g1, NoLabs);
    JumpGrows(g1, OP_JFALSE, CaseSuffix(g.stack[0].element), lo);
    GrowsJoin(g, g1, g2, lo, NoLabs, NoLabs);
    NoMarks(NoLabs, g.list);
    GrowsFresh(g, g2, lo, NoLabs);
  }

  lemma NextArmMakes(g: GState, n: nat, k: nat)
    requires Fresh(g) && Topped(g, CaseEntry, n) && g.stack[0].element == k > 0 && New(g, n, CaseSuffix(k))
    ensures var r := NextArm(g);
      && r.Good? && Grows(g, r.g, n, NoLabs) && r.g.stack == Counted(g.stack, k + 1)
      && Fresh(r.g) && n < r.g.ctx.next && Spares(g, r.g, n, CaseSuffix(k))
  {
    hide Numbered, JumpsTo;
    TurnGrows(g, CaseEntry, n, CaseSuffix(k));
  }

  lemma FileStmtMakes(s: Stmt, g: GState)
    requires s.File? && Fresh(g) && FormedStmt(s) && StmtIn(s, g).Some?
    ensures Makes(g, GenStmt(s, g), g.ctx.next, StmtLabs(s), g.stack)
    decreases s, 4
  {
    hide Fresh, Grows, NewMarks, FormedClause, FormedCall, FindLoop, NestClause, GenFile, EmitArgs, AfterArgs,
         ClauseLabs, Join, LockCode;
    var g1 := Operands(s.args, g);
    var g2, n := Open(g1, BackEndEntry), g1.ctx.next;
    OperandsGrow(s.args, g);
    Opening(g, g1, BackEndEntry);
    var g3 := Put(g2, LockCode(s.call));
    LockGrows(s.call, g2, n);
    NoMarks(NoLabs, g2.list);
    GrowsFresh(g2, g3, n, NoLabs);
    ClausesFormed(s);
    FileMakes(s, g3, n);
    Begin(g2, g3, GenStmt(s, g), n, StmtLabs(s), g.stack);
    Built(g, g1, g2, GenStmt(s, g), StmtLabs(s));
  }

  lemma ClausesFormed(s: Stmt)
    requires s.File? && FormedStmt(s)
    ensures FormedClause(s.onError) && FormedClause(s.locked) && FormedClause(s.thn) && FormedClause(s.els)
    ensures (s.locked.Clause? ==> s.call.canLock) && (s.call.thenElse <==> s.thn.Clause? || s.els.Clause?)
  {
    hide FormedClause;
  }

  lemma OperandsGrow(args: Exprs, g: GState)
    ensures Grows(g, Operands(args, g), g.ctx.next, NoLabs)
  {
    ArgsOwn(args, g.ctx);
    LabelledArgs(args, g.ctx);
    OwnGrows(g, EmitArgs(args, g.ctx), g.stack, AfterArgs(args, g.ctx), g.ctx.next);
  }

  /** The lock and the NULL */
  lemma LockGrows(call: Call, g: GState, n: nat)
    ensures var g1 := Put(g, LockCode(call));
      && Grows(g, g1, n, NoLabs) && Spares(g, g1, n, "")
      && (call.canLock ==> |g1.list| > 0 && g1.list[|g1.list| - 1] == Op(OP_NULL))
  {
    CodeGrows(g, LockCode(call), n);
  }

  /** The clauses of a file operation; its entry is on top and its operands are loaded. */
  lemma FileMakes(s: Stmt, g: GState, n: nat)
    requires s.File? && Fresh(g) && Topped(g, BackEndEntry, n)
    requires FormedClause(s.onError) && FormedClause(s.locked) && FormedClause(s.thn) && FormedClause(s.els)
    requires (s.locked.Clause? ==> s.call.canLock) && (s.call.thenElse <==> s.thn.Clause? || s.els.Clause?)
    requires ClauseIn(s.onError, g).Some? && ClauseIn(s.locked, g).Some?
    requires ClauseIn(s.thn, g).Some? && ClauseIn(s.els, g).Some?
    requires s.call.canLock ==> |g.list| > 0 && g.list[|g.list| - 1] == Op(OP_NULL)
    requires New(g, n, "A") && New(g, n, "B") && New(g, n, "E") && New(g, n, "X")
    ensures Makes(g, GenFile(s, g), n, StmtLabs(s), g.stack[1..])
    decreases s, 3
  {
    hide Fresh, Grows, NewMarks, FormedClause, FindLoop, NestClause, GenCall, GenLocked, GenChoice, ClauseLabs, Join,
         Spares;
    var o, l, c := ClauseLabs(s.onError), ClauseLabs(s.locked), Join(ClauseLabs(s.thn), ClauseLabs(s.els));
    var t := |g.list| - 1;
    CallMakes(s.call, s.onError, g, n);
    CallKeeps(s.call, s.onError, g, |g.list|);
    var r1 := GenCall(s.call, s.onError, g);
    var r2 := if r1.Good? then GenLocked(s.call, s.locked, t, r1.g) else Gen.Bad;
    if r1.Good? {
      SparesAll(g, r1.g, n, "A");
      LastKept(g, r1, s.call.canLock);
      LockedMakes(s.call, s.locked, t, r1.g, n);
      if r2.Good? {
        SparesAll(r1.g, r2.g, n, "B");
        ChoiceMakes(s, r2.g, n);
      }
    }
    Bind(g, r1, r2, n, o, l, g.stack, g.stack);
    Bind(g, r2, GenFile(s, g), n, Join(o, l), c, g.stack, g.stack[1..]);
  }

  lemma LastKept(g: GState, r: Gen, canLock: bool)
    requires r.Good? && Keeps(g, r, |g.list|) && (canLock ==> |g.list| > 0 && g.list[|g.list| - 1] == Op(OP_NULL))
    ensures canLock ==> |r.g.list| > |g.list| - 1 && r.g.list[|g.list| - 1] == Op(OP_NULL)
  {
    if canLock {
      assert r.g.list[..|g.list|][|g.list| - 1] == g.list[|g.list| - 1];
    }
  }

  lemma SparesAll(g: GState, g1: GState, n: nat, but: string)
    requires Spares(g, g1, n, but)
    ensures but == "A" && New(g, n, "B") ==> New(g1, n, "B")
    ensures (but == "A" || but == "B") && New(g, n, "E") ==> New(g1, n, "E")
    ensures (but == "A" || but == "B") && New(g, n, "X") ==> New(g1, n, "X")
  {
  }

  /** A clause that ends by leaving the statement */
  lemma AsideMakes(op: int, k: Clause, suffix: string, g: GState, n: nat)
    requires Fresh(g) && FormedClause(k) && ClauseIn(k, g).Some? && Topped(g, BackEndEntry, n)
    requires New(g, n, suffix) && IsSuffix(suffix)
    ensures var r := GenAside(k, suffix, Put(JumpTop(g, op, suffix), [Op(OP_POP)]));
      && Makes(g, r, n, ClauseLabs(k), g.stack)
      && (r.Good? ==>
          && Fresh(r.g) && Topped(r.g, BackEndEntry, n) && InLoop(r.g) == InLoop(g)
          && Spares(g, r.g, n, suffix))
    decreases k, 2
  {
    hide Fresh, Grows, NewMarks, FormedClause, FindLoop, NestClause, GenClause, ClauseLabs, Spares, Define;
    var g0, x := Put(JumpTop(g, op, suffix), [Op(OP_POP)]), ClauseLabs(k);
    AsideStart(op, suffix, g, n);
    PartMakes(k, g0, BackEndEntry, n);
    var r1, r := GenClause(k, g0), GenAside(k, suffix, g0);
    if r1.Good? {
      SparesOne(g0, r1.g, n, "", suffix);
      TurnGrows(r1.g, BackEndEntry, n, suffix);
      SparesJoin(g0, r1.g, r.g, n, suffix);
      SparesJoin(g, g0, r.g, n, suffix);
    }
    Finish(g0, r1, r, n, x, g.stack, g.stack);
    Begin(g, g0, r, n, x, g.stack);
  }

  lemma AsideStart(op: int, suffix: string, g: GState, n: nat)
    requires Fresh(g) && Topped(g, BackEndEntry, n)
    ensures var g0 := Put(JumpTop(g, op, suffix), [Op(OP_POP)]);
      Grows(g, g0, n, NoLabs) && Fresh(g0) && Topped(g0, BackEndEntry, n) && g0.stack == g.stack && Spares(g, g0, n, "")
      && forall t: string :: New(g, n, t) ==> New(g0, n, t)
  {
    hide Fresh, Grows, NewMarks;
    var g1 := JumpTop(g, op, suffix);
    JumpGrows(g, op, suffix, n);
    OpsOwn(OP_POP);
    CodeGrows(g1, [Op(OP_POP)], n);
    GrowsJoin(g, g1, Put(g1, [Op(OP_POP)]), n, NoLabs, NoLabs);
    NoMarks(NoLabs, g.list);
    GrowsFresh(g, Put(g1, [Op(OP_POP)]), n, NoLabs);
  }

  /** Some instructions of construct n's own */
  lemma OpsGrow(g: GState, items: seq<Item>, n: nat)
    requires Fresh(g) && Own(items) && forall i :: 0 <= i < |items| ==> items[i].I?
    ensures Grows(g, Put(g, items), n, NoLabs) && Fresh(Put(g, items)) && Spares(g, Put(g, items), n, "")
    ensures forall t: string :: New(g, n, t) ==> New(Put(g, items), n, t)
  {
    CodeGrows(g, items, n);
    hide Grows, Fresh, Own;
    NoMarks(NoLabs, g.list);
    GrowsFresh(g, Put(g, items), n, NoLabs);
  }

  lemma CallMakes(call: Call, onError: Clause, g: GState, n: nat)
    requires Fresh(g) && FormedClause(onError) && ClauseIn(onError, g).Some?
    requires Topped(g, BackEndEntry, n) && New(g, n, "A")
    ensures var r := GenCall(call, onError, g);
      && Makes(g, r, n, ClauseLabs(onError), g.stack)
      && (r.Good? ==> Fresh(r.g) && Topped(r.g, BackEndEntry, n) && InLoop(r.g) == InLoop(g) && Spares(g, r.g, n, "A"))
    decreases onError, 3
  {
    hide Fresh, Grows, NewMarks, FormedClause, FindLoop, NestClause, GenAside, Spares, Own;
    OpsOwn(call.op);
    OpsOwn(OP_ONERROR);
    OpsOwn(OP_DUP);
    if onError.Absent? {
      OpsGrow(g, [Op(call.op)], n);
      NoMarks(NoLabs, g.list);
      SparesMore(g, Put(g, [Op(call.op)]), n, "A");
    } else {
      var start := [Op(OP_ONERROR)] + [Op(call.op)] + [Op(OP_DUP)];
      OwnConcat([Op(OP_ONERROR)], [Op(call.op)]);
      OwnConcat([Op(OP_ONERROR)] + [Op(call.op)], [Op(OP_DUP)]);
      OpsGrow(g, start, n);
      AsideMakes(OP_JPZ, onError, "A", Put(g, start), n);
      var r := GenCall(call, onError, g);
      Begin(g, Put(g, start), r, n, ClauseLabs(onError), g.stack);
      if r.Good? {
        SparesJoin(g, Put(g, start), r.g, n, "A");
      }
    }
  }

  lemma SparesMore(g: GState, g1: GState, n: nat, but: string)
    requires Spares(g, g1, n, "")
    ensures Spares(g, g1, n, but)
  {
    hide New;
  }

  /** A NOWAIT in the place of a NULL changes no label. */
  lemma PatchGrows(g: GState, t: nat, n: nat)
    requires Fresh(g) && t < |g.list| && g.list[t] == Op(OP_NULL)
    ensures var g1 := g.(list := g.list[t := Op(OP_NOWAIT)]);
      Grows(g, g1, n, NoLabs) && Fresh(g1) && Spares(g, g1, n, "") && forall s: string :: New(g, n, s) ==> New(g1, n, s)
  {
    var list := g.list[t := Op(OP_NOWAIT)];
    forall x: Item | x != Op(OP_NULL) && x != Op(OP_NOWAIT) ensures x in list <==> x in g.list {
      if x in g.list {
        var i :| 0 <= i < |g.list| && g.list[i] == x;
        assert list[i] == x;
      }
    }
    forall name ensures JumpsTo(list, name) <==> JumpsTo(g.list, name) {
      assert forall op: int :: I(Jump(op, name)) in list <==> I(Jump(op, name)) in g.list;
    }
  }

  lemma LockedMakes(call: Call, locked: Clause, t: int, g: GState, n: nat)
    requires Fresh(g) && FormedClause(locked) && ClauseIn(locked, g).Some?
    requires Topped(g, BackEndEntry, n) && New(g, n, "B")
    requires locked.Clause? ==> call.canLock
    requires call.canLock ==> 0 <= t < |g.list| && g.list[t] == Op(OP_NULL)
    ensures var r := GenLocked(call, locked, t, g);
      && Makes(g, r, n, ClauseLabs(locked), g.stack)
      && (r.Good? ==> Fresh(r.g) && Topped(r.g, BackEndEntry, n) && InLoop(r.g) == InLoop(g) && Spares(g, r.g, n, "B"))
    decreases locked, 3
  {
    hide Fresh, Grows, NewMarks, FormedClause, FindLoop, NestClause, GenAside, Spares, Own;
    NoMarks(NoLabs, g.list);
    if locked.Absent? {
      NothingMade(g);
      assert Put(g, []) == g by { assert g.list + [] == g.list; }
      NoneOwn();
      OpsGrow(g, [], n);
      SparesMore(g, g, n, "B");
    } else {
      var g1 := g.(list := g.list[t := Op(OP_NOWAIT)]);
      var test := [Op(OP_DUP)] + [I(NumberLoad(ER_LCK))] + [Op(OP_EQ)];
      PatchGrows(g, t, n);
      TestOwn();
      OpsGrow(g1, test, n);
      var g2, r := Put(g1, test), GenLocked(call, locked, t, g);
      GrowsJoin(g, g1, g2, n, NoLabs, NoLabs);
      SparesJoin(g, g1, g2, n, "");
      AsideMakes(OP_JZE, locked, "B", g2, n);
      Begin(g, g2, r, n, ClauseLabs(locked), g.stack);
      if r.Good? {
        SparesJoin(g, g2, r.g, n, "B");
      }
    }
  }

  lemma NoneOwn()
    ensures Own([])
  {
  }

  lemma TestOwn()
    ensures Own([Op(OP_DUP)] + [I(NumberLoad(ER_LCK))] + [Op(OP_EQ)])
  {
  }

  lemma ChoiceMakes(s: Stmt, g: GState, n: nat)
    requires s.File? && Fresh(g) && Topped(g, BackEndEntry, n) && FormedClause(s.thn) && FormedClause(s.els)
    requires s.call.thenElse <==> s.thn.Clause? || s.els.Clause?
    requires ClauseIn(s.thn, g).Some? && ClauseIn(s.els, g).Some? && New(g, n, "E") && New(g, n, "X")
    ensures Makes(g, GenChoice(s, g), n, Join(ClauseLabs(s.thn), ClauseLabs(s.els)), g.stack[1..])
    decreases s, 2
  {
    hide Fresh, Grows, NewMarks, FormedClause, FindLoop, NestClause, GenClause, GenOther, GenSuccess, Close;
    NoMarks(NoLabs, g.list);
    NoMarks(ClauseLabs(s.els), g.list);
    if !s.call.thenElse {
      var g1 := Put(g, [Op(OP_POP)]);
      OpsOwn(OP_POP);
      OpsGrow(g, [Op(OP_POP)], n);
      CloseOwn(g1, n, "X", n);
      GrowsJoin(g, g1, Close(g1, "X").g, n, NoLabs, NoLabs);
    } else if s.thn.Absent? {
      var g1 := JumpTop(g, OP_JZE, "X");
      JumpGrows(g, OP_JZE, "X", n);
      GrowsFresh(g, g1, n, NoLabs);
      ElsePart(s.els, g1);
      LastMakes(s.els, g1, BackEndEntry, n);
      Begin(g, g1, GenChoice(s, g), n, ClauseLabs(s.els), g.stack[1..]);
    } else {
      var g1 := JumpTop(g, OP_JNZ, "E");
      JumpGrows(g, OP_JNZ, "E", n);
      GrowsFresh(g, g1, n, NoLabs);
      SuccessMakes(s, g1, n);
      Begin(g, g1, GenChoice(s, g), n, Join(ClauseLabs(s.thn), ClauseLabs(s.els)), g.stack[1..]);
    }
  }

  lemma SuccessMakes(s: Stmt, g: GState, n: nat)
    requires s.File? && s.thn.Clause? && Fresh(g) && Topped(g, BackEndEntry, n)
    requires FormedClause(s.thn) && FormedClause(s.els)
    requires ClauseIn(s.thn, g).Some? && ClauseIn(s.els, g).Some? && New(g, n, "E") && New(g, n, "X")
    ensures Makes(g, GenSuccess(s, g), n, Join(ClauseLabs(s.thn), ClauseLabs(s.els)), g.stack[1..])
    decreases s, 1
  {
    hide Fresh, Grows, NewMarks, FormedClause, FindLoop, NestClause, GenClause, GenOther, Close, Define;
    if s.els.Absent? {
      PartMakes(s.thn, g, BackEndEntry, n);
      var r := GenClause(s.thn, g);
      if r.Good? {
        assert New(r.g, n, "E") && New(r.g, n, "X");
        DefineOwn(r.g, n, "E", n);
        var g2 := Define(r.g, LabelName(n, "E")).g;
        CloseOwn(g2, n, "X", n);
        GrowsJoin(r.g, g2, Close(g2, "X").g, n, NoLabs, NoLabs);
        NoMarks(NoLabs, g.list);
      }
      NoMarks(ClauseLabs(s.thn), g.list);
      Finish(g, r, GenSuccess(s, g), n, ClauseLabs(s.thn), g.stack, g.stack[1..]);
    } else {
      BothMake(s, g, BackEndEntry, n);
      SuccessParts(s, g);
    }
  }

  lemma SuccessParts(s: Stmt, g: GState)
    requires s.File? && s.els.Clause?
    ensures GenSuccess(s, g) == BothParts(s.thn, s.els, g, BackEndEntry)
  {
    hide GenClause, Define, Close;
  }

  /** The programmer's labels are in order: none twice, and every one that is gone to is
      somewhere. */
  ghost predicate LabelsInOrder(x: Labs) {
    && (forall i :: 0 <= i < |x.marks| ==> !IsGenerated(x.marks[i]))
    && (forall i, j :: 0 <= i < j < |x.marks| ==> x.marks[i] != x.marks[j])
    && (forall name :: name in x.gotos && !IsGenerated(name) ==> name in x.marks)
  }

  /** A source is accepted exactly when it can be read, is properly nested, has its labels
      in order, names its COMMON blocks so that they can be written, and does not have too
      many variables. */
  lemma AcceptedExactly(tokens: seq<Token>)
    ensures Accepted(tokens) <==>
      && ReadHead(tokens, NoVariables).Some? && ParseLines(Empty, Body(tokens)).Ok?
      && var b := ParseLines(Empty, Body(tokens)).value;
      && NestWhole(b, false).Some?
      && LabelsInOrder(BlockLabs(b))
      && Writable(Initial(tokens).vars)
      && AfterBlock(NestWhole(b, false).value, Initial(tokens)).vars.count < 0x1_0000
  {
    LinesForm(Empty, Body(tokens));
    hide ParseLines, NestWhole, GenBlock, BlockLabs, AfterBlock, EmitBlock, FormedBlock, LabelsInOrder, UserLinked,
         ReadHead, Writable;
    if ReadHead(tokens, NoVariables).Some? && ParseLines(Empty, Body(tokens)).Ok? {
      var b, c := ParseLines(Empty, Body(tokens)).value, Initial(tokens);
      var g := GState([], [], c);
      var r := GenBlock(b, g);
      if r.Good? && r.g.stack == [] {
        WholeProgram(b, c, r.g);
      }
      if NestWhole(b, false).Some? {
        WholeMakes(b, g);
        if r.Good? {
          WholeProgram(b, c, r.g);
          LinkedExactly(g, r.g, BlockLabs(b));
        } else {
          NotInOrder(BlockLabs(b));
        }
      }
    }
  }

  lemma NotInOrder(x: Labs)
    ensures LabelsInOrder(x) ==> NewMarks(x.marks, [])
  {
  }

  lemma LinkedExactly(g: GState, g1: GState, x: Labs)
    requires g.list == [] && NewMarks(x.marks, []) && Grows(g, g1, g.ctx.next, x)
    ensures UserLinked(g1.list) <==> LabelsInOrder(x)
  {
    hide Numbered;
    if UserLinked(g1.list) {
      forall name | name in x.gotos && !IsGenerated(name) ensures name in x.marks {
        assert JumpsTo(g1.list, name);
        var op: int :| I(Jump(op, name)) in g1.list;
        var i :| 0 <= i < |g1.list| && g1.list[i] == I(Jump(op, name));
        assert D(name) in g1.list;
        UserIsMarked(g, g1, x, name);
      }
    }
    if LabelsInOrder(x) {
      forall i | 0 <= i < |g1.list| && g1.list[i].I? && g1.list[i].ins.Jump? && !IsGenerated(g1.list[i].ins.target)
        ensures D(g1.list[i].ins.target) in g1.list
      {
        var name := g1.list[i].ins.target;
        assert g1.list[i] == I(Jump(g1.list[i].ins.op, name));
        assert JumpsTo(g1.list, name);
        assert !JumpsTo(g.list, name);
      }
    }
  }

  lemma UserIsMarked(g: GState, g1: GState, x: Labs, name: string)
    requires g.list == [] && Grows(g, g1, g.ctx.next, x) && D(name) in g1.list && !IsGenerated(name)
    ensures name in x.marks
  {
    hide JumpsTo;
    if Numbered(name, g.ctx.next, g1.ctx.next) {
      NumberedIsGenerated(name, g.ctx.next, g1.ctx.next);
    }
  }
}
