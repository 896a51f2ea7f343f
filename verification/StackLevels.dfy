/** The code of every properly nested program passes the check of the evaluation stack:
    statements begin and end with nothing on it, clauses too, and an expression leaves
    one entry. */
module StackLevels {
  import opened Outcomes
  import opened Bytes
  import opened Isa
  import opened Cells
  import opened Listing
  import opened Linking
  import opened Syntax
  import opened Grammar
  import opened Programs
  import opened StatementGrammar
  import opened Names
  import opened Storages
  import opened Generate
  import opened Labels
  import opened ConstructStack
  import opened Structure
  import opened Machines
  import opened Meanings
  import opened Runs
  import opened Prelude
  import opened Heading
  import opened Compilation
  import opened Correctness
  import opened StackTypes

  /** No label carries a number from n on. */
  ghost predicate Old(labs: map<string, seq<Kind>>, n: nat) {
    forall k: nat, s: string :: k >= n && IsSuffix(s) ==> LabelName(k, s) !in labs
  }

  /** Labels are added with numbers from lo to hi; others with nothing on the stack. */
  ghost predicate Steady(a: map<string, seq<Kind>>, b: map<string, seq<Kind>>, lo: nat, hi: nat) {
    && lo <= hi && Grown(a, b)
    && forall k :: k in b ==>
         k in a || Numbered(k, lo, hi) || (b[k] == [] && (IsGenerated(k) ==> Outer(k, lo)))
  }

  /** A label of a construct that was there before number n was taken, and that is
      reached with nothing on the stack; A and B are reached with a status on it. */
  ghost predicate Outer(name: string, n: nat) {
    exists m: nat, s: string :: m < n && Level(s) && name == LabelName(m, s)
  }

  predicate Level(suffix: string) {
    IsSuffix(suffix) && suffix != "A" && suffix != "B"
  }

  /** The check goes on from t to t1 over these items. */
  ghost predicate Goes(t: Typing, items: seq<Item>, t1: Typing, lo: nat, hi: nat) {
    Check(t, items) == Some(t1) && Steady(t.labs, t1.labs, lo, hi)
  }

  /** The same, where only labels with numbers from lo to hi are added. */
  ghost predicate Grows(t: Typing, items: seq<Item>, t1: Typing, lo: nat, hi: nat) {
    && lo <= hi && Check(t, items) == Some(t1) && Grown(t.labs, t1.labs)
    && forall k :: k in t1.labs ==> k in t.labs || Numbered(k, lo, hi)
  }

  lemma GrowsGoes(t: Typing, items: seq<Item>, t1: Typing, lo: nat, hi: nat)
    requires Grows(t, items, t1, lo, hi)
    ensures Goes(t, items, t1, lo, hi)
  {
    hide Check, Numbered, Outer;
  }

  lemma GrowsJoin(t: Typing, a: seq<Item>, t1: Typing, lo1: nat, hi1: nat, b: seq<Item>, t2: Typing, lo2: nat, hi2: nat)
    requires Grows(t, a, t1, lo1, hi1) && Grows(t1, b, t2, lo2, hi2) && lo1 <= lo2 && hi1 <= hi2
    ensures Grows(t, a + b, t2, lo1, hi2)
  {
    hide Check, Numbered;
    CheckConcat(t, a, t1, b);
    forall k | k in t2.labs ensures k in t.labs || Numbered(k, lo1, hi2) {
      if k in t1.labs {
        if Numbered(k, lo1, hi1) {
          NumberedWiden(k, lo1, hi1, lo1, hi2);
        }
      } else {
        NumberedWiden(k, lo2, hi2, lo1, hi2);
      }
    }
  }

  lemma OuterSplit(name: string, lo: nat, mid: nat)
    requires Outer(name, mid) && lo <= mid
    ensures Outer(name, lo) || Numbered(name, lo, mid)
  {
    var n: nat, s: string :| n < mid && Level(s) && name == LabelName(n, s);
    if n < lo {
      assert n < lo && Level(s) && name == LabelName(n, s);
    } else {
      assert lo <= n < mid && IsSuffix(s) && name == LabelName(n, s);
    }
  }

  lemma SteadyJoin(a: map<string, seq<Kind>>, b: map<string, seq<Kind>>, c: map<string, seq<Kind>>, lo: nat, mid: nat,
                   hi: nat)
    requires Steady(a, b, lo, mid) && Steady(b, c, mid, hi)
    ensures Steady(a, c, lo, hi)
  {
    hide Numbered, Outer, IsGenerated;
    forall k | k in c ensures k in a || Numbered(k, lo, hi) || (c[k] == [] && (IsGenerated(k) ==> Outer(k, lo))) {
      if k in b {
        assert c[k] == b[k];
        if Numbered(k, lo, mid) {
          NumberedWiden(k, lo, mid, lo, hi);
        }
      } else if Numbered(k, mid, hi) {
        NumberedWiden(k, mid, hi, lo, hi);
      } else if IsGenerated(k) {
        OuterSplit(k, lo, mid);
        if Numbered(k, lo, mid) {
          NumberedWiden(k, lo, mid, lo, hi);
        }
      }
    }
  }

  lemma GoesJoin(t: Typing, a: seq<Item>, t1: Typing, b: seq<Item>, t2: Typing, lo: nat, mid: nat, hi: nat)
    requires Goes(t, a, t1, lo, mid) && Goes(t1, b, t2, mid, hi)
    ensures Goes(t, a + b, t2, lo, hi)
  {
    hide Steady, Check;
    CheckConcat(t, a, t1, b);
    SteadyJoin(t.labs, t1.labs, t2.labs, lo, mid, hi);
  }

  lemma GoesWiden(t: Typing, items: seq<Item>, t1: Typing, lo: nat, hi: nat, lo': nat, hi': nat)
    requires Goes(t, items, t1, lo, hi) && lo' <= lo && hi <= hi'
    ensures Goes(t, items, t1, lo', hi')
  {
    hide Numbered, Outer, IsGenerated, Check;
    forall k | k in t1.labs
      ensures k in t.labs || Numbered(k, lo', hi') || (t1.labs[k] == [] && (IsGenerated(k) ==> Outer(k, lo')))
    {
      if Numbered(k, lo, hi) {
        NumberedWiden(k, lo, hi, lo', hi');
      } else if k !in t.labs && IsGenerated(k) {
        OuterSplit(k, lo', lo);
        if Numbered(k, lo', lo) {
          NumberedWiden(k, lo', lo, lo', hi');
        }
      }
    }
  }

  lemma GrowsNowhere(t: Typing, n: nat)
    ensures Grows(t, [], t, n, n)
  {
  }

  lemma OldStays(t: Typing, items: seq<Item>, t1: Typing, lo: nat, hi: nat)
    requires Grows(t, items, t1, lo, hi) && Old(t.labs, hi)
    ensures Old(t1.labs, hi)
  {
    hide Check;
    forall k: nat, s: string | k >= hi && IsSuffix(s) ensures LabelName(k, s) !in t1.labs {
      var name := LabelName(k, s);
      if name in t1.labs {
        NotNumbered(k, s, lo, hi);
      }
    }
  }

  lemma NotNumbered(k: nat, s: string, lo: nat, hi: nat)
    requires IsSuffix(s) && !(lo <= k < hi)
    ensures !Numbered(LabelName(k, s), lo, hi)
  {
    if Numbered(LabelName(k, s), lo, hi) {
      var m: nat, u: string :| lo <= m < hi && IsSuffix(u) && LabelName(k, s) == LabelName(m, u);
      LabelNameInjective(k, s, m, u);
    }
  }

  lemma OldLater(labs: map<string, seq<Kind>>, n: nat, m: nat)
    requires Old(labs, n) && n <= m
    ensures Old(labs, m)
  {
  }

  /** One instruction */
  lemma OpGoes(t: Typing, op: int, n: nat)
    requires SimpleEffect(op, t.st).Some?
    ensures Grows(t, [Op(op)], Typing(SimpleEffect(op, t.st).value, false, t.labs), n, n)
  {
    hide SimpleEffect;
    ItemGoes(t, Op(op));
  }

  lemma ItemGoes(t: Typing, x: Item)
    ensures Check(t, [x]) == CheckItem(t, x)
  {
    hide CheckItem;
    CheckSnoc(t, [], x);
    assert [] + [x] == [x];
  }

  lemma LoadGoes(t: Typing, ins: Instr<string>, n: nat)
    requires Effect(ins, t.st).Some? && !ins.Jump?
    ensures Grows(t, [I(ins)], Typing(Effect(ins, t.st).value, false, t.labs), n, n)
  {
    hide Effect;
    ItemGoes(t, I(ins));
  }

  /** A jump to a label that was not met before */
  lemma NewJump(t: Typing, op: int, n: nat, suffix: string, hi: nat)
    requires Landing(op, t.st).Some? && LabelName(n, suffix) !in t.labs && IsSuffix(suffix) && n < hi
    ensures var st := Landing(op, t.st).value;
      Grows(t, [Jmp(op, n, suffix)],
           Typing(if op == OP_JMP then t.st else st, op == OP_JMP, t.labs[LabelName(n, suffix) := st]), n, hi)
  {
    hide Landing, LabelName;
    ItemGoes(t, Jmp(op, n, suffix));
    assert n <= n < hi && IsSuffix(suffix);
    assert Numbered(LabelName(n, suffix), n, hi);
  }

  /** A label whose kinds are known */
  lemma KnownLabel(t: Typing, n: nat, suffix: string, m: nat)
    requires LabelName(n, suffix) in t.labs && (t.jumped || AtMost(t.st, t.labs[LabelName(n, suffix)]))
    ensures Grows(t, [Lbl(n, suffix)], Typing(t.labs[LabelName(n, suffix)], false, t.labs), m, m)
  {
    hide LabelName;
    ItemGoes(t, Lbl(n, suffix));
  }

  function KindOf(e: Expr): Kind {
    if e.Var? then Address else Anything
  }

  function KindsOf(args: Exprs): seq<Kind> {
    if args.NoArgs? then [] else KindsOf(args.init) + [KindOf(args.last)]
  }

  lemma {:induction false} TextGoes(t: Typing, s: string, n: nat) returns (t1: Typing)
    ensures Grows(t, TextLoad(s), t1, n, n) && t1.st == t.st + [Anything]
  {
    hide Grows, Check;
    if s == "" {
      OpGoes(t, OP_LDNULL, n);
      t1 := Typing(t.st + [Anything], false, t.labs);
    } else {
      var chunk := Text(TextBytes(s[..ChunkSize(s)]));
      var t0 := Typing(t.st + [Anything], false, t.labs);
      LoadGoes(t, chunk, n);
      t1 := MoreGoes(t0, s[ChunkSize(s)..], n, t.st);
      GrowsJoin(t, [I(chunk)], t0, n, n, MoreText(s[ChunkSize(s)..]), t1, n, n);
    }
  }

  lemma {:induction false} MoreGoes(t: Typing, s: string, n: nat, below: seq<Kind>) returns (t1: Typing)
    requires t.st == below + [Anything]
    ensures Grows(t, MoreText(s), t1, n, n) && t1.st == t.st
    decreases |s|
  {
    hide Grows, Check;
    if s == "" {
      GrowsNowhere(t, n);
      t1 := t;
    } else {
      var chunk, rest := Text(TextBytes(s[..ChunkSize(s)])), s[ChunkSize(s)..];
      var t2 := Typing(t.st + [Anything], false, t.labs);
      var t3 := Typing(t.st, false, t.labs);
      LoadGoes(t, chunk, n);
      assert Less(t2.st, 2) + [Anything] == t.st;
      OpGoes(t2, OP_CAT, n);
      GrowsJoin(t, [I(chunk)], t2, n, n, [Op(OP_CAT)], t3, n, n);
      t1 := MoreGoes(t3, rest, n, below);
      GrowsJoin(t, [I(chunk)] + [Op(OP_CAT)], t3, n, n, MoreText(rest), t1, n, n);
    }
  }

  /** An expression leaves one entry: an address only if it is a variable. */
  lemma {:induction false} ExprGoes(e: Expr, c: Ctx, t: Typing) returns (t1: Typing)
    requires FormedExpr(e) && Old(t.labs, c.next)
    ensures Grows(t, EmitE(e, c), t1, c.next, AfterE(e, c).next) && t1.st == t.st + [KindOf(e)]
    ensures c.next <= AfterE(e, c).next
    decreases e
  {
    hide Grows, Check, Old;
    match e
    case Num(n) =>
      LoadGoes(t, NumberLoad(n), c.next);
      t1 := Typing(t.st + [Anything], false, t.labs);
    case Str(s) =>
      t1 := TextGoes(t, s, c.next);
    case Var(name) =>
      LoadGoes(t, VarLoad(Where(Touched(c, name).vars, name)), c.next);
      t1 := Typing(t.st + [Address], false, t.labs);
    case App(op, args) =>
      var t0 := ArgsGo(args, c, t);
      t1 := Typing(t.st + [Anything], false, t0.labs);
      OperatorGoes(op, args, t.st, t0, AfterArgs(args, c).next);
      GrowsJoin(t, EmitArgs(args, c), t0, c.next, AfterArgs(args, c).next, [Op(op)], t1, AfterArgs(args, c).next,
                AfterArgs(args, c).next);
    case IfThen(test, a, b) =>
      t1 := IfGoes(test, a, b, c, t);
  }

  lemma OperatorGoes(op: int, args: Exprs, st: seq<Kind>, t: Typing, n: nat)
    requires Arity(op) == ArgCount(args) > 0 && t.st == st + KindsOf(args) && |KindsOf(args)| == ArgCount(args)
    ensures Grows(t, [Op(op)], Typing(st + [Anything], false, t.labs), n, n)
  {
    assert Less(t.st, Arity(op)) == st;
    OpGoes(t, op, n);
  }

  lemma {:induction false} ArgsGo(args: Exprs, c: Ctx, t: Typing) returns (t1: Typing)
    requires FormedArgs(args) && Old(t.labs, c.next)
    ensures Grows(t, EmitArgs(args, c), t1, c.next, AfterArgs(args, c).next)
    ensures t1.st == t.st + KindsOf(args) && |KindsOf(args)| == ArgCount(args) && c.next <= AfterArgs(args, c).next
    decreases args
  {
    hide Grows, Check, Old;
    match args
    case NoArgs =>
      GrowsNowhere(t, c.next);
      t1 := t;
    case Args(init, last) =>
      var c1 := AfterArgs(init, c);
      var t0 := ArgsGo(init, c, t);
      OldOn(t, EmitArgs(init, c), t0, c.next, c1.next);
      t1 := ExprGoes(last, c1, t0);
      GrowsJoin(t, EmitArgs(init, c), t0, c.next, c1.next, EmitE(last, c1), t1, c1.next, AfterE(last, c1).next);
  }

  lemma OldOn(t: Typing, items: seq<Item>, t1: Typing, lo: nat, hi: nat)
    requires Grows(t, items, t1, lo, hi) && Old(t.labs, lo)
    ensures lo <= hi && Old(t1.labs, hi)
  {
    hide Check;
    OldLater(t.labs, lo, hi);
    OldStays(t, items, t1, lo, hi);
  }

  /** An IF expression: both values arrive at its end at the same height. */
  lemma {:induction false} IfGoes(test: Expr, a: Expr, b: Expr, c: Ctx, t: Typing) returns (t1: Typing)
    requires FormedExpr(test) && FormedExpr(a) && FormedExpr(b) && Old(t.labs, c.next)
    ensures Grows(t, EmitE(IfThen(test, a, b), c), t1, c.next, AfterE(IfThen(test, a, b), c).next)
    ensures t1.st == t.st + [Anything] && c.next <= AfterE(IfThen(test, a, b), c).next
    decreases IfThen(test, a, b), 0
  {
    hide Grows, Check, Old, EmitE, AfterE, FormedExpr, LabelName;
    var c1 := AfterE(test, c);
    var n, c2 := c1.next, c1.(next := c1.next + 1);
    var c3 := AfterE(a, c2);
    var c4 := AfterE(b, c3);
    var base := t.st;
    var u1 := ExprGoes(test, c, t);
    OldOn(t, EmitE(test, c), u1, c.next, n);
    IsNew(u1.labs, n, "E");
    IsNew(u1.labs, n, "X");
    DifferentLabels(n);
    assert Less(u1.st, 1) == base;
    NewJump(u1, OP_JFALSE, n, "E", n + 1);
    var u2 := Typing(base, false, u1.labs[LabelName(n, "E") := base]);
    GrowsJoin(t, EmitE(test, c), u1, c.next, n, [Jmp(OP_JFALSE, n, "E")], u2, n, n + 1);
    OldOn(u1, [Jmp(OP_JFALSE, n, "E")], u2, n, n + 1);
    var u3 := ExprGoes(a, c2, u2);
    var p1 := EmitE(test, c) + [Jmp(OP_JFALSE, n, "E")] + EmitE(a, c2);
    GrowsJoin(t, EmitE(test, c) + [Jmp(OP_JFALSE, n, "E")], u2, c.next, n + 1, EmitE(a, c2), u3, n + 1, c3.next);
    OldOn(u2, EmitE(a, c2), u3, n + 1, c3.next);
    var u5 := IfMiddle(t, p1, base, u2, u3, n, KindOf(a), EmitE(a, c2), c.next, c3.next);
    var p2 := p1 + [Jmp(OP_JMP, n, "X")] + [Lbl(n, "E")];
    var u6 := ExprGoes(b, c3, u5);
    GrowsJoin(t, p2, u5, c.next, c3.next, EmitE(b, c3), u6, c3.next, c4.next);
    SteadyOn(u5, EmitE(b, c3), u6, c3.next, c4.next, n, "X");
    KnownLabel(u6, n, "X", c4.next);
    t1 := Typing(base + [Anything], false, u6.labs);
    GrowsJoin(t, p2 + EmitE(b, c3), u6, c.next, c4.next, [Lbl(n, "X")], t1, c4.next, c4.next);
    IfText(test, a, b, c);
  }

  lemma IfText(test: Expr, a: Expr, b: Expr, c: Ctx)
    ensures var c1 := AfterE(test, c); var n, c2 := c1.next, c1.(next := c1.next + 1); var c3 := AfterE(a, c2);
      && EmitE(IfThen(test, a, b), c)
         == EmitE(test, c) + [Jmp(OP_JFALSE, n, "E")] + EmitE(a, c2) + [Jmp(OP_JMP, n, "X")] + [Lbl(n, "E")]
            + EmitE(b, c3) + [Lbl(n, "X")]
      && AfterE(IfThen(test, a, b), c) == AfterE(b, c3)
  {
  }

  lemma IsNew(labs: map<string, seq<Kind>>, n: nat, suffix: string)
    requires Old(labs, n) && IsSuffix(suffix)
    ensures LabelName(n, suffix) !in labs
  {
  }

  /** A label that is not met inside is not met after. */
  lemma StillUnmet(t: Typing, items: seq<Item>, t1: Typing, lo: nat, hi: nat, n: nat, s: string)
    requires Grows(t, items, t1, lo, hi) && n < lo && IsSuffix(s) && LabelName(n, s) !in t.labs
    ensures LabelName(n, s) !in t1.labs
  {
    hide Check;
    NotNumbered(n, s, lo, hi);
  }

  lemma SteadyOn(t: Typing, items: seq<Item>, t1: Typing, lo: nat, hi: nat, n: nat, s: string)
    requires Grows(t, items, t1, lo, hi) && n < lo && IsSuffix(s) && LabelName(n, s) in t.labs
    ensures LabelName(n, s) in t1.labs && t1.labs[LabelName(n, s)] == t.labs[LabelName(n, s)]
  {
    hide Check;
  }

  /** The jump over the other value, and that value's label */
  lemma IfMiddle(t: Typing, p1: seq<Item>, base: seq<Kind>, u2: Typing, u3: Typing, n: nat, kind: Kind,
                 code: seq<Item>, lo: nat, hi: nat)
    returns (u5: Typing)
    requires Grows(t, p1, u3, lo, hi) && Grows(u2, code, u3, n + 1, hi) && lo <= n < hi && Old(u3.labs, hi)
    requires u3.st == base + [kind]
    requires LabelName(n, "E") in u2.labs && u2.labs[LabelName(n, "E")] == base && LabelName(n, "X") !in u2.labs
    ensures Grows(t, p1 + [Jmp(OP_JMP, n, "X")] + [Lbl(n, "E")], u5, lo, hi) && u5.st == base && Old(u5.labs, hi)
    ensures LabelName(n, "X") in u5.labs && u5.labs[LabelName(n, "X")] == base + [Anything]
  {
    hide Grows, Check, Old, LabelName;
    assert Forget(u3.st) == base + [Anything];
    SteadyOn(u2, code, u3, n + 1, hi, n, "E");
    StillUnmet(u2, code, u3, n + 1, hi, n, "X");
    DifferentLabels(n);
    NewJump(u3, OP_JMP, n, "X", hi);
    var u4 := Typing(u3.st, true, u3.labs[LabelName(n, "X") := base + [Anything]]);
    KnownLabel(u4, n, "E", hi);
    u5 := Typing(base, false, u4.labs);
    GrowsJoin(t, p1, u3, lo, hi, [Jmp(OP_JMP, n, "X")], u4, n, hi);
    GrowsJoin(t, p1 + [Jmp(OP_JMP, n, "X")], u4, lo, hi, [Lbl(n, "E")], u5, hi, hi);
    OldStays(u3, [Jmp(OP_JMP, n, "X")], u4, n, hi);
  }

  /** Labels that are not the constructs' own are met with nothing on the stack. */
  ghost predicate UsersFlat(labs: map<string, seq<Kind>>) {
    forall k :: k in labs && !IsGenerated(k) ==> labs[k] == []
  }

  /** So are the labels of construct n, except A and B. */
  ghost predicate Flat(labs: map<string, seq<Kind>>, n: int) {
    forall s: string :: n >= 0 && Level(s) && LabelName(n, s) in labs ==> labs[LabelName(n, s)] == []
  }

  /** Between statements inside loop lp, with n the next number */
  ghost predicate Base(labs: map<string, seq<Kind>>, n: nat, lp: int) {
    Old(labs, n) && UsersFlat(labs) && lp < n && Flat(labs, lp)
  }

  lemma BaseGoes(t: Typing, items: seq<Item>, t1: Typing, m: nat, lo: nat, hi: nat, lp: int)
    requires Goes(t, items, t1, lo, hi) && Base(t.labs, m, lp) && m <= hi && lp < lo
    ensures Base(t1.labs, hi, lp)
  {
    FlatGoes(t, items, t1, lo, hi, lp);
    hide Check;
    forall k | k in t1.labs && !IsGenerated(k) ensures t1.labs[k] == [] {
      if k !in t.labs && Numbered(k, lo, hi) {
        UserNotNumbered(k, lo, hi);
      }
    }
    forall k: nat, s: string | k >= hi && IsSuffix(s) ensures LabelName(k, s) !in t1.labs {
      var name := LabelName(k, s);
      if name in t1.labs {
        NotNumbered(k, s, lo, hi);
        NotOuter(k, s, lo);
      }
    }
  }

  lemma UserNotNumbered(name: string, lo: nat, hi: nat)
    requires Numbered(name, lo, hi)
    ensures IsGenerated(name)
  {
  }

  lemma NotOuter(k: nat, s: string, n: nat)
    requires IsSuffix(s) && (k >= n || !Level(s))
    ensures !Outer(LabelName(k, s), n)
  {
    if Outer(LabelName(k, s), n) {
      var m: nat, u: string :| m < n && Level(u) && LabelName(k, s) == LabelName(m, u);
      LabelNameInjective(k, s, m, u);
    }
  }

  lemma FlatGoes(t: Typing, items: seq<Item>, t1: Typing, lo: nat, hi: nat, n: int)
    requires Goes(t, items, t1, lo, hi) && Flat(t.labs, n) && n < lo
    ensures Flat(t1.labs, n)
  {
    hide Check;
    forall s: string | n >= 0 && Level(s) && LabelName(n, s) in t1.labs ensures t1.labs[LabelName(n, s)] == [] {
      NotNumbered(n, s, lo, hi);
    }
  }

  /** A label that carries a status is met only by its own construct. */
  lemma StatusGoes(t: Typing, items: seq<Item>, t1: Typing, lo: nat, hi: nat, n: nat, s: string)
    requires Goes(t, items, t1, lo, hi) && n < lo && IsSuffix(s) && !Level(s)
    ensures LabelName(n, s) in t.labs ==>
              LabelName(n, s) in t1.labs && t1.labs[LabelName(n, s)] == t.labs[LabelName(n, s)]
    ensures LabelName(n, s) !in t.labs ==> LabelName(n, s) !in t1.labs
  {
    hide Check;
    NotNumbered(n, s, lo, hi);
    NotOuter(n, s, lo);
    NameGenerated(n, s);
  }

  lemma NameGenerated(n: nat, s: string)
    ensures IsGenerated(LabelName(n, s))
  {
  }

  /** A construct's labels before it begins */
  lemma OpenFlat(labs: map<string, seq<Kind>>, n: nat, lp: int)
    requires Base(labs, n, lp)
    ensures Flat(labs, n) && Base(labs, n + 1, lp) && LabelName(n, "A") !in labs && LabelName(n, "B") !in labs
  {
    assert IsSuffix("A") && IsSuffix("B");
  }

  /** A jump to a label of construct n, with nothing left on the stack */
  lemma FlatJump(t: Typing, op: int, n: nat, suffix: string, lo: nat) returns (t1: Typing)
    requires Flat(t.labs, n) && n < lo && Level(suffix) && Landing(op, t.st) == Some([])
    requires (op == OP_JMP ==> t.st == [])
    ensures Goes(t, [Jmp(op, n, suffix)], t1, lo, lo) && t1.st == [] && t1.jumped == (op == OP_JMP)
  {
    hide Landing, LabelName;
    ItemGoes(t, Jmp(op, n, suffix));
    t1 := CheckItem(t, Jmp(op, n, suffix)).value;
    assert n < lo && Level(suffix);
    assert Outer(LabelName(n, suffix), lo);
  }

  lemma FlatLabel(t: Typing, n: nat, suffix: string, lo: nat) returns (t1: Typing)
    requires Flat(t.labs, n) && n < lo && Level(suffix) && t.st == []
    ensures Goes(t, [Lbl(n, suffix)], t1, lo, lo) && t1.st == []
  {
    hide LabelName;
    ItemGoes(t, Lbl(n, suffix));
    t1 := CheckItem(t, Lbl(n, suffix)).value;
    assert n < lo && Level(suffix);
    assert Outer(LabelName(n, suffix), lo);
  }

  lemma NothingGoes(t: Typing, n: nat)
    ensures Goes(t, [], t, n, n)
  {
    GrowsNowhere(t, n);
    GrowsGoes(t, [], t, n, n);
  }

  lemma OpStep(t: Typing, op: int, n: nat) returns (t1: Typing)
    requires SimpleEffect(op, t.st).Some?
    ensures Goes(t, [Op(op)], t1, n, n) && t1 == Typing(SimpleEffect(op, t.st).value, false, t.labs)
  {
    t1 := Typing(SimpleEffect(op, t.st).value, false, t.labs);
    hide SimpleEffect;
    OpGoes(t, op, n);
    GrowsGoes(t, [Op(op)], t1, n, n);
  }

  lemma ValueStep(e: Expr, c: Ctx, t: Typing, lp: int) returns (t1: Typing)
    requires FormedExpr(e) && Base(t.labs, c.next, lp)
    ensures Goes(t, EmitE(e, c), t1, c.next, AfterE(e, c).next) && t1.st == t.st + [KindOf(e)]
    ensures c.next <= AfterE(e, c).next && Base(t1.labs, AfterE(e, c).next, lp)
  {
    t1 := ExprGoes(e, c, t);
    hide Grows, Goes, Check, EmitE, AfterE, Base;
    GrowsGoes(t, EmitE(e, c), t1, c.next, AfterE(e, c).next);
    BaseBelow(t.labs, c.next, lp);
    BaseGoes(t, EmitE(e, c), t1, c.next, c.next, AfterE(e, c).next, lp);
  }

  lemma BaseBelow(labs: map<string, seq<Kind>>, n: nat, lp: int)
    requires Base(labs, n, lp)
    ensures lp < n
  {
  }

  /** A statement leaves nothing on the stack. */
  ghost predicate Leaves(t: Typing, items: seq<Item>, t1: Typing, c: Ctx, c1: Ctx, lp: int) {
    Goes(t, items, t1, c.next, c1.next) && c.next <= c1.next && t1.st == [] && Base(t1.labs, c1.next, lp)
  }

  lemma {:induction false} BlockGoes(b: Block, c: Ctx, lp: int, inLoop: bool, t: Typing) returns (t1: Typing)
    requires NestedBlock(b, inLoop) && FormedBlock(b) && (inLoop ==> lp >= 0) && t.st == [] && Base(t.labs, c.next, lp)
    ensures Leaves(t, EmitBlock(b, c, lp), t1, c, AfterBlock(b, c), lp)
    decreases b, 0
  {
    hide Goes, Base, NestedStmt, FormedStmt, EmitStmt, AfterStmt;
    match b
    case Empty =>
      NothingGoes(t, c.next);
      t1 := t;
    case Seq(init, last) =>
      var c1 := AfterBlock(init, c);
      var t0 := BlockGoes(init, c, lp, inLoop, t);
      t1 := StmtGoes(last, c1, lp, inLoop, t0);
      GoesJoin(t, EmitBlock(init, c, lp), t0, EmitStmt(last, c1, lp), t1, c.next, c1.next, AfterStmt(last, c1).next);
  }

  lemma ClauseGoes(k: Clause, c: Ctx, lp: int, inLoop: bool, t: Typing, n: int) returns (t1: Typing)
    requires NestedClause(k, inLoop) && FormedClause(k) && (inLoop ==> lp >= 0)
    requires t.st == [] && Base(t.labs, c.next, lp)
    requires n < c.next && Flat(t.labs, n)
    ensures Leaves(t, EmitClause(k, c, lp), t1, c, AfterClause(k, c), lp) && Flat(t1.labs, n)
    decreases k, 0
  {
    hide Goes, Base, Flat, NestedBlock, FormedBlock, EmitBlock, AfterBlock;
    if k.Clause? {
      t1 := BlockGoes(k.body, c, lp, inLoop, t);
      FlatGoes(t, EmitClause(k, c, lp), t1, c.next, AfterClause(k, c).next, n);
    } else {
      NothingGoes(t, c.next);
      t1 := t;
    }
  }

  lemma StmtGoes(s: Stmt, c: Ctx, lp: int, inLoop: bool, t: Typing) returns (t1: Typing)
    requires NestedStmt(s, inLoop) && FormedStmt(s) && (inLoop ==> lp >= 0) && t.st == [] && Base(t.labs, c.next, lp)
    ensures Leaves(t, EmitStmt(s, c, lp), t1, c, AfterStmt(s, c), lp)
    decreases s, 5
  {
    StmtParts(s, inLoop);
    hide Leaves, Base, NestedStmt, FormedStmt, EmitStmt, AfterStmt;
    match s {
      case Set(_, _, _, _) => t1 := SetGoes(s, c, lp, t);
      case Loop(body) => t1 := LoopGoes(body, c, lp, t);
      case Test(_, _) => t1 := TestGoes(s, c, lp, t);
      case Leave(_) => t1 := TestGoes(s, c, lp, t);
      case If(_, _, _) => t1 := IfStmtGoes(s, c, lp, inLoop, t);
      case Case(arms) => t1 := CaseGoes(arms, c, lp, inLoop, t);
      case File(_, _, _, _, _, _) => t1 := FileStmtGoes(s, c, lp, inLoop, t);
      case _ => t1 := MarkGoes(s, c, lp, t);
    }
  }

  lemma StmtParts(s: Stmt, inLoop: bool)
    requires NestedStmt(s, inLoop) && FormedStmt(s)
    ensures s.Loop? ==> NestedBlock(s.body, true) && FormedBlock(s.body)
    ensures s.Case? ==> NestedArms(s.arms, inLoop) && FormedArms(s.arms)
    ensures s.Test? || s.Leave? ==> inLoop
    ensures s.LabelMark? || s.Goto? ==> !IsGenerated(s.name)
    ensures !s.LoopMark? && !s.RepeatMark?
  {
    hide NestedBlock, FormedBlock, NestedArms, FormedArms, IsGenerated;
  }

  /** The whole of a statement keeps what holds between statements. */
  lemma Left(t: Typing, items: seq<Item>, t1: Typing, c: Ctx, c1: Ctx, lp: int)
    requires Goes(t, items, t1, c.next, c1.next) && t1.st == [] && Base(t.labs, c.next, lp)
    ensures Leaves(t, items, t1, c, c1, lp)
  {
    BaseGoes(t, items, t1, c.next, c.next, c1.next, lp);
  }

  lemma VariableKind(name: string)
    ensures FormedExpr(Var(name)) && KindOf(Var(name)) == Address
  {
  }

  lemma SetGoes(s: Stmt, c: Ctx, lp: int, t: Typing) returns (t1: Typing)
    requires s.Set? && FormedStmt(s) && t.st == [] && Base(t.labs, c.next, lp)
    ensures Leaves(t, EmitStmt(s, c, lp), t1, c, AfterStmt(s, c), lp)
  {
    hide Goes, Base, EmitE, AfterE, FormedExpr, SimpleEffect;
    var c1 := AfterE(Var(s.name), c);
    VariableKind(s.name);
    var t0 := ValueStep(Var(s.name), c, t, lp);
    assert t0.st == [Address];
    t1 := StoreGoes(s, c1, t0, lp);
    GoesJoin(t, EmitE(Var(s.name), c), t0, StoreCode(s.op, s.e, s.short, c1), t1, c.next, c1.next,
             AfterStmt(s, c).next);
    Left(t, EmitStmt(s, c, lp), t1, c, AfterStmt(s, c), lp);
  }

  /** The address is used up by the store. */
  lemma StoreGoes(s: Stmt, c: Ctx, t: Typing, lp: int) returns (t1: Typing)
    requires s.Set? && FormedStmt(s) && t.st == [Address] && Base(t.labs, c.next, lp)
    ensures var hi := if s.short then c.next else AfterE(s.e, c).next;
      Goes(t, StoreCode(s.op, s.e, s.short, c), t1, c.next, hi) && t1.st == []
  {
    hide Goes, Base, EmitE, AfterE, FormedExpr;
    if s.short {
      t1 := OpStep(t, ShortOp(s.op, s.e), c.next);
    } else {
      var hi := AfterE(s.e, c).next;
      if s.op == OP_STOR || s.op == OP_APPEND {
        var t2 := ValueStep(s.e, c, t, lp);
        t1 := OpStep(t2, s.op, hi);
        GoesJoin(t, EmitE(s.e, c), t2, [Op(s.op)], t1, c.next, hi, hi);
      } else {
        var t2 := OpStep(t, OP_DUP, c.next);
        var t3 := ValueStep(s.e, c, t2, lp);
        GoesJoin(t, [Op(OP_DUP)], t2, EmitE(s.e, c), t3, c.next, c.next, hi);
        var t4 := OpStep(t3, s.op, hi);
        GoesJoin(t, [Op(OP_DUP)] + EmitE(s.e, c), t3, [Op(s.op)], t4, c.next, hi, hi);
        t1 := OpStep(t4, OP_STOR, hi);
        GoesJoin(t, [Op(OP_DUP)] + EmitE(s.e, c) + [Op(s.op)], t4, [Op(OP_STOR)], t1, c.next, hi, hi);
      }
    }
  }

  /** WHILE, UNTIL, EXIT and CONTINUE */
  lemma TestGoes(s: Stmt, c: Ctx, lp: int, t: Typing) returns (t1: Typing)
    requires (s.Test? || s.Leave?) && FormedStmt(s) && lp >= 0 && t.st == [] && Base(t.labs, c.next, lp)
    ensures Leaves(t, EmitStmt(s, c, lp), t1, c, AfterStmt(s, c), lp)
  {
    hide Goes, EmitE, AfterE, FormedExpr, Old, UsersFlat, Flat;
    if s.Test? {
      var t0 := ValueStep(s.e, c, t, lp);
      var c1 := AfterE(s.e, c);
      t1 := FlatJump(t0, TestOp(s.until), lp, "X", c1.next);
      GoesJoin(t, EmitE(s.e, c), t0, [Jmp(TestOp(s.until), lp, "X")], t1, c.next, c1.next, c1.next);
    } else {
      t1 := FlatJump(t, OP_JMP, lp, LeaveSuffix(s.again), c.next);
    }
    Left(t, EmitStmt(s, c, lp), t1, c, AfterStmt(s, c), lp);
  }

  lemma LoopGoes(body: Block, c: Ctx, lp: int, t: Typing) returns (t1: Typing)
    requires NestedBlock(body, true) && FormedBlock(body) && t.st == [] && Base(t.labs, c.next, lp)
    ensures Leaves(t, EmitStmt(Loop(body), c, lp), t1, c, AfterStmt(Loop(body), c), lp)
    decreases body, 1
  {
    hide Goes, Base, Flat, NestedBlock, FormedBlock, EmitBlock, AfterBlock;
    var n, c1, c2 := c.next, Opened(c), AfterBlock(body, Opened(c));
    OpenFlat(t.labs, n, lp);
    var t2 := FlatLabel(t, n, "R", n + 1);
    InLoopBase(t, [Lbl(n, "R")], t2, n, lp);
    var t3 := BlockGoes(body, c1, n, true, t2);
    assert Flat(t2.labs, n);
    FlatGoes(t2, EmitBlock(body, c1, n), t3, n + 1, c2.next, n);
    var t4 := FlatJump(t3, OP_JMP, n, "R", c2.next);
    FlatGoes(t3, [Jmp(OP_JMP, n, "R")], t4, c2.next, c2.next, n);
    t1 := FlatLabel(t4, n, "X", c2.next);
    GoesWiden(t, [Lbl(n, "R")], t2, n + 1, n + 1, n, n + 1);
    GoesJoin(t, [Lbl(n, "R")], t2, EmitBlock(body, c1, n), t3, n, n + 1, c2.next);
    GoesJoin(t, [Lbl(n, "R")] + EmitBlock(body, c1, n), t3, [Jmp(OP_JMP, n, "R")], t4, n, c2.next, c2.next);
    GoesJoin(t, [Lbl(n, "R")] + EmitBlock(body, c1, n) + [Jmp(OP_JMP, n, "R")], t4, [Lbl(n, "X")], t1, n, c2.next,
             c2.next);
    Left(t, EmitStmt(Loop(body), c, lp), t1, c, AfterStmt(Loop(body), c), lp);
  }

  lemma InLoopBase(t: Typing, items: seq<Item>, t1: Typing, n: nat, lp: int)
    requires Goes(t, items, t1, n + 1, n + 1) && Base(t.labs, n + 1, lp) && Flat(t.labs, n)
    ensures Base(t1.labs, n + 1, n) && Flat(t1.labs, n)
  {
    hide Goes, Old, UsersFlat, Flat;
    BaseGoes(t, items, t1, n + 1, n + 1, n + 1, lp);
    FlatGoes(t, items, t1, n + 1, n + 1, n);
  }

  /** The programmer's labels, and GOTO */
  lemma MarkGoes(s: Stmt, c: Ctx, lp: int, t: Typing) returns (t1: Typing)
    requires (s.LabelMark? || s.Goto?) && !IsGenerated(s.name) && t.st == [] && Base(t.labs, c.next, lp)
    ensures Leaves(t, EmitStmt(s, c, lp), t1, c, AfterStmt(s, c), lp)
  {
    var x := if s.LabelMark? then D(s.name) else I(Jump(OP_JMP, s.name));
    ItemGoes(t, x);
    t1 := CheckItem(t, x).value;
    Left(t, EmitStmt(s, c, lp), t1, c, AfterStmt(s, c), lp);
  }

  lemma IfStmtGoes(s: Stmt, c: Ctx, lp: int, inLoop: bool, t: Typing) returns (t1: Typing)
    requires s.If? && NestedStmt(s, inLoop) && FormedStmt(s) && (inLoop ==> lp >= 0)
    requires t.st == [] && Base(t.labs, c.next, lp)
    ensures Leaves(t, EmitStmt(s, c, lp), t1, c, AfterStmt(s, c), lp)
    decreases s, 4
  {
    hide Goes, Base, Flat, NestedClause, FormedClause, FormedExpr, EmitE, AfterE, EmitIf, AfterClause;
    var c1 := AfterE(s.cond, c);
    var n, c3 := c1.next, AfterStmt(s, c);
    var t0 := ValueStep(s.cond, c, t, lp);
    OpenFlat(t0.labs, n, lp);
    BaseBelow(t0.labs, n, lp);
    t1 := IfPart(s, n, Opened(c1), lp, inLoop, t0);
    GoesWiden(t0, EmitIf(s, n, Opened(c1), lp), t1, n + 1, c3.next, n, c3.next);
    GoesJoin(t, EmitE(s.cond, c), t0, EmitIf(s, n, Opened(c1), lp), t1, c.next, n, c3.next);
    Left(t, EmitStmt(s, c, lp), t1, c, c3, lp);
  }

  lemma IfPart(s: Stmt, n: nat, c: Ctx, lp: int, inLoop: bool, t: Typing) returns (t1: Typing)
    requires s.If? && NestedClause(s.thn, inLoop) && NestedClause(s.els, inLoop)
    requires FormedClause(s.thn) && FormedClause(s.els)
    requires (inLoop ==> lp >= 0) && lp < n < c.next && |t.st| == 1 && Base(t.labs, c.next, lp) && Flat(t.labs, n)
    ensures Goes(t, EmitIf(s, n, c, lp), t1, c.next, AfterClause(s.els, AfterClause(s.thn, c)).next) && t1.st == []
    decreases s, 3
  {
    hide Goes, Base, Flat, NestedClause, FormedClause, EmitLast, AfterClause;
    if s.thn.Absent? {
      var t2 := FlatJump(t, OP_JTRUE, n, "X", c.next);
      StepBase(t, [Jmp(OP_JTRUE, n, "X")], t2, c.next, lp, n);
      t1 := LastGoes(s.els, n, c, lp, inLoop, t2);
      NoneAfter(s.thn, c);
      GoesJoin(t, [Jmp(OP_JTRUE, n, "X")], t2, EmitLast(s.els, n, c, lp), t1, c.next, c.next,
               AfterClause(s.els, c).next);
    } else {
      var t2 := FlatJump(t, OP_JFALSE, n, "E", c.next);
      StepBase(t, [Jmp(OP_JFALSE, n, "E")], t2, c.next, lp, n);
      t1 := ThenGoes(s, n, c, lp, inLoop, t2);
      GoesJoin(t, [Jmp(OP_JFALSE, n, "E")], t2, EmitThen(s, n, c, lp), t1, c.next, c.next,
               AfterClause(s.els, AfterClause(s.thn, c)).next);
    }
  }

  lemma NoneAfter(k: Clause, c: Ctx)
    ensures k.Absent? ==> AfterClause(k, c) == c
  {
  }

  /** Steps that take no number */
  lemma StepBase(t: Typing, items: seq<Item>, t1: Typing, m: nat, lp: int, n: int)
    requires Goes(t, items, t1, m, m) && Base(t.labs, m, lp) && Flat(t.labs, n) && n < m
    ensures Base(t1.labs, m, lp) && Flat(t1.labs, n)
  {
    BaseBelow(t.labs, m, lp);
    hide Goes, Base, Flat;
    BaseGoes(t, items, t1, m, m, m, lp);
    FlatGoes(t, items, t1, m, m, n);
  }

  lemma LastGoes(k: Clause, n: nat, c: Ctx, lp: int, inLoop: bool, t: Typing) returns (t1: Typing)
    requires NestedClause(k, inLoop) && FormedClause(k) && (inLoop ==> lp >= 0) && n < c.next
    requires t.st == [] && Base(t.labs, c.next, lp) && Flat(t.labs, n)
    ensures Goes(t, EmitLast(k, n, c, lp), t1, c.next, AfterClause(k, c).next)
    ensures t1.st == [] && c.next <= AfterClause(k, c).next
    decreases k, 1
  {
    hide Goes, Base, Flat, NestedClause, FormedClause, EmitClause, AfterClause;
    var hi := AfterClause(k, c).next;
    var t2 := ClauseGoes(k, c, lp, inLoop, t, n);
    t1 := FlatLabel(t2, n, "X", hi);
    GoesJoin(t, EmitClause(k, c, lp), t2, [Lbl(n, "X")], t1, c.next, hi, hi);
  }

  /** The jump over the last clause, and the clause */
  lemma TurnGoes(k: Clause, n: nat, c: Ctx, lp: int, inLoop: bool, t: Typing) returns (t1: Typing)
    requires NestedClause(k, inLoop) && FormedClause(k) && (inLoop ==> lp >= 0) && n < c.next
    requires t.st == [] && Base(t.labs, c.next, lp) && Flat(t.labs, n)
    ensures Goes(t, [Jmp(OP_JMP, n, "X")] + [Lbl(n, "E")] + EmitLast(k, n, c, lp), t1, c.next, AfterClause(k, c).next)
    ensures t1.st == [] && c.next <= AfterClause(k, c).next
    decreases k, 2
  {
    hide Goes, Base, Flat, NestedClause, FormedClause, EmitLast, AfterClause;
    var t2 := FlatJump(t, OP_JMP, n, "X", c.next);
    StepBase(t, [Jmp(OP_JMP, n, "X")], t2, c.next, lp, n);
    var t3 := FlatLabel(t2, n, "E", c.next);
    StepBase(t2, [Lbl(n, "E")], t3, c.next, lp, n);
    t1 := LastGoes(k, n, c, lp, inLoop, t3);
    GoesJoin(t, [Jmp(OP_JMP, n, "X")], t2, [Lbl(n, "E")], t3, c.next, c.next, c.next);
    GoesJoin(t, [Jmp(OP_JMP, n, "X")] + [Lbl(n, "E")], t3, EmitLast(k, n, c, lp), t1, c.next, c.next,
             AfterClause(k, c).next);
  }

  lemma ThenGoes(s: Stmt, n: nat, c: Ctx, lp: int, inLoop: bool, t: Typing) returns (t1: Typing)
    requires s.If? && NestedClause(s.thn, inLoop) && NestedClause(s.els, inLoop)
    requires FormedClause(s.thn) && FormedClause(s.els)
    requires (inLoop ==> lp >= 0) && n < c.next && t.st == [] && Base(t.labs, c.next, lp) && Flat(t.labs, n)
    ensures Goes(t, EmitThen(s, n, c, lp), t1, c.next, AfterClause(s.els, AfterClause(s.thn, c)).next) && t1.st == []
    decreases s, 2
  {
    hide Goes, Base, Flat, NestedClause, FormedClause, EmitClause, EmitLast, AfterClause;
    var c1 := AfterClause(s.thn, c);
    var t2 := ClauseGoes(s.thn, c, lp, inLoop, t, n);
    if s.els.Absent? {
      t1 := FlatLabel(t2, n, "E", c1.next);
      NoneAfter(s.els, c1);
      GoesJoin(t, EmitClause(s.thn, c, lp), t2, [Lbl(n, "E")], t1, c.next, c1.next, c1.next);
    } else {
      t1 := TurnGoes(s.els, n, c1, lp, inLoop, t2);
      GoesJoin(t, EmitClause(s.thn, c, lp), t2, [Jmp(OP_JMP, n, "X")] + [Lbl(n, "E")] + EmitLast(s.els, n, c1, lp), t1,
               c.next, c1.next, AfterClause(s.els, c1).next);
    }
  }

  lemma CaseGoes(arms: Arms, c: Ctx, lp: int, inLoop: bool, t: Typing) returns (t1: Typing)
    requires NestedArms(arms, inLoop) && FormedArms(arms) && (inLoop ==> lp >= 0)
    requires t.st == [] && Base(t.labs, c.next, lp)
    ensures Leaves(t, EmitStmt(Case(arms), c, lp), t1, c, AfterStmt(Case(arms), c), lp)
    decreases arms, 1
  {
    hide Goes, Base, Flat, NestedArms, FormedArms, EmitArms, AfterArms;
    var n, c1, c2 := c.next, Opened(c), AfterArms(arms, Opened(c));
    OpenFlat(t.labs, n, lp);
    var t2 := ArmsGo(arms, n, c1, lp, inLoop, t);
    t1 := FlatLabel(t2, n, "X", c2.next);
    GoesWiden(t, EmitArms(arms, n, c1, lp), t2, n + 1, c2.next, n, c2.next);
    GoesJoin(t, EmitArms(arms, n, c1, lp), t2, [Lbl(n, "X")], t1, n, c2.next, c2.next);
    Left(t, EmitStmt(Case(arms), c, lp), t1, c, c2, lp);
  }

  lemma {:induction false} ArmsGo(arms: Arms, n: nat, c: Ctx, lp: int, inLoop: bool, t: Typing) returns (t1: Typing)
    requires NestedArms(arms, inLoop) && FormedArms(arms) && (inLoop ==> lp >= 0) && n < c.next
    requires t.st == [] && Base(t.labs, c.next, lp) && Flat(t.labs, n)
    ensures Leaves(t, EmitArms(arms, n, c, lp), t1, c, AfterArms(arms, c), lp) && Flat(t1.labs, n)
    decreases arms, 0
  {
    hide Goes, Base, Flat, NestedBlock, FormedBlock, FormedExpr, EmitArm;
    match arms
    case NoArms =>
      NothingGoes(t, c.next);
      t1 := t;
    case Arm(init, cond, body) =>
      var c1, c2 := AfterArms(init, c), AfterArms(arms, c);
      var t2 := ArmsGo(init, n, c, lp, inLoop, t);
      t1 := ArmGoes(cond, body, n, Count(init) + 1, c1, lp, inLoop, t2);
      GoesJoin(t, EmitArms(init, n, c, lp), t2, EmitArm(cond, body, n, Count(init) + 1, c1, lp), t1, c.next, c1.next,
               c2.next);
  }

  lemma ArmGoes(cond: Expr, body: Block, n: nat, k: nat, c: Ctx, lp: int, inLoop: bool, t: Typing) returns (t1: Typing)
    requires FormedExpr(cond) && NestedBlock(body, inLoop) && FormedBlock(body) && (inLoop ==> lp >= 0) && n < c.next
    requires t.st == [] && Base(t.labs, c.next, lp) && Flat(t.labs, n)
    ensures Leaves(t, EmitArm(cond, body, n, k, c, lp), t1, c, AfterBlock(body, AfterE(cond, c)), lp)
    ensures Flat(t1.labs, n)
    decreases body, 1
  {
    hide Goes, Base, Flat, NestedBlock, FormedBlock, FormedExpr, EmitE, AfterE, EmitBlock, AfterBlock, CaseSuffix;
    var c1, s := AfterE(cond, c), CaseSuffix(k);
    var c2 := AfterBlock(body, c1);
    CaseLevel(k);
    var t2 := ValueStep(cond, c, t, lp);
    FlatGoes(t, EmitE(cond, c), t2, c.next, c1.next, n);
    var t3 := FlatJump(t2, OP_JFALSE, n, s, c1.next);
    StepBase(t2, [Jmp(OP_JFALSE, n, s)], t3, c1.next, lp, n);
    var t4 := BlockGoes(body, c1, lp, inLoop, t3);
    FlatGoes(t3, EmitBlock(body, c1, lp), t4, c1.next, c2.next, n);
    var t5 := FlatJump(t4, OP_JMP, n, "X", c2.next);
    StepBase(t4, [Jmp(OP_JMP, n, "X")], t5, c2.next, lp, n);
    t1 := FlatLabel(t5, n, s, c2.next);
    StepBase(t5, [Lbl(n, s)], t1, c2.next, lp, n);
    GoesJoin(t, EmitE(cond, c), t2, [Jmp(OP_JFALSE, n, s)], t3, c.next, c1.next, c1.next);
    var p := EmitE(cond, c) + [Jmp(OP_JFALSE, n, s)];
    GoesJoin(t, p, t3, EmitBlock(body, c1, lp), t4, c.next, c1.next, c2.next);
    GoesJoin(t, p + EmitBlock(body, c1, lp), t4, [Jmp(OP_JMP, n, "X")], t5, c.next, c2.next, c2.next);
    GoesJoin(t, p + EmitBlock(body, c1, lp) + [Jmp(OP_JMP, n, "X")], t5, [Lbl(n, s)], t1, c.next, c2.next, c2.next);
  }

  lemma CaseLevel(k: nat)
    ensures Level(CaseSuffix(k))
  {
    assert CaseSuffix(k)[0] == 'C';
  }

  lemma FileStmtGoes(s: Stmt, c: Ctx, lp: int, inLoop: bool, t: Typing) returns (t1: Typing)
    requires s.File? && NestedStmt(s, inLoop) && FormedStmt(s) && (inLoop ==> lp >= 0)
    requires t.st == [] && Base(t.labs, c.next, lp)
    ensures Leaves(t, EmitStmt(s, c, lp), t1, c, AfterStmt(s, c), lp)
    decreases s, 4
  {
    hide Goes, Base, Flat, NestedClause, FormedClause, FormedCall, EmitArgs, AfterArgs, EmitFile, AfterClause,
         LabelName;
    var c1 := AfterArgs(s.args, c);
    var n, c3 := c1.next, AfterStmt(s, c);
    var t0 := OperandsGo(s.call, s.args, s.thn, s.els, c, t, lp);
    OpenFlat(t0.labs, n, lp);
    BaseBelow(t0.labs, n, lp);
    t1 := FileGoes(s, n, Opened(c1), lp, inLoop, t0);
    GoesJoin(t, EmitArgs(s.args, c), t0, EmitFile(s, n, Opened(c1), lp), t1, c.next, n, c3.next);
    Left(t, EmitStmt(s, c, lp), t1, c, c3, lp);
  }

  /** The operands; READ has the address of its variable below the others. */
  lemma OperandsGo(call: Call, args: Exprs, thn: Clause, els: Clause, c: Ctx, t: Typing, lp: int) returns (t1: Typing)
    requires FormedCall(call, args, thn, els) && t.st == [] && Base(t.labs, c.next, lp)
    ensures Goes(t, EmitArgs(args, c), t1, c.next, AfterArgs(args, c).next)
    ensures Base(t1.labs, AfterArgs(args, c).next, lp)
    ensures IsFileOp(call.op) && SimpleEffect(call.op, t1.st) == Some([Anything])
  {
    hide Grows, Check, EmitArgs, AfterArgs, FormedArgs;
    BaseBelow(t.labs, c.next, lp);
    t1 := ArgsGo2(args, c, t);
    GrowsGoes(t, EmitArgs(args, c), t1, c.next, AfterArgs(args, c).next);
    hide Goes, Base;
    BaseGoes(t, EmitArgs(args, c), t1, c.next, c.next, AfterArgs(args, c).next, lp);
    OperandKinds(call, args, thn, els);
    assert [] + KindsOf(args) == KindsOf(args);
  }

  lemma ArgsGo2(args: Exprs, c: Ctx, t: Typing) returns (t1: Typing)
    requires FormedArgs(args) && Old(t.labs, c.next)
    ensures Grows(t, EmitArgs(args, c), t1, c.next, AfterArgs(args, c).next)
    ensures t1.st == t.st + KindsOf(args) && c.next <= AfterArgs(args, c).next
  {
    hide Grows, Old, EmitArgs, AfterArgs, FormedArgs, KindsOf;
    t1 := ArgsGo(args, c, t);
  }

  lemma OperandKinds(call: Call, args: Exprs, thn: Clause, els: Clause)
    requires FormedCall(call, args, thn, els)
    ensures IsFileOp(call.op) && SimpleEffect(call.op, KindsOf(args)) == Some([Anything])
  {
    hide FormedArgs;
    KindCount(args);
    assert Less(KindsOf(args), FileOperands(call.op)) + [Anything] == [Anything];
    if call.op == OP_READ {
      ReceiverKind(args);
    }
  }

  lemma ReceiverKind(args: Exprs)
    requires Receiver(args).Some?
    ensures |KindsOf(args)| == 3 && KindsOf(args)[0] == Address
  {
    assert KindsOf(args.init.init) == [Address];
    assert KindsOf(args.init) == [Address] + [KindOf(args.init.last)];
  }

  lemma {:induction false} KindCount(args: Exprs)
    ensures |KindsOf(args)| == ArgCount(args)
  {
    if args.Args? {
      KindCount(args.init);
    }
  }

  /** The clauses of a file operation */
  lemma FileGoes(s: Stmt, n: nat, c: Ctx, lp: int, inLoop: bool, t: Typing) returns (t1: Typing)
    requires s.File? && NestedStmt(s, inLoop) && FormedStmt(s) && (inLoop ==> lp >= 0) && lp < n && c.next == n + 1
    requires Base(t.labs, c.next, lp) && Flat(t.labs, n) && LabelName(n, "A") !in t.labs && LabelName(n, "B") !in t.labs
    requires SimpleEffect(s.call.op, t.st) == Some([Anything])
    ensures Goes(t, EmitFile(s, n, c, lp), t1, n,
                 AfterClause(s.els, AfterClause(s.thn, AfterClause(s.locked, AfterClause(s.onError, c)))).next)
    ensures t1.st == []
    decreases s, 3
  {
    hide Goes, Base, Flat, NestedClause, FormedClause, FormedCall, SimpleEffect, EmitLock, EmitCall, EmitLocked,
         EmitChoice, AfterClause, LabelName;
    var c1 := AfterClause(s.onError, c);
    var c2 := AfterClause(s.locked, c1);
    var c3 := AfterClause(s.els, AfterClause(s.thn, c2));
    var t2 := LockGoes(s.call, s.locked, s, c.next, t);
    StepBase(t, EmitLock(s.call, s.locked), t2, c.next, lp, n);
    var t3 := CallGoes(s.call, s.onError, n, c, lp, inLoop, t2);
    var t4 := LockedGoes(s.locked, n, c1, lp, inLoop, t3);
    t1 := ChoiceGoes(s, n, c2, lp, inLoop, t4);
    GoesWiden(t, EmitLock(s.call, s.locked), t2, c.next, c.next, n, c.next);
    GoesFrom(t, EmitLock(s.call, s.locked), t2, EmitCall(s.call, s.onError, n, c, lp), t3, n, c.next, c1.next);
    var p := EmitLock(s.call, s.locked) + EmitCall(s.call, s.onError, n, c, lp);
    GoesFrom(t, p, t3, EmitLocked(s.locked, n, c1, lp), t4, n, c1.next, c2.next);
    GoesJoin(t, p + EmitLocked(s.locked, n, c1, lp), t4, EmitChoice(s, n, c2, lp), t1, n, c2.next, c3.next);
  }

  /** Parts that may add labels of the same construct */
  lemma GoesFrom(t: Typing, a: seq<Item>, t1: Typing, b: seq<Item>, t2: Typing, lo: nat, mid: nat, hi: nat)
    requires Goes(t, a, t1, lo, mid) && Goes(t1, b, t2, lo, hi) && mid <= hi
    ensures Goes(t, a + b, t2, lo, hi)
  {
    hide Numbered, Outer, Check;
    CheckConcat(t, a, t1, b);
    forall k | k in t2.labs
      ensures k in t.labs || Numbered(k, lo, hi) || (t2.labs[k] == [] && (IsGenerated(k) ==> Outer(k, lo)))
    {
      if k in t1.labs && Numbered(k, lo, mid) {
        NumberedWiden(k, lo, mid, lo, hi);
      }
    }
  }

  /** Prefix opcodes leave the operands alone. */
  lemma LockGoes(call: Call, locked: Clause, s: Stmt, n: nat, t: Typing) returns (t1: Typing)
    requires s.File? && FormedStmt(s) && call == s.call
    ensures Goes(t, EmitLock(call, locked), t1, n, n) && t1.st == t.st && t1.labs == t.labs
  {
    hide Goes, FormedClause, FormedArgs;
    NothingGoes(t, n);
    var t0 := t;
    var a: seq<Item> := if call.lock > 0 then [Op(call.lock)] else [];
    if call.lock > 0 {
      t0 := OpStep(t, call.lock, n);
    }
    var b: seq<Item> := if call.canLock then [Op(if locked.Clause? then OP_NOWAIT else OP_NULL)] else [];
    NothingGoes(t0, n);
    t1 := t0;
    if call.canLock {
      t1 := OpStep(t0, if locked.Clause? then OP_NOWAIT else OP_NULL, n);
    }
    GoesJoin(t, a, t0, b, t1, n, n, n);
  }

  /** A clause that is run with the status taken off, and left with it on. */
  lemma AsideGoes(op: int, k: Clause, suffix: string, n: nat, c: Ctx, lp: int, inLoop: bool, t: Typing)
    returns (t1: Typing)
    requires NestedClause(k, inLoop) && FormedClause(k) && (inLoop ==> lp >= 0) && lp < n < c.next
    requires IsConditional(op) && (suffix == "A" || suffix == "B") && LabelName(n, suffix) !in t.labs
    requires t.st == [Anything, Anything] && Base(t.labs, c.next, lp) && Flat(t.labs, n)
    ensures Goes(t, EmitAside(op, k, suffix, n, c, lp), t1, n, AfterClause(k, c).next)
    ensures c.next <= AfterClause(k, c).next
    ensures t1.st == [Anything] && Base(t1.labs, AfterClause(k, c).next, lp) && Flat(t1.labs, n)
    ensures suffix == "A" && LabelName(n, "B") !in t.labs ==> LabelName(n, "B") !in t1.labs
    decreases k, 1
  {
    hide Goes, Base, Flat, NestedClause, FormedClause, EmitClause, AfterClause, LabelName;
    var hi := AfterClause(k, c).next;
    assert Less(t.st, 1) == [Anything];
    var t2 := AsideStart(op, suffix, n, c.next, lp, t);
    var t3 := OpStep(t2, OP_POP, c.next);
    assert t3.st == [];
    var t4 := ClauseGoes(k, c, lp, inLoop, t3, n);
    StatusGoes(t3, EmitClause(k, c, lp), t4, c.next, hi, n, suffix);
    StatusGoes(t3, EmitClause(k, c, lp), t4, c.next, hi, n, "B");
    var t5 := FlatJump(t4, OP_JMP, n, "X", hi);
    StepBase(t4, [Jmp(OP_JMP, n, "X")], t5, hi, lp, n);
    StatusGoes(t4, [Jmp(OP_JMP, n, "X")], t5, hi, hi, n, suffix);
    StatusGoes(t4, [Jmp(OP_JMP, n, "X")], t5, hi, hi, n, "B");
    KnownLabel(t5, n, suffix, hi);
    t1 := Typing([Anything], false, t5.labs);
    GrowsGoes(t5, [Lbl(n, suffix)], t1, hi, hi);
    GoesWiden(t2, [Op(OP_POP)], t3, c.next, c.next, n, c.next);
    GoesFrom(t, [Jmp(op, n, suffix)], t2, [Op(OP_POP)], t3, n, c.next, c.next);
    var p := [Jmp(op, n, suffix)] + [Op(OP_POP)];
    GoesJoin(t, p, t3, EmitClause(k, c, lp), t4, n, c.next, hi);
    GoesJoin(t, p + EmitClause(k, c, lp), t4, [Jmp(OP_JMP, n, "X")], t5, n, hi, hi);
    GoesJoin(t, p + EmitClause(k, c, lp) + [Jmp(OP_JMP, n, "X")], t5, [Lbl(n, suffix)], t1, n, hi, hi);
  }

  lemma AsideStart(op: int, suffix: string, n: nat, m: nat, lp: int, t: Typing) returns (t1: Typing)
    requires IsConditional(op) && (suffix == "A" || suffix == "B") && LabelName(n, suffix) !in t.labs && lp < n < m
    requires t.st == [Anything, Anything] && Base(t.labs, m, lp) && Flat(t.labs, n)
    ensures Goes(t, [Jmp(op, n, suffix)], t1, n, m) && t1.st == [Anything] && Base(t1.labs, m, lp) && Flat(t1.labs, n)
    ensures LabelName(n, suffix) in t1.labs && t1.labs[LabelName(n, suffix)] == [Anything]
    ensures suffix == "A" && LabelName(n, "B") !in t.labs ==> LabelName(n, "B") !in t1.labs
  {
    hide Goes, Base, LabelName;
    assert Less(t.st, 1) == [Anything];
    NewJump(t, op, n, suffix, m);
    t1 := Typing([Anything], false, t.labs[LabelName(n, suffix) := [Anything]]);
    GrowsGoes(t, [Jmp(op, n, suffix)], t1, n, m);
    BaseGoes(t, [Jmp(op, n, suffix)], t1, m, n, m, lp);
    forall s: string | IsSuffix(s) && s != suffix ensures LabelName(n, s) != LabelName(n, suffix) {
      if LabelName(n, s) == LabelName(n, suffix) {
        LabelNameInjective(n, s, n, suffix);
      }
    }
  }

  lemma CallGoes(call: Call, onError: Clause, n: nat, c: Ctx, lp: int, inLoop: bool, t: Typing) returns (t1: Typing)
    requires NestedClause(onError, inLoop) && FormedClause(onError) && (inLoop ==> lp >= 0) && lp < n < c.next
    requires SimpleEffect(call.op, t.st) == Some([Anything]) && Base(t.labs, c.next, lp) && Flat(t.labs, n)
    requires LabelName(n, "A") !in t.labs && LabelName(n, "B") !in t.labs
    ensures Goes(t, EmitCall(call, onError, n, c, lp), t1, n, AfterClause(onError, c).next)
    ensures c.next <= AfterClause(onError, c).next && t1.st == [Anything]
    ensures Base(t1.labs, AfterClause(onError, c).next, lp) && Flat(t1.labs, n) && LabelName(n, "B") !in t1.labs
    decreases onError, 2
  {
    hide Goes, Base, Flat, NestedClause, FormedClause, EmitAside, AfterClause, LabelName;
    if onError.Absent? {
      NoneAfter(onError, c);
      t1 := OpStep(t, call.op, c.next);
      StepBase(t, [Op(call.op)], t1, c.next, lp, n);
      GoesWiden(t, [Op(call.op)], t1, c.next, c.next, n, c.next);
    } else {
      var t2 := OpStep(t, OP_ONERROR, c.next);
      var t3 := OpStep(t2, call.op, c.next);
      var t4 := OpStep(t3, OP_DUP, c.next);
      assert t4.st == [Anything, Anything];
      var start := [Op(OP_ONERROR)] + [Op(call.op)] + [Op(OP_DUP)];
      GoesJoin(t, [Op(OP_ONERROR)], t2, [Op(call.op)], t3, c.next, c.next, c.next);
      GoesJoin(t, [Op(OP_ONERROR)] + [Op(call.op)], t3, [Op(OP_DUP)], t4, c.next, c.next, c.next);
      t1 := AsideGoes(OP_JPZ, onError, "A", n, c, lp, inLoop, t4);
      GoesWiden(t, start, t4, c.next, c.next, n, c.next);
      GoesFrom(t, start, t4, EmitAside(OP_JPZ, onError, "A", n, c, lp), t1, n, c.next, AfterClause(onError, c).next);
    }
  }

  lemma LockedGoes(locked: Clause, n: nat, c: Ctx, lp: int, inLoop: bool, t: Typing) returns (t1: Typing)
    requires NestedClause(locked, inLoop) && FormedClause(locked) && (inLoop ==> lp >= 0) && lp < n < c.next
    requires t.st == [Anything] && Base(t.labs, c.next, lp) && Flat(t.labs, n) && LabelName(n, "B") !in t.labs
    ensures Goes(t, EmitLocked(locked, n, c, lp), t1, n, AfterClause(locked, c).next)
    ensures c.next <= AfterClause(locked, c).next && t1.st == [Anything]
    ensures Base(t1.labs, AfterClause(locked, c).next, lp) && Flat(t1.labs, n)
    decreases locked, 2
  {
    hide Goes, Base, Flat, NestedClause, FormedClause, EmitAside, AfterClause, LabelName;
    if locked.Absent? {
      NoneAfter(locked, c);
      t1 := t;
      NothingGoes(t, c.next);
      GoesWiden(t, [], t, c.next, c.next, n, c.next);
    } else {
      var t2 := OpStep(t, OP_DUP, c.next);
      var t3 := Typing(t2.st + [Anything], false, t2.labs);
      LoadGoes(t2, NumberLoad(ER_LCK), c.next);
      GrowsGoes(t2, [I(NumberLoad(ER_LCK))], t3, c.next, c.next);
      var t4 := OpStep(t3, OP_EQ, c.next);
      assert t4.st == [Anything, Anything];
      var test := [Op(OP_DUP)] + [I(NumberLoad(ER_LCK))] + [Op(OP_EQ)];
      GoesJoin(t, [Op(OP_DUP)], t2, [I(NumberLoad(ER_LCK))], t3, c.next, c.next, c.next);
      GoesJoin(t, [Op(OP_DUP)] + [I(NumberLoad(ER_LCK))], t3, [Op(OP_EQ)], t4, c.next, c.next, c.next);
      t1 := AsideGoes(OP_JZE, locked, "B", n, c, lp, inLoop, t4);
      GoesWiden(t, test, t4, c.next, c.next, n, c.next);
      GoesFrom(t, test, t4, EmitAside(OP_JZE, locked, "B", n, c, lp), t1, n, c.next, AfterClause(locked, c).next);
    }
  }

  /** THEN and ELSE: the status is taken off once, on every way. */
  lemma ChoiceGoes(s: Stmt, n: nat, c: Ctx, lp: int, inLoop: bool, t: Typing) returns (t1: Typing)
    requires s.File? && NestedStmt(s, inLoop) && FormedStmt(s) && (inLoop ==> lp >= 0) && n < c.next
    requires t.st == [Anything] && Base(t.labs, c.next, lp) && Flat(t.labs, n)
    ensures Goes(t, EmitChoice(s, n, c, lp), t1, c.next, AfterClause(s.els, AfterClause(s.thn, c)).next) && t1.st == []
    decreases s, 2
  {
    hide Goes, Base, Flat, NestedClause, FormedClause, FormedArgs, EmitLast, EmitSuccess, AfterClause, LabelName;
    assert Less(t.st, 1) == [];
    if !s.call.thenElse {
      NoneAfter(s.thn, c);
      NoneAfter(s.els, c);
      var t2 := OpStep(t, OP_POP, c.next);
      StepBase(t, [Op(OP_POP)], t2, c.next, lp, n);
      t1 := FlatLabel(t2, n, "X", c.next);
      GoesJoin(t, [Op(OP_POP)], t2, [Lbl(n, "X")], t1, c.next, c.next, c.next);
    } else if s.thn.Absent? {
      NoneAfter(s.thn, c);
      var t2 := FlatJump(t, OP_JZE, n, "X", c.next);
      StepBase(t, [Jmp(OP_JZE, n, "X")], t2, c.next, lp, n);
      t1 := LastGoes(s.els, n, c, lp, inLoop, t2);
      GoesJoin(t, [Jmp(OP_JZE, n, "X")], t2, EmitLast(s.els, n, c, lp), t1, c.next, c.next, AfterClause(s.els, c).next);
    } else {
      var t2 := FlatJump(t, OP_JNZ, n, "E", c.next);
      StepBase(t, [Jmp(OP_JNZ, n, "E")], t2, c.next, lp, n);
      t1 := SuccessGoes(s, n, c, lp, inLoop, t2);
      GoesJoin(t, [Jmp(OP_JNZ, n, "E")], t2, EmitSuccess(s, n, c, lp), t1, c.next, c.next,
               AfterClause(s.els, AfterClause(s.thn, c)).next);
    }
  }

  lemma SuccessGoes(s: Stmt, n: nat, c: Ctx, lp: int, inLoop: bool, t: Typing) returns (t1: Typing)
    requires s.File? && NestedStmt(s, inLoop) && FormedStmt(s) && (inLoop ==> lp >= 0) && n < c.next
    requires t.st == [] && Base(t.labs, c.next, lp) && Flat(t.labs, n)
    ensures Goes(t, EmitSuccess(s, n, c, lp), t1, c.next, AfterClause(s.els, AfterClause(s.thn, c)).next) && t1.st == []
    decreases s, 1
  {
    hide Goes, Base, Flat, NestedClause, FormedClause, FormedCall, EmitClause, EmitLast, AfterClause, LabelName;
    var c1 := AfterClause(s.thn, c);
    var t2 := ClauseGoes(s.thn, c, lp, inLoop, t, n);
    if s.els.Absent? {
      NoneAfter(s.els, c1);
      var t3 := FlatLabel(t2, n, "E", c1.next);
      StepBase(t2, [Lbl(n, "E")], t3, c1.next, lp, n);
      t1 := FlatLabel(t3, n, "X", c1.next);
      GoesJoin(t2, [Lbl(n, "E")], t3, [Lbl(n, "X")], t1, c1.next, c1.next, c1.next);
      GoesJoin(t, EmitClause(s.thn, c, lp), t2, [Lbl(n, "E")] + [Lbl(n, "X")], t1, c.next, c1.next, c1.next);
    } else {
      t1 := TurnGoes(s.els, n, c1, lp, inLoop, t2);
      GoesJoin(t, EmitClause(s.thn, c, lp), t2, [Jmp(OP_JMP, n, "X")] + [Lbl(n, "E")] + EmitLast(s.els, n, c1, lp), t1,
               c.next, c1.next, AfterClause(s.els, c1).next);
    }
  }

  /** The code of every compiled program passes the check. */
  lemma CompiledPasses(tokens: seq<Token>, p: Block, code: seq<byte>, pc: nat, list: seq<Item>)
    requires Compiled(tokens, p, code, pc, list)
    ensures Passes(list)
  {
    hide ParseLines, NestWhole, EmitBlock, AfterBlock, Flatten, Image, Closed, Distinct, HasHeader, FormedBlock,
         NestedBlock, Check, ReadHead, Whole, NoCom, Writable;
    CompiledForm(Body(tokens), p);
    var c := Initial(tokens);
    StartBase(c);
    var t1 := BlockGoes(p, c, -1, false, AtStart);
    var t2 := OpStep(t1, OP_RETURN, AfterBlock(p, c).next);
    GoesJoin(AtStart, EmitBlock(p, c, -1), t1, [Op(OP_RETURN)], t2, c.next, AfterBlock(p, c).next,
             AfterBlock(p, c).next);
    assert list[..|list|] == list;
  }

  lemma StartBase(c: Ctx)
    ensures Base(AtStart.labs, c.next, -1)
  {
  }

  /** No accepted program, whatever its GOTOs, ever breaks the machine: it never takes an
      entry off the stack that was there when it began, never stores through anything but
      an address, and leaves the stack as it found it. */
  lemma NeverBreaks(rt: Runtime, tokens: seq<Token>, p: Block, code: seq<byte>, pc: nat, list: seq<Item>, m: Machine,
                    n: nat)
    requires Compiled(tokens, p, code, pc, list) && Entered(code, m)
    requires BlocksFit(rt, Initial(tokens).vars) && AreasFit(rt, Initial(tokens).vars)
    ensures var m1 := Run(rt, code, m, n);
      && !m1.Broken?
      && (m1.Running? ==> m.stack <= m1.stack)
      && (m1.Finished? ==> m1.stack == m.stack)
  {
    hide ParseLines, NestWhole, EmitBlock, AfterBlock, Flatten, Image, Closed, Distinct, HasHeader, Assembled, Passes,
         Run, Safe, NestedBlock, FormedBlock, Pc, ReadHead, Whole, NoCom, Writable, BlocksFit, AreasFit, BoundBlocks,
         AllThere;
    var c := Initial(tokens);
    var prog := Object(rt, p, c, code, list);
    CompiledPasses(tokens, p, code, pc, list);
    CompiledIsAssembled(rt, tokens, p, code, pc, list);
    var start := BindsFirst(rt, tokens, p, code, pc, list, m);
    if n >= start {
      var m0 := Run(rt, code, m, start);
      assert m.stack[..|m.stack|] == m.stack;
      FirstKnown(list);
      Arrive(prog, m0, m.stack, 0);
      RunSafe(prog, m0, m.stack, n - start);
      RunAdd(rt, code, m, start, n - start);
      SafeFacts(prog, Run(rt, code, m, n), m.stack);
    }
  }

  lemma FirstKnown(list: seq<Item>)
    ensures Known(list, 0) == AtStart
  {
    assert list[..0] == [];
  }
}
