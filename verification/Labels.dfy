/** Generated labels carry the number of the construct they belong to, so a new
    construct's labels are new. */
module Labels {
  import opened Isa
  import opened Listing
  import opened Syntax
  import opened Names
  import opened Generate

  ghost predicate Numbered(name: string, lo: nat, hi: nat) {
    exists n: nat, s: string :: lo <= n < hi && IsSuffix(s) && name == LabelName(n, s)
  }

  /** Generated labels defined in items have numbers from lo to hi. */
  ghost predicate Labelled(items: seq<Item>, lo: nat, hi: nat) {
    forall i :: 0 <= i < |items| && items[i].D? && IsGenerated(items[i].name) ==> Numbered(items[i].name, lo, hi)
  }

  lemma NumberedWiden(name: string, lo: nat, hi: nat, lo': nat, hi': nat)
    requires Numbered(name, lo, hi) && lo' <= lo && hi <= hi'
    ensures Numbered(name, lo', hi')
  {
    var n: nat, s: string :| lo <= n < hi && IsSuffix(s) && name == LabelName(n, s);
    assert lo' <= n < hi' && IsSuffix(s) && name == LabelName(n, s);
  }

  lemma LabelledWiden(items: seq<Item>, lo: nat, hi: nat, lo': nat, hi': nat)
    requires Labelled(items, lo, hi) && lo' <= lo && hi <= hi'
    ensures Labelled(items, lo', hi')
  {
    forall i | 0 <= i < |items| && items[i].D? && IsGenerated(items[i].name) ensures Numbered(items[i].name, lo', hi') {
      NumberedWiden(items[i].name, lo, hi, lo', hi');
    }
  }

  lemma LabelledConcat(a: seq<Item>, b: seq<Item>, lo: nat, hi: nat)
    requires Labelled(a, lo, hi) && Labelled(b, lo, hi)
    ensures Labelled(a + b, lo, hi)
  {
  }

  /** Instructions define nothing. */
  lemma LabelledCode(items: seq<Item>, ins: Instr<string>, lo: nat, hi: nat)
    requires Labelled(items, lo, hi)
    ensures Labelled(items + [I(ins)], lo, hi)
  {
  }

  lemma LabelledDef(items: seq<Item>, n: nat, s: string, lo: nat, hi: nat)
    requires Labelled(items, lo, hi) && lo <= n < hi && IsSuffix(s)
    ensures Labelled(items + [D(LabelName(n, s))], lo, hi)
  {
    assert Numbered(LabelName(n, s), lo, hi);
  }

  lemma LabelledReplace(items: seq<Item>, t: nat, ins: Instr<string>, lo: nat, hi: nat)
    requires Labelled(items, lo, hi) && t < |items|
    ensures Labelled(items[t := I(ins)], lo, hi)
  {
  }

  lemma LabelledUser(items: seq<Item>, name: string, lo: nat, hi: nat)
    requires Labelled(items, lo, hi) && !IsGenerated(name)
    ensures Labelled(items + [D(name)], lo, hi)
  {
  }

  /** A label whose number is outside the range is not defined there. */
  lemma NotLabelled(items: seq<Item>, n: nat, s: string, lo: nat, hi: nat)
    requires Labelled(items, lo, hi) && IsSuffix(s) && !(lo <= n < hi)
    ensures D(LabelName(n, s)) !in items
  {
    if D(LabelName(n, s)) in items {
      var i :| 0 <= i < |items| && items[i] == D(LabelName(n, s));
      var m: nat, t: string :| lo <= m < hi && IsSuffix(t) && items[i].name == LabelName(m, t);
      LabelNameInjective(n, s, m, t);
    }
  }

  /** Loads and string chunks define nothing. */
  lemma {:induction false} LabelledText(s: string, lo: nat, hi: nat)
    ensures Labelled(TextLoad(s), lo, hi)
  {
    if s != "" {
      LabelledMore(s[ChunkSize(s)..], lo, hi);
    }
  }

  lemma {:induction false} LabelledMore(s: string, lo: nat, hi: nat)
    ensures Labelled(MoreText(s), lo, hi)
    decreases |s|
  {
    if s != "" {
      LabelledMore(s[ChunkSize(s)..], lo, hi);
    }
  }

  /** An expression's labels are numbered with the numbers it takes. */
  lemma {:induction false} LabelledE(e: Expr, c: Ctx)
    ensures c.next <= AfterE(e, c).next && Labelled(EmitE(e, c), c.next, AfterE(e, c).next)
  {
    match e
    case Num(_) =>
    case Str(s) => LabelledText(s, c.next, c.next);
    case Var(_) =>
    case App(op, args) =>
      LabelledArgs(args, c);
      LabelledCode(EmitArgs(args, c), Simple(op), c.next, AfterE(e, c).next);
    case IfThen(t, a, b) =>
      var c1 := AfterE(t, c);
      var n, c2 := c1.next, c1.(next := c1.next + 1);
      var c3 := AfterE(a, c2);
      var lo, hi := c.next, AfterE(e, c).next;
      LabelledE(t, c);
      LabelledE(a, c2);
      LabelledE(b, c3);
      LabelledWiden(EmitE(t, c), lo, n, lo, hi);
      LabelledWiden(EmitE(a, c2), n + 1, c3.next, lo, hi);
      LabelledWiden(EmitE(b, c3), c3.next, hi, lo, hi);
      var x1 := EmitE(t, c) + [I(Jump(OP_JFALSE, LabelName(n, "E")))];
      LabelledCode(EmitE(t, c), Jump(OP_JFALSE, LabelName(n, "E")), lo, hi);
      LabelledConcat(x1, EmitE(a, c2), lo, hi);
      var x2 := x1 + EmitE(a, c2) + [I(Jump(OP_JMP, LabelName(n, "X")))];
      LabelledCode(x1 + EmitE(a, c2), Jump(OP_JMP, LabelName(n, "X")), lo, hi);
      LabelledDef(x2, n, "E", lo, hi);
      LabelledConcat(x2 + [D(LabelName(n, "E"))], EmitE(b, c3), lo, hi);
      LabelledDef(x2 + [D(LabelName(n, "E"))] + EmitE(b, c3), n, "X", lo, hi);
  }

  lemma {:induction false} LabelledArgs(args: Exprs, c: Ctx)
    ensures c.next <= AfterArgs(args, c).next && Labelled(EmitArgs(args, c), c.next, AfterArgs(args, c).next)
  {
    match args
    case NoArgs =>
    case Args(init, last) =>
      var m, hi := AfterArgs(init, c), AfterArgs(args, c).next;
      LabelledArgs(init, c);
      LabelledE(last, m);
      LabelledWiden(EmitArgs(init, c), c.next, m.next, c.next, hi);
      LabelledWiden(EmitE(last, m), m.next, hi, c.next, hi);
      LabelledConcat(EmitArgs(init, c), EmitE(last, m), c.next, hi);
  }

  /** The labels of construct n are still undefined after later constructs. */
  lemma StillNew(before: seq<Item>, n: nat, ins: Instr<string>, inner: seq<Item>, ins': Instr<string>, hi: nat,
                 s: string)
    requires Labelled(before, 0, n) && Labelled(inner, n + 1, hi) && IsSuffix(s)
    ensures D(LabelName(n, s)) !in before + [I(ins)] + inner + [I(ins')]
  {
    NotLabelled(before, n, s, 0, n);
    NotLabelled(inner, n, s, n + 1, hi);
  }

  lemma DifferentLabels(n: nat)
    ensures LabelName(n, "E") != LabelName(n, "X")
  {
    if LabelName(n, "E") == LabelName(n, "X") {
      LabelNameInjective(n, "E", n, "X");
    }
  }
}
