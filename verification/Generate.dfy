/** The code the compiler generates for a tree, and the tables it leaves behind. */
module Generate {
  import opened Isa
  import opened Listing
  import opened Syntax
  import opened Names
  import opened Storages

  /** What code generation threads through the program besides the listing: the
      variables met so far and the next jump number. */
  datatype Ctx = Ctx(vars: Storage, next: nat)

  function Touched(c: Ctx, name: string): Ctx {
    c.(vars := Touch(c.vars, name))
  }

  function Load(c: Ctx, name: string): Item {
    I(VarLoad(Where(c.vars, name)))
  }

  function Op(op: int): Item {
    I(Simple(op))
  }

  function AfterE(e: Expr, c: Ctx): Ctx {
    match e
    case Num(_) => c
    case Str(_) => c
    case Var(name) => Touched(c, name)
    case App(_, args) => AfterArgs(args, c)
    case IfThen(t, a, b) => var c1 := AfterE(t, c); AfterE(b, AfterE(a, c1.(next := c1.next + 1)))
  }

  function AfterArgs(args: Exprs, c: Ctx): Ctx {
    match args
    case NoArgs => c
    case Args(init, last) => AfterE(last, AfterArgs(init, c))
  }

  /** A condition, and two values that end at the same label */
  function IfItems(test: seq<Item>, n: nat, a: seq<Item>, b: seq<Item>): seq<Item> {
    test + [I(Jump(OP_JFALSE, LabelName(n, "E")))] + a + [I(Jump(OP_JMP, LabelName(n, "X")))] + [D(LabelName(n, "E"))]
    + b + [D(LabelName(n, "X"))]
  }

  function EmitE(e: Expr, c: Ctx): seq<Item> {
    match e
    case Num(n) => [I(NumberLoad(n))]
    case Str(s) => TextLoad(s)
    case Var(name) => [Load(Touched(c, name), name)]
    case App(op, args) => EmitArgs(args, c) + [Op(op)]
    case IfThen(t, a, b) =>
      var c1 := AfterE(t, c);
      var c2 := c1.(next := c1.next + 1);
      IfItems(EmitE(t, c), c1.next, EmitE(a, c2), EmitE(b, AfterE(a, c2)))
  }

  function EmitArgs(args: Exprs, c: Ctx): seq<Item> {
    match args
    case NoArgs => []
    case Args(init, last) => EmitArgs(init, c) + EmitE(last, AfterArgs(init, c))
  }

  lemma NumberKeeps(n: int, c: Ctx)
    ensures AfterE(Num(n), c) == c
  {
  }

  lemma TextKeeps(s: string, c: Ctx)
    ensures AfterE(Str(s), c) == c
  {
  }

  lemma IfParts(t: Expr, a: Expr, b: Expr, c: Ctx, c2: Ctx)
    requires c2 == AfterE(t, c).(next := AfterE(t, c).next + 1)
    ensures EmitE(IfThen(t, a, b), c) == IfItems(EmitE(t, c), AfterE(t, c).next, EmitE(a, c2), EmitE(b, AfterE(a, c2)))
    ensures AfterE(IfThen(t, a, b), c) == AfterE(b, AfterE(a, c2))
  {
    hide IfItems, LabelName, TextLoad;
  }

  /** The code of a conditional, piece by piece as it is emitted. */
  lemma IfCode(done: seq<Item>, t: Expr, a: Expr, b: Expr, c: Ctx)
    ensures var n, c1 := AfterE(t, c).next, AfterE(t, c); var c2 := c1.(next := n + 1); var c3 := AfterE(a, c2);
      && done + EmitE(IfThen(t, a, b), c)
           == done + EmitE(t, c) + [I(Jump(OP_JFALSE, LabelName(n, "E")))] + EmitE(a, c2)
              + [I(Jump(OP_JMP, LabelName(n, "X")))] + [D(LabelName(n, "E"))] + EmitE(b, c3) + [D(LabelName(n, "X"))]
      && AfterE(IfThen(t, a, b), c) == AfterE(b, c3)
  {
    hide LabelName, IfItems, EmitE, AfterE;
    var n, c1 := AfterE(t, c).next, AfterE(t, c);
    var c2 := c1.(next := n + 1);
    IfParts(t, a, b, c, c2);
    Chain(done, EmitE(t, c), n, EmitE(a, c2), EmitE(b, AfterE(a, c2)));
  }

  lemma Chain(done: seq<Item>, test: seq<Item>, n: nat, a: seq<Item>, b: seq<Item>)
    ensures done + IfItems(test, n, a, b)
         == done + test + [I(Jump(OP_JFALSE, LabelName(n, "E")))] + a
            + [I(Jump(OP_JMP, LabelName(n, "X")))] + [D(LabelName(n, "E"))] + b + [D(LabelName(n, "X"))]
  {
    hide LabelName;
  }
}
