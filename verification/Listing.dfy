/** The assembly listing of a compile: instructions with symbolic jump targets, and
    label definitions, in the order they were emitted. */
module Listing {
  import opened Bytes
  import opened Isa
  import opened Cells

  datatype Item = I(ins: Instr<string>) | D(name: string)

  function ItemCells(item: Item): seq<Cell> {
    match item
    case I(ins) => CellsOf(ins)
    case D(name) => [Def(name)]
  }

  function Flatten(list: seq<Item>): seq<Cell> {
    if list == [] then [] else Flatten(list[..|list| - 1]) + ItemCells(list[|list| - 1])
  }

  lemma FlattenSnoc(list: seq<Item>, item: Item)
    ensures Flatten(list + [item]) == Flatten(list) + ItemCells(item)
  {
    assert (list + [item])[..|list|] == list;
  }

  lemma {:induction false} FlattenAppend(a: seq<Item>, b: seq<Item>)
    ensures Flatten(a + b) == Flatten(a) + Flatten(b)
    decreases |b|
  {
    if b == [] {
      assert a + b == a;
    } else {
      var b', x := b[..|b| - 1], b[|b| - 1];
      assert b == b' + [x] && a + b == (a + b') + [x];
      FlattenAppend(a, b');
      FlattenSnoc(a + b', x);
      FlattenSnoc(b', x);
      Regroup(Flatten(a), Flatten(b'), ItemCells(x));
    }
  }

  lemma Regroup<T>(a: seq<T>, b: seq<T>, c: seq<T>)
    ensures (a + b) + c == a + (b + c)
  {
  }

  /** No label is defined twice. */
  ghost predicate Distinct(list: seq<Item>) {
    forall i, j :: 0 <= i < j < |list| && list[i].D? ==> list[i] != list[j]
  }

  lemma DistinctSnoc(list: seq<Item>, item: Item)
    requires Distinct(list) && (item.D? ==> item !in list)
    ensures Distinct(list + [item])
  {
  }

  /** Where item k starts. */
  function At(list: seq<Item>, k: nat): nat
    requires k <= |list|
  {
    End(Flatten(list[..k]))
  }

  /** The length of an instruction in bytes. */
  function Width<T>(ins: Instr<T>): nat {
    if ins.Jump? then 4 else |Plain(ins)|
  }

  /** The code of these items does not fit the image. */
  ghost predicate Long(list: seq<Item>) {
    End(Flatten(list)) > CODE_SIZE
  }

  lemma LongMore(a: seq<Item>, b: seq<Item>)
    ensures Long(a) ==> Long(a + b)
  {
    hide Addr;
    FlattenAppend(a, b);
    EndOrder(Flatten(a), Flatten(b));
  }

  lemma LongStart(a: seq<Item>, b: seq<Item>)
    requires Long(a) && a <= b
    ensures Long(b)
  {
    assert b == a + b[|a|..];
    LongMore(a, b[|a|..]);
  }

  lemma LongOne(list: seq<Item>, ins: Instr<string>)
    ensures Long(list + [I(ins)]) <==> End(Flatten(list)) + Width(ins) > CODE_SIZE
  {
    var cs := Flatten(list);
    FlattenSnoc(list, I(ins));
    hide Flatten, Addr, Plain;
    if ins.Jump? {
      var op := [Byte(ins.op % 256)];
      assert cs + CellsOf(ins) == cs + op + [Slot(ins.target)];
      EndSnoc(cs, op[0]);
      EndSnoc(cs + op, Slot(ins.target));
    } else {
      EndRaw(cs, Plain(ins));
    }
  }

  /** emit_numeric_load(): the shortest load of an integer. */
  function NumberLoad(n: int): Instr<string> {
    if n == 0 then Simple(OP_LD0)
    else if n == 1 then Simple(OP_LD1)
    else if -129 < n < 128 then ShortInt(n)
    else LongInt(n)
  }

  predicate IsByteText(s: string) {
    forall i :: 0 <= i < |s| ==> s[i] as int < 256
  }

  function TextBytes(s: string): (bs: seq<byte>)
    ensures |bs| == |s|
    ensures forall i :: 0 <= i < |s| ==> bs[i] == s[i] as int % 256
  {
    seq(|s|, i requires 0 <= i < |s| => s[i] as int % 256)
  }

  /** emit_string_load(): chunks of at most 255 characters, each after the first
      joined on by CAT. */
  function TextLoad(s: string): seq<Item> {
    if s == "" then [I(Simple(OP_LDNULL))]
    else [I(Text(TextBytes(s[..ChunkSize(s)])))] + MoreText(s[ChunkSize(s)..])
  }

  function ChunkSize(s: string): (n: nat)
    ensures n <= |s|
  {
    if |s| > 255 then 255 else |s|
  }

  function MoreText(s: string): seq<Item>
    decreases |s|
  {
    if s == "" then []
    else [I(Text(TextBytes(s[..ChunkSize(s)])))] + [I(Simple(OP_CAT))] + MoreText(s[ChunkSize(s)..])
  }

  /** Where a variable lives. */
  datatype Loc = LocalVar(v: nat) | CommonVar(v: nat, offset: nat)

  /** emit_var_load() */
  function VarLoad(loc: Loc): Instr<string> {
    match loc
    case CommonVar(v, offset) => Common(v, offset)
    case LocalVar(v) => if v < 256 then ShortLocal(v) else Local(v)
  }
}
