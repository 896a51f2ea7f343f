/** One-pass backpatching gives the same bytes as assembling the finished listing in
    two passes: first collect every label's address, then write every instruction. */
module Linking {
  import opened Outcomes
  import opened Bytes
  import opened Isa
  import opened Cells
  import opened Listing
  import opened CodeImages

  /** Every jump's label is defined somewhere in the listing. */
  ghost predicate Closed(list: seq<Item>) {
    forall i :: 0 <= i < |list| && list[i].I? && list[i].ins.Jump? ==> D(list[i].ins.target) in list
  }

  /** The address a label ends up with. */
  function Target(list: seq<Item>, name: string): nat {
    if Defined(Flatten(list), name) then AddressOf(Flatten(list), name) else 0
  }

  function Resolve(list: seq<Item>, ins: Instr<string>): Instr<nat> {
    match ins
    case Simple(op) => Simple(op)
    case ShortInt(n) => ShortInt(n)
    case LongInt(n) => LongInt(n)
    case Text(s) => Text(s)
    case ShortLocal(v) => ShortLocal(v)
    case Local(v) => Local(v)
    case Common(v, offset) => Common(v, offset)
    case Jump(op, name) => Jump(op, Target(list, name))
  }

  /** Second pass: the bytes of an item once every label has an address. */
  function ItemBytes(list: seq<Item>, item: Item): seq<byte> {
    if item.I? then Encode(Resolve(list, item.ins)) else []
  }

  function Assemble(list: seq<Item>, part: seq<Item>): seq<byte> {
    if part == [] then [] else Assemble(list, part[..|part| - 1]) + ItemBytes(list, part[|part| - 1])
  }

  lemma EndItem(list: seq<Item>, cs: seq<Cell>, item: Item)
    ensures End(cs + ItemCells(item)) == End(cs) + |ItemBytes(list, item)|
  {
    match item
    case D(name) => EndSnoc(cs, Def(name));
    case I(ins) =>
      if ins.Jump? {
        EndSnoc(cs, Byte(ins.op % 256));
        EndSnoc(cs + [Byte(ins.op % 256)], Slot(ins.target));
        assert cs + CellsOf(ins) == cs + [Byte(ins.op % 256)] + [Slot(ins.target)];
      } else {
        EndRaw(cs, Plain(ins));
        SameBytes(list, ins);
      }
  }

  lemma SameBytes(list: seq<Item>, ins: Instr<string>)
    requires !ins.Jump?
    ensures Encode(Resolve(list, ins)) == Plain(ins)
  {
  }

  lemma SplitNext(list: seq<Item>, k: nat)
    requires k < |list|
    ensures Flatten(list[..k + 1]) == Flatten(list[..k]) + ItemCells(list[k])
  {
    assert list[..k + 1] == list[..k] + [list[k]];
    FlattenSnoc(list[..k], list[k]);
  }

  /** The listing's cells split at item k. */
  lemma SplitCells(list: seq<Item>, k: nat)
    requires k < |list|
    ensures Flatten(list) == Flatten(list[..k]) + ItemCells(list[k]) + Flatten(list[k + 1..])
    ensures Flatten(list[..k + 1]) == Flatten(list[..k]) + ItemCells(list[k])
  {
    hide Flatten, ItemCells;
    SplitNext(list, k);
    assert list == list[..k + 1] + list[k + 1..];
    FlattenAppend(list[..k + 1], list[k + 1..]);
  }

  /** An item's bytes end where the next item starts. */
  lemma AtNext(list: seq<Item>, k: nat)
    requires k < |list|
    ensures At(list, k + 1) == At(list, k) + |ItemBytes(list, list[k])| <= End(Flatten(list))
  {
    SplitCells(list, k);
    EndItem(list, Flatten(list[..k]), list[k]);
    CellsBefore(Flatten(list[..k + 1]), Flatten(list[k + 1..]));
  }

  lemma CellsBefore(a: seq<Cell>, b: seq<Cell>)
    ensures End(a) == Addr(a + b, |a|) <= End(a + b)
  {
    AddrPrefix(a, b, |a|);
    if b != [] {
      AddrOrder(a + b, |a|, |a + b|);
    }
  }

  /** Where cell i of item k is. */
  lemma CellOfItem(list: seq<Item>, k: nat, i: nat)
    requires k < |list| && i < |ItemCells(list[k])|
    ensures var cs, c := Flatten(list), |Flatten(list[..k])| + i;
      c < |cs| && cs[c] == ItemCells(list[k])[i] && Addr(cs, c) == At(list, k) + i
  {
    hide Flatten, ItemCells, Addr;
    SplitCells(list, k);
    var a: seq<Cell>, m: seq<Cell>, b: seq<Cell> := Flatten(list[..k]), ItemCells(list[k]), Flatten(list[k + 1..]);
    CellsBefore(a, m + b);
    assert a + m + b == a + (m + b);
    BytesFirst(list[k], i);
    forall j | |a| <= j < |a| + i ensures (a + m + b)[j].Byte? {
      assert (a + m + b)[j] == m[j - |a|];
    }
    AddrRun(a + m + b, |a|, i);
  }

  lemma BytesFirst(item: Item, i: nat)
    requires i < |ItemCells(item)|
    ensures forall j :: 0 <= j < i ==> ItemCells(item)[j].Byte?
  {
  }

  lemma {:induction false} AddrRun(cs: seq<Cell>, c: nat, i: nat)
    requires c + i < |cs| && forall j :: c <= j < c + i ==> cs[j].Byte?
    ensures Addr(cs, c + i) == Addr(cs, c) + i
  {
    if i > 0 {
      AddrRun(cs, c, i - 1);
    }
  }

  /** The bytes of item k are its encoding with every jump target filled in. */
  lemma ItemAt(code: seq<byte>, list: seq<Item>, k: nat)
    requires Image(code, Flatten(list)) && Closed(list) && k < |list|
    ensures At(list, k) <= At(list, k + 1) <= |code|
    ensures code[At(list, k)..At(list, k + 1)] == ItemBytes(list, list[k])
  {
    hide At, Flatten, Image, Closed, Encode;
    ImageFits(code, Flatten(list));
    AtNext(list, k);
    if list[k].D? {
      assert ItemBytes(list, list[k]) == [];
    } else if list[k].ins.Jump? {
      JumpItemAt(code, list, k);
    } else {
      PlainAt(code, list, k);
      SameBytes(list, list[k].ins);
    }
  }

  lemma JumpBytes(list: seq<Item>, item: Item)
    requires item.I? && item.ins.Jump?
    ensures ItemBytes(list, item) == [item.ins.op % 256] + LE(Target(list, item.ins.target), 3)
  {
    hide Target, LE;
  }

  lemma JumpItemAt(code: seq<byte>, list: seq<Item>, k: nat)
    requires Image(code, Flatten(list)) && Closed(list)
    requires k < |list| && list[k].I? && list[k].ins.Jump?
    ensures At(list, k + 1) == At(list, k) + 4 <= |code|
    ensures code[At(list, k)..At(list, k) + 4] == ItemBytes(list, list[k])
  {
    hide Flatten, Addr, LE, Target, Image, Closed, ItemBytes, At, Encode, Resolve;
    JumpAt(code, list, k);
    JumpBytes(list, list[k]);
    AtNext(list, k);
    ImageFits(code, Flatten(list));
    Glue(code, At(list, k));
  }

  lemma Glue(code: seq<byte>, a: nat)
    requires a + 4 <= |code|
    ensures code[a..a + 4] == [code[a]] + code[a + 1..a + 4]
  {
  }

  /** The length of an instruction without a jump address. */
  lemma PlainNext(list: seq<Item>, k: nat)
    requires k < |list| && list[k].I? && !list[k].ins.Jump?
    ensures At(list, k + 1) == At(list, k) + |Plain(list[k].ins)|
  {
    hide Flatten, At, Encode, Plain, Resolve;
    AtNext(list, k);
    SameBytes(list, list[k].ins);
  }

  lemma PlainAt(code: seq<byte>, list: seq<Item>, k: nat)
    requires Image(code, Flatten(list)) && k < |list| && list[k].I? && !list[k].ins.Jump?
    requires At(list, k + 1) <= |code|
    ensures At(list, k + 1) == At(list, k) + |Plain(list[k].ins)|
    ensures code[At(list, k)..At(list, k + 1)] == Plain(list[k].ins)
  {
    hide Flatten, Addr, Find, Plain, LE, Image, Value, At;
    var cs, c, a, e := Flatten(list), |Flatten(list[..k])|, At(list, k), Plain(list[k].ins);
    PlainNext(list, k);
    forall i | 0 <= i < |e| ensures code[a + i] == e[i] {
      CellOfItem(list, k, i);
      CellBytes(code, cs, c + i);
    }
  }

  /** A jump's two cells. */
  lemma JumpCells(list: seq<Item>, k: nat)
    requires k < |list| && list[k].I? && list[k].ins.Jump?
    ensures var cs, c := Flatten(list), |Flatten(list[..k])|;
      && c + 1 < |cs| && cs[c] == Byte(list[k].ins.op % 256) && cs[c + 1] == Slot(list[k].ins.target)
      && Addr(cs, c) == At(list, k) && Addr(cs, c + 1) == At(list, k) + 1
  {
    hide Flatten, Addr, At;
    CellOfItem(list, k, 0);
    CellOfItem(list, k, 1);
  }

  lemma ClosedAt(list: seq<Item>, k: nat)
    requires Closed(list) && k < |list| && list[k].I? && list[k].ins.Jump?
    ensures D(list[k].ins.target) in list
  {
  }

  lemma JumpAt(code: seq<byte>, list: seq<Item>, k: nat)
    requires Image(code, Flatten(list)) && Closed(list)
    requires k < |list| && list[k].I? && list[k].ins.Jump?
    ensures At(list, k) + 4 <= |code| && code[At(list, k)] == list[k].ins.op % 256
    ensures code[At(list, k) + 1..At(list, k) + 4] == LE(Target(list, list[k].ins.target), 3)
  {
    hide Flatten, Addr, Find, LE, Value, Target, Image, Closed, At;
    var cs, c := Flatten(list), |Flatten(list[..k])|;
    JumpCells(list, k);
    ClosedAt(list, k);
    SlotIsTarget(list, c + 1, list[k].ins.target);
    CellBytes(code, cs, c);
    CellBytes(code, cs, c + 1);
  }

  lemma SlotIsTarget(list: seq<Item>, c: nat, name: string)
    requires c < |Flatten(list)| && Flatten(list)[c] == Slot(name) && D(name) in list
    ensures Value(Flatten(list), c) == Target(list, name)
  {
    DefinedInList(list, name);
  }

  lemma AtZero(list: seq<Item>)
    ensures At(list, 0) == HEADER
  {
  }

  lemma AssembleSnoc(list: seq<Item>, part: seq<Item>, item: Item)
    ensures Assemble(list, part + [item]) == Assemble(list, part) + ItemBytes(list, item)
  {
    assert (part + [item])[..|part|] == part;
  }

  lemma Adjacent<T>(s: seq<T>, a: nat, b: nat, c: nat)
    requires a <= b <= c <= |s|
    ensures s[a..c] == s[a..b] + s[b..c]
  {
  }

  /** The backpatched image is the two-pass assembly of the listing. */
  lemma {:induction false} BackpatchedIsAssembled(code: seq<byte>, list: seq<Item>, n: nat)
    requires Image(code, Flatten(list)) && Closed(list) && n <= |list|
    ensures HEADER <= At(list, n) <= |code|
    ensures code[HEADER..At(list, n)] == Assemble(list, list[..n])
  {
    hide At, Flatten, ItemBytes, Image, Closed;
    AtZero(list);
    ImageFits(code, Flatten(list));
    if n > 0 {
      BackpatchedIsAssembled(code, list, n - 1);
      ItemAt(code, list, n - 1);
      assert list[..n] == list[..n - 1] + [list[n - 1]];
      AssembleSnoc(list, list[..n - 1], list[n - 1]);
      Adjacent(code, HEADER, At(list, n - 1), At(list, n));
    }
  }

  /** Decoding the image at an instruction's address gives that instruction. */
  lemma FetchAt(code: seq<byte>, list: seq<Item>, k: nat)
    requires Image(code, Flatten(list)) && Closed(list) && End(Flatten(list)) <= CODE_SIZE
    requires k < |list| && list[k].I? && (Encodable(list[k].ins) || list[k].ins.LongInt?)
    ensures Decode(code, At(list, k)) == Some((Resolve(list, Narrow(list[k].ins)), At(list, k + 1)))
  {
    hide Flatten, Image, Closed, Addr, Target, Encodable, Encode, Decode, Find;
    ItemAt(code, list, k);
    AtNext(list, k);
    if Encodable(list[k].ins) {
      EncodableResolved(list, list[k].ins);
    }
    DecodeEncode(code, At(list, k), Resolve(list, list[k].ins));
  }

  lemma EncodableResolved(list: seq<Item>, ins: Instr<string>)
    requires Encodable(ins) && End(Flatten(list)) <= CODE_SIZE
    ensures Encodable(Resolve(list, ins))
    ensures ins.Jump? ==> Resolve(list, ins).target < 0x100_0000
    ensures Resolve(list, ins).Jump? ==> ins.Jump?
  {
    if ins.Jump? {
      TargetBound(list, ins.target);
    }
  }

  lemma TargetBound(list: seq<Item>, name: string)
    ensures Target(list, name) <= End(Flatten(list))
  {
    var cs := Flatten(list);
    if Defined(cs, name) {
      AddrOrder(cs, Find(cs, |cs|, Def(name)), |cs|);
    }
  }

  /** A label's address is where its one definition stands in the listing. */
  lemma TargetOfDef(list: seq<Item>, k: nat)
    requires Distinct(list) && k < |list| && list[k].D?
    ensures Target(list, list[k].name) == At(list, k) == At(list, k + 1)
  {
    hide Flatten, Addr, Distinct;
    AtNext(list, k);
    CellOfItem(list, k, 0);
    SplitCells(list, k);
    NotDefinedLater(list, k);
    LastDef(Flatten(list[..k]), list[k].name, Flatten(list[k + 1..]));
  }

  lemma LastDef(a: seq<Cell>, name: string, b: seq<Cell>)
    requires Def(name) !in b
    ensures Find(a + [Def(name)] + b, |a + [Def(name)] + b|, Def(name)) == |a|
  {
    FindAbsent(a + [Def(name)], b, Def(name));
    assert Find(a + [Def(name)], |a| + 1, Def(name)) == |a|;
  }

  lemma NotDefinedLater(list: seq<Item>, k: nat)
    requires Distinct(list) && k < |list| && list[k].D?
    ensures D(list[k].name) !in list[k + 1..] && Def(list[k].name) !in Flatten(list[k + 1..])
  {
    var rest := list[k + 1..];
    forall j | 0 <= j < |rest| ensures rest[j] != list[k] {
      assert rest[j] == list[k + 1 + j];
    }
    DefinedInList(rest, list[k].name);
  }
}
