/** What the bytes of code_image mean at any moment of a compile.

    A program under construction is a sequence of cells: bytes, three-byte jump
    address slots, and label definitions.  The bytes of the image are a function of
    that sequence.  A slot whose label is defined holds the label's address; a slot
    whose label is not yet defined holds the address of the previous slot of the
    same label, or zero: the chain that set_label() walks. */
module Cells {
  import opened Outcomes
  import opened Bytes
  import opened Isa

  const HEADER: nat := 165
  const CODE_SIZE: nat := 128000

  datatype Cell = Byte(b: byte) | Slot(name: string) | Def(name: string)

  function Size(c: Cell): nat {
    match c
    case Byte(_) => 1
    case Slot(_) => 3
    case Def(_) => 0
  }

  /** The address of cell k; of the end of the program when k == |cs|. */
  function Addr(cs: seq<Cell>, k: nat): (a: nat)
    requires k <= |cs|
    ensures HEADER <= a
  {
    if k == 0 then HEADER else Addr(cs, k - 1) + Size(cs[k - 1])
  }

  function End(cs: seq<Cell>): nat {
    Addr(cs, |cs|)
  }

  /** The last occurrence of c before position n, or -1. */
  function Find(cs: seq<Cell>, n: nat, c: Cell): (r: int)
    requires n <= |cs|
    ensures -1 <= r < n
    ensures r >= 0 ==> cs[r] == c
    ensures forall j :: r < j < n ==> cs[j] != c
  {
    if n == 0 then -1 else if cs[n - 1] == c then n - 1 else Find(cs, n - 1, c)
  }

  predicate Defined(cs: seq<Cell>, name: string) {
    Find(cs, |cs|, Def(name)) >= 0
  }

  function AddressOf(cs: seq<Cell>, name: string): nat
    requires Defined(cs, name)
  {
    Addr(cs, Find(cs, |cs|, Def(name)))
  }

  /** The chain link of a slot: where the previous slot of its label is. */
  function Link(cs: seq<Cell>, k: nat): nat
    requires k < |cs| && cs[k].Slot?
  {
    var p := Find(cs, k, cs[k]);
    if p < 0 then 0 else Addr(cs, p)
  }

  function SlotValue(cs: seq<Cell>, k: nat): nat
    requires k < |cs| && cs[k].Slot?
  {
    if Defined(cs, cs[k].name) then AddressOf(cs, cs[k].name) else Link(cs, k)
  }

  /** Cell k's bytes are in the image, with value v if it is a slot. */
  predicate Holds(code: seq<byte>, cs: seq<Cell>, k: nat, v: nat)
    requires k < |cs| && End(cs) <= |code|
  {
    var a := Addr(cs, k);
    AddrBound(cs, k);
    match cs[k]
    case Byte(b) => code[a] == b
    case Slot(_) => code[a..a + 3] == LE(v, 3)
    case Def(_) => true
  }

  function Value(cs: seq<Cell>, k: nat): nat
    requires k < |cs|
  {
    if cs[k].Slot? then SlotValue(cs, k) else 0
  }

  ghost predicate Image(code: seq<byte>, cs: seq<Cell>) {
    && End(cs) <= |code|
    && forall k :: 0 <= k < |cs| ==> Holds(code, cs, k, Value(cs, k))
  }

  /** What label_dict says about a label: its address once defined, minus the
      address of its latest slot before that, nothing if it never occurred. */
  function Entry(cs: seq<Cell>, name: string): Option<int> {
    var s := Find(cs, |cs|, Slot(name));
    if Defined(cs, name) then Some(AddressOf(cs, name))
    else if s >= 0 then var a: int := Addr(cs, s); Some(-a)
    else None
  }

  ghost predicate Table(labels: map<string, int>, cs: seq<Cell>) {
    forall l: string :: Entry(cs, l) == if l in labels then Some(labels[l]) else None
  }

  lemma AddrBound(cs: seq<Cell>, k: nat)
    requires k < |cs|
    ensures Addr(cs, k) + Size(cs[k]) == Addr(cs, k + 1) <= End(cs)
    decreases |cs| - k
  {
    if k + 1 < |cs| {
      AddrBound(cs, k + 1);
    }
  }

  lemma ImageFits(code: seq<byte>, cs: seq<Cell>)
    requires Image(code, cs)
    ensures HEADER <= End(cs) <= |code|
  {
  }

  /** What the image says about one cell. */
  lemma CellBytes(code: seq<byte>, cs: seq<Cell>, c: nat)
    requires Image(code, cs) && c < |cs|
    ensures Addr(cs, c) + Size(cs[c]) <= |code|
    ensures cs[c].Byte? ==> code[Addr(cs, c)] == cs[c].b
    ensures cs[c].Slot? ==> code[Addr(cs, c)..Addr(cs, c) + 3] == LE(Value(cs, c), 3)
  {
    AddrBound(cs, c);
    assert Holds(code, cs, c, Value(cs, c));
  }

  lemma {:induction false} AddrOrder(cs: seq<Cell>, j: nat, k: nat)
    requires j < k <= |cs|
    ensures Addr(cs, j) + Size(cs[j]) <= Addr(cs, k)
    decreases k - j
  {
    if j + 1 < k {
      AddrOrder(cs, j, k - 1);
    }
  }

  lemma {:induction false} AddrPrefix(cs: seq<Cell>, ds: seq<Cell>, k: nat)
    requires k <= |cs|
    ensures Addr(cs + ds, k) == Addr(cs, k)
  {
    if k > 0 {
      AddrPrefix(cs, ds, k - 1);
    }
  }

  lemma EndSnoc(cs: seq<Cell>, c: Cell)
    ensures End(cs + [c]) == End(cs) + Size(c)
  {
    AddrPrefix(cs, [c], |cs|);
  }

  lemma {:induction false} FindPrefix(cs: seq<Cell>, ds: seq<Cell>, n: nat, c: Cell)
    requires n <= |cs|
    ensures Find(cs + ds, n, c) == Find(cs, n, c)
  {
    if n > 0 {
      FindPrefix(cs, ds, n - 1, c);
    }
  }

  /** code with bs written at a. */
  function Splice(code: seq<byte>, a: nat, bs: seq<byte>): seq<byte>
    requires a + |bs| <= |code|
  {
    code[..a] + bs + code[a + |bs|..]
  }

  lemma SpliceSlice(code: seq<byte>, a: nat, bs: seq<byte>, lo: nat, hi: nat)
    requires a + |bs| <= |code| && lo <= hi <= |code|
    requires hi <= a || a + |bs| <= lo
    ensures Splice(code, a, bs)[lo..hi] == code[lo..hi]
  {
    forall i | lo <= i < hi ensures Splice(code, a, bs)[i] == code[i] {
    }
  }

  /** Writing elsewhere leaves a cell's bytes alone. */
  lemma HoldsSplice(code: seq<byte>, cs: seq<Cell>, k: nat, v: nat, a: nat, bs: seq<byte>)
    requires k < |cs| && End(cs) <= |code| && a + |bs| <= |code|
    requires Addr(cs, k) + Size(cs[k]) <= a || a + |bs| <= Addr(cs, k)
    requires Holds(code, cs, k, v)
    ensures Holds(Splice(code, a, bs), cs, k, v)
  {
    AddrBound(cs, k);
    SpliceSlice(code, a, bs, Addr(cs, k), Addr(cs, k) + Size(cs[k]));
    if cs[k].Byte? {
      var x := Addr(cs, k);
      assert Splice(code, a, bs)[x] == Splice(code, a, bs)[x..x + 1][0] == code[x..x + 1][0];
    }
  }

  lemma {:induction false} FindAbsent(cs: seq<Cell>, ds: seq<Cell>, c: Cell)
    requires c !in ds
    ensures Find(cs + ds, |cs + ds|, c) == Find(cs, |cs|, c)
    decreases |ds|
  {
    if ds == [] {
      assert cs + ds == cs;
    } else {
      var ds' := ds[..|ds| - 1];
      FindAbsent(cs, ds', c);
      assert cs + ds == (cs + ds') + [ds[|ds| - 1]];
      FindPrefix(cs + ds', [ds[|ds| - 1]], |cs + ds'|, c);
    }
  }

  /** A cell already placed keeps its value unless its label is being defined. */
  lemma ValueAppend(cs: seq<Cell>, ds: seq<Cell>, k: nat)
    requires k < |cs| && (cs[k].Slot? ==> Def(cs[k].name) !in ds)
    ensures Value(cs + ds, k) == Value(cs, k)
  {
    if cs[k].Slot? {
      var d := Def(cs[k].name);
      FindAbsent(cs, ds, d);
      FindPrefix(cs, ds, k, cs[k]);
      if Find(cs, |cs|, d) >= 0 {
        AddrPrefix(cs, ds, Find(cs, |cs|, d));
      }
      if Find(cs, k, cs[k]) >= 0 {
        AddrPrefix(cs, ds, Find(cs, k, cs[k]));
      }
    }
  }

  /** Only the label a cell names can change its entry. */
  lemma EntryAppend(cs: seq<Cell>, ds: seq<Cell>, l: string)
    requires Slot(l) !in ds && Def(l) !in ds
    ensures Entry(cs + ds, l) == Entry(cs, l)
  {
    FindAbsent(cs, ds, Def(l));
    FindAbsent(cs, ds, Slot(l));
    if Find(cs, |cs|, Def(l)) >= 0 {
      AddrPrefix(cs, ds, Find(cs, |cs|, Def(l)));
    }
    if Find(cs, |cs|, Slot(l)) >= 0 {
      AddrPrefix(cs, ds, Find(cs, |cs|, Slot(l)));
    }
  }

  lemma {:induction false} EndRaw(cs: seq<Cell>, bs: seq<byte>)
    ensures End(cs + Raw(bs)) == End(cs) + |bs|
  {
    if bs == [] {
      assert cs + Raw(bs) == cs;
    } else {
      var n := |bs| - 1;
      EndRaw(cs, bs[..n]);
      assert cs + Raw(bs) == (cs + Raw(bs[..n])) + [Byte(bs[n])];
      AddrPrefix(cs + Raw(bs[..n]), [Byte(bs[n])], |cs| + n);
    }
  }

  /** Old cells keep their bytes when new bytes are written at the end. */
  lemma ImageKept(code: seq<byte>, cs: seq<Cell>, bs: seq<byte>, ds: seq<Cell>, k: nat)
    requires Image(code, cs) && End(cs) + |bs| <= |code| && k < |cs|
    requires End(cs + ds) <= |code| && (cs[k].Slot? ==> Def(cs[k].name) !in ds)
    ensures Holds(Splice(code, End(cs), bs), cs + ds, k, Value(cs + ds, k))
  {
    AddrBound(cs, k);
    HoldsSplice(code, cs, k, Value(cs, k), End(cs), bs);
    ValueAppend(cs, ds, k);
    AddrPrefix(cs, ds, k);
    AddrBound(cs + ds, k);
  }

  /** Writing bytes at the end appends byte cells. */
  lemma ImageRaw(code: seq<byte>, cs: seq<Cell>, bs: seq<byte>)
    requires Image(code, cs) && End(cs) + |bs| <= |code|
    ensures Image(Splice(code, End(cs), bs), cs + Raw(bs))
  {
    var cs', code' := cs + Raw(bs), Splice(code, End(cs), bs);
    EndRaw(cs, bs);
    forall k | 0 <= k < |cs'| ensures Holds(code', cs', k, Value(cs', k)) {
      if k < |cs| {
        ImageKept(code, cs, bs, Raw(bs), k);
      } else {
        var i := k - |cs|;
        EndRaw(cs, bs[..i]);
        assert cs + Raw(bs) == (cs + Raw(bs[..i])) + Raw(bs[i..]);
        AddrPrefix(cs + Raw(bs[..i]), Raw(bs[i..]), k);
        assert code'[End(cs) + i] == bs[i];
      }
    }
  }

  lemma TableRaw(labels: map<string, int>, cs: seq<Cell>, bs: seq<byte>)
    requires Table(labels, cs)
    ensures Table(labels, cs + Raw(bs))
  {
    forall l: string ensures Entry(cs + Raw(bs), l) == Entry(cs, l) {
      EntryAppend(cs, Raw(bs), l);
    }
  }

  /** What a new slot must hold: the label's address, or its current chain head. */
  function NextLink(cs: seq<Cell>, name: string): nat {
    match Entry(cs, name)
    case None => 0
    case Some(a) => if a < 0 then -a else a
  }

  /** What label_dict tells set_label() and emit_jump_addr() about a label. */
  lemma TableEntry(labels: map<string, int>, cs: seq<Cell>, name: string)
    requires Table(labels, cs)
    ensures Defined(cs, name) <==> name in labels && labels[name] >= 0
    ensures var a := if name in labels then labels[name] else 0; NextLink(cs, name) == if a < 0 then -a else a
  {
    assert Entry(cs, name) == if name in labels then Some(labels[name]) else None;
  }

  lemma ImageSlot(code: seq<byte>, cs: seq<Cell>, name: string)
    requires Image(code, cs) && End(cs) + 3 <= |code|
    ensures Image(Splice(code, End(cs), LE(NextLink(cs, name), 3)), cs + [Slot(name)])
  {
    var bs := LE(NextLink(cs, name), 3);
    var cs', code' := cs + [Slot(name)], Splice(code, End(cs), bs);
    AddrPrefix(cs, [Slot(name)], |cs|);
    forall k | 0 <= k < |cs'| ensures Holds(code', cs', k, Value(cs', k)) {
      if k < |cs| {
        ImageKept(code, cs, bs, [Slot(name)], k);
      } else {
        NewSlotValue(cs, name);
        assert code'[End(cs)..End(cs) + 3] == bs;
      }
    }
  }

  lemma NewSlotValue(cs: seq<Cell>, name: string)
    ensures Value(cs + [Slot(name)], |cs|) == NextLink(cs, name)
  {
    var d := Find(cs, |cs|, Def(name));
    FindAbsent(cs, [Slot(name)], Def(name));
    FindPrefix(cs, [Slot(name)], |cs|, Slot(name));
    if d >= 0 {
      AddrPrefix(cs, [Slot(name)], d);
    } else if Find(cs, |cs|, Slot(name)) >= 0 {
      AddrPrefix(cs, [Slot(name)], Find(cs, |cs|, Slot(name)));
    }
  }

  lemma TableSlot(labels: map<string, int>, cs: seq<Cell>, name: string)
    requires Table(labels, cs)
    ensures var e: int := End(cs);
      Table(if Defined(cs, name) then labels else labels[name := -e], cs + [Slot(name)])
  {
    var cs' := cs + [Slot(name)];
    var e: int := End(cs);
    var labels' := if Defined(cs, name) then labels else labels[name := -e];
    forall l: string ensures Entry(cs', l) == if l in labels' then Some(labels'[l]) else None {
      if l != name {
        EntryAppend(cs, [Slot(name)], l);
        assert Entry(cs, l) == if l in labels then Some(labels[l]) else None;
      } else {
        FindAbsent(cs, [Slot(name)], Def(name));
        AddrPrefix(cs, [Slot(name)], |cs|);
        assert Entry(cs, name) == if name in labels then Some(labels[name]) else None;
        if Defined(cs, name) {
          AddrPrefix(cs, [Slot(name)], Find(cs, |cs|, Def(name)));
        }
      }
    }
  }

  lemma TableDef(labels: map<string, int>, cs: seq<Cell>, name: string)
    requires Table(labels, cs)
    ensures Table(labels[name := End(cs)], cs + [Def(name)])
  {
    var cs', labels' := cs + [Def(name)], labels[name := End(cs)];
    forall l: string ensures Entry(cs', l) == if l in labels' then Some(labels'[l]) else None {
      if l != name {
        EntryAppend(cs, [Def(name)], l);
        assert Entry(cs, l) == if l in labels then Some(labels[l]) else None;
      } else {
        AddrPrefix(cs, [Def(name)], |cs|);
      }
    }
  }

  /** The chain of a label after every slot beyond position p has been filled in. */
  ghost predicate Patched(code: seq<byte>, cs: seq<Cell>, name: string, p: int, v: nat) {
    && End(cs) <= |code|
    && forall k :: 0 <= k < |cs| ==>
         Holds(code, cs, k, if cs[k] == Slot(name) && k > p then v else Value(cs, k))
  }

  lemma PatchStart(code: seq<byte>, cs: seq<Cell>, name: string, v: nat)
    requires Image(code, cs) && !Defined(cs, name)
    ensures Patched(code, cs, name, Find(cs, |cs|, Slot(name)), v)
    ensures var p := Find(cs, |cs|, Slot(name)); NextLink(cs, name) == if p < 0 then 0 else Addr(cs, p)
  {
  }

  /** One step of the walk: the slot's old bytes give the next slot to fill in. */
  lemma PatchStep(code: seq<byte>, cs: seq<Cell>, name: string, p: nat, v: nat)
    requires p < |cs| && cs[p] == Slot(name) && !Defined(cs, name)
    requires Patched(code, cs, name, p, v) && |code| <= CODE_SIZE
    ensures Addr(cs, p) + 3 <= |code|
    ensures UnLE(code[Addr(cs, p)..Addr(cs, p) + 3])
         == var q := Find(cs, p, Slot(name)); if q < 0 then 0 else Addr(cs, q)
    ensures Patched(Splice(code, Addr(cs, p), LE(v, 3)), cs, name, Find(cs, p, Slot(name)), v)
  {
    var a := Addr(cs, p);
    AddrBound(cs, p);
    assert Holds(code, cs, p, Value(cs, p));
    if Find(cs, p, cs[p]) >= 0 {
      AddrOrder(cs, Find(cs, p, cs[p]), p);
    }
    Width(Link(cs, p), 3);
    var code' := Splice(code, a, LE(v, 3));
    var q := Find(cs, p, Slot(name));
    forall k | 0 <= k < |cs|
      ensures Holds(code', cs, k, if cs[k] == Slot(name) && k > q then v else Value(cs, k))
    {
      if k == p {
        assert code'[a..a + 3] == LE(v, 3);
      } else {
        var w := if cs[k] == Slot(name) && k > p then v else Value(cs, k);
        assert Holds(code, cs, k, w);
        if k < p { AddrOrder(cs, k, p); } else { AddrOrder(cs, p, k); }
        HoldsSplice(code, cs, k, w, a, LE(v, 3));
      }
    }
  }

  /** Byte i lies in a slot that refers to the label. */
  ghost predicate InSlot(cs: seq<Cell>, name: string, i: int) {
    exists k :: 0 <= k < |cs| && cs[k] == Slot(name) && Addr(cs, k) <= i < Addr(cs, k) + 3
  }

  /** Only bytes of the label's slots differ. */
  ghost predicate SameElsewhere(before: seq<byte>, after: seq<byte>, cs: seq<Cell>, name: string) {
    |before| == |after| && forall i :: 0 <= i < |after| && !InSlot(cs, name, i) ==> after[i] == before[i]
  }

  lemma SameSplice(before: seq<byte>, code: seq<byte>, cs: seq<Cell>, name: string, p: nat, bs: seq<byte>)
    requires SameElsewhere(before, code, cs, name) && p < |cs| && cs[p] == Slot(name) && |bs| == 3
    requires Addr(cs, p) + 3 <= |code|
    ensures SameElsewhere(before, Splice(code, Addr(cs, p), bs), cs, name)
  {
    hide Addr;
    var a, after := Addr(cs, p), Splice(code, Addr(cs, p), bs);
    forall i | 0 <= i < |after| && !InSlot(cs, name, i) ensures after[i] == before[i] {
      assert !(a <= i < a + 3);
    }
  }

  /** Slots lie between the header and the end of the code. */
  lemma SlotsInside(cs: seq<Cell>, name: string, i: int)
    ensures InSlot(cs, name, i) ==> HEADER <= i < End(cs)
  {
    if InSlot(cs, name, i) {
      var k :| 0 <= k < |cs| && cs[k] == Slot(name) && Addr(cs, k) <= i < Addr(cs, k) + 3;
      AddrBound(cs, k);
    }
  }

  /** When the whole chain is filled in, the label may be recorded as defined here. */
  lemma ImageDef(code: seq<byte>, cs: seq<Cell>, name: string)
    requires !Defined(cs, name) && Patched(code, cs, name, -1, End(cs))
    ensures Image(code, cs + [Def(name)])
  {
    var cs' := cs + [Def(name)];
    EndSnoc(cs, Def(name));
    forall k | 0 <= k < |cs'| ensures Holds(code, cs', k, Value(cs', k)) {
      if k < |cs| {
        assert Holds(code, cs, k, if cs[k] == Slot(name) && k > -1 then End(cs) else Value(cs, k));
        ImageDefCell(code, cs, name, k);
      }
    }
  }

  lemma ImageDefCell(code: seq<byte>, cs: seq<Cell>, name: string, k: nat)
    requires End(cs) <= |code| && End(cs + [Def(name)]) <= |code| && k < |cs|
    requires Holds(code, cs, k, if cs[k] == Slot(name) then End(cs) else Value(cs, k))
    ensures Holds(code, cs + [Def(name)], k, Value(cs + [Def(name)], k))
  {
    var cs' := cs + [Def(name)];
    AddrPrefix(cs, [Def(name)], k);
    AddrPrefix(cs, [Def(name)], |cs|);
    AddrBound(cs, k);
    AddrBound(cs', k);
    if cs[k] == Slot(name) {
      assert Find(cs', |cs'|, Def(name)) == |cs|;
    } else {
      ValueAppend(cs, [Def(name)], k);
    }
  }

  /** Replacing one byte by another moves nothing and changes no other cell. */
  lemma {:induction false} ReplaceAddr(cs: seq<Cell>, c: nat, b: byte, k: nat)
    requires c < |cs| && cs[c].Byte? && k <= |cs|
    ensures Addr(cs[c := Byte(b)], k) == Addr(cs, k)
  {
    if k > 0 {
      ReplaceAddr(cs, c, b, k - 1);
    }
  }

  lemma {:induction false} ReplaceFind(cs: seq<Cell>, c: nat, b: byte, n: nat, x: Cell)
    requires c < |cs| && cs[c].Byte? && n <= |cs| && !x.Byte?
    ensures Find(cs[c := Byte(b)], n, x) == Find(cs, n, x)
  {
    if n > 0 {
      ReplaceFind(cs, c, b, n - 1, x);
    }
  }

  lemma ReplaceImage(code: seq<byte>, cs: seq<Cell>, c: nat, b: byte)
    requires c < |cs| && cs[c].Byte? && Image(code, cs) && Addr(cs, c) < |code|
    ensures Image(Splice(code, Addr(cs, c), [b]), cs[c := Byte(b)])
  {
    var cs', code' := cs[c := Byte(b)], Splice(code, Addr(cs, c), [b]);
    ReplaceAddr(cs, c, b, |cs|);
    forall k | 0 <= k < |cs'| ensures Holds(code', cs', k, Value(cs', k)) {
      ReplaceAddr(cs, c, b, k);
      if k != c {
        assert Holds(code, cs, k, Value(cs, k));
        if k < c { AddrOrder(cs, k, c); } else { AddrOrder(cs, c, k); }
        HoldsSplice(code, cs, k, Value(cs, k), Addr(cs, c), [b]);
        ReplaceValue(cs, c, b, k);
      }
    }
  }

  lemma ReplaceValue(cs: seq<Cell>, c: nat, b: byte, k: nat)
    requires c < |cs| && cs[c].Byte? && k < |cs|
    ensures Value(cs[c := Byte(b)], k) == Value(cs, k)
  {
    if cs[k].Slot? {
      var d := Def(cs[k].name);
      ReplaceFind(cs, c, b, |cs|, d);
      ReplaceFind(cs, c, b, k, cs[k]);
      if Find(cs, |cs|, d) >= 0 {
        ReplaceAddr(cs, c, b, Find(cs, |cs|, d));
      }
      if Find(cs, k, cs[k]) >= 0 {
        ReplaceAddr(cs, c, b, Find(cs, k, cs[k]));
      }
    }
  }

  lemma ReplaceTable(labels: map<string, int>, cs: seq<Cell>, c: nat, b: byte)
    requires c < |cs| && cs[c].Byte? && Table(labels, cs)
    ensures Table(labels, cs[c := Byte(b)])
  {
    var cs' := cs[c := Byte(b)];
    forall l: string ensures Entry(cs', l) == if l in labels then Some(labels[l]) else None {
      assert Entry(cs, l) == if l in labels then Some(labels[l]) else None;
      ReplaceFind(cs, c, b, |cs|, Def(l));
      ReplaceFind(cs, c, b, |cs|, Slot(l));
      if Find(cs, |cs|, Def(l)) >= 0 {
        ReplaceAddr(cs, c, b, Find(cs, |cs|, Def(l)));
      }
      if Find(cs, |cs|, Slot(l)) >= 0 {
        ReplaceAddr(cs, c, b, Find(cs, |cs|, Slot(l)));
      }
    }
  }

  /** The cells of an instruction. */
  function Raw(bs: seq<byte>): (cs: seq<Cell>)
    ensures |cs| == |bs| && forall i :: 0 <= i < |bs| ==> cs[i] == Byte(bs[i])
  {
    seq(|bs|, i requires 0 <= i < |bs| => Byte(bs[i]))
  }

  function CellsOf(ins: Instr<string>): seq<Cell> {
    if ins.Jump? then [Byte(ins.op % 256), Slot(ins.target)] else Raw(Plain(ins))
  }

  /** What holds of a whole image holds of its beginning, if nothing after it defines a
      label that the beginning waits for. */
  lemma ImageStart(code: seq<byte>, cs: seq<Cell>, ds: seq<Cell>)
    requires Image(code, cs + ds) && forall k :: 0 <= k < |cs| && cs[k].Slot? ==> Def(cs[k].name) !in ds
    ensures Image(code, cs)
  {
    AddrPrefix(cs, ds, |cs|);
    EndOrder(cs, ds);
    forall k | 0 <= k < |cs| ensures Holds(code, cs, k, Value(cs, k)) {
      ValueAppend(cs, ds, k);
      AddrPrefix(cs, ds, k);
      assert Holds(code, cs + ds, k, Value(cs + ds, k));
    }
  }

  lemma EndOrder(cs: seq<Cell>, ds: seq<Cell>)
    ensures End(cs) <= End(cs + ds)
  {
    AddrPrefix(cs, ds, |cs|);
    if ds != [] {
      AddrOrder(cs + ds, |cs|, |cs + ds|);
    }
  }
}
