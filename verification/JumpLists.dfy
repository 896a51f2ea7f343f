/** The jump lists of ON GOTO and ON GOSUB: a count in one byte, or in two after a zero,
    and an address for each label. */
module JumpLists {
  import opened Outcomes
  import opened Bytes
  import opened Isa
  import opened Cells
  import opened CodeImages
  import opened Prelude

  const OP_ONGOTO: nat := 13
  const OP_ONGOSUB: nat := 14

  function CountBytes(n: nat): seq<byte> {
    if n <= 255 then [n] else [0] + LE(n, 2)
  }

  function Slots(names: seq<string>): (cs: seq<Cell>)
    ensures |cs| == |names|
  {
    seq(|names|, i requires 0 <= i < |names| => Slot(names[i]))
  }

  function HeadOf(op: nat, n: nat): seq<byte> {
    [op % 256] + CountBytes(n)
  }

  function ListCells(op: nat, names: seq<string>): seq<Cell> {
    Raw(HeadOf(op, |names|)) + Slots(names)
  }

  /** emit_simple() of the opcode and st_on()'s loop over the labels */
  method EmitJumpList(image: CodeImage, op: nat, names: seq<string>) returns (r: Outcome)
    requires image.Consistent() && op <= 255 && names != []
    modifies image`pc, image`labels, image`cells, image.code
    ensures r.Pass? <==> old(image.pc) + |HeadOf(op, |names|)| + 3 * |names| <= CODE_SIZE
    ensures r.Fail? ==> r.error == ImageFull
    ensures r.Pass? ==> image.Consistent() && image.cells == old(image.cells) + ListCells(op, names)
  {
    hide CodeImage.Consistent;
    ghost var cs := image.cells;
    r := EmitHead(image, op, |names|);
    if r.Fail? {
      return;
    }
    ghost var head := image.cells;
    var i := 0;
    assert head + Slots(names[..0]) == head;
    while i < |names|
      invariant 0 <= i <= |names| && image.Consistent() && image.cells == head + Slots(names[..i])
      invariant image.pc == old(image.pc) + |HeadOf(op, |names|)| + 3 * i <= CODE_SIZE
    {
      r := image.EmitJumpAddr(names[i]);
      if r.Fail? {
        return;
      }
      SlotsSnoc(head, names, i);
      i := i + 1;
    }
    assert names[..i] == names;
    Regrouped(cs, Raw(HeadOf(op, |names|)), Slots(names));
    return Pass;
  }

  /** The opcode and the count */
  method EmitHead(image: CodeImage, op: nat, n: nat) returns (r: Outcome)
    requires image.Consistent() && op <= 255
    modifies image`pc, image`cells, image.code
    ensures r.Pass? <==> old(image.pc) + |HeadOf(op, n)| <= CODE_SIZE
    ensures r.Fail? ==> r.error == ImageFull
    ensures r.Pass? ==> image.Consistent() && image.cells == old(image.cells) + Raw(HeadOf(op, n))
    ensures r.Pass? ==> image.pc == old(image.pc) + |HeadOf(op, n)|
  {
    hide CodeImage.Consistent, LE;
    ghost var cs := image.cells;
    r := image.Emit(op);
    if r.Fail? {
      return;
    }
    if n <= 255 {
      r := image.Emit(n);
      assert cs + [Byte(op % 256)] + [Byte(n % 256)] == cs + Raw(HeadOf(op, n));
      return;
    }
    r := image.Emit(0);
    if r.Fail? {
      return;
    }
    r := image.EmitMultibyteValue(n, 2);
    assert cs + [Byte(op % 256)] + [Byte(0)] + Raw(LE(n, 2)) == cs + Raw(HeadOf(op, n));
  }

  lemma SlotsSnoc(cs: seq<Cell>, names: seq<string>, i: nat)
    requires i < |names|
    ensures cs + Slots(names[..i]) + [Slot(names[i])] == cs + Slots(names[..i + 1])
  {
  }

  lemma Regrouped(cs: seq<Cell>, a: seq<Cell>, b: seq<Cell>)
    ensures cs + a + b == cs + (a + b)
  {
  }

  /** The interpreter's count, kept in 16 signed bits, and where the addresses begin */
  function ReadCount(code: seq<byte>, pc: nat): Option<(int, nat)> {
    if pc >= |code| then None
    else if code[pc] != 0 then Some((code[pc], pc + 1))
    else if pc + 3 > |code| then None
    else Some((Signed(UnLE(code[pc + 1..pc + 3]), 2), pc + 3))
  }

  /** Where the code goes on after the list: the return address of an ON GOSUB */
  function Past(code: seq<byte>, pc: nat): Option<int> {
    match ReadCount(code, pc)
    case None => None
    case Some(r) => Some(r.1 + 3 * r.0)
  }

  /** computed_jump(): the selector is moved into range, or, in the Pick style, a selector
      out of range goes past the list. */
  function ComputedJump(code: seq<byte>, pc: nat, n: int, pick: bool): Option<int> {
    match ReadCount(code, pc)
    case None => None
    case Some(r) =>
      if pick && !(1 <= n <= r.0) then Some(r.1 + 3 * r.0)
      else
        var i := if n < 1 then 1 else if n > r.0 then r.0 else n;
        var a := r.1 + 3 * (i - 1);
        if 0 <= a && a + 3 <= |code| then Some(UnLE(code[a..a + 3])) else None
  }

  /** The position in the list that a selector stands for */
  function Selected(n: int, count: nat): (i: nat)
    requires count > 0
    ensures i < count
  {
    if n < 1 then 0 else if n > count then count - 1 else n - 1
  }

  /** The count comes back exactly when it fits 15 bits. */
  lemma CountRead(code: seq<byte>, pc: nat, n: nat)
    requires n > 0 && pc + |CountBytes(n)| <= |code| && code[pc..pc + |CountBytes(n)|] == CountBytes(n)
    ensures var r := ReadCount(code, pc);
      r.Some? && r.value.1 == pc + |CountBytes(n)| && (r.value.0 == n <==> n < 0x8000)
  {
    var bs := CountBytes(n);
    assert code[pc] == code[pc..pc + |bs|][0] == bs[0];
    if n > 255 {
      SubSlice(code, pc, pc + |bs|, 1, 3);
      assert bs[1..3] == LE(n, 2);
      Widths();
      SignedRoundTrip(n, 2);
    }
  }

  lemma {:induction false} EndSlots(cs: seq<Cell>, names: seq<string>)
    ensures End(cs + Slots(names)) == End(cs) + 3 * |names|
  {
    if names == [] {
      assert cs + Slots(names) == cs;
    } else {
      var k := |names| - 1;
      EndSlots(cs, names[..k]);
      SlotsSnoc(cs, names, k);
      assert names[..k + 1] == names;
      EndSnoc(cs + Slots(names[..k]), Slot(names[k]));
    }
  }

  /** The i-th address of a list */
  lemma ListAddress(code: seq<byte>, cs: seq<Cell>, names: seq<string>, rest: seq<Cell>, i: nat)
    requires Image(code, cs + Slots(names) + rest) && |code| <= CODE_SIZE
    requires i < |names| && Defined(cs + Slots(names) + rest, names[i])
    ensures var a := End(cs) + 3 * i;
      a + 3 <= |code| && UnLE(code[a..a + 3]) == AddressOf(cs + Slots(names) + rest, names[i])
  {
    hide Image, Defined;
    var all, before := cs + Slots(names) + rest, cs + Slots(names[..i]);
    assert all == before + (Slots(names)[i..] + rest);
    EndSlots(cs, names[..i]);
    AddrPrefix(before, Slots(names)[i..] + rest, |before|);
    CellBytes(code, all, |before|);
    AddressFits(code, all, names[i]);
    Width(AddressOf(all, names[i]), 3);
  }

  lemma AddressFits(code: seq<byte>, cs: seq<Cell>, name: string)
    requires Image(code, cs) && Defined(cs, name) && |code| <= CODE_SIZE
    ensures AddressOf(cs, name) <= CODE_SIZE
  {
    AddrBound(cs, Find(cs, |cs|, Def(name)));
  }

  /** The count as it lies in the image */
  lemma ListCount(code: seq<byte>, cs: seq<Cell>, op: nat, names: seq<string>, rest: seq<Cell>)
    requires Image(code, cs + ListCells(op, names) + rest) && names != []
    ensures var r := ReadCount(code, End(cs) + 1);
      && r.Some? && r.value.1 == End(cs + Raw(HeadOf(op, |names|))) && (r.value.0 == |names| <==> |names| < 0x8000)
  {
    hide Image, LE;
    var head := HeadOf(op, |names|);
    assert cs + ListCells(op, names) + rest == cs + Raw(head) + (Slots(names) + rest);
    RawAt(code, cs, head, Slots(names) + rest);
    EndRaw(cs, head);
    SubSlice(code, End(cs), End(cs) + |head|, 1, |head|);
    assert head[1..] == CountBytes(|names|);
    CountRead(code, End(cs) + 1, |names|);
  }

  lemma ListParts(cs: seq<Cell>, op: nat, names: seq<string>, rest: seq<Cell>)
    ensures cs + ListCells(op, names) + rest == cs + Raw(HeadOf(op, |names|)) + Slots(names) + rest
    ensures cs + ListCells(op, names) == cs + Raw(HeadOf(op, |names|)) + Slots(names)
  {
  }

  /** A list is passed over, and a subroutine returns behind it, exactly when it has fewer
      than 32768 labels. */
  lemma PastExactly(code: seq<byte>, cs: seq<Cell>, op: nat, names: seq<string>, rest: seq<Cell>)
    requires Image(code, cs + ListCells(op, names) + rest) && names != []
    ensures Past(code, End(cs) + 1) == Some(End(cs + ListCells(op, names))) <==> |names| < 0x8000
  {
    hide Image, ListCells, HeadOf;
    ListCount(code, cs, op, names, rest);
    ListParts(cs, op, names, rest);
    EndSlots(cs + Raw(HeadOf(op, |names|)), names);
  }

  /** Every selector goes to the label it stands for. */
  lemma JumpsToSelected(code: seq<byte>, cs: seq<Cell>, op: nat, names: seq<string>, rest: seq<Cell>, n: int,
                        pick: bool)
    requires Image(code, cs + ListCells(op, names) + rest) && |code| <= CODE_SIZE && 0 < |names| < 0x8000
    requires Defined(cs + ListCells(op, names) + rest, names[Selected(n, |names|)])
    ensures ComputedJump(code, End(cs) + 1, n, pick)
         == Some(if pick && !(1 <= n <= |names|) then End(cs + ListCells(op, names))
                 else AddressOf(cs + ListCells(op, names) + rest, names[Selected(n, |names|)]))
  {
    hide Image, Defined, ListCells, HeadOf, AddressOf, ReadCount;
    ListCount(code, cs, op, names, rest);
    ListParts(cs, op, names, rest);
    EndSlots(cs + Raw(HeadOf(op, |names|)), names);
    ListAddress(code, cs + Raw(HeadOf(op, |names|)), names, rest, Selected(n, |names|));
  }
}
