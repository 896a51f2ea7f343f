/** The code that binds COMMON blocks: it comes after the program, is entered first, and
    jumps to the program. */
module Prelude {
  import opened Outcomes
  import opened Bytes
  import opened Isa
  import opened Cells
  import opened Listing
  import opened CodeImages
  import opened Names
  import opened Storages
  import opened CommonBlocks
  import opened Machines

  /** OP_COMMON, the block's number, size and name */
  function HeadBytes(b: string, block: CommonBlock): seq<byte> {
    [OP_COMMON] + LE(block.varNo, 2) + LE(block.size, 2) + [|b| % 256] + TextBytes(b)
  }

  /** The code of the i-th block: its members are scalars, so nothing is to be skipped. */
  function BlockCells(i: nat, b: string, block: CommonBlock): seq<Cell> {
    if IsPool(b) then [] else Raw(HeadBytes(b, block)) + [Slot(ComLabel(i + 1))] + [Def(ComLabel(i + 1))]
  }

  function BlocksCells(st: Storage, k: nat): seq<Cell>
    requires k <= |st.order| && forall b :: b in st.order ==> b in st.blocks
  {
    if k == 0 then [] else BlocksCells(st, k - 1) + BlockCells(k - 1, st.order[k - 1], st.blocks[st.order[k - 1]])
  }

  /** The blocks, and the jump to the program; nothing where there are no blocks. */
  function PreludeCells(st: Storage): seq<Cell>
    requires forall b :: b in st.order ==> b in st.blocks
  {
    if st.order == [] then [] else BlocksCells(st, |st.order|) + Raw([OP_JMP] + LE(HEADER, 3))
  }

  /** Names that the emitter can write; the interpreter takes 32 bytes at most. */
  predicate Writable(st: Storage) {
    forall i :: 0 <= i < |st.order| ==> IsPool(st.order[i]) || (|st.order[i]| < 256 && IsByteText(st.order[i]))
  }

  predicate Bindable(st: Storage) {
    forall i :: 0 <= i < |st.order| ==> IsPool(st.order[i]) || |st.order[i]| <= 32
  }

  ghost predicate NoComLabels(cs: seq<Cell>, from: nat) {
    forall i: nat :: i > from ==> Def(ComLabel(i)) !in cs
  }

  lemma BlockNoCom(i: nat, b: string, block: CommonBlock, cs: seq<Cell>)
    requires NoComLabels(cs, i)
    ensures NoComLabels(cs + BlockCells(i, b, block), i + 1)
  {
    forall j: nat | j > i + 1 ensures Def(ComLabel(j)) !in cs + BlockCells(i, b, block) {
      if ComLabel(j) == ComLabel(i + 1) {
        ComLabelInjective(j, i + 1);
      }
    }
  }

  /** One block of comp_finish()'s prelude */
  method BindBlock(image: CodeImage, i: nat, b: string, block: CommonBlock) returns (r: Outcome)
    requires image.Consistent() && NoComLabels(image.cells, i)
    modifies image`pc, image`labels, image`cells, image.code
    ensures r.Fail? ==>
              || !(IsPool(b) || (|b| < 256 && IsByteText(b)))
              || End(old(image.cells) + BlockCells(i, b, block)) > CODE_SIZE
    ensures r.Pass? ==> image.Consistent() && image.cells == old(image.cells) + BlockCells(i, b, block)
    ensures r.Pass? ==> IsPool(b) || (|b| < 256 && IsByteText(b))
  {
    hide CodeImage.Consistent, LE, NoComLabels, Defined, ComLabel, HeadBytes;
    ghost var cs := image.cells;
    ConsistentEnd(image);
    if IsPool(b) {
      assert cs + [] == cs;
      return Pass;
    }
    BlockEnd(cs, i, b, block);
    BlockCellsAre(cs, i, b, block);
    hide BlockCells;
    NewComLabel(cs, HeadBytes(b, block), i);
    :- image.Emit(OP_COMMON);
    :- image.EmitMultibyteValue(block.varNo, 2);
    :- image.EmitMultibyteValue(block.size, 2);
    :- image.Emit(|b|);
    :- image.StoreText(b);
    HeadCells(cs, b, block);
    assert image.cells == cs + Raw(HeadBytes(b, block));
    :- image.EmitJumpAddr(ComLabel(i + 1));
    r := image.Define(ComLabel(i + 1));
  }

  lemma BlockCellsAre(cs: seq<Cell>, i: nat, b: string, block: CommonBlock)
    requires !IsPool(b)
    ensures cs + BlockCells(i, b, block)
         == cs + Raw(HeadBytes(b, block)) + [Slot(ComLabel(i + 1))] + [Def(ComLabel(i + 1))]
  {
    hide ComLabel, HeadBytes;
  }

  lemma BlockEnd(cs: seq<Cell>, i: nat, b: string, block: CommonBlock)
    requires !IsPool(b)
    ensures End(cs + BlockCells(i, b, block)) == End(cs) + 9 + |b|
  {
    var com, bs := ComLabel(i + 1), HeadBytes(b, block);
    assert cs + BlockCells(i, b, block) == cs + Raw(bs) + [Slot(com)] + [Def(com)];
    EndRaw(cs, bs);
    EndSnoc(cs + Raw(bs), Slot(com));
    EndSnoc(cs + Raw(bs) + [Slot(com)], Def(com));
  }

  lemma {:induction false} BlocksEnd(cs: seq<Cell>, st: Storage, k: nat)
    requires AllThere(st) && k <= |st.order|
    ensures End(cs + BlocksCells(st, k)) <= End(cs + BlocksCells(st, |st.order|))
    decreases |st.order| - k
  {
    hide BlockCells, BlocksCells, Addr;
    if k < |st.order| {
      OneBlockMore(cs, st, k);
      EndOrder(cs + BlocksCells(st, k), BlockCells(k, st.order[k], st.blocks[st.order[k]]));
      BlocksEnd(cs, st, k + 1);
    }
  }

  /** The jump comes after all blocks. */
  lemma PreludeEnd(cs: seq<Cell>, st: Storage)
    requires AllThere(st) && st.order != []
    ensures End(cs + PreludeCells(st)) == End(cs + BlocksCells(st, |st.order|)) + 4
  {
    hide BlocksCells;
    var jump := [OP_JMP] + LE(HEADER, 3);
    assert cs + PreludeCells(st) == cs + BlocksCells(st, |st.order|) + Raw(jump);
    EndRaw(cs + BlocksCells(st, |st.order|), jump);
  }

  lemma HeadCells(cs: seq<Cell>, b: string, block: CommonBlock)
    requires |b| < 256
    ensures cs + [Byte(OP_COMMON % 256)] + Raw(LE(block.varNo, 2)) + Raw(LE(block.size, 2)) + [Byte(|b| % 256)]
            + Raw(TextBytes(b))
         == cs + Raw(HeadBytes(b, block))
  {
  }

  lemma NewComLabel(cs: seq<Cell>, bs: seq<byte>, i: nat)
    requires NoComLabels(cs, i)
    ensures !Defined(cs + Raw(bs) + [Slot(ComLabel(i + 1))], ComLabel(i + 1))
  {
    FindAbsent(cs, Raw(bs) + [Slot(ComLabel(i + 1))], Def(ComLabel(i + 1)));
    assert cs + (Raw(bs) + [Slot(ComLabel(i + 1))]) == cs + Raw(bs) + [Slot(ComLabel(i + 1))];
  }

  /** The blocks have their entries. */
  ghost predicate AllThere(st: Storage) {
    forall b :: b in st.order ==> b in st.blocks
  }

  /** comp_finish(), after its checks; start is where the header will send the
      interpreter. */
  method EmitPrelude(image: CodeImage, st: Storage) returns (r: Outcome, start: nat)
    requires image.Consistent() && NoComLabels(image.cells, 0) && AllThere(st)
    modifies image`pc, image`labels, image`cells, image.code
    ensures r.Fail? ==> !Writable(st) || End(old(image.cells) + PreludeCells(st)) > CODE_SIZE
    ensures r.Pass? ==> image.Consistent() && image.cells == old(image.cells) + PreludeCells(st) && Writable(st)
    ensures r.Pass? ==> start == if st.order == [] then HEADER else old(image.pc)
  {
    hide CodeImage.Consistent, BlockCells, NoComLabels, LE;
    ghost var cs := image.cells;
    start := HEADER;
    if st.order == [] {
      assert cs + [] == cs;
      return Pass, start;
    }
    start := image.pc;
    PreludeEnd(cs, st);
    var i := 0;
    assert cs + [] == cs;
    while i < |st.order|
      invariant 0 <= i <= |st.order| && image.Consistent() && image.cells == cs + BlocksCells(st, i)
      invariant NoComLabels(image.cells, i)
      invariant forall j :: 0 <= j < i ==> IsPool(st.order[j]) || (|st.order[j]| < 256 && IsByteText(st.order[j]))
    {
      var b := st.order[i];
      BlockNoCom(i, b, st.blocks[b], image.cells);
      OneBlockMore(cs, st, i);
      BlocksEnd(cs, st, i + 1);
      r := BindBlock(image, i, b, st.blocks[b]);
      if r.Fail? {
        return r, start;
      }
      i := i + 1;
    }
    PreludeParts(cs, st);
    r := EmitJumpBack(image);
  }

  /** The jump to the program, behind the blocks */
  method EmitJumpBack(image: CodeImage) returns (r: Outcome)
    requires image.Consistent()
    modifies image`pc, image`labels, image`cells, image.code
    ensures r.Fail? ==> End(old(image.cells)) + 4 > CODE_SIZE
    ensures r.Pass? ==> image.Consistent() && image.cells == old(image.cells) + Raw([OP_JMP] + LE(HEADER, 3))
  {
    hide CodeImage.Consistent, LE;
    ConsistentEnd(image);
    JumpCellsAre(image.cells);
    r := image.Emit(OP_JMP);
    if r.Pass? {
      r := image.EmitMultibyteValue(HEADER, 3);
    }
  }

  lemma ConsistentEnd(image: CodeImage)
    requires image.Consistent()
    ensures image.pc == End(image.cells)
  {
  }

  lemma JumpCellsAre(cs: seq<Cell>)
    ensures cs + [Byte(OP_JMP % 256)] + Raw(LE(HEADER, 3)) == cs + Raw([OP_JMP] + LE(HEADER, 3))
  {
  }

  /** Bytes are where they were written. */
  lemma RawAt(code: seq<byte>, cs: seq<Cell>, bs: seq<byte>, rest: seq<Cell>)
    requires Image(code, cs + Raw(bs) + rest)
    ensures End(cs) + |bs| <= |code| && code[End(cs)..End(cs) + |bs|] == bs
  {
    ImageFits(code, cs + Raw(bs) + rest);
    EndOrder(cs + Raw(bs), rest);
    EndRaw(cs, bs);
    hide Image, Addr;
    forall i | 0 <= i < |bs| ensures code[End(cs) + i] == bs[i] {
      ByteAt(code, cs, bs, rest, i);
    }
  }

  lemma ByteAt(code: seq<byte>, cs: seq<Cell>, bs: seq<byte>, rest: seq<Cell>, i: nat)
    requires Image(code, cs + Raw(bs) + rest) && i < |bs|
    ensures End(cs) + i < |code| && code[End(cs) + i] == bs[i]
  {
    hide Image;
    var all, first, last := cs + Raw(bs) + rest, cs + Raw(bs[..i]), Raw(bs[i..]) + rest;
    assert all == first + last;
    EndRaw(cs, bs[..i]);
    AddrPrefix(first, last, |first|);
    CellBytes(code, all, |first|);
  }

  /** A block's code has one label, which its own slot refers to. */
  lemma BlockNames(i: nat, b: string, block: CommonBlock, name: string)
    ensures Def(name) in BlockCells(i, b, block) ==> name == ComLabel(i + 1)
    ensures Slot(name) in BlockCells(i, b, block) ==> Def(name) in BlockCells(i, b, block)
  {
    hide ComLabel, HeadBytes;
  }

  /** No slot waits for the label of a later block. */
  ghost predicate NoComSlots(cs: seq<Cell>, from: nat) {
    forall i: nat :: i > from ==> Slot(ComLabel(i)) !in cs
  }

  lemma {:induction false} BlocksNoSlots(cs: seq<Cell>, st: Storage, k: nat)
    requires NoComSlots(cs, 0) && k <= |st.order| && AllThere(st)
    ensures NoComSlots(cs + BlocksCells(st, k), k)
  {
    hide BlockCells, ComLabel;
    if k == 0 {
      assert cs + BlocksCells(st, 0) == cs;
    } else {
      BlocksNoSlots(cs, st, k - 1);
      forall j: nat | j > k ensures Slot(ComLabel(j)) !in cs + BlocksCells(st, k) {
        BlockSlot(k - 1, st.order[k - 1], st.blocks[st.order[k - 1]], j);
      }
    }
  }

  lemma BlockSlot(i: nat, b: string, block: CommonBlock, j: nat)
    requires j > i + 1
    ensures Slot(ComLabel(j)) !in BlockCells(i, b, block)
  {
    if ComLabel(j) == ComLabel(i + 1) {
      ComLabelInjective(j, i + 1);
    }
  }

  /** The image up to the k-th block */
  lemma {:induction false} BlocksImage(code: seq<byte>, cs: seq<Cell>, st: Storage, k: nat)
    requires NoComSlots(cs, 0) && k <= |st.order| && AllThere(st) && Image(code, cs + BlocksCells(st, |st.order|))
    ensures Image(code, cs + BlocksCells(st, k))
    decreases |st.order| - k
  {
    hide Image, NoComSlots, BlocksCells, BlockCells;
    if k < |st.order| {
      BlocksImage(code, cs, st, k + 1);
      BlocksNoSlots(cs, st, k);
      var done, more := cs + BlocksCells(st, k), BlockCells(k, st.order[k], st.blocks[st.order[k]]);
      OneBlockMore(cs, st, k);
      OneDef(done, k, st.order[k], st.blocks[st.order[k]]);
      ImageStart(code, done, more);
    }
  }

  lemma OneBlockMore(cs: seq<Cell>, st: Storage, k: nat)
    requires k < |st.order| && AllThere(st)
    ensures cs + BlocksCells(st, k + 1) == cs + BlocksCells(st, k) + BlockCells(k, st.order[k], st.blocks[st.order[k]])
  {
    hide BlockCells;
    assert BlocksCells(st, k + 1) == BlocksCells(st, k) + BlockCells(k, st.order[k], st.blocks[st.order[k]]);
  }

  lemma OneDef(cs: seq<Cell>, k: nat, b: string, block: CommonBlock)
    requires NoComSlots(cs, k)
    ensures forall j :: 0 <= j < |cs| && cs[j].Slot? ==> Def(cs[j].name) !in BlockCells(k, b, block)
  {
    forall j | 0 <= j < |cs| && cs[j].Slot? ensures Def(cs[j].name) !in BlockCells(k, b, block) {
      assert cs[j] in cs && cs[j] == Slot(cs[j].name);
    }
  }

  function AreaOf(rt: Runtime, b: string): seq<byte> {
    AreaName(rt, TextBytes(b))
  }

  /** The cells of the blocks 0 to k - 1, bound in that order */
  function BoundBlocks(rt: Runtime, st: Storage, k: nat, store: map<Loc, Value>): map<Loc, Value>
    requires k <= |st.order| && forall b :: b in st.order ==> b in st.blocks
  {
    if k == 0 then store
    else
      var b, before := st.order[k - 1], BoundBlocks(rt, st, k - 1, store);
      if IsPool(b) then before else Bound(rt, AreaOf(rt, b), st.blocks[b].varNo, st.blocks[b].size, before)
  }

  /** No area that exists is too small. */
  ghost predicate AreasFit(rt: Runtime, st: Storage) {
    forall b :: b in st.blocks && !IsPool(b) ==>
      var rows := rt.area(AreaOf(rt, b)); rows.Some? ==> rows.value >= st.blocks[b].size
  }

  /** Numbers and sizes fit 16 signed bits. */
  ghost predicate Measured(st: Storage) {
    forall b :: b in st.blocks ==> st.blocks[b].varNo < 0x8000 && st.blocks[b].size < 0x8000
  }

  /** The bytes of one block's code */
  lemma BlockBytes(code: seq<byte>, cs: seq<Cell>, k: nat, b: string, block: CommonBlock)
    requires !IsPool(b) && Image(code, cs + BlockCells(k, b, block)) && |code| <= CODE_SIZE
    ensures var a, n := End(cs), |HeadBytes(b, block)|;
      && a + n + 3 == End(cs + BlockCells(k, b, block)) <= |code|
      && code[a..a + n] == HeadBytes(b, block) && UnLE(code[a + n..a + n + 3]) == a + n + 3
  {
    hide Image;
    var com, bs := ComLabel(k + 1), HeadBytes(b, block);
    var head := cs + Raw(bs);
    var slot := head + [Slot(com)];
    var all := slot + [Def(com)];
    assert all == cs + BlockCells(k, b, block);
    EndRaw(cs, bs);
    EndSnoc(head, Slot(com));
    EndSnoc(slot, Def(com));
    ImageFits(code, all);
    var last := [Slot(com)] + [Def(com)];
    assert all == head + last;
    RawAt(code, cs, bs, last);
    CellBytes(code, all, |head|);
    AddrPrefix(head, last, |head|);
    AddrPrefix(slot, [Def(com)], |slot|);
    assert Find(all, |all|, Def(com)) == |slot|;
    Isa.Width(End(slot), 3);
  }

  /** One OP_COMMON: the block is bound, and the interpreter goes on just past it. */
  lemma BindRun(rt: Runtime, code: seq<byte>, cs: seq<Cell>, k: nat, b: string, block: CommonBlock, m: Machine)
    requires !IsPool(b) && Image(code, cs + BlockCells(k, b, block))
    requires |code| <= CODE_SIZE && |b| <= 32 && m.Running? && m.pc == End(cs)
    requires block.varNo < 0x8000 && block.size < 0x8000
    requires var rows := rt.area(AreaOf(rt, b)); rows.Some? ==> rows.value >= block.size
    ensures Step(rt, code, m)
         == m.(pc := End(cs + BlockCells(k, b, block)),
               store := Bound(rt, AreaOf(rt, b), block.varNo, block.size, m.store))
  {
    BindLocal(rt, code, cs, k, b, block, m);
    hide BindStep, Step;
    BindNow(rt, code, AreaOf(rt, b), block, m, TextBytes(b));
  }

  /** What the interpreter finds at a block's code */
  lemma BindLocal(rt: Runtime, code: seq<byte>, cs: seq<Cell>, k: nat, b: string, block: CommonBlock, m: Machine)
    requires !IsPool(b) && Image(code, cs + BlockCells(k, b, block))
    requires |code| <= CODE_SIZE && |b| <= 32 && m.Running? && m.pc == End(cs)
    requires block.varNo < 0x1_0000 && block.size < 0x1_0000
    ensures Step(rt, code, m) == BindStep(rt, code, m)
    ensures Found(code, m.pc, TextBytes(b), block) && m.pc + 9 + |b| == End(cs + BlockCells(k, b, block))
  {
    hide Image, BlockCells, Step, BindStep, HeadBytes, End, UnLE, Decode;
    BlockBytes(code, cs, k, b, block);
    HeadParts(b, block);
    FoundBytes(code, m.pc, HeadBytes(b, block), b, block);
    NoDecode(code, m.pc);
    NoDecodeBinds(rt, code, m);
  }

  lemma NoDecodeBinds(rt: Runtime, code: seq<byte>, m: Machine)
    requires m.Running? && m.pc < |code| && code[m.pc] == OP_COMMON && Decode(code, m.pc) == None
    ensures Step(rt, code, m) == BindStep(rt, code, m)
  {
    hide BindStep, Decode;
  }

  /** The number, the size, the name and the skip address at pc */
  predicate Found(code: seq<byte>, pc: nat, name: seq<byte>, block: CommonBlock) {
    && pc + 9 + |name| <= |code| && code[pc] == OP_COMMON
    && UnLE(code[pc + 1..pc + 3]) == block.varNo && UnLE(code[pc + 3..pc + 5]) == block.size
    && code[pc + 5] == |name| && code[pc + 6..pc + 6 + |name|] == name
    && UnLE(code[pc + 6 + |name|..pc + 9 + |name|]) == pc + 9 + |name|
  }

  lemma FoundBytes(code: seq<byte>, a: nat, hs: seq<byte>, b: string, block: CommonBlock)
    requires |hs| == 6 + |b| && hs[0] == OP_COMMON && hs[5] == |b| && hs[6..] == TextBytes(b)
    requires UnLE(hs[1..3]) == block.varNo && UnLE(hs[3..5]) == block.size
    requires a + |hs| + 3 <= |code| && code[a..a + |hs|] == hs
    requires UnLE(code[a + |hs|..a + |hs| + 3]) == a + |hs| + 3
    ensures Found(code, a, TextBytes(b), block)
  {
    hide UnLE;
    SubSlice(code, a, a + |hs|, 1, 3);
    SubSlice(code, a, a + |hs|, 3, 5);
    SubSlice(code, a, a + |hs|, 6, |hs|);
    assert code[a] == code[a..a + |hs|][0] && code[a + 5] == code[a..a + |hs|][5];
  }

  lemma NoDecode(code: seq<byte>, a: nat)
    requires a < |code| && code[a] == OP_COMMON
    ensures Decode(code, a) == None
  {
    hide UnLE, Signed;
  }

  lemma BindNow(rt: Runtime, code: seq<byte>, area: seq<byte>, block: CommonBlock, m: Machine, name: seq<byte>)
    requires m.Running? && |name| <= 32 && Found(code, m.pc, name, block) && area == AreaName(rt, name)
    requires block.varNo < 0x8000 && block.size < 0x8000
    requires rt.area(area).Some? ==> rt.area(area).value >= block.size
    ensures BindStep(rt, code, m)
         == m.(pc := m.pc + 9 + |name|, store := Bound(rt, area, block.varNo, block.size, m.store))
  {
    hide UnLE, Bound, AreaName;
    Widths();
    var len: nat := code[m.pc + 5] % 64;
    assert len == |name|;
  }

  /** A block without an area is bound exactly when its number and its size fit 16 signed
      bits.  If there is an area, one of 32768 members or more is taken for a small one. */
  lemma BindExactly(rt: Runtime, code: seq<byte>, cs: seq<Cell>, k: nat, b: string, block: CommonBlock, m: Machine)
    requires !IsPool(b) && Image(code, cs + BlockCells(k, b, block))
    requires |code| <= CODE_SIZE && |b| <= 32 && m.Running? && m.pc == End(cs)
    requires block.varNo < 0x1_0000 && block.size < 0x1_0000
    ensures match rt.area(AreaOf(rt, b))
      case None => Step(rt, code, m).Running? <==> block.varNo < 0x8000 && block.size < 0x8000
      case Some(rows) =>
        Step(rt, code, m).Running? <==> block.varNo < 0x8000 && (block.size >= 0x8000 || rows >= block.size)
  {
    BindLocal(rt, code, cs, k, b, block, m);
    hide Image, BlockCells, Step, End;
    BindTested(rt, code, AreaOf(rt, b), block, m, TextBytes(b));
  }

  lemma BindTested(rt: Runtime, code: seq<byte>, area: seq<byte>, block: CommonBlock, m: Machine, name: seq<byte>)
    requires m.Running? && |name| <= 32 && Found(code, m.pc, name, block) && area == AreaName(rt, name)
    requires block.varNo < 0x1_0000 && block.size < 0x1_0000
    ensures match rt.area(area)
      case None => BindStep(rt, code, m).Running? <==> block.varNo < 0x8000 && block.size < 0x8000
      case Some(rows) =>
        BindStep(rt, code, m).Running? <==> block.varNo < 0x8000 && (block.size >= 0x8000 || rows >= block.size)
  {
    hide UnLE, Bound, AreaName;
    Widths();
    var len: nat := code[m.pc + 5] % 64;
    assert len == |name|;
  }

  lemma HeadParts(b: string, block: CommonBlock)
    requires |b| <= 32 && block.varNo < 0x1_0000 && block.size < 0x1_0000
    ensures var hs := HeadBytes(b, block);
      && |hs| == 6 + |b| && hs[0] == OP_COMMON && UnLE(hs[1..3]) == block.varNo && UnLE(hs[3..5]) == block.size
      && hs[5] == |b| && hs[6..] == TextBytes(b)
  {
    var hs := HeadBytes(b, block);
    Isa.Width(block.varNo, 2);
    Isa.Width(block.size, 2);
    assert hs[1..3] == LE(block.varNo, 2) && hs[3..5] == LE(block.size, 2);
  }

  /** What the prelude relies on: names the interpreter takes, areas that are large enough,
      numbers and sizes that fit. */
  ghost predicate CanBind(rt: Runtime, st: Storage) {
    AllThere(st) && Writable(st) && Bindable(st) && AreasFit(rt, st) && Measured(st)
  }

  /** The name that the unnamed block's area has at this level */
  function LevelBlock(rt: Runtime): string {
    "$" + Decimal(rt.level)
  }

  /** Different blocks have different areas. */
  ghost predicate AreasApart(rt: Runtime, st: Storage) {
    forall b, c :: b in st.order && c in st.order && b != c && !IsPool(b) && !IsPool(c) ==>
      AreaOf(rt, b) != AreaOf(rt, c)
  }

  /** The only two blocks that can share an area are the unnamed one and the one that is
      named like its area. */
  lemma AreasApartExactly(rt: Runtime, st: Storage)
    requires Writable(st)
    ensures AreasApart(rt, st) <==> !("$" in st.order && LevelBlock(rt) in st.order)
  {
    var unnamed, other := "$", LevelBlock(rt);
    assert unnamed != other && !IsPool(unnamed) && !IsPool(other);
    if unnamed in st.order && other in st.order {
      assert |TextBytes(other)| > |TextBytes(unnamed)|;
      assert AreaOf(rt, unnamed) == AreaOf(rt, other);
    } else {
      forall b, c | b in st.order && c in st.order && b != c && !IsPool(b) && !IsPool(c)
        ensures AreaOf(rt, b) != AreaOf(rt, c)
      {
        if AreaOf(rt, b) == AreaOf(rt, c) {
          SameArea(rt, b, c);
        }
      }
    }
  }

  lemma OneText(b: string, c: string)
    requires IsByteText(b) && IsByteText(c) && TextBytes(b) == TextBytes(c)
    ensures b == c
  {
    forall i | 0 <= i < |b| ensures b[i] == c[i] {
      assert TextBytes(b)[i] == b[i] as int && TextBytes(c)[i] == c[i] as int;
    }
  }

  lemma SameArea(rt: Runtime, b: string, c: string)
    requires IsByteText(b) && IsByteText(c) && AreaOf(rt, b) == AreaOf(rt, c)
    ensures b == c || (b == "$" && c == LevelBlock(rt)) || (c == "$" && b == LevelBlock(rt))
  {
    LevelText(rt);
    if TextBytes(b) == TextBytes("$") {
      OneText(b, "$");
    }
    if TextBytes(c) == TextBytes("$") {
      OneText(c, "$");
    }
    if b != "$" && c != "$" {
      OneText(b, c);
    } else if b == "$" && c != "$" {
      OneText(LevelBlock(rt), c);
    } else if b != "$" {
      OneText(b, LevelBlock(rt));
    }
  }

  lemma LevelText(rt: Runtime)
    ensures IsByteText("$") && IsByteText(LevelBlock(rt))
  {
  }

  /** COMMON A and COMMON /$1/ B are in order, and at level 1 they have one area. */
  lemma SharedArea(rt: Runtime)
    requires rt.level == 1
    ensures var a := Declared(NoVariables, "$", [Scalar("A")]);
      && a.Some?
      && var b := Declared(a.value, "$1", [Scalar("B")]);
      && b.Some? && b.value.order == ["$", "$1"] && AreaOf(rt, "$") == AreaOf(rt, "$1")
      && "A" in b.value.info && "B" in b.value.info && b.value.info["A"] != b.value.info["B"]
  {
    assert Decimal(1) == "1";
  }

  /** In the first n steps the stack stays as it is. */
  ghost predicate StackKept(rt: Runtime, code: seq<byte>, m: Machine, n: nat)
    requires m.Running?
  {
    forall j: nat :: j <= n ==> Run(rt, code, m, j).Running? && Run(rt, code, m, j).stack == m.stack
  }

  lemma StackKeptMore(rt: Runtime, code: seq<byte>, m: Machine, n: nat)
    requires m.Running? && StackKept(rt, code, m, n)
    requires Run(rt, code, m, n + 1).Running? && Run(rt, code, m, n + 1).stack == m.stack
    ensures StackKept(rt, code, m, n + 1)
  {
  }

  /** The blocks are bound in the order of their creation. */
  lemma {:induction false} BlocksRun(rt: Runtime, code: seq<byte>, cs: seq<Cell>, st: Storage, k: nat, m: Machine)
    returns (n: nat)
    requires NoComSlots(cs, 0) && k <= |st.order| && CanBind(rt, st) && |code| <= CODE_SIZE
    requires Image(code, cs + BlocksCells(st, |st.order|)) && m.Running? && m.pc == End(cs)
    ensures Run(rt, code, m, n) == m.(pc := End(cs + BlocksCells(st, k)), store := BoundBlocks(rt, st, k, m.store))
    ensures StackKept(rt, code, m, n)
    decreases k
  {
    hide Image, NoComSlots, Run, Step, Bound, BlockCells, Addr, StackKept;
    if k == 0 {
      assert cs + BlocksCells(st, 0) == cs;
      n := 0;
      RunNone(rt, code, m);
      StackKeptNone(rt, code, m);
    } else {
      var b := st.order[k - 1];
      var before := BlocksRun(rt, code, cs, st, k - 1, m);
      var m1 := m.(pc := End(cs + BlocksCells(st, k - 1)), store := BoundBlocks(rt, st, k - 1, m.store));
      BlocksImage(code, cs, st, k);
      OneBlockMore(cs, st, k - 1);
      if IsPool(b) {
        n := before;
        PoolHasNone(cs + BlocksCells(st, k - 1), k - 1, b, st.blocks[b]);
      } else {
        BindRun(rt, code, cs + BlocksCells(st, k - 1), k - 1, b, st.blocks[b], m1);
        RunOne(rt, code, m1);
        RunAdd(rt, code, m, before, 1);
        StackKeptMore(rt, code, m, before);
        n := before + 1;
      }
    }
  }

  lemma StackKeptNone(rt: Runtime, code: seq<byte>, m: Machine)
    requires m.Running?
    ensures StackKept(rt, code, m, 0)
  {
    assert Run(rt, code, m, 0) == m;
  }

  lemma RunNone(rt: Runtime, code: seq<byte>, m: Machine)
    ensures Run(rt, code, m, 0) == m
  {
  }

  lemma PoolHasNone(cs: seq<Cell>, i: nat, b: string, block: CommonBlock)
    requires IsPool(b)
    ensures cs + BlockCells(i, b, block) == cs
  {
  }

  /** From the header's start offset the blocks are bound, and the program is entered with
      the stack as it was. */
  lemma PreludeRun(rt: Runtime, code: seq<byte>, cs: seq<Cell>, st: Storage, m: Machine) returns (n: nat)
    requires NoComSlots(cs, 0) && CanBind(rt, st) && |code| <= CODE_SIZE
    requires Image(code, cs + PreludeCells(st)) && m.Running? && m.pc == if st.order == [] then HEADER else End(cs)
    ensures Run(rt, code, m, n) == m.(pc := HEADER, store := BoundBlocks(rt, st, |st.order|, m.store))
    ensures StackKept(rt, code, m, n)
  {
    hide Image, NoComSlots, Run, Addr, BlocksCells, AreasFit, Measured, StackKept;
    if st.order == [] {
      n := 0;
      RunNone(rt, code, m);
      StackKeptNone(rt, code, m);
    } else {
      hide LE, BoundBlocks, PreludeCells, CanBind;
      LastJump(rt, code, cs, st);
      n := BlocksRun(rt, code, cs, st, |st.order|, m);
      BackHome(rt, code, m, n);
      n := n + 1;
    }
  }

  /** After n steps comes the jump to the program. */
  lemma BackHome(rt: Runtime, code: seq<byte>, m: Machine, n: nat)
    requires m.Running? && StackKept(rt, code, m, n)
    requires var m1 := Run(rt, code, m, n);
      m1.Running? && m1.pc + 4 <= |code| && code[m1.pc..m1.pc + 4] == [OP_JMP] + LE(HEADER, 3)
    ensures Run(rt, code, m, n + 1) == Run(rt, code, m, n).(pc := HEADER) && StackKept(rt, code, m, n + 1)
  {
    hide Run, Step, LE;
    var m1 := Run(rt, code, m, n);
    JumpBack(rt, code, m1);
    RunOne(rt, code, m1);
    RunAdd(rt, code, m, n, 1);
    StackKeptMore(rt, code, m, n);
  }

  lemma PreludeParts(cs: seq<Cell>, st: Storage)
    requires AllThere(st) && st.order != []
    ensures var done, jump := cs + BlocksCells(st, |st.order|), Raw([OP_JMP] + LE(HEADER, 3));
      cs + PreludeCells(st) == done + jump == done + jump + []
  {
    hide BlocksCells, LE;
  }

  /** The jump lies behind the blocks. */
  lemma LastJump(rt: Runtime, code: seq<byte>, cs: seq<Cell>, st: Storage)
    requires AllThere(st) && st.order != [] && Image(code, cs + PreludeCells(st))
    ensures var done := cs + BlocksCells(st, |st.order|);
      && Image(code, done) && End(done) + 4 <= |code|
      && code[End(done)..End(done) + 4] == [OP_JMP] + LE(HEADER, 3)
  {
    hide Image, BlocksCells, PreludeCells, LE;
    var done, jump := cs + BlocksCells(st, |st.order|), [OP_JMP] + LE(HEADER, 3);
    PreludeParts(cs, st);
    NoDefs(done, jump);
    ImageStart(code, done, Raw(jump));
    RawAt(code, done, jump, []);
  }

  lemma NoDefs(cs: seq<Cell>, bs: seq<byte>)
    ensures forall k :: 0 <= k < |cs| && cs[k].Slot? ==> Def(cs[k].name) !in Raw(bs)
  {
  }

  lemma JumpBack(rt: Runtime, code: seq<byte>, m: Machine)
    requires m.Running? && m.pc + 4 <= |code| && code[m.pc..m.pc + 4] == [OP_JMP] + LE(HEADER, 3)
    ensures Step(rt, code, m) == m.(pc := HEADER)
  {
    var ins: Instr<nat> := Jump(OP_JMP, HEADER);
    assert Encode(ins) == [OP_JMP] + LE(HEADER, 3);
    DecodeEncode(code, m.pc, ins);
    hide Decode, Encode, LE;
  }

  lemma {:induction false} BoundCells(rt: Runtime, name: seq<byte>, v: nat, n: nat, store: map<Loc, Value>, loc: Loc)
    ensures Get(Bound(rt, name, v, n, store), loc)
         == if loc.CommonVar? && loc.v == v && 1 <= loc.offset <= n then rt.shared(name, loc.offset)
            else Get(store, loc)
  {
    if n > 0 {
      BoundCells(rt, name, v, n - 1, store, loc);
    }
  }

  /** A block that has been bound has its area's cells. */
  lemma {:induction false} BoundBlock(rt: Runtime, st: Storage, j: nat, k: nat, store: map<Loc, Value>, offset: nat)
    requires WellPlaced(st) && j < k <= |st.order| && !IsPool(st.order[j])
    requires 1 <= offset <= st.blocks[st.order[j]].size
    ensures var b := st.order[j];
      Get(BoundBlocks(rt, st, k, store), CommonVar(st.blocks[b].varNo, offset)) == rt.shared(AreaOf(rt, b), offset)
    decreases k
  {
    hide AtHome, BlockAtHome, Get, Bound;
    var b, c, before := st.order[j], st.order[k - 1], BoundBlocks(rt, st, k - 1, store);
    var loc := CommonVar(st.blocks[b].varNo, offset);
    BoundCells(rt, AreaOf(rt, c), st.blocks[c].varNo, st.blocks[c].size, before, loc);
    if j < k - 1 {
      BoundBlock(rt, st, j, k - 1, store, offset);
      NumbersApart(st, b, c);
    }
  }

  lemma NumbersApart(st: Storage, b: string, c: string)
    requires WellPlaced(st) && b in st.blocks && c in st.blocks
    ensures st.blocks[b].varNo == st.blocks[c].varNo ==> b == c
  {
    hide AtHome, Ordered;
    assert BlockAtHome(st, b) && BlockAtHome(st, c);
  }

  /** Nothing else is changed. */
  lemma {:induction false} OthersBound(rt: Runtime, st: Storage, k: nat, store: map<Loc, Value>, loc: Loc)
    requires AllThere(st) && k <= |st.order|
    requires loc.LocalVar? || forall b :: b in st.blocks ==> st.blocks[b].varNo != loc.v
    ensures Get(BoundBlocks(rt, st, k, store), loc) == Get(store, loc)
  {
    hide Get, Bound;
    if k > 0 {
      var c := st.order[k - 1];
      OthersBound(rt, st, k - 1, store, loc);
      BoundCells(rt, AreaOf(rt, c), st.blocks[c].varNo, st.blocks[c].size, BoundBlocks(rt, st, k - 1, store), loc);
    }
  }

  /** The prelude depends on the blocks only. */
  lemma {:induction false} SameBlocks(a: Storage, b: Storage, k: nat)
    requires AllThere(a) && a.blocks == b.blocks && a.order == b.order && k <= |a.order|
    ensures AllThere(b) && BlocksCells(a, k) == BlocksCells(b, k)
  {
    hide BlockCells;
    if k > 0 {
      SameBlocks(a, b, k - 1);
    }
  }

  lemma SamePrelude(a: Storage, b: Storage)
    requires AllThere(a) && a.blocks == b.blocks && a.order == b.order
    ensures AllThere(b) && PreludeCells(a) == PreludeCells(b) && (Writable(a) <==> Writable(b))
  {
    hide BlocksCells;
    SameBlocks(a, b, |a.order|);
  }
}
