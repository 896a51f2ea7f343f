/** The library of compiled objects: packed one after the other, each padded to a word,
    and walked by the sizes in their headers. */
module Library {
  import opened Outcomes
  import opened Bytes
  import opened Isa
  import opened Cells
  import opened Listing
  import opened Syntax
  import opened Programs
  import opened StatementGrammar
  import opened Structure
  import opened CodeImages
  import opened Linking
  import opened Compilation
  import opened Prelude
  import opened Heading

  const PCODE_SIZE: nat := 65534

  /** What load_pcode() relies on: a magic number, and the object's own size. */
  predicate IsObject(o: seq<byte>) {
    && |o| >= HEADER
    && o[HDR_MAGIC] == HDR_MAGIC_NO_L
    && UnLE(o[HDR_OBJECT_SIZE..HDR_OBJECT_SIZE + 4]) == |o|
  }

  /** (n + 3) & ~3 */
  function RoundUp(n: nat): (r: nat)
    ensures n <= r < n + 4 && r % 4 == 0
  {
    (n + 3) / 4 * 4
  }

  function Zeros(n: nat): (s: seq<byte>)
    ensures |s| == n && forall i :: 0 <= i < n ==> s[i] == 0
  {
    seq(n, _ => 0)
  }

  function Packed(objects: seq<seq<byte>>): seq<byte> {
    if objects == [] then []
    else Packed(objects[..|objects| - 1]) + Padded(objects[|objects| - 1])
  }

  function Padded(o: seq<byte>): (s: seq<byte>)
    ensures |s| == RoundUp(|o|)
  {
    o + Zeros(RoundUp(|o|) - |o|)
  }

  lemma {:induction false} PackedConcat(a: seq<seq<byte>>, b: seq<seq<byte>>)
    ensures Packed(a + b) == Packed(a) + Packed(b)
    decreases |b|
  {
    if b == [] {
      assert a + b == a;
    } else {
      var b', x := b[..|b| - 1], b[|b| - 1];
      assert (a + b)[..|a + b| - 1] == a + b';
      PackedConcat(a, b');
      Regroup(Packed(a), Packed(b'), Padded(x));
    }
  }

  lemma {:induction false} PackedAligned(objects: seq<seq<byte>>)
    ensures |Packed(objects)| % 4 == 0
  {
    if objects != [] {
      PackedAligned(objects[..|objects| - 1]);
    }
  }

  /** load_pcode(): the objects found from position i on, and where they start; None
      where the library is corrupt. */
  function Walk(lib: seq<byte>, i: nat): Option<seq<(nat, seq<byte>)>>
    decreases |lib| - i
  {
    if i >= |lib| then Some([])
    else if i + HEADER > |lib| || lib[i + HDR_MAGIC] != HDR_MAGIC_NO_L then None
    else
      var size := UnLE(lib[i + HDR_OBJECT_SIZE..i + HDR_OBJECT_SIZE + 4]);
      if size < HEADER || i + size > |lib| then None
      else match Walk(lib, i + RoundUp(size))
        case None => None
        case Some(rest) => Some([(i, lib[i..i + size])] + rest)
  }

  function Starts(objects: seq<seq<byte>>, i: nat): seq<(nat, seq<byte>)> {
    if objects == [] then [] else [(i, objects[0])] + Starts(objects[1..], i + RoundUp(|objects[0]|))
  }

  lemma {:induction false} StartsAreThem(objects: seq<seq<byte>>, i: nat)
    requires i % 4 == 0
    ensures var s := Starts(objects, i);
      |s| == |objects| && forall k :: 0 <= k < |s| ==> s[k].1 == objects[k] && s[k].0 % 4 == 0
  {
    if objects != [] {
      StartsAreThem(objects[1..], i + RoundUp(|objects[0]|));
    }
  }

  /** Walking the library by the sizes in the headers finds every object, byte for byte
      and in order, at word boundaries. */
  lemma {:induction false} WalkFindsAll(before: seq<byte>, objects: seq<seq<byte>>)
    requires forall k :: 0 <= k < |objects| ==> IsObject(objects[k])
    ensures Walk(before + Packed(objects), |before|) == Some(Starts(objects, |before|))
    decreases |objects|
  {
    hide Walk, IsObject, UnLE;
    if objects == [] {
      WalkEnd(before);
    } else {
      var o, rest := objects[0], objects[1..];
      assert objects == [o] + rest;
      FirstObject(before, o, rest);
      hide Packed;
      WalkStep(before + Packed(objects), |before|, o);
      WalkFindsAll(before + Padded(o), rest);
    }
  }

  lemma WalkEnd(lib: seq<byte>)
    ensures Walk(lib + [], |lib|) == Some([])
  {
  }

  lemma WalkStep(lib: seq<byte>, i: nat, o: seq<byte>)
    requires IsObject(o) && i + |o| <= |lib| && lib[i..i + |o|] == o && lib[i + HDR_MAGIC] == o[HDR_MAGIC]
    requires lib[i + HDR_OBJECT_SIZE..i + HDR_OBJECT_SIZE + 4] == o[HDR_OBJECT_SIZE..HDR_OBJECT_SIZE + 4]
    ensures Walk(lib, i) == match Walk(lib, i + RoundUp(|o|)) case None => None case Some(more) => Some([(i, o)] + more)
  {
    hide UnLE;
  }

  lemma FirstObject(before: seq<byte>, o: seq<byte>, rest: seq<seq<byte>>)
    requires IsObject(o)
    ensures var lib, i := before + Packed([o] + rest), |before|;
      && lib == (before + Padded(o)) + Packed(rest) && i + |o| <= |lib| && i < |lib|
      && lib[i..i + |o|] == o && lib[i + HDR_MAGIC] == o[HDR_MAGIC]
      && lib[i + HDR_OBJECT_SIZE..i + HDR_OBJECT_SIZE + 4] == o[HDR_OBJECT_SIZE..HDR_OBJECT_SIZE + 4]
  {
    hide UnLE;
    PackedConcat([o], rest);
    PackedOne(o);
    hide Packed;
    Regroup(before, Padded(o), Packed(rest));
    PlacedObject(before, o, Packed(rest));
  }

  lemma PackedOne(o: seq<byte>)
    ensures Packed([o]) == Padded(o)
  {
    assert [o][..0] == [];
    assert Packed([]) == [];
  }

  lemma PlacedObject(before: seq<byte>, o: seq<byte>, after: seq<byte>)
    requires |o| >= HEADER
    ensures var lib, i := (before + Padded(o)) + after, |before|;
      && i + |o| <= |lib| && i < |lib|
      && lib[i..i + |o|] == o && lib[i + HDR_MAGIC] == o[HDR_MAGIC]
      && lib[i + HDR_OBJECT_SIZE..i + HDR_OBJECT_SIZE + 4] == o[HDR_OBJECT_SIZE..HDR_OBJECT_SIZE + 4]
  {
    var lib, i := (before + Padded(o)) + after, |before|;
    assert lib[i..i + |o|] == o;
    SubSlice(lib, i, i + |o|, HDR_OBJECT_SIZE, HDR_OBJECT_SIZE + 4);
    assert lib[i + HDR_MAGIC] == lib[i..i + |o|][HDR_MAGIC];
  }

  /** What a compile writes out is such an object. */
  lemma CompiledIsObject(tokens: seq<Token>, p: Block, code: seq<byte>, pc: nat, list: seq<Item>)
    requires Compiled(tokens, p, code, pc, list)
    ensures HEADER <= pc <= |code| && IsObject(code[..pc])
  {
    hide ParseLines, NestWhole, EmitBlock, AfterBlock, Closed, Distinct, Flatten, LE, Image, NoCom, Writable,
         ReadHead, Body, PreludeCells, UnLE;
    Widths();
    EndOrder(Flatten(list), PreludeCells(Initial(tokens).vars));
    LERoundTrip(pc, 4);
    LERoundTrip(HDR_MAGIC_NO_L, 1);
    OneByte(code[HDR_MAGIC..HDR_MAGIC + 1]);
    SubSlice(code, 0, pc, HDR_OBJECT_SIZE, HDR_OBJECT_SIZE + 4);
  }

  lemma OneByte(s: seq<byte>)
    requires |s| == 1
    ensures UnLE(s) == s[0]
  {
    assert UnLE(s[1..]) == 0;
  }

  lemma PackedSnoc(objects: seq<seq<byte>>, k: nat)
    requires k < |objects|
    ensures Packed(objects[..k + 1]) == Packed(objects[..k]) + Padded(objects[k])
  {
    assert objects[..k + 1][..k] == objects[..k];
  }

  lemma PackedPrefix(objects: seq<seq<byte>>, k: nat)
    requires k <= |objects|
    ensures |Packed(objects[..k])| <= |Packed(objects)|
  {
    assert objects == objects[..k] + objects[k..];
    PackedConcat(objects[..k], objects[k..]);
  }

  /** One object's bytes; an index past the end of the buffer ends the program. */
  method Copy(file: array<byte>, start: nat, o: seq<byte>) returns (r: Outcome, index: nat)
    requires file.Length == PCODE_SIZE
    modifies file
    ensures r.Pass? <==> o == [] || start + |o| <= PCODE_SIZE
    ensures r.Fail? ==> r.error == ImageFull
    ensures r.Pass? ==> index == start + |o|
    ensures forall i :: 0 <= i < start && i < PCODE_SIZE ==> file[i] == old(file[i])
    ensures r.Pass? ==> forall i :: start + |o| <= i < PCODE_SIZE ==> file[i] == old(file[i])
    ensures r.Pass? ==> forall i :: start <= i < start + |o| ==> file[i] == o[i - start]
  {
    index := start;
    var j := 0;
    while j < |o|
      invariant 0 <= j <= |o| && index == start + j && (j > 0 ==> index <= PCODE_SIZE)
      invariant forall i :: 0 <= i < start && i < PCODE_SIZE ==> file[i] == old(file[i])
      invariant forall i :: index <= i < PCODE_SIZE ==> file[i] == old(file[i])
      invariant forall i :: start <= i < index && i < PCODE_SIZE ==> file[i] == o[i - start]
    {
      if index >= PCODE_SIZE {
        return Fail(ImageFull), index;
      }
      file[index] := o[j];
      index, j := index + 1, j + 1;
    }
    return Pass, index;
  }

  /** The buffer holds what has been packed, and zeros after it. */
  predicate Holding(file: seq<byte>, index: nat, packed: seq<byte>) {
    && |file| == PCODE_SIZE && index == |packed| < PCODE_SIZE + 4
    && (forall i :: index <= i < PCODE_SIZE ==> file[i] == 0)
    && (forall i :: 0 <= i < index && i < PCODE_SIZE ==> file[i] == packed[i])
  }

  /** The packing loop.  Padding past the end of the buffer is lost. */
  method Pack(objects: seq<seq<byte>>) returns (r: Outcome, lib: seq<byte>)
    ensures |Packed(objects)| <= PCODE_SIZE ==> r.Pass? && lib == Packed(objects)
    ensures r.Fail? ==> r.error == ImageFull && |Packed(objects)| > PCODE_SIZE
    ensures r.Pass? ==> lib <= Packed(objects) && |Packed(objects)| < |lib| + 4
  {
    hide Packed;
    lib := [];
    var file := new byte[PCODE_SIZE](_ => 0);
    var index: nat, k: nat := 0, 0;
    PackedNone(objects);
    while k < |objects|
      invariant 0 <= k <= |objects| && Holding(file[..], index, Packed(objects[..k]))
    {
      var o := objects[k];
      ghost var before := file[..];
      PackedSnoc(objects, k);
      PackedPrefix(objects, k + 1);
      var start := index;
      r, index := Copy(file, start, o);
      if r.Fail? {
        return r, [];
      }
      var padding := |o| % 4;
      if padding != 0 {
        index := index + (4 - padding);
      }
      HoldingMore(before, start, Packed(objects[..k]), o, file[..], index);
      k := k + 1;
    }
    assert objects[..k] == objects;
    lib := file[..if index < PCODE_SIZE then index else PCODE_SIZE];
    return Pass, lib;
  }

  lemma PackedNone(objects: seq<seq<byte>>)
    ensures Packed(objects[..0]) == []
  {
  }

  lemma HoldingMore(before: seq<byte>, start: nat, packed: seq<byte>, o: seq<byte>, after: seq<byte>, index: nat)
    requires Holding(before, start, packed) && |after| == PCODE_SIZE && (o == [] || start + |o| <= PCODE_SIZE)
    requires index == start + |o| + if |o| % 4 == 0 then 0 else 4 - |o| % 4
    requires forall i :: 0 <= i < start && i < PCODE_SIZE ==> after[i] == before[i]
    requires forall i :: start + |o| <= i < PCODE_SIZE ==> after[i] == before[i]
    requires forall i :: start <= i < start + |o| ==> after[i] == o[i - start]
    ensures Holding(after, index, packed + Padded(o))
  {
    PaddedBytes(packed, o, packed + Padded(o));
  }

  lemma PaddedBytes(before: seq<byte>, o: seq<byte>, after: seq<byte>)
    requires after == before + Padded(o)
    ensures |after| == |before| + RoundUp(|o|)
    ensures RoundUp(|o|) == if |o| % 4 == 0 then |o| else |o| + (4 - |o| % 4)
    ensures forall i :: 0 <= i < |after| ==>
              after[i] == if i < |before| then before[i] else if i < |before| + |o| then o[i - |before|] else 0
  {
  }
}
