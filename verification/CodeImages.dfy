/** The object code under construction: code_image, pc and label_dict, and the
    emitters that change them. */
module CodeImages {
  import opened Outcomes
  import opened Bytes
  import opened Isa
  import opened Cells
  import opened Listing

  class CodeImage {
    const code: array<byte>
    var pc: nat
    var labels: map<string, int>
    ghost var cells: seq<Cell>
    ghost var list: seq<Item>

    /** The bytes and the label table are those of the cells. */
    ghost predicate Consistent()
      reads this, code
    {
      && code.Length == CODE_SIZE
      && pc == End(cells) <= CODE_SIZE
      && Image(code[..], cells)
      && Table(labels, cells)
    }

    ghost predicate Valid()
      reads this, code
    {
      Consistent() && cells == Flatten(list) && Distinct(list)
    }

    /** emit_skeleton_header() */
    constructor ()
      ensures Valid() && list == [] && pc == HEADER && fresh(code)
      ensures code[..] == seq(CODE_SIZE, _ => 0)
    {
      code := new byte[CODE_SIZE](_ => 0);
      pc := HEADER;
      labels := map[];
      cells := [];
      list := [];
    }

    /** The byte write every emitter ends in. */
    method Store(b: int) returns (r: Outcome)
      requires code.Length == CODE_SIZE
      modifies this`pc, code
      ensures r.Pass? <==> old(pc) < CODE_SIZE && 0 <= b < 256
      ensures r == Fail(ImageFull) <==> old(pc) >= CODE_SIZE && 0 <= b < 256
      ensures r.Pass? ==> pc == old(pc) + 1 && code[..] == Splice(old(code[..]), old(pc), [b])
    {
      if !(0 <= b < 256) {
        return Fail(BadByte);
      }
      if pc >= CODE_SIZE {
        return Fail(ImageFull);
      }
      code[pc] := b;
      pc := pc + 1;
      return Pass;
    }

    /** emit_multibyte_value(), before its bytes are given a meaning. */
    method StoreLittle(value: int, count: nat) returns (r: Outcome)
      requires code.Length == CODE_SIZE && pc <= CODE_SIZE
      modifies this`pc, code
      ensures r.Pass? <==> old(pc) + count <= CODE_SIZE
      ensures r.Fail? ==> r.error == ImageFull
      ensures r.Pass? ==> pc == old(pc) + count
      ensures r.Pass? ==> code[..] == Splice(old(code[..]), old(pc), LE(value, count))
    {
      var v, left := value, count;
      while left > 0
        invariant left <= count && pc == old(pc) + (count - left) <= CODE_SIZE
        invariant 0 <= left
        invariant old(pc) + count <= CODE_SIZE ==>
                    Splice(old(code[..]), old(pc), LE(value, count)) == Splice(code[..], pc, LE(v, left))
      {
        ghost var before := code[..];
        if pc >= CODE_SIZE {
          return Fail(ImageFull);
        }
        code[pc] := v % 256;
        pc := pc + 1;
        if pc + (left - 1) <= CODE_SIZE {
          SpliceStep(before, code[..], pc - 1, v, left);
        }
        v := v / 256;
        left := left - 1;
      }
      assert Splice(code[..], pc, LE(v, 0)) == code[..];
      return Pass;
    }

    static lemma SpliceStep(before: seq<byte>, after: seq<byte>, a: nat, v: int, left: nat)
      requires left > 0 && a + left <= |before| && after == before[a := v % 256]
      ensures Splice(before, a, LE(v, left)) == Splice(after, a + 1, LE(v / 256, left - 1))
    {
    }

    /** The new bytes at the end are byte cells. */
    ghost method Note(before: seq<byte>, bs: seq<byte>)
      requires code.Length == CODE_SIZE && Image(before, cells) && Table(labels, cells)
      requires End(cells) + |bs| <= |before| == CODE_SIZE
      requires pc == End(cells) + |bs| && code[..] == Splice(before, End(cells), bs)
      modifies this`cells
      ensures Consistent() && cells == old(cells) + Raw(bs)
    {
      hide Image, Table;
      ImageRaw(before, cells, bs);
      TableRaw(labels, cells, bs);
      EndRaw(cells, bs);
      cells := cells + Raw(bs);
    }

    /** emit() */
    method Emit(b: int) returns (r: Outcome)
      requires Consistent()
      modifies this`pc, this`cells, code
      ensures r.Pass? <==> old(pc) < CODE_SIZE && -128 <= b < 256
      ensures r.Fail? && -128 <= b < 256 ==> r.error == ImageFull
      ensures r.Pass? ==> Consistent() && cells == old(cells) + [Byte(b % 256)] && pc == old(pc) + 1
    {
      ghost var before := code[..];
      if b < -128 {
        return Fail(BadByte);
      }
      :- Store(if b < 0 then b + 256 else b);
      Note(before, [b % 256]);
      assert Raw([b % 256]) == [Byte(b % 256)];
      return Pass;
    }

    /** emit_multibyte_value() */
    method EmitMultibyteValue(value: int, count: nat) returns (r: Outcome)
      requires Consistent()
      modifies this`pc, this`cells, code
      ensures r.Pass? <==> old(pc) + count <= CODE_SIZE
      ensures r.Fail? ==> r.error == ImageFull
      ensures r.Pass? ==> Consistent() && cells == old(cells) + Raw(LE(value, count)) && pc == old(pc) + count
    {
      ghost var before := code[..];
      :- StoreLittle(value, count);
      Note(before, LE(value, count));
      return Pass;
    }

    /** The three new bytes at the end are a slot of the named label. */
    ghost method NoteSlot(before: seq<byte>, table: map<string, int>, name: string)
      requires code.Length == CODE_SIZE && Image(before, cells) && Table(table, cells)
      requires End(cells) + 3 <= |before| == CODE_SIZE && pc == End(cells) + 3
      requires code[..] == Splice(before, End(cells), LE(NextLink(cells, name), 3))
      requires var here: int := End(cells); labels == if Defined(cells, name) then table else table[name := -here]
      modifies this`cells
      ensures Consistent() && cells == old(cells) + [Slot(name)]
    {
      hide Image, Table, NextLink;
      ImageSlot(before, cells, name);
      TableSlot(table, cells, name);
      EndSnoc(cells, Slot(name));
      cells := cells + [Slot(name)];
    }

    /** emit_jump_addr(): the label's address, or one more link of its chain. */
    method EmitJumpAddr(name: string) returns (r: Outcome)
      requires Consistent()
      modifies this`pc, this`labels, this`cells, code
      ensures r.Pass? <==> old(pc) + 3 <= CODE_SIZE
      ensures r.Fail? ==> r.error == ImageFull
      ensures r.Pass? ==> Consistent() && cells == old(cells) + [Slot(name)] && pc == old(pc) + 3
    {
      hide Image, Table, NextLink;
      ghost var before, table := code[..], labels;
      TableEntry(labels, cells, name);
      var address, here: int := 0, pc;
      if name in labels {
        address := labels[name];
        if address < 0 {
          labels := labels[name := -here];
          address := -address;
        }
      } else {
        labels := labels[name := -here];
      }
      :- StoreLittle(address, 3);
      NoteSlot(before, table, name);
      return Pass;
    }

    /** Overwrite a three-byte address in place. */
    method Overwrite(address: nat, value: nat)
      requires address + 3 <= code.Length
      modifies code
      ensures code[..] == Splice(old(code[..]), address, LE(value, 3))
    {
      var bytes := LE(value, 3);
      code[address], code[address + 1], code[address + 2] := bytes[0], bytes[1], bytes[2];
    }

    /** Walk a label's chain from its head, filling in every slot. */
    method FillChain(name: string, head: nat)
      requires code.Length == CODE_SIZE && Image(code[..], cells)
      requires !Defined(cells, name) && head == NextLink(cells, name)
      modifies code
      ensures Patched(code[..], cells, name, -1, pc)
      ensures SameElsewhere(old(code[..]), code[..], cells, name)
    {
      hide Image, NextLink, Patched, InSlot;
      ghost var start := code[..];
      var next := head;
      ghost var p := Find(cells, |cells|, Slot(name));
      PatchStart(code[..], cells, name, pc);
      while next > 0
        invariant -1 <= p < |cells| && (p >= 0 ==> cells[p] == Slot(name))
        invariant next == if p < 0 then 0 else Addr(cells, p)
        invariant Patched(code[..], cells, name, p, pc)
        invariant SameElsewhere(start, code[..], cells, name)
        decreases p
      {
        ghost var so := code[..];
        PatchStep(so, cells, name, p, pc);
        var address := next;
        next := UnLE(code[address..address + 3]);
        assert code[address..address + 3] == so[address..address + 3];
        SameSplice(start, so, cells, name, p, LE(pc, 3));
        Overwrite(address, pc);
        p := Find(cells, p, Slot(name));
      }
    }

    /** set_label() on the image: an undefined label is given the current address
        and every slot of its chain is filled in with it. */
    method Define(name: string) returns (r: Outcome)
      requires Consistent()
      modifies this`labels, this`cells, code
      ensures r.Pass? <==> !Defined(old(cells), name)
      ensures r.Fail? ==> r.error == Duplicate
      ensures r.Pass? ==> Consistent() && cells == old(cells) + [Def(name)]
      ensures if r.Pass? then SameElsewhere(old(code[..]), code[..], old(cells), name) else code[..] == old(code[..])
    {
      hide Image, Table, NextLink, Patched, SameElsewhere;
      TableEntry(labels, cells, name);
      if name in labels && labels[name] >= 0 {
        return Fail(Duplicate);
      }
      var head := if name in labels then -labels[name] else 0;
      TableDef(labels, cells, name);
      labels := labels[name := pc];
      FillChain(name, head);
      ghost var after := code[..];
      ImageDef(after, cells, name);
      EndSnoc(cells, Def(name));
      cells := cells + [Def(name)];
      assert code[..] == after;
      return Pass;
    }

    /** The cells emitted since the listing was last complete are one more item. */
    ghost method Extend(item: Item)
      requires Consistent() && cells == Flatten(list) + ItemCells(item)
      requires Distinct(list) && (item.D? ==> item !in list)
      modifies this`list
      ensures Valid() && list == old(list) + [item]
    {
      hide Distinct;
      FlattenSnoc(list, item);
      DistinctSnoc(list, item);
      list := list + [item];
    }

    lemma ValidEnd()
      requires Valid()
      ensures pc == End(Flatten(list)) && !Long(list)
    {
    }

    /** emit_simple() */
    method EmitSimple(op: nat) returns (r: Outcome)
      requires Valid()
      modifies this, code
      ensures r.Pass? <==> op < 65536 && op != 256 && old(pc) + |OpBytes(op)| <= CODE_SIZE
      ensures r.Fail? && op < 65536 && op != 256 ==> r.error == ImageFull
      ensures r.Fail? && op < 65536 && op != 256 ==> Long(old(list) + [I(Simple(op))])
      ensures r.Pass? ==> Valid() && list == old(list) + [I(Simple(op))]
    {
      hide Consistent, Distinct, Flatten;
      ValidEnd();
      LongOne(list, Simple(op));
      OpCells(cells, op);
      hide Long, OpBytes;
      if op > 256 {
        :- Emit(op / 256);
        :- Emit(op % 256);
      } else {
        :- Emit(op);
      }
      Extend(I(Simple(op)));
      return Pass;
    }

    /** emit_jump() */
    method EmitJump(op: nat, name: string) returns (r: Outcome)
      requires Valid() && op <= 255
      modifies this, code
      ensures r.Pass? <==> old(pc) + 4 <= CODE_SIZE
      ensures r.Fail? ==> r.error == ImageFull
      ensures r.Fail? ==> Long(old(list) + [I(Jump(op, name))])
      ensures r.Pass? ==> Valid() && list == old(list) + [I(Jump(op, name))]
    {
      hide Distinct;
      LongOne(list, Jump(op, name));
      :- Emit(op);
      :- EmitJumpAddr(name);
      Extend(I(Jump(op, name)));
      return Pass;
    }

    /** set_label() */
    method SetLabel(name: string) returns (r: Outcome)
      requires Valid()
      modifies this, code
      ensures r.Pass? <==> D(name) !in old(list)
      ensures r.Fail? ==> r.error == Duplicate
      ensures r.Pass? ==> Valid() && list == old(list) + [D(name)]
      ensures if r.Pass? then SameElsewhere(old(code[..]), code[..], Flatten(old(list)), name)
              else code[..] == old(code[..])
    {
      hide SameElsewhere;
      DefinedInList(list, name);
      :- Define(name);
      Extend(D(name));
      return Pass;
    }

    /** An opcode byte followed by an operand of count bytes. */
    method EmitOperand(op: nat, value: int, count: nat, ghost ins: Instr<string>) returns (r: Outcome)
      requires Valid() && op <= 255 && !ins.Jump? && Plain(ins) == [op as byte] + LE(value, count)
      modifies this, code
      ensures r.Pass? <==> old(pc) + 1 + count <= CODE_SIZE
      ensures r.Fail? ==> r.error == ImageFull
      ensures r.Fail? ==> Long(old(list) + [I(ins)])
      ensures r.Pass? ==> Valid() && list == old(list) + [I(ins)]
    {
      hide Consistent, Flatten, Distinct, LE, Plain;
      ValidEnd();
      LongOne(list, ins);
      RawConcat([op as byte], LE(value, count));
      Regroup(cells, [Byte(op)], Raw(LE(value, count)));
      :- Emit(op);
      :- EmitMultibyteValue(value, count);
      Extend(I(ins));
      return Pass;
    }

    /** emit_numeric_load(), for integers */
    method EmitNumericLoad(n: int) returns (r: Outcome)
      requires Valid()
      modifies this, code
      ensures r.Pass? <==> old(pc) + |Plain(NumberLoad(n))| <= CODE_SIZE
      ensures r.Fail? ==> r.error == ImageFull
      ensures r.Fail? ==> Long(old(list) + [I(NumberLoad(n))])
      ensures r.Pass? ==> Valid() && list == old(list) + [I(NumberLoad(n))]
    {
      if -129 < n < 128 {
        if n == 0 {
          r := EmitSimple(OP_LD0);
          return;
        }
        if n == 1 {
          r := EmitSimple(OP_LD1);
          return;
        }
        assert LE(n, 1) == [n % 256];
        r := EmitOperand(OP_LDSINT, n, 1, ShortInt(n));
      } else {
        r := EmitOperand(OP_LDLINT, n, 4, LongInt(n));
      }
    }

    method EmitCommonLoad(v: nat, offset: nat) returns (r: Outcome)
      requires Valid()
      modifies this, code
      ensures r.Pass? <==> old(pc) + 5 <= CODE_SIZE
      ensures r.Fail? ==> r.error == ImageFull
      ensures r.Fail? ==> Long(old(list) + [I(Common(v, offset))])
      ensures r.Pass? ==> Valid() && list == old(list) + [I(Common(v, offset))]
    {
      hide Consistent;
      ValidEnd();
      LongOne(list, Common(v, offset));
      CommonCells(cells, v, offset);
      :- Emit(OP_LDCOM);
      :- EmitMultibyteValue(v, 2);
      :- EmitMultibyteValue(offset, 2);
      Extend(I(Common(v, offset)));
      return Pass;
    }

    /** emit_var_load() */
    method EmitVarLoad(loc: Loc) returns (r: Outcome)
      requires Valid()
      modifies this, code
      ensures r.Pass? <==> old(pc) + |Plain(VarLoad(loc))| <= CODE_SIZE
      ensures r.Fail? ==> r.error == ImageFull
      ensures r.Fail? ==> Long(old(list) + [I(VarLoad(loc))])
      ensures r.Pass? ==> Valid() && list == old(list) + [I(VarLoad(loc))]
    {
      hide Consistent;
      if loc.CommonVar? {
        r := EmitCommonLoad(loc.v, loc.offset);
        return;
      }
      if loc.v < 256 {
        r := EmitOperand(OP_LDSLCL, loc.v, 1, ShortLocal(loc.v));
      } else {
        r := EmitOperand(OP_LDLCL, loc.v, 2, Local(loc.v));
      }
    }

    /** The characters of a string constant, one byte each. */
    method StoreText(s: string) returns (r: Outcome)
      requires Consistent()
      modifies this`pc, this`cells, code
      ensures r.Pass? <==> IsByteText(s) && old(pc) + |s| <= CODE_SIZE
      ensures r.Fail? && IsByteText(s) ==> r.error == ImageFull
      ensures r.Pass? ==> Consistent() && cells == old(cells) + Raw(TextBytes(s)) && pc == old(pc) + |s|
    {
      ghost var before := code[..];
      var i := 0;
      assert Splice(before, pc, []) == before;
      hide Splice;
      while i < |s|
        invariant 0 <= i <= |s| && pc == old(pc) + i <= CODE_SIZE
        invariant cells == old(cells) && labels == old(labels)
        invariant IsByteText(s[..i])
        invariant code[..] == Splice(before, old(pc), TextBytes(s[..i]))
      {
        :- Store(s[i] as int);
        OneMoreByte(before, old(pc), s, i);
        i := i + 1;
      }
      assert s[..i] == s;
      Note(before, TextBytes(s));
      return Pass;
    }

    /** One LDSTR with its characters. */
    method EmitChunk(s: string) returns (r: Outcome)
      requires Valid() && |s| < 256
      modifies this, code
      ensures r.Pass? <==> IsByteText(s) && old(pc) + 2 + |s| <= CODE_SIZE
      ensures r.Fail? && IsByteText(s) ==> r.error == ImageFull
      ensures r.Fail? && IsByteText(s) ==> Long(old(list) + [I(Text(TextBytes(s)))])
      ensures r.Pass? ==> Valid() && list == old(list) + [I(Text(TextBytes(s)))]
    {
      hide Consistent;
      ValidEnd();
      LongOne(list, Text(TextBytes(s)));
      TextCells(cells, TextBytes(s));
      :- Emit(OP_LDSTR);
      :- Emit(|s|);
      assert |s| % 256 == |s|;
      :- StoreText(s);
      Extend(I(Text(TextBytes(s))));
      return Pass;
    }

    /** emit_string_load() */
    method EmitStringLoad(text: string) returns (r: Outcome)
      requires Valid()
      modifies this, code
      ensures r.Fail? && IsByteText(text) ==> r.error == ImageFull
      ensures r.Fail? && IsByteText(text) ==> Long(old(list) + TextLoad(text))
      ensures r.Pass? ==> IsByteText(text) && Valid() && list == old(list) + TextLoad(text)
    {
      hide Consistent;
      if |text| == 0 {
        r := EmitSimple(OP_LDNULL);
        return;
      }
      var s := text;
      var k := false;
      while s != ""
        invariant Valid() && |s| <= |text| && (s == "" ==> k) && (!k ==> s == text)
        invariant IsByteText(text) <==> IsByteText(s)
        invariant list + (if k then MoreText(s) else TextLoad(s)) == old(list) + TextLoad(text)
        decreases |s|
      {
        var n := if |s| > 255 then 255 else |s|;
        ghost var start := list;
        SplitByteText(s, n);
        ghost var chunk, cat := [I(Text(TextBytes(s[..n])))], [I(Simple(OP_CAT))];
        Regroup(start, chunk, cat);
        Regroup(start, chunk + cat, MoreText(s[n..]));
        Regroup(start, chunk, MoreText(s[n..]));
        LongMore(start + chunk, cat);
        LongMore(start + chunk + cat, MoreText(s[n..]));
        LongMore(start + chunk, MoreText(s[n..]));
        :- EmitChunk(s[..n]);
        if k {
          :- EmitSimple(OP_CAT);
        }
        s := s[n..];
        k := true;
      }
      return Pass;
    }

    static lemma SplitByteText(s: string, n: nat)
      requires n <= |s|
      ensures IsByteText(s) <==> IsByteText(s[..n]) && IsByteText(s[n..])
    {
      assert s == s[..n] + s[n..];
    }

    /** Overwrite a NULL emitted earlier, as back_end() does when it meets LOCKED. */
    method Replace(address: nat, op: nat, ghost t: nat)
      requires Valid() && IsPlainOp(op)
      requires t < |list| && list[t] == I(Simple(OP_NULL)) && address == At(list, t)
      modifies this, code
      ensures Valid() && pc == old(pc) && labels == old(labels)
      ensures list == old(list)[t := I(Simple(op))]
    {
      hide Image, Table, Distinct, Flatten;
      ghost var c := |Flatten(list[..t])|;
      ReplaceDistinct(list, t, Simple(op));
      ReplaceInList(list, t, op);
      ReplaceAddr(cells, c, op, |cells|);
      AddrPrefix(Flatten(list[..t]), Flatten(list[t..]), c);
      AddrBound(cells, c);
      ghost var before := code[..];
      code[address] := op;
      assert code[..] == Splice(before, address, [op as byte]);
      ReplaceImage(before, cells, c, op);
      ReplaceTable(labels, cells, c, op);
      cells := cells[c := Byte(op)];
      list := list[t := I(Simple(op))];
    }

    /** One field of emit_final_header().  to_bytes() refuses a value that does not fit. */
    method SetHeader(offset: nat, value: nat, count: nat) returns (r: Outcome)
      requires Consistent() && offset + count <= HEADER
      modifies code
      ensures r.Pass? <==> value < Pow256(count)
      ensures r.Fail? ==> r.error == BadByte
      ensures r.Pass? ==> Consistent() && code[..] == Splice(old(code[..]), offset, LE(value, count))
    {
      if value >= Pow256(count) {
        return Fail(BadByte);
      }
      ghost var before := code[..];
      var bytes := LE(value, count);
      var i := 0;
      while i < count
        invariant 0 <= i <= count && code[..] == Splice(before, offset, bytes[..i])
      {
        code[offset + i] := bytes[i];
        SpliceOne(before, offset, bytes, i);
        i := i + 1;
      }
      assert bytes[..count] == bytes;
      HeaderImage(before, cells, offset, bytes);
      return Pass;
    }

    static lemma SpliceOne(before: seq<byte>, a: nat, bs: seq<byte>, i: nat)
      requires i < |bs| && a + |bs| <= |before|
      ensures Splice(before, a, bs[..i])[a + i := bs[i]] == Splice(before, a, bs[..i + 1])
    {
      assert bs[..i + 1] == bs[..i] + [bs[i]];
    }

    static lemma OneMoreByte(code: seq<byte>, a: nat, s: string, i: nat)
      requires i < |s| && IsByteText(s[..i]) && s[i] as int < 256 && a + i < |code|
      ensures IsByteText(s[..i + 1])
      ensures Splice(Splice(code, a, TextBytes(s[..i])), a + i, [s[i] as int]) == Splice(code, a, TextBytes(s[..i + 1]))
    {
      assert s[..i + 1] == s[..i] + [s[i]];
      assert TextBytes(s[..i + 1]) == TextBytes(s[..i]) + [s[i] as int];
      SpliceTwice(code, a, TextBytes(s[..i]), [s[i] as int]);
    }

    static lemma SpliceTwice(code: seq<byte>, a: nat, bs: seq<byte>, more: seq<byte>)
      requires a + |bs| + |more| <= |code|
      ensures Splice(Splice(code, a, bs), a + |bs|, more) == Splice(code, a, bs + more)
    {
    }
  }

  /** The header lies before every cell. */
  lemma HeaderImage(code: seq<byte>, cs: seq<Cell>, a: nat, bs: seq<byte>)
    requires Image(code, cs) && a + |bs| <= HEADER && |bs| <= |code|
    ensures a + |bs| <= |code| && Image(Splice(code, a, bs), cs)
  {
    ImageFits(code, cs);
    forall k | 0 <= k < |cs| ensures Holds(Splice(code, a, bs), cs, k, Value(cs, k)) {
      AddrBound(cs, k);
      assert Holds(code, cs, k, Value(cs, k));
      HoldsSplice(code, cs, k, Value(cs, k), a, bs);
    }
  }

  /** Replacing a one-byte instruction in the listing replaces its cell. */
  lemma ReplaceInList(list: seq<Item>, t: nat, op: nat)
    requires t < |list| && list[t] == I(Simple(OP_NULL)) && IsPlainOp(op)
    ensures Flatten(list) == Flatten(list[..t]) + Flatten(list[t..])
    ensures var c := |Flatten(list[..t])|;
      && c < |Flatten(list)| && Flatten(list)[c] == Byte(OP_NULL)
      && Flatten(list[t := I(Simple(op))]) == Flatten(list)[c := Byte(op)]
  {
    hide ItemCells, Flatten;
    var a, b := list[..t], list[t + 1..];
    var x, y := I(Simple(OP_NULL)), I(Simple(op));
    assert list == a + list[t..] && list == (a + [x]) + b && list[t := y] == (a + [y]) + b;
    FlattenAppend(a, list[t..]);
    FlattenAppend(a + [x], b);
    FlattenAppend(a + [y], b);
    FlattenSnoc(a, x);
    FlattenSnoc(a, y);
    PlainCells(OP_NULL);
    PlainCells(op);
    UpdateMiddle(Flatten(a), Byte(OP_NULL), Byte(op), Flatten(b));
  }

  lemma ReplaceDistinct(list: seq<Item>, t: nat, ins: Instr<string>)
    requires Distinct(list) && t < |list| && list[t].I?
    ensures Distinct(list[t := I(ins)])
  {
  }

  lemma UpdateMiddle<T>(a: seq<T>, x: T, y: T, b: seq<T>)
    ensures |a| < |a + [x] + b| && (a + [x] + b)[|a|] == x
    ensures (a + [x] + b)[|a| := y] == a + [y] + b
  {
  }

  lemma PlainCells(op: nat)
    requires IsPlainOp(op)
    ensures ItemCells(I(Simple(op))) == [Byte(op)]
  {
  }

  lemma RawConcat(a: seq<byte>, b: seq<byte>)
    ensures Raw(a + b) == Raw(a) + Raw(b)
    ensures |a| == 1 ==> Raw(a) == [Byte(a[0])]
  {
  }

  lemma CommonCells(before: seq<Cell>, v: nat, offset: nat)
    ensures before + [Byte(OP_LDCOM)] + Raw(LE(v, 2)) + Raw(LE(offset, 2))
         == before + CellsOf(Common(v, offset))
  {
    var op: seq<byte>, a, b := [OP_LDCOM], LE(v, 2), LE(offset, 2);
    RawConcat(op + a, b);
    RawConcat(op, a);
    Regroup(before, Raw(op), Raw(a));
    Regroup(before, Raw(op) + Raw(a), Raw(b));
  }

  lemma OpCells(before: seq<Cell>, op: nat)
    ensures |OpBytes(op)| == if op > 256 then 2 else 1
    ensures before + CellsOf(Simple(op))
         == if op > 256 then before + [Byte(op / 256 % 256)] + [Byte(op % 256 % 256)] else before + [Byte(op % 256)]
  {
  }

  lemma TextCells(before: seq<Cell>, bs: seq<byte>)
    requires |bs| < 256
    ensures before + [Byte(OP_LDSTR)] + [Byte(|bs|)] + Raw(bs) == before + CellsOf(Text(bs))
  {
    var op: seq<byte>, len: seq<byte> := [OP_LDSTR], [|bs|];
    assert LE(|bs|, 1) == len;
    RawConcat(op + len, bs);
    RawConcat(op, len);
    RawConcat(len, []);
    Regroup(before, Raw(op), Raw(len));
    Regroup(before, Raw(op) + Raw(len), Raw(bs));
  }

  lemma {:induction false} DefinedInList(list: seq<Item>, name: string)
    ensures Defined(Flatten(list), name) <==> D(name) in list
  {
    if list != [] {
      var rest, x := list[..|list| - 1], list[|list| - 1];
      assert list == rest + [x];
      DefinedInList(rest, name);
      DefinedAppend(Flatten(rest), ItemCells(x), name);
    }
  }

  lemma DefinedAppend(cs: seq<Cell>, ds: seq<Cell>, name: string)
    ensures Defined(cs + ds, name) <==> Defined(cs, name) || Def(name) in ds
  {
    if Def(name) !in ds {
      FindAbsent(cs, ds, Def(name));
    } else {
      var j :| 0 <= j < |ds| && ds[j] == Def(name);
      assert (cs + ds)[|cs| + j] == Def(name);
    }
  }
}
