/** The instructions the modelled statements generate: their byte layout as the
    emitters write it and as the interpreter's opcode functions read it. */
module Isa {
  import opened Outcomes
  import opened Bytes

  const OP_STOP: int := 0
  const OP_RETURN: int := 2
  const OP_JMP: int := 3
  const OP_JPZ: int := 5
  const OP_JZE: int := 7
  const OP_JNZ: int := 8
  const OP_LDSINT: int := 16
  const OP_LDLINT: int := 17
  const OP_LDSTR: int := 18
  const OP_LDNULL: int := 19
  const OP_LDLCL: int := 20
  const OP_LDCOM: int := 21
  const OP_STOR: int := 22
  const OP_POP: int := 23
  const OP_DUP: int := 24
  const OP_LDSLCL: int := 25
  const OP_LD0: int := 27
  const OP_LD1: int := 28
  const OP_NULL: int := 29
  const OP_ADD: int := 32
  const OP_SUB: int := 33
  const OP_MUL: int := 34
  const OP_DIV: int := 35
  const OP_NEG: int := 36
  const OP_INC: int := 38
  const OP_DEC: int := 39
  const OP_PWR: int := 41
  const OP_IDIV: int := 47
  const OP_SUBSTR: int := 65
  const OP_SUBSTRE: int := 66
  const OP_CAT: int := 67
  const OP_EXTRACT: int := 71
  const OP_FIELD: int := 82
  const OP_EQ: int := 96
  const OP_NE: int := 97
  const OP_GT: int := 98
  const OP_LT: int := 99
  const OP_AND: int := 101
  const OP_OR: int := 102
  const OP_GE: int := 106
  const OP_LE: int := 107
  const OP_READ: int := 113
  const OP_DELETE: int := 116
  const OP_COMMON: int := 143
  const OP_ONERROR: int := 145
  const OP_NOWAIT: int := 146
  const OP_APPEND: int := 162
  const OP_MATCHES: int := 165
  const OP_JFALSE: int := 190
  const OP_JTRUE: int := 191
  const OP_STZ: int := 202
  const OP_STNULL: int := 203
  const OP_LOCKREC: int := 220
  const OP_ULOCK: int := 232
  const OP_LLOCK: int := 233

  /** One instruction.  A jump's target is a label name while the program is being
      compiled and an address once the image is decoded. */
  datatype Instr<T> =
    | Simple(op: int)
    | ShortInt(n: int)
    | LongInt(n: int)
    | Text(s: seq<byte>)
    | ShortLocal(v: nat)
    | Local(v: nat)
    | Common(v: nat, offset: nat)
    | Jump(op: int, target: T)

  predicate IsJumpOp(op: int) {
    op == 3 || op == 4 || op == 5 || op == 6 || op == 7 || op == 8 || op == 10 || op == 11 || op == 190 || op == 191
  }

  /** First bytes of two-byte opcodes. */
  predicate IsPrefix(b: int) {
    b == 207 || b == 234 || b == 235 || b == 236 || b == 237 || b == 239
  }

  /** Opcodes with an operand that no modelled emitter writes. */
  predicate HasOtherOperand(op: int) {
    op in {12, 13, 14, 26, 120, 121, 143, 157, 186, 200, 204, 209, 210, 252}
  }

  /** One-byte opcodes that stand alone. */
  predicate IsPlainOp(op: int) {
    0 <= op < 256 && !IsJumpOp(op) && !IsPrefix(op) && !HasOtherOperand(op)
    && op != 16 && op != 17 && op != 18 && op != 20 && op != 21 && op != 25
  }

  /** The instructions the byte layout can carry without loss. */
  predicate Encodable<T>(ins: Instr<T>) {
    match ins
    case Simple(op) => IsPlainOp(op) || (256 < op < 65536 && IsPrefix(op / 256))
    case ShortInt(n) => -128 <= n < 128
    case LongInt(n) => -0x8000_0000 <= n < 0x8000_0000
    case Text(s) => |s| < 256
    case ShortLocal(v) => v < 256
    case Local(v) => v < 65536
    case Common(v, offset) => v < 65536 && offset < 65536
    case Jump(op, _) => IsJumpOp(op)
  }

  /** The bytes emit_simple() writes. */
  function OpBytes(op: int): seq<byte> {
    if op > 256 then [op / 256 % 256, op % 256] else [op % 256]
  }

  /** The bytes of an instruction without a jump address. */
  function Plain<T>(ins: Instr<T>): seq<byte>
    requires !ins.Jump?
  {
    match ins
    case Simple(op) => OpBytes(op)
    case ShortInt(n) => [OP_LDSINT] + LE(n, 1)
    case LongInt(n) => [OP_LDLINT] + LE(n, 4)
    case Text(s) => [OP_LDSTR] + LE(|s|, 1) + s
    case ShortLocal(v) => [OP_LDSLCL] + LE(v, 1)
    case Local(v) => [OP_LDLCL] + LE(v, 2)
    case Common(v, offset) => [OP_LDCOM] + LE(v, 2) + LE(offset, 2)
  }

  function Encode(ins: Instr<nat>): seq<byte> {
    if ins.Jump? then [ins.op % 256] + LE(ins.target, 3) else Plain(ins)
  }

  /** The instruction at pc and the address after it; None where the image ends
      early or the opcode is outside the modelled set. */
  function Decode(code: seq<byte>, pc: nat): Option<(Instr<nat>, nat)> {
    if pc >= |code| then None else
    var op: int := code[pc];
    var left := |code| - pc - 1;
    if op == 16 then
      if left < 1 then None else Some((ShortInt(Signed(UnLE(code[pc + 1..pc + 2]), 1)), pc + 2))
    else if op == 17 then
      if left < 4 then None else Some((LongInt(Signed(UnLE(code[pc + 1..pc + 5]), 4)), pc + 5))
    else if op == 18 then
      if left < 1 || left < 1 + (code[pc + 1] as int) then None
      else Some((Text(code[pc + 2..pc + 2 + code[pc + 1]]), pc + 2 + code[pc + 1]))
    else if op == 25 then
      if left < 1 then None else Some((ShortLocal(UnLE(code[pc + 1..pc + 2])), pc + 2))
    else if op == 20 then
      if left < 2 then None else Some((Local(UnLE(code[pc + 1..pc + 3])), pc + 3))
    else if op == 21 then
      if left < 4 then None
      else Some((Common(UnLE(code[pc + 1..pc + 3]), UnLE(code[pc + 3..pc + 5])), pc + 5))
    else if IsJumpOp(op) then
      if left < 3 then None else Some((Jump(op, UnLE(code[pc + 1..pc + 4])), pc + 4))
    else if IsPrefix(op) then
      if left < 1 then None else Some((Simple(256 * op + code[pc + 1]), pc + 2))
    else if HasOtherOperand(op) then None
    else Some((Simple(op), pc + 1))
  }

  lemma Widths()
    ensures Pow256(1) == 0x100 && Pow256(2) == 0x1_0000 && Pow256(3) == 0x100_0000 && Pow256(4) == 0x1_0000_0000
  {
    assert Pow256(0) == 1;
    assert Pow256(1) == 256 * Pow256(0);
    assert Pow256(2) == 256 * Pow256(1);
    assert Pow256(3) == 256 * Pow256(2);
    assert Pow256(4) == 256 * Pow256(3);
  }

  lemma SubSlice<T>(s: seq<T>, lo: nat, hi: nat, i: nat, j: nat)
    requires lo <= hi <= |s| && i <= j <= hi - lo
    ensures s[lo..hi][i..j] == s[lo + i..lo + j]
  {
    var left, right := s[lo..hi][i..j], s[lo + i..lo + j];
    assert |left| == |right|;
    forall k | 0 <= k < |left| ensures left[k] == right[k] {
      assert left[k] == s[lo..hi][i + k] == s[lo + i + k];
    }
  }

  /** The value that four bytes hold of an integer */
  function Wrap32(n: int): int {
    Signed(UnLE(LE(n, 4)), 4)
  }

  lemma Wrap32Exact(n: int)
    ensures Wrap32(n) == n <==> -0x8000_0000 <= n < 0x8000_0000
  {
    Widths();
    SignedRoundTrip(n, 4);
  }

  /** What is left of an instruction after the round trip: a long integer is cut to 32
      bits, without a word from the compiler. */
  function Narrow<T>(ins: Instr<T>): Instr<T> {
    if ins.LongInt? then LongInt(Wrap32(ins.n)) else ins
  }

  /** Decoding reads back the instruction that was written, wherever it lies and
      whatever surrounds it. */
  lemma DecodeEncode(code: seq<byte>, pc: nat, ins: Instr<nat>)
    requires (Encodable(ins) || ins.LongInt?) && (ins.Jump? ==> ins.target < 0x100_0000)
    requires pc + |Encode(ins)| <= |code| && code[pc..pc + |Encode(ins)|] == Encode(ins)
    ensures Decode(code, pc) == Some((Narrow(ins), pc + |Encode(ins)|))
    ensures Encodable(ins) ==> Narrow(ins) == ins
  {
    if ins.LongInt? {
      Wrap32Exact(ins.n);
      DecodeLong(code, pc, ins);
    } else if ins.Jump? {
      DecodeJump(code, pc, ins);
    } else {
      DecodePlain(code, pc, ins);
    }
  }

  lemma DecodeLong(code: seq<byte>, pc: nat, ins: Instr<nat>)
    requires ins.LongInt? && pc + |Plain(ins)| <= |code| && code[pc..pc + |Plain(ins)|] == Plain(ins)
    ensures Decode(code, pc) == Some((Narrow(ins), pc + |Plain(ins)|))
  {
    var e := Plain(ins);
    assert code[pc] == code[pc..pc + |e|][0] == e[0];
    DecodeTail(code, pc, e, LE(ins.n, 4), 1, 5);
  }

  lemma DecodeJump(code: seq<byte>, pc: nat, ins: Instr<nat>)
    requires ins.Jump? && Encodable(ins) && ins.target < 0x100_0000
    requires pc + 4 <= |code| && code[pc..pc + 4] == Encode(ins)
    ensures Decode(code, pc) == Some((ins, pc + 4))
  {
    assert code[pc] == code[pc..pc + 4][0] == ins.op;
    DecodeTail(code, pc, Encode(ins), LE(ins.target, 3), 1, 4);
    Width(ins.target, 3);
  }

  lemma DecodePlain(code: seq<byte>, pc: nat, ins: Instr<nat>)
    requires !ins.Jump? && Encodable(ins)
    requires pc + |Plain(ins)| <= |code| && code[pc..pc + |Plain(ins)|] == Plain(ins)
    ensures Decode(code, pc) == Some((ins, pc + |Plain(ins)|))
  {
    if ins.Simple? || ins.Text? {
      DecodeOpOrText(code, pc, ins);
    } else if ins.ShortInt? || ins.LongInt? {
      DecodeInt(code, pc, ins);
    } else {
      DecodeVariable(code, pc, ins);
    }
  }

  lemma DecodeOpOrText(code: seq<byte>, pc: nat, ins: Instr<nat>)
    requires (ins.Simple? || ins.Text?) && Encodable(ins)
    requires pc + |Plain(ins)| <= |code| && code[pc..pc + |Plain(ins)|] == Plain(ins)
    ensures Decode(code, pc) == Some((ins, pc + |Plain(ins)|))
  {
    var e := Plain(ins);
    assert code[pc] == code[pc..pc + |e|][0] == e[0];
    if ins.Simple? {
      assert ins.op > 256 ==> code[pc + 1] == code[pc..pc + |e|][1] == e[1];
    } else {
      assert code[pc + 1] == code[pc..pc + |e|][1] == e[1] == |ins.s|;
      DecodeTail(code, pc, e, ins.s, 2, 2 + |ins.s|);
    }
  }

  lemma DecodeInt(code: seq<byte>, pc: nat, ins: Instr<nat>)
    requires (ins.ShortInt? || ins.LongInt?) && Encodable(ins)
    requires pc + |Plain(ins)| <= |code| && code[pc..pc + |Plain(ins)|] == Plain(ins)
    ensures Decode(code, pc) == Some((ins, pc + |Plain(ins)|))
  {
    var e, k := Plain(ins), if ins.ShortInt? then 1 else 4;
    assert code[pc] == code[pc..pc + |e|][0] == e[0];
    DecodeTail(code, pc, e, LE(ins.n, k), 1, 1 + k);
    SignedWidth(ins.n, k);
  }

  lemma DecodeVariable(code: seq<byte>, pc: nat, ins: Instr<nat>)
    requires (ins.ShortLocal? || ins.Local? || ins.Common?) && Encodable(ins)
    requires pc + |Plain(ins)| <= |code| && code[pc..pc + |Plain(ins)|] == Plain(ins)
    ensures Decode(code, pc) == Some((ins, pc + |Plain(ins)|))
  {
    var e, k := Plain(ins), if ins.ShortLocal? then 1 else 2;
    assert code[pc] == code[pc..pc + |e|][0] == e[0];
    DecodeTail(code, pc, e, LE(ins.v, k), 1, 1 + k);
    Width(ins.v, k);
    if ins.Common? {
      DecodeTail(code, pc, e, LE(ins.offset, 2), 3, 5);
      Width(ins.offset, 2);
    }
  }

  lemma DecodeTail(code: seq<byte>, pc: nat, e: seq<byte>, part: seq<byte>, i: nat, j: nat)
    requires pc + |e| <= |code| && code[pc..pc + |e|] == e
    requires i <= j <= |e| && e[i..j] == part
    ensures code[pc + i..pc + j] == part
  {
    SubSlice(code, pc, pc + |e|, i, j);
  }

  lemma Width(v: nat, k: nat)
    requires (k == 1 && v < 0x100) || (k == 2 && v < 0x1_0000) || (k == 3 && v < 0x100_0000)
    ensures UnLE(LE(v, k)) == v
  {
    Widths();
    LERoundTrip(v, k);
  }

  lemma SignedWidth(n: int, k: nat)
    requires (k == 1 && -0x80 <= n < 0x80) || (k == 4 && -0x8000_0000 <= n < 0x8000_0000)
    ensures Signed(UnLE(LE(n, k)), k) == n
  {
    Widths();
    SignedRoundTrip(n, k);
  }

  /** A literal outside 32 bits is silently truncated: the load gives the literal
      back exactly when the literal is in range. */
  lemma LongIntExact(n: int)
    ensures Decode(Encode(LongInt(n)), 0) == Some((LongInt(n), 5))
      <==> -0x8000_0000 <= n < 0x8000_0000
  {
    Widths();
    SignedRoundTrip(n, 4);
    var ins: Instr<nat> := LongInt(n);
    assert Encode(ins)[1..5] == LE(n, 4);
  }
}
