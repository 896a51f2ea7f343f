/** The loads that are emitted are the shortest there are. */
module ShortForms {
  import opened Bytes
  import opened Isa
  import opened Listing
  import opened Machines

  /** Whenever it is run, the instruction pushes this. */
  ghost predicate Pushes(rt: Runtime, ins: Instr<nat>, slot: Slot) {
    forall next: nat, m: Machine :: m.Running? ==> Execute(rt, ins, next, m) == Push(m, next, slot)
  }

  /** What an instruction alone can have pushed */
  lemma OnePushed(rt: Runtime, ins: Instr<nat>, slot: Slot)
    requires Encodable(ins) && Pushes(rt, ins, slot)
    ensures match ins
      case Simple(op) => slot == Val(if op == OP_LD0 then Number(0) else if op == OP_LD1 then Number(1) else Chars([]))
      case ShortInt(n) => slot == Val(Number(n))
      case LongInt(n) => slot == Val(Number(n))
      case Text(s) => slot == Val(Chars(s))
      case ShortLocal(v) => slot == Ref(LocalVar(v))
      case Local(v) => slot == Ref(LocalVar(v))
      case Common(v, offset) => slot == Ref(CommonVar(v, offset))
      case Jump(_, _) => false
  {
    var m := Running(0, [], map[], {}, 0);
    var m1 := Execute(rt, ins, 0, m);
    assert m1 == Push(m, 0, slot) && |m1.stack| == 1 && m1.stack[0] == slot;
    match ins
    case Simple(op) => AloneSimple(rt, op, m);
    case _ =>
  }

  lemma AloneSimple(rt: Runtime, op: int, m: Machine)
    requires m.Running? && m.stack == []
    ensures var m1 := SimpleStep(rt, op, 0, m);
      m1.Running? && m1.stack != [] ==>
        m1.stack == [Val(if op == OP_LD0 then Number(0) else if op == OP_LD1 then Number(1) else Chars([]))]
  {
  }

  /** No instruction that loads this integer is shorter, and none that loads the variable. */
  lemma NumberShortest(rt: Runtime, ins: Instr<nat>, n: int)
    requires Encodable(ins) && Pushes(rt, ins, Val(Number(n)))
    ensures |Plain(NumberLoad(n))| <= |Encode(ins)|
  {
    OnePushed(rt, ins, Val(Number(n)));
    hide Pushes;
  }

  lemma VariableShortest(rt: Runtime, ins: Instr<nat>, loc: Loc)
    requires Encodable(ins) && Pushes(rt, ins, Ref(loc))
    ensures |Plain(VarLoad(loc))| <= |Encode(ins)|
  {
    OnePushed(rt, ins, Ref(loc));
    hide Pushes;
  }

  function Joined(chunks: seq<seq<byte>>): seq<byte> {
    if chunks == [] then [] else chunks[0] + Joined(chunks[1..])
  }

  lemma {:induction false} ChunksHold(chunks: seq<seq<byte>>)
    requires forall i :: 0 <= i < |chunks| ==> |chunks[i]| < 256
    ensures |Joined(chunks)| <= 255 * |chunks|
  {
    if chunks != [] {
      ChunksHold(chunks[1..]);
    }
  }

  lemma {:induction false} MoreTextSize(s: string, n: nat)
    requires |s| <= 255 * n
    ensures |MoreText(s)| <= 2 * n
    decreases |s|
  {
    if s != "" {
      MoreTextSize(s[ChunkSize(s)..], n - 1);
    }
  }

  /** A string constant is not loaded in more pieces than it needs. */
  lemma FewestChunks(s: string, chunks: seq<seq<byte>>)
    requires forall i :: 0 <= i < |chunks| ==> |chunks[i]| < 256
    requires Joined(chunks) == TextBytes(s) && chunks != []
    ensures |TextLoad(s)| <= 2 * |chunks| - 1
  {
    ChunksHold(chunks);
    if s != "" {
      MoreTextSize(s[ChunkSize(s)..], |chunks| - 1);
    }
  }
}
