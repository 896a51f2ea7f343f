/** The backpatch chain of an undefined label, read off the image itself. */
module Chains {
  import opened Outcomes
  import opened Bytes
  import opened Isa
  import opened Cells

  /** Follow the links from address a down to zero. */
  function Follow(code: seq<byte>, a: nat): seq<nat>
    decreases a
  {
    if a == 0 || a + 3 > |code| then []
    else
      var next := UnLE(code[a..a + 3]);
      [a] + if next < a then Follow(code, next) else []
  }

  /** The addresses of a label's slots among the first n cells, latest first. */
  function Slots(cs: seq<Cell>, n: nat, name: string): seq<nat>
    requires n <= |cs|
  {
    if n == 0 then [] else (if cs[n - 1] == Slot(name) then [Addr(cs, n - 1)] else []) + Slots(cs, n - 1, name)
  }

  /** A slot holds the address of the slot before it, or zero. */
  lemma SlotLink(code: seq<byte>, cs: seq<Cell>, k: nat, name: string)
    requires Image(code, cs) && !Defined(cs, name) && |code| <= CODE_SIZE && k < |cs| && cs[k] == Slot(name)
    ensures var a, q := Addr(cs, k), Find(cs, k, Slot(name));
      a + 3 <= |code| && UnLE(code[a..a + 3]) < a && UnLE(code[a..a + 3]) == if q < 0 then 0 else Addr(cs, q)
  {
    CellBytes(code, cs, k);
    hide Image;
    var q := Find(cs, k, Slot(name));
    if q >= 0 {
      AddrOrder(cs, q, k);
    }
    Width(Link(cs, k), 3);
  }

  lemma {:induction false} FollowsSlots(code: seq<byte>, cs: seq<Cell>, n: nat, name: string)
    requires Image(code, cs) && !Defined(cs, name) && |code| <= CODE_SIZE && n <= |cs|
    ensures var p := Find(cs, n, Slot(name)); Follow(code, if p < 0 then 0 else Addr(cs, p)) == Slots(cs, n, name)
    decreases n
  {
    hide Image, Addr, UnLE, Defined, Follow;
    if n == 0 {
      FollowEnd(code);
    } else {
      FollowsSlots(code, cs, n - 1, name);
      if cs[n - 1] == Slot(name) {
        SlotLink(code, cs, n - 1, name);
        FollowStep(code, Addr(cs, n - 1));
      }
    }
  }

  lemma FollowEnd(code: seq<byte>)
    ensures Follow(code, 0) == []
  {
  }

  lemma FollowStep(code: seq<byte>, a: nat)
    requires 0 < a && a + 3 <= |code| && UnLE(code[a..a + 3]) < a
    ensures Follow(code, a) == [a] + Follow(code, UnLE(code[a..a + 3]))
  {
  }

  /** The chain that starts at the label's entry is exactly the label's slots. */
  lemma ChainIsExact(labels: map<string, int>, code: seq<byte>, cs: seq<Cell>, name: string)
    requires Image(code, cs) && Table(labels, cs) && |code| <= CODE_SIZE && !Defined(cs, name)
    ensures name in labels ==> labels[name] < 0
    ensures Follow(code, if name in labels then -labels[name] else 0) == Slots(cs, |cs|, name)
  {
    TableEntry(labels, cs, name);
    FollowsSlots(code, cs, |cs|, name);
    hide Image, Follow, Addr;
    assert Entry(cs, name) == if name in labels then Some(labels[name]) else None;
  }

  predicate Apart(s: seq<nat>) {
    forall i, j :: 0 <= i < j < |s| ==> s[j] + 3 <= s[i]
  }

  lemma ApartCons(a: nat, s: seq<nat>)
    requires Apart(s) && forall i :: 0 <= i < |s| ==> s[i] + 3 <= a
    ensures Apart([a] + s)
  {
    var t := [a] + s;
    forall i, j | 0 <= i < j < |t| ensures t[j] + 3 <= t[i] {
      assert t[j] == s[j - 1];
      if i > 0 {
        assert t[i] == s[i - 1];
      }
    }
  }

  /** Slots lie apart, three bytes each, further down the chain means further down the
      image, and every slot of the label is there. */
  lemma {:induction false} SlotsApart(cs: seq<Cell>, n: nat, name: string)
    requires n <= |cs|
    ensures var s := Slots(cs, n, name);
      && (forall i :: 0 <= i < |s| ==> HEADER <= s[i] && s[i] + 3 <= Addr(cs, n))
      && Apart(s)
      && (forall k :: 0 <= k < n && cs[k] == Slot(name) ==> Addr(cs, k) in s)
  {
    hide Apart;
    if n == 0 {
      NoneApart();
    } else {
      SlotsApart(cs, n - 1, name);
      if cs[n - 1] == Slot(name) {
        ApartCons(Addr(cs, n - 1), Slots(cs, n - 1, name));
      } else {
        assert [] + Slots(cs, n - 1, name) == Slots(cs, n - 1, name);
      }
    }
  }

  lemma NoneApart()
    ensures Apart([])
  {
  }
}
