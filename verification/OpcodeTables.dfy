/** The opcode name tables that gen_includes.py writes for the compiler. */
module OpcodeTables {

  /** The value mark */
  const VM: char := 253 as char

  type Named = (int, string)

  predicate Ascending(es: seq<Named>) {
    forall i, j :: 0 <= i < j < |es| ==> es[i].0 < es[j].0
  }

  /** What a list of values and names says */
  function Meaning(es: seq<Named>): map<int, string> {
    if es == [] then map[] else Meaning(es[..|es| - 1])[es[|es| - 1].0 := es[|es| - 1].1]
  }

  /** The first name given to each value */
  function FirstNames(es: seq<Named>): map<int, string> {
    if es == [] then map[]
    else
      var m, e := FirstNames(es[..|es| - 1]), es[|es| - 1];
      if e.0 in m then m else m[e.0 := e.1]
  }

  lemma {:induction false} MeaningAt(es: seq<Named>, i: nat)
    requires Ascending(es) && i < |es|
    ensures es[i].0 in Meaning(es) && Meaning(es)[es[i].0] == es[i].1
  {
    if i < |es| - 1 {
      MeaningAt(es[..|es| - 1], i);
    }
  }

  lemma {:induction false} ValueAt(es: seq<Named>, v: int) returns (i: nat)
    requires v in Meaning(es)
    ensures i < |es| && es[i].0 == v
  {
    if v == es[|es| - 1].0 {
      i := |es| - 1;
    } else {
      i := ValueAt(es[..|es| - 1], v);
    }
  }

  lemma LastGreatest(es: seq<Named>, v: int)
    requires Ascending(es) && v in Meaning(es)
    ensures es != [] && v <= es[|es| - 1].0
  {
    var i := ValueAt(es, v);
  }

  lemma NotInRest(es: seq<Named>)
    requires Ascending(es) && es != []
    ensures es[|es| - 1].0 !in Meaning(es[..|es| - 1]) && Ascending(es[..|es| - 1])
  {
    var rest := es[..|es| - 1];
    if es[|es| - 1].0 in Meaning(rest) {
      LastGreatest(rest, es[|es| - 1].0);
    }
  }

  lemma WithoutLast(es: seq<Named>)
    requires Ascending(es) && es != []
    ensures Meaning(es[..|es| - 1]) == Meaning(es) - {es[|es| - 1].0}
    ensures es[|es| - 1].0 in Meaning(es) && Meaning(es)[es[|es| - 1].0] == es[|es| - 1].1
  {
    var rest, e := es[..|es| - 1], es[|es| - 1];
    NotInRest(es);
    Added(Meaning(rest), Meaning(es), e.0, e.1);
  }

  lemma Added(m: map<int, string>, m1: map<int, string>, v: int, name: string)
    requires v !in m && m1 == m[v := name]
    ensures m == m1 - {v} && v in m1 && m1[v] == name
  {
  }

  /** An ascending list is determined by what it says. */
  lemma {:induction false} AscendingUnique(a: seq<Named>, b: seq<Named>)
    requires Ascending(a) && Ascending(b) && Meaning(a) == Meaning(b)
    ensures a == b
    decreases |a|
  {
    hide Meaning, Ascending;
    SaysNothing();
    if a != [] && b != [] {
      var x, y := a[|a| - 1], b[|b| - 1];
      WithoutLast(a);
      WithoutLast(b);
      LastGreatest(a, y.0);
      LastGreatest(b, x.0);
      assert x.0 == y.0 && x.1 == y.1;
      NotInRest(a);
      NotInRest(b);
      AscendingUnique(a[..|a| - 1], b[..|b| - 1]);
      assert a == a[..|a| - 1] + [x] && b == b[..|b| - 1] + [y];
    } else if a != [] {
      WithoutLast(a);
    } else if b != [] {
      WithoutLast(b);
    }
  }

  lemma SaysNothing()
    ensures Meaning([]) == map[]
  {
  }

  lemma {:induction false} MeaningConcat(a: seq<Named>, b: seq<Named>)
    ensures Meaning(a + b) == Meaning(a) + Meaning(b)
    decreases |b|
  {
    if b == [] {
      assert a + b == a;
    } else {
      assert (a + b)[..|a + b| - 1] == a + b[..|b| - 1];
      MeaningConcat(a, b[..|b| - 1]);
    }
  }

  predicate Gap(es: seq<Named>, k: nat, v: int) {
    k <= |es| && forall i :: 0 <= i < |es| ==> if i < k then es[i].0 < v else es[i].0 > v
  }

  lemma InsertedAscends(es: seq<Named>, k: nat, e: Named)
    requires Ascending(es) && Gap(es, k, e.0)
    ensures Ascending(es[..k] + [e] + es[k..])
  {
  }

  lemma GapIsNew(es: seq<Named>, k: nat, v: int)
    requires Gap(es, k, v)
    ensures v !in Meaning(es)
  {
    if v in Meaning(es) {
      var i := ValueAt(es, v);
    }
  }

  lemma InsertedMeaning(es: seq<Named>, k: nat, e: Named)
    requires Gap(es, k, e.0)
    ensures Meaning(es[..k] + [e] + es[k..]) == Meaning(es)[e.0 := e.1]
  {
    var a, b := es[..k], es[k..];
    assert es == a + b && (a + [e])[..|a + [e]| - 1] == a;
    assert Meaning(a + [e]) == Meaning(a)[e.0 := e.1];
    MeaningConcat(a, b);
    MeaningConcat(a + [e], b);
    assert Gap(b, 0, e.0);
    GapIsNew(b, 0, e.0);
    AddedBetween(Meaning(a), Meaning(b), e.0, e.1);
  }

  lemma AddedBetween(a: map<int, string>, b: map<int, string>, v: int, name: string)
    requires v !in b
    ensures a[v := name] + b == (a + b)[v := name]
  {
  }

  class Prefixed {
    var entries: seq<Named>

    constructor ()
      ensures entries == []
    {
      entries := [];
    }

    /** _insert_prefixed(): a value that is there keeps its name. */
    method Insert(value: int, name: string)
      requires Ascending(entries)
      modifies this
      ensures Ascending(entries)
      ensures value in Meaning(old(entries)) ==> entries == old(entries)
      ensures value !in Meaning(old(entries)) ==> Meaning(entries) == Meaning(old(entries))[value := name]
    {
      hide Meaning;
      var lo, hi := 0, |entries|;
      while lo < hi
        invariant 0 <= lo <= hi <= |entries|
        invariant forall i :: 0 <= i < lo ==> entries[i].0 < value
        invariant forall i :: hi <= i < |entries| ==> entries[i].0 >= value
      {
        var mid := (lo + hi) / 2;
        if entries[mid].0 < value {
          lo := mid + 1;
        } else {
          hi := mid;
        }
      }
      if lo < |entries| && entries[lo].0 == value {
        MeaningAt(entries, lo);
        return;
      }
      assert Gap(entries, lo, value);
      GapIsNew(entries, lo, value);
      InsertedAscends(entries, lo, (value, name));
      InsertedMeaning(entries, lo, (value, name));
      entries := entries[..lo] + [(value, name)] + entries[lo..];
    }
  }

  /** The lines of the opcode list, in any order: the table is ascending and has the
      first name of every value. */
  method Collect(lines: seq<Named>) returns (entries: seq<Named>)
    ensures Ascending(entries) && Meaning(entries) == FirstNames(lines)
  {
    var table := new Prefixed();
    var i := 0;
    while i < |lines|
      invariant 0 <= i <= |lines| && Ascending(table.entries) && Meaning(table.entries) == FirstNames(lines[..i])
    {
      table.Insert(lines[i].0, lines[i].1);
      assert lines[..i + 1][..i] == lines[..i];
      i := i + 1;
    }
    assert lines[..i] == lines;
    entries := table.entries;
  }

  function JoinVM(names: seq<string>): string {
    if names == [] then ""
    else if |names| == 1 then names[0]
    else names[0] + [VM] + JoinVM(names[1..])
  }

  function SplitVM(s: string): (parts: seq<string>)
    ensures |parts| > 0
  {
    if s == "" then [""]
    else if s[0] == VM then [""] + SplitVM(s[1..])
    else
      var parts := SplitVM(s[1..]);
      [[s[0]] + parts[0]] + parts[1..]
  }

  function Flat(lines: seq<string>): string {
    if lines == [] then "" else Flat(lines[..|lines| - 1]) + lines[|lines| - 1]
  }

  lemma {:induction false} JoinParts(a: seq<string>, b: seq<string>)
    requires a != [] && b != []
    ensures JoinVM(a + b) == JoinVM(a) + [VM] + JoinVM(b)
  {
    if |a| == 1 {
      assert (a + b)[1..] == b;
    } else {
      assert (a + b)[1..] == a[1..] + b;
      JoinParts(a[1..], b);
    }
  }

  /** Eight names, or those that are left, behind the separator from the line before */
  function LineOf(names: seq<string>, k: nat): string
    requires 8 * k < |names|
  {
    (if k == 0 then "" else [VM]) + JoinVM(names[8 * k..if 8 * k + 8 < |names| then 8 * k + 8 else |names|])
  }

  /** The name tables, eight names to a line: appended to each other the lines are the
      joined list. */
  method TableLines(names: seq<string>) returns (lines: seq<string>)
    ensures Flat(lines) == JoinVM(names)
    ensures |lines| == (|names| + 7) / 8
    ensures forall k :: 0 <= k < |lines| ==> lines[k] == LineOf(names, k)
  {
    hide JoinVM, Flat, LineOf;
    lines := [];
    var j := 0;
    NoLines();
    while j < |names|
      invariant 0 <= j && (j < |names| + 8) && |lines| * 8 == j
      invariant forall k :: 0 <= k < |lines| ==> lines[k] == LineOf(names, k)
      invariant Flat(lines) == JoinVM(names[..if j < |names| then j else |names|])
    {
      var end := if j + 8 < |names| then j + 8 else |names|;
      var group := JoinVM(names[j..end]);
      var line := if j == 0 then group else [VM] + group;
      LineIs(names, |lines|);
      OneLine(names, j, end, line);
      OneFlat(lines, line);
      lines := lines + [line];
      j := j + 8;
    }
    assert names[..|names|] == names;
  }

  lemma NoLines()
    ensures Flat([]) == JoinVM([])
  {
  }

  lemma LineIs(names: seq<string>, k: nat)
    requires 8 * k < |names|
    ensures var j := 8 * k;
      LineOf(names, k)
      == (if j == 0 then "" else [VM]) + JoinVM(names[j..if j + 8 < |names| then j + 8 else |names|])
  {
  }

  lemma OneLine(names: seq<string>, j: nat, end: nat, line: string)
    requires j < end <= |names| && line == (if j == 0 then "" else [VM]) + JoinVM(names[j..end])
    ensures JoinVM(names[..end]) == JoinVM(names[..j]) + line
  {
    assert names[..end] == names[..j] + names[j..end];
    if j > 0 {
      JoinParts(names[..j], names[j..end]);
    }
  }

  lemma OneFlat(lines: seq<string>, line: string)
    ensures Flat(lines + [line]) == Flat(lines) + line
  {
    assert (lines + [line])[..|lines|] == lines;
  }

  lemma {:induction false} SplitFirst(name: string, rest: string)
    requires VM !in name
    ensures SplitVM(name + [VM] + rest) == [name] + SplitVM(rest)
    decreases |name|
  {
    var s := name + [VM] + rest;
    if name == "" {
      assert s[1..] == rest;
    } else {
      assert s[1..] == name[1..] + [VM] + rest;
      SplitFirst(name[1..], rest);
      assert [s[0]] + name[1..] == name;
    }
  }

  lemma {:induction false} SplitOne(name: string)
    requires VM !in name
    ensures SplitVM(name) == [name]
  {
    if name != "" {
      SplitOne(name[1..]);
      assert [name[0]] + name[1..] == name;
    }
  }

  /** Splitting a table at its value marks gives the names back. */
  lemma {:induction false} TableReadBack(names: seq<string>)
    requires names != [] && forall i :: 0 <= i < |names| ==> VM !in names[i]
    ensures SplitVM(JoinVM(names)) == names
  {
    if |names| == 1 {
      SplitOne(names[0]);
    } else {
      SplitFirst(names[0], JoinVM(names[1..]));
      TableReadBack(names[1..]);
    }
  }
}
