/** Declarations: the members of COMMON blocks, and the pools of LOCAL routines, which
    are laid out like blocks. */
module CommonBlocks {
  import opened Outcomes
  import opened Listing
  import opened Storages

  /** An element of a declaration */
  datatype Member = Scalar(name: string) | Vector(name: string, rows: int) | Matrix(name: string, rows: int, cols: int)

  predicate Sized(m: Member) {
    match m
    case Scalar(_) => true
    case Vector(_, rows) => rows >= 1
    case Matrix(_, rows, cols) => rows >= 1 && cols >= 1
  }

  function Rows(m: Member): int { if m.Scalar? then 0 else m.rows }

  function Cols(m: Member): int { if m.Matrix? then m.cols else 0 }

  function Dim(m: Member): int { if m.Scalar? then 0 else if m.Vector? then 1 else 2 }

  /** The block of this name, made if there is none */
  function WithBlock(st: Storage, b: string): Storage {
    if b in st.blocks then st
    else
      st.(table := st.table + [b], count := st.count + 1,
          blocks := st.blocks[b := CommonBlock(st.count, 0, [], [], [], [])],
          order := st.order + [b])
  }

  /** A new name gets the cell behind the last one of the block. */
  function WithCell(st: Storage, b: string, name: string, dim: int): Storage
    requires b in st.blocks
  {
    var block := st.blocks[b];
    st.(info := st.info[name := CommonVar(block.varNo, |block.cells| + 1)],
        attrs := st.attrs[name := Attr(dim, |st.order|)],
        blocks := st.blocks[b := block.(cells := block.cells + [name])])
  }

  /** What a COMMON or PRIVATE element is listed with */
  function Listed(st: Storage, b: string, m: Member, size: nat): Storage
    requires b in st.blocks
  {
    var block := st.blocks[b];
    st.(blocks := st.blocks[b := block.(size := size, names := block.names + [m.name], rows := block.rows + [Rows(m)],
                                        cols := block.cols + [Cols(m)])])
  }

  /** One member of a COMMON block; None where the compile ends with an error. */
  function Added(st: Storage, b: string, m: Member): Option<Storage> {
    if !Sized(m) || m.name in st.info then None
    else
      var st1 := WithCell(WithBlock(st, b), b, m.name, Dim(m));
      Some(Listed(st1, b, m, |st1.blocks[b].cells|))
  }

  /** The members of one COMMON statement */
  function Declared(st: Storage, b: string, ms: seq<Member>): Option<Storage> {
    if ms == [] then Some(st)
    else match Declared(st, b, ms[..|ms| - 1])
      case None => None
      case Some(st1) => Added(st1, b, ms[|ms| - 1])
  }

  lemma BlockPlaced(st: Storage, b: string)
    requires WellPlaced(st)
    ensures WellPlaced(WithBlock(st, b)) && b in WithBlock(st, b).blocks
  {
    hide AtHome, BlockAtHome;
    if b !in st.blocks {
      var st1 := WithBlock(st, b);
      forall x | x in st1.info ensures AtHome(st1, x) {
        NameBesideBlock(st, b, x);
      }
      forall c | c in st1.blocks ensures BlockAtHome(st1, c) {
        OtherBlock(st, b, c);
      }
    }
  }

  lemma NameBesideBlock(st: Storage, b: string, x: string)
    requires st.count == |st.table| && b !in st.blocks && x in st.info && AtHome(st, x)
    ensures AtHome(WithBlock(st, b), x)
  {
  }

  lemma OtherBlock(st: Storage, b: string, c: string)
    requires st.count == |st.table| && b !in st.blocks && (c == b || (c in st.blocks && BlockAtHome(st, c)))
    ensures BlockAtHome(WithBlock(st, b), c)
  {
  }

  lemma CellPlaced(st: Storage, b: string, name: string, dim: int)
    requires WellPlaced(st) && b in st.blocks && name !in st.info
    ensures WellPlaced(WithCell(st, b, name, dim))
  {
    var st1 := WithCell(st, b, name, dim);
    forall x | x in st1.info ensures AtHome(st1, x) {
      CellName(st, b, name, dim, x);
    }
    forall c | c in st1.blocks ensures BlockAtHome(st1, c) {
      CellBlock(st, b, name, dim, c);
    }
  }

  lemma CellName(st: Storage, b: string, name: string, dim: int, x: string)
    requires WellPlaced(st) && b in st.blocks && name !in st.info && x in WithCell(st, b, name, dim).info
    ensures AtHome(WithCell(st, b, name, dim), x)
  {
    hide Ordered;
    assert BlockAtHome(st, b);
    if x != name {
      assert AtHome(st, x);
    }
  }

  lemma CellBlock(st: Storage, b: string, name: string, dim: int, c: string)
    requires WellPlaced(st) && b in st.blocks && name !in st.info && c in st.blocks
    ensures BlockAtHome(WithCell(st, b, name, dim), c)
  {
    hide Ordered, AtHome;
    assert BlockAtHome(st, c);
  }

  lemma ListedPlaced(st: Storage, b: string, m: Member, size: nat)
    requires WellPlaced(st) && b in st.blocks
    ensures WellPlaced(Listed(st, b, m, size))
  {
    var block := Listed(st, b, m, size).blocks[b];
    RelistedPlaced(st, b, block);
  }

  /** What a block is listed with, and its size, have no part in where its cells are. */
  lemma RelistedPlaced(st: Storage, b: string, block: CommonBlock)
    requires WellPlaced(st) && b in st.blocks
    requires block.varNo == st.blocks[b].varNo && block.cells == st.blocks[b].cells
    ensures WellPlaced(st.(blocks := st.blocks[b := block]))
  {
    hide AtHome, BlockAtHome;
    var st1 := st.(blocks := st.blocks[b := block]);
    forall x | x in st1.info ensures AtHome(st1, x) {
      NameRelisted(st, b, block, x);
    }
    forall c | c in st1.blocks ensures BlockAtHome(st1, c) {
      BlockRelisted(st, b, block, c);
    }
  }

  lemma NameRelisted(st: Storage, b: string, block: CommonBlock, x: string)
    requires b in st.blocks && block.varNo == st.blocks[b].varNo && block.cells == st.blocks[b].cells
    requires x in st.info && AtHome(st, x)
    ensures AtHome(st.(blocks := st.blocks[b := block]), x)
  {
  }

  lemma BlockRelisted(st: Storage, b: string, block: CommonBlock, c: string)
    requires b in st.blocks && block.varNo == st.blocks[b].varNo && block.cells == st.blocks[b].cells
    requires c in st.blocks && BlockAtHome(st, c)
    ensures BlockAtHome(st.(blocks := st.blocks[b := block]), c)
  {
  }

  lemma AddedPlaced(st: Storage, b: string, m: Member)
    requires WellPlaced(st) && Added(st, b, m).Some?
    ensures WellPlaced(Added(st, b, m).value)
  {
    hide WellPlaced;
    BlockPlaced(st, b);
    CellPlaced(WithBlock(st, b), b, m.name, Dim(m));
    var st1 := WithCell(WithBlock(st, b), b, m.name, Dim(m));
    ListedPlaced(st1, b, m, |st1.blocks[b].cells|);
  }

  lemma {:induction false} DeclaredPlaced(st: Storage, b: string, ms: seq<Member>)
    requires WellPlaced(st) && Declared(st, b, ms).Some?
    ensures WellPlaced(Declared(st, b, ms).value)
  {
    hide WellPlaced;
    if ms != [] {
      DeclaredPlaced(st, b, ms[..|ms| - 1]);
      AddedPlaced(Declared(st, b, ms[..|ms| - 1]).value, b, ms[|ms| - 1]);
    }
  }

  /** Every block's list, sizes and cells are of its members; pools of LOCAL routines are
      told by the colon that ends their names. */
  ghost predicate Filled(st: Storage) {
    forall b :: b in st.blocks && !IsPool(b) ==>
      var block := st.blocks[b];
      block.names == block.cells && block.size == |block.cells| == |block.rows| == |block.cols|
  }

  predicate IsPool(b: string) {
    b != "" && b[|b| - 1] == ':'
  }

  lemma AddedFilled(st: Storage, b: string, m: Member)
    requires Filled(st) && Added(st, b, m).Some?
    ensures Filled(Added(st, b, m).value)
  {
  }

  /** A COMMON statement is in order exactly when its members are, their names are new,
      and no two are the same. */
  ghost predicate NewMembers(st: Storage, ms: seq<Member>) {
    && (forall i :: 0 <= i < |ms| ==> Sized(ms[i]) && ms[i].name !in st.info)
    && (forall i, j :: 0 <= i < j < |ms| ==> ms[i].name != ms[j].name)
  }

  ghost predicate Named(ms: seq<Member>, name: string) {
    exists i :: 0 <= i < |ms| && ms[i].name == name
  }

  function Cells(st: Storage, b: string): nat {
    if b in st.blocks then |st.blocks[b].cells| else 0
  }

  /** The members have cells one behind the other at the end of the block, and the number
      of blocks as their index. */
  ghost predicate MembersAt(st: Storage, b: string, ms: seq<Member>, st1: Storage) {
    && (b in st1.blocks <==> b in st.blocks || ms != []) && Cells(st1, b) == Cells(st, b) + |ms|
    && (b in st.blocks ==> st1.blocks[b].varNo == st.blocks[b].varNo)
    && (forall i :: 0 <= i < |ms| ==>
          && ms[i].name in st1.info && st1.info[ms[i].name] == CommonVar(st1.blocks[b].varNo, Cells(st, b) + i + 1)
          && ms[i].name in st1.attrs && st1.attrs[ms[i].name] == Attr(Dim(ms[i]), |st1.order|))
  }

  /** Other names are as they were. */
  ghost predicate OthersKept(st: Storage, ms: seq<Member>, st1: Storage) {
    && (forall x :: x in st.info ==> x in st1.info && st1.info[x] == st.info[x])
    && (forall x :: x in st1.info ==> x in st.info || Named(ms, x))
  }

  ghost predicate OrderKept(st: Storage, b: string, ms: seq<Member>, st1: Storage) {
    st1.order == if b in st.blocks || ms == [] then st.order else st.order + [b]
  }

  /** A COMMON statement succeeds exactly when its members are new; what it leaves. */
  lemma {:induction false} DeclaredExactly(st: Storage, b: string, ms: seq<Member>)
    ensures Declared(st, b, ms).Some? <==> NewMembers(st, ms)
    ensures Declared(st, b, ms).Some? ==>
      var st1 := Declared(st, b, ms).value;
      MembersAt(st, b, ms, st1) && OthersKept(st, ms, st1) && OrderKept(st, b, ms, st1)
  {
    hide MembersAt, OthersKept, OrderKept, NewMembers, Added;
    if ms == [] {
      NothingDeclared(st, b);
    } else {
      var rest, m := ms[..|ms| - 1], ms[|ms| - 1];
      DeclaredExactly(st, b, rest);
      assert rest + [m] == ms;
      if Declared(st, b, rest).Some? {
        var st0 := Declared(st, b, rest).value;
        NewMembersSnoc(st, b, st0, rest, m);
        if Added(st0, b, m).Some? {
          MembersSnoc(st, b, rest, st0, m, Added(st0, b, m).value);
          OthersSnoc(st, b, rest, st0, m, Added(st0, b, m).value);
        }
      } else {
        NewMembersFewer(st, rest, m);
      }
    }
  }

  lemma NothingDeclared(st: Storage, b: string)
    ensures NewMembers(st, []) && MembersAt(st, b, [], st) && OthersKept(st, [], st) && OrderKept(st, b, [], st)
  {
  }

  lemma NewMembersFewer(st: Storage, rest: seq<Member>, m: Member)
    ensures NewMembers(st, rest + [m]) ==> NewMembers(st, rest)
  {
    var ms := rest + [m];
    assert forall i :: 0 <= i < |rest| ==> ms[i] == rest[i];
  }

  lemma NewMembersSnoc(st: Storage, b: string, st0: Storage, rest: seq<Member>, m: Member)
    requires NewMembers(st, rest) && MembersAt(st, b, rest, st0) && OthersKept(st, rest, st0)
    ensures NewMembers(st, rest + [m]) <==> Added(st0, b, m).Some?
  {
    var ms := rest + [m];
    assert forall i :: 0 <= i < |rest| ==> ms[i] == rest[i];
    assert ms[|rest|] == m;
    assert Named(rest, m.name) ==> !NewMembers(st, ms);
  }

  lemma MembersSnoc(st: Storage, b: string, rest: seq<Member>, st0: Storage, m: Member, st1: Storage)
    requires MembersAt(st, b, rest, st0) && OrderKept(st, b, rest, st0) && Added(st0, b, m) == Some(st1)
    requires NewMembers(st, rest + [m])
    ensures MembersAt(st, b, rest + [m], st1) && OrderKept(st, b, rest + [m], st1)
  {
    var ms := rest + [m];
    assert forall i :: 0 <= i < |rest| ==> ms[i] == rest[i] && rest[i].name != m.name by {
      assert ms[|rest|] == m;
    }
  }

  lemma OthersSnoc(st: Storage, b: string, rest: seq<Member>, st0: Storage, m: Member, st1: Storage)
    requires OthersKept(st, rest, st0) && Added(st0, b, m) == Some(st1)
    ensures OthersKept(st, rest + [m], st1)
  {
    var ms := rest + [m];
    assert ms[|rest|] == m;
    forall x | x in st1.info ensures x in st.info || Named(ms, x) {
      if x != m.name && Named(rest, x) {
        var i :| 0 <= i < |rest| && rest[i].name == x;
        assert ms[i].name == x;
      }
    }
  }

  function CommonIndex(st: Storage, x: string): int {
    if x in st.attrs then st.attrs[x].index else 0
  }

  /** A new block goes to the last place; one that is there is last only as the last one. */
  lemma LastPlace(st: Storage, b: string)
    requires WellPlaced(st)
    ensures b in st.blocks <==> b in st.order
    ensures b in st.blocks ==> st.order != []
  {
    hide AtHome, BlockAtHome;
  }

  /** common_index is the number of blocks so far.  That is the block's own place, counted
      from one, exactly when the block is new or was made last. */
  lemma IndexIsPlace(st: Storage, b: string, ms: seq<Member>, i: nat)
    requires WellPlaced(st) && Declared(st, b, ms).Some? && i < |ms|
    ensures var st1 := Declared(st, b, ms).value; var index := CommonIndex(st1, ms[i].name);
      (1 <= index <= |st1.order| && st1.order[index - 1] == b)
      <==> (b !in st.blocks || (st.order != [] && st.order[|st.order| - 1] == b))
  {
    hide WellPlaced, Declared, NewMembers, OthersKept, Ordered;
    DeclaredExactly(st, b, ms);
    LastPlace(st, b);
  }

  /** A member added to the first of two blocks is given the second one's place. */
  lemma AddedLater()
    ensures var a := Declared(NoVariables, "A", [Scalar("X")]);
      && a.Some?
      && var ab := Declared(a.value, "B", [Scalar("Y")]);
      && ab.Some?
      && var aba := Declared(ab.value, "A", [Scalar("Z")]);
      && aba.Some? && aba.value.order == ["A", "B"]
      && aba.value.info["Z"] == CommonVar(aba.value.blocks["A"].varNo, 2) && aba.value.attrs["Z"].index == 2
  {
    OneMember(NoVariables, "A", Scalar("X"));
    var a := Added(NoVariables, "A", Scalar("X")).value;
    OneMember(a, "B", Scalar("Y"));
    var ab := Added(a, "B", Scalar("Y")).value;
    OneMember(ab, "A", Scalar("Z"));
    assert a.order == ["A"] && ab.order == ["A", "B"];
    assert |ab.blocks["A"].cells| == 1;
  }

  lemma OneMember(st: Storage, b: string, m: Member)
    ensures Declared(st, b, [m]) == Added(st, b, m)
  {
    assert [m][..0] == [];
    assert Declared(st, b, []) == Some(st);
  }

  /** The names of a LOCAL routine are known with the routine's name in front. */
  function PoolKey(routine: string): string {
    routine + ":"
  }

  /** The pool of a new routine; its label has just been defined, so there is none yet. */
  function OpenPool(st: Storage, routine: string): Option<Storage> {
    var b := PoolKey(routine);
    if b in st.blocks then None
    else
      var st1 := WithBlock(st, b);
      Some(st1.(blocks := st1.blocks[b := st1.blocks[b].(size := 1)]))
  }

  function PoolCell(st: Storage, routine: string, name: string, dim: int): Option<Storage> {
    var b := PoolKey(routine);
    if b !in st.blocks || b + name in st.info then None else Some(WithCell(st, b, b + name, dim))
  }

  /** Names and dimensions, in the order they are declared in */
  function PoolCells(st: Storage, routine: string, names: seq<(string, int)>): Option<Storage> {
    if names == [] then Some(st)
    else match PoolCells(st, routine, names[..|names| - 1])
      case None => None
      case Some(st1) => PoolCell(st1, routine, names[|names| - 1].0, names[|names| - 1].1)
  }

  const FUNCRET := ":_FUNCRET"

  /** st_local(): a function's return value, the arguments, and the PRIVATE variables. */
  function LocalRoutine(st: Storage, routine: string, isFunction: bool, names: seq<(string, int)>): Option<Storage> {
    match OpenPool(st, routine)
    case None => None
    case Some(st1) => PoolCells(st1, routine, (if isFunction then [(FUNCRET, 0)] else []) + names)
  }

  lemma PoolPlaced(st: Storage, routine: string)
    requires WellPlaced(st) && OpenPool(st, routine).Some?
    ensures WellPlaced(OpenPool(st, routine).value)
  {
    hide WellPlaced, WithBlock;
    BlockPlaced(st, PoolKey(routine));
    var st1 := WithBlock(st, PoolKey(routine));
    RelistedPlaced(st1, PoolKey(routine), st1.blocks[PoolKey(routine)].(size := 1));
  }

  lemma {:induction false} PoolCellsPlaced(st: Storage, routine: string, names: seq<(string, int)>)
    requires WellPlaced(st) && PoolCells(st, routine, names).Some?
    ensures WellPlaced(PoolCells(st, routine, names).value)
  {
    hide WellPlaced;
    if names != [] {
      var rest, n := names[..|names| - 1], names[|names| - 1];
      PoolCellsPlaced(st, routine, rest);
      CellPlaced(PoolCells(st, routine, rest).value, PoolKey(routine), PoolKey(routine) + n.0, n.1);
    }
  }

  /** A LOCAL routine's variables share no cell with each other or with anything else. */
  lemma LocalPlaced(st: Storage, routine: string, isFunction: bool, names: seq<(string, int)>)
    requires WellPlaced(st) && LocalRoutine(st, routine, isFunction, names).Some?
    ensures WellPlaced(LocalRoutine(st, routine, isFunction, names).value)
  {
    hide WellPlaced, PoolCells;
    PoolPlaced(st, routine);
    PoolCellsPlaced(OpenPool(st, routine).value, routine, (if isFunction then [(FUNCRET, 0)] else []) + names);
  }

  /** find_var(): inside a LOCAL routine its own names come first. */
  function Resolve(st: Storage, routine: Option<string>, name: string): Option<Loc> {
    if routine.Some? && PoolKey(routine.value) + name in st.info then Some(st.info[PoolKey(routine.value) + name])
    else if name in st.info then Some(st.info[name])
    else None
  }

  /** Two names of the source that are found in one cell are the same, whether they are
      the routine's own or the program's.  Names of the source have no colon. */
  lemma ResolveApart(st: Storage, routine: Option<string>, x: string, y: string)
    requires WellPlaced(st) && ':' !in x && ':' !in y
    requires Resolve(st, routine, x).Some? && Resolve(st, routine, x) == Resolve(st, routine, y)
    ensures x == y
  {
    hide WellPlaced;
    var p := if routine.Some? then PoolKey(routine.value) else "";
    var a := if p + x in st.info && routine.Some? then p + x else x;
    var b := if p + y in st.info && routine.Some? then p + y else y;
    CellsApart(st, a, b);
    if a != x {
      assert (p + x)[|p| - 1] == ':' && (p + x)[|p|..] == x;
    }
    if b != y {
      assert (p + y)[|p| - 1] == ':' && (p + y)[|p|..] == y;
    }
  }

  /** Names of different routines are different. */
  lemma PoolsApart(p: string, x: string, q: string, y: string)
    requires ':' !in p && ':' !in q && PoolKey(p) + x == PoolKey(q) + y
    ensures p == q && x == y
  {
    var s := PoolKey(p) + x;
    assert s[|p|] == ':' && s[|q|] == ':';
    assert forall i :: 0 <= i < |p| ==> s[i] == p[i];
    assert forall i :: 0 <= i < |q| ==> s[i] == q[i];
    assert |p| == |q|;
    assert p == s[..|p|] == s[..|q|] == q;
    assert x == s[|p| + 1..] == s[|q| + 1..] == y;
  }
}
