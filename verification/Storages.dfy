/** Where variables live: symbol_info, symbol_table, var_count and the COMMON blocks.
    Local variables and blocks share the variable numbers; the members of a block share
    its number, with an offset each. */
module Storages {
  import opened Listing

  /** A block: its variable number, the size recorded for it, the elements that its
      declarations list with their dimensions, and every name with a cell in it, the
      first one at offset 1. */
  datatype CommonBlock = CommonBlock(varNo: nat, size: nat, names: seq<string>, rows: seq<int>, cols: seq<int>,
                                     cells: seq<string>)

  /** What symbol_info says besides the place: dimensions and common_index */
  datatype Attr = Attr(dim: int, index: int)

  /** blocks and order are commons and common_idx. */
  datatype Storage = Storage(info: map<string, Loc>, attrs: map<string, Attr>, table: seq<string>, count: nat,
                             blocks: map<string, CommonBlock>, order: seq<string>)

  const NoVariables := Storage(map[], map[], [], 0, map[], [])

  /** find_var() then, for a new name, make_var() with the next local variable. */
  function Touch(st: Storage, name: string): Storage {
    if name in st.info then st
    else
      st.(info := st.info[name := LocalVar(st.count)], attrs := st.attrs[name := Attr(0, -1)],
          table := st.table + [name], count := st.count + 1)
  }

  function Where(st: Storage, name: string): Loc {
    if name in st.info then st.info[name] else LocalVar(0)
  }

  /** A name is in symbol_table, and in its block, where its symbol says. */
  ghost predicate AtHome(st: Storage, x: string)
    requires x in st.info
  {
    match st.info[x]
    case LocalVar(v) => v < |st.table| && st.table[v] == x && forall b :: b in st.blocks ==> st.blocks[b].varNo != v
    case CommonVar(v, offset) =>
      && v < |st.table| && st.table[v] in st.blocks
      && var block := st.blocks[st.table[v]];
      && block.varNo == v && 1 <= offset <= |block.cells| && block.cells[offset - 1] == x
  }

  /** A block is in symbol_table, and each of its cells belongs to its name. */
  ghost predicate BlockAtHome(st: Storage, b: string)
    requires b in st.blocks
  {
    var block := st.blocks[b];
    && block.varNo < |st.table| && st.table[block.varNo] == b
    && forall k :: 0 <= k < |block.cells| ==>
         block.cells[k] in st.info && st.info[block.cells[k]] == CommonVar(block.varNo, k + 1)
  }

  /** The blocks in the order of their creation */
  ghost predicate Ordered(st: Storage) {
    && (forall b :: b in st.blocks <==> b in st.order)
    && (forall i, j :: 0 <= i < j < |st.order| ==> st.order[i] != st.order[j])
  }

  ghost predicate WellPlaced(st: Storage) {
    && st.count == |st.table|
    && (forall x :: x in st.info ==> AtHome(st, x))
    && (forall b :: b in st.blocks ==> BlockAtHome(st, b))
    && Ordered(st)
  }

  /** Different names never share a cell. */
  lemma CellsApart(st: Storage, x: string, y: string)
    requires WellPlaced(st) && x in st.info && y in st.info && st.info[x] == st.info[y]
    ensures x == y
  {
    hide Ordered;
    assert AtHome(st, x) && AtHome(st, y);
  }

  /** Every offset from 1 to the number of a block's cells belongs to exactly one name. */
  lemma OffsetsFilled(st: Storage, b: string, offset: int)
    requires WellPlaced(st) && b in st.blocks && 1 <= offset <= |st.blocks[b].cells|
    ensures var x := st.blocks[b].cells[offset - 1];
      && x in st.info && st.info[x] == CommonVar(st.blocks[b].varNo, offset)
      && forall y :: y in st.info && st.info[y] == CommonVar(st.blocks[b].varNo, offset) ==> y == x
  {
    var x := st.blocks[b].cells[offset - 1];
    assert BlockAtHome(st, b);
    forall y | y in st.info && st.info[y] == CommonVar(st.blocks[b].varNo, offset) ensures y == x {
      CellsApart(st, x, y);
    }
  }

  /** Later tables keep every name and block where it was, and stay free of shared cells. */
  ghost predicate Extends(a: Storage, b: Storage) {
    && (forall x :: x in a.info ==> x in b.info && a.info[x] == b.info[x])
    && a.count <= b.count && a.blocks == b.blocks && a.order == b.order
    && (WellPlaced(a) ==> WellPlaced(b))
  }

  lemma TouchKeeps(st: Storage, name: string)
    ensures Extends(st, Touch(st, name)) && name in Touch(st, name).info
  {
    if name !in st.info && WellPlaced(st) {
      TouchPlaced(st, name);
    }
  }

  lemma TouchPlaced(st: Storage, name: string)
    requires WellPlaced(st) && name !in st.info
    ensures WellPlaced(Touch(st, name))
  {
    var st1 := Touch(st, name);
    forall x | x in st1.info ensures AtHome(st1, x) {
      if x != name {
        assert AtHome(st, x);
      } else {
        forall b | b in st.blocks ensures st.blocks[b].varNo != st.count {
          assert BlockAtHome(st, b);
        }
      }
    }
    forall b | b in st1.blocks ensures BlockAtHome(st1, b) {
      assert BlockAtHome(st, b);
    }
  }
}
