/** The compiled bytes do what the source means, whether it ends or not. */
module Correctness {
  import opened Outcomes
  import opened Bytes
  import opened Isa
  import opened Cells
  import opened Listing
  import opened Linking
  import opened Syntax
  import opened Grammar
  import opened Programs
  import opened StatementGrammar
  import opened Names
  import opened Storages
  import opened Generate
  import opened ConstructStack
  import opened Structure
  import opened Compilation
  import opened Machines
  import opened Meanings
  import opened Runs
  import opened StatementRuns
  import opened Entries
  import opened UserLabels
  import opened Forms
  import opened Shapes
  import opened CommonBlocks
  import opened Prelude
  import opened Heading

  /** A result that leaves no loop */
  predicate Outside(r: Result) {
    r.Done? ==> r.signal.Normal? || r.signal.Go?
  }

  /** Outside every loop nothing leaves one. */
  lemma {:induction false} BlockEnds(rt: Runtime, b: Block, f: nat, env: Env, w: int)
    requires NestedBlock(b, false)
    ensures Outside(ExecBlock(rt, b, f, env, w))
    decreases f, b, 0
  {
    hide NestedStmt, ExecStmt;
    match b
    case Empty =>
    case Seq(init, last) =>
      BlockEnds(rt, init, f, env, w);
      ThenEnds(rt, ExecBlock(rt, init, f, env, w), last, f);
  }

  lemma ThenEnds(rt: Runtime, r: Result, s: Stmt, f: nat)
    requires Outside(r) && NestedStmt(s, false)
    ensures Outside(ThenStmt(rt, r, s, f))
    decreases f, s, 2
  {
    hide NestedStmt, ExecStmt;
    if r.Done? {
      StmtEnds(rt, s, f, r.env, r.world);
    }
  }

  lemma ClauseEnds(rt: Runtime, k: Clause, f: nat, env: Env, w: int)
    requires NestedClause(k, false)
    ensures Outside(ExecClause(rt, k, f, env, w))
    decreases f, k, 0
  {
    hide NestedBlock, ExecBlock;
    if k.Clause? {
      BlockEnds(rt, k.body, f, env, w);
    }
  }

  lemma {:induction false} StmtEnds(rt: Runtime, s: Stmt, f: nat, env: Env, w: int)
    requires NestedStmt(s, false)
    ensures Outside(ExecStmt(rt, s, f, env, w))
    decreases f, s, 1
  {
    hide AfterRound, ExecBlock, ExecClause, ExecArms, ExecFile, NestedClause, NestedArms, Eval, Stored;
    match s {
      case Loop(body) =>
        if f > 0 {
          RoundEnds(rt, ExecBlock(rt, body, f, env, w), s, f - 1);
        }
      case If(_, thn, els) =>
        ClauseEnds(rt, thn, f, env, w);
        ClauseEnds(rt, els, f, env, w);
      case Case(arms) =>
        ArmsEnd(rt, arms, f, env, w);
      case File(_, _, _, _, _, _) =>
        FileEnds(rt, s, f, env, w);
      case _ =>
    }
  }

  /** Whatever leaves a round, only a GOTO leaves the loop otherwise than at its end. */
  lemma {:induction false} RoundEnds(rt: Runtime, r: Result, s: Stmt, f: nat)
    requires s.Loop?
    ensures Outside(AfterRound(rt, r, s, f))
    decreases f
  {
    hide ExecBlock;
    if r.Done? && f > 0 {
      RoundEnds(rt, ExecBlock(rt, s.body, f, r.env, r.world), s, f - 1);
    }
  }

  lemma FileEnds(rt: Runtime, s: Stmt, f: nat, env: Env, w: int)
    requires s.File? && NestedStmt(s, false)
    ensures Outside(ExecFile(rt, s, f, env, w))
    decreases f, s, 0
  {
    hide ExecClause, NestedClause, Receive, EvalArgs, Modes;
    var reply := rt.file(s.call.op, Modes(s.call, s.onError, s.locked), EvalArgs(rt, s.args, env), w);
    var env', w' := Receive(s.call, s.args, reply, env), reply.world;
    ClauseEnds(rt, s.onError, f, env', w');
    ClauseEnds(rt, s.locked, f, env', w');
    ClauseEnds(rt, s.thn, f, env', w');
    ClauseEnds(rt, s.els, f, env', w');
  }

  lemma {:induction false} ArmsEnd(rt: Runtime, arms: Arms, f: nat, env: Env, w: int)
    requires NestedArms(arms, false)
    ensures var r := ExecArms(rt, arms, f, env, w); r.Some? ==> Outside(r.value)
    decreases f, arms, 0
  {
    hide ExecBlock, NestedBlock;
    match arms
    case NoArms =>
    case Arm(init, cond, body) =>
      ArmsEnd(rt, init, f, env, w);
      BlockEnds(rt, body, f, env, w);
  }

  /** Nor does anything from a label on. */
  lemma {:induction false} EnterBlockEnds(rt: Runtime, b: Block, name: string, f: nat, env: Env, w: int)
    requires NestedBlock(b, false)
    ensures Outside(EnterBlock(rt, b, name, f, env, w))
    decreases b, 0
  {
    hide NestedStmt, EnterStmt, ThenStmt, BlockLabs;
    match b
    case Empty =>
    case Seq(init, last) =>
      EnterBlockEnds(rt, init, name, f, env, w);
      ThenEnds(rt, EnterBlock(rt, init, name, f, env, w), last, f);
      EnterStmtEnds(rt, last, name, f, env, w);
  }

  lemma EnterClauseEnds(rt: Runtime, k: Clause, name: string, f: nat, env: Env, w: int)
    requires NestedClause(k, false)
    ensures Outside(EnterClause(rt, k, name, f, env, w))
    decreases k, 0
  {
    hide NestedBlock, EnterBlock;
    if k.Clause? {
      EnterBlockEnds(rt, k.body, name, f, env, w);
    }
  }

  lemma {:induction false} EnterStmtEnds(rt: Runtime, s: Stmt, name: string, f: nat, env: Env, w: int)
    requires NestedStmt(s, false)
    ensures Outside(EnterStmt(rt, s, name, f, env, w))
    decreases s, 1
  {
    hide AfterRound, EnterBlock, EnterClause, EnterArms, NestedClause, NestedArms, ClauseLabs;
    match s {
      case Loop(body) => RoundEnds(rt, EnterBlock(rt, body, name, f, env, w), s, f);
      case If(_, thn, els) =>
        EnterClauseEnds(rt, thn, name, f, env, w);
        EnterClauseEnds(rt, els, name, f, env, w);
      case Case(arms) => EnterArmsEnd(rt, arms, name, f, env, w);
      case File(_, _, onError, locked, thn, els) =>
        EnterClauseEnds(rt, onError, name, f, env, w);
        EnterClauseEnds(rt, locked, name, f, env, w);
        EnterClauseEnds(rt, thn, name, f, env, w);
        EnterClauseEnds(rt, els, name, f, env, w);
      case _ =>
    }
  }

  lemma {:induction false} EnterArmsEnd(rt: Runtime, arms: Arms, name: string, f: nat, env: Env, w: int)
    requires NestedArms(arms, false)
    ensures Outside(EnterArms(rt, arms, name, f, env, w))
    decreases arms, 0
  {
    hide EnterBlock, NestedBlock, ArmsLabs;
    match arms
    case NoArms =>
    case Arm(init, _, body) =>
      EnterArmsEnd(rt, init, name, f, env, w);
      EnterBlockEnds(rt, body, name, f, env, w);
  }

  /** How many variables the interpreter makes: it keeps the header's number in 16 signed
      bits. */
  function VarsOf(code: seq<byte>): int
    requires |code| >= HEADER
  {
    Signed(UnLE(code[HDR_NO_VARS..HDR_NO_VARS + 2]), 2)
  }

  /** The interpreter has made the variables and begins at the header's start offset, with
      no prefix pending. */
  predicate Entered(code: seq<byte>, m: Machine) {
    && |code| >= HEADER && VarsOf(code) >= 0
    && m.Running? && m.pc == UnLE(code[HDR_START_OFFSET..HDR_START_OFFSET + 4]) && m.modes == {}
  }

  /** A program gets all its variables, or can be entered at all, exactly when it has fewer
      than 32768. */
  lemma EntersExactly(tokens: seq<Token>, p: Block, code: seq<byte>, pc: nat, list: seq<Item>)
    requires Compiled(tokens, p, code, pc, list)
    ensures |code| >= HEADER
    ensures var count := AfterBlock(p, Initial(tokens)).vars.count;
      (VarsOf(code) == count <==> count < 0x8000) && (VarsOf(code) >= 0 <==> count < 0x8000)
  {
    hide ParseLines, NestWhole, EmitBlock, AfterBlock, Flatten, Image, Closed, Distinct, ReadHead, Body, Whole, NoCom,
         Writable, UnLE, LE;
    Widths();
    LERoundTrip(AfterBlock(p, Initial(tokens)).vars.count, 2);
  }

  function Object(rt: Runtime, p: Block, c: Ctx, code: seq<byte>, list: seq<Item>): Prog {
    Prog(rt, code, list, AfterBlock(p, c).vars)
  }

  /** What the interpreter can take of the COMMON blocks: fewer than 32768 members, names
      of at most 32 bytes, and no block that is named like the unnamed one's area. */
  ghost predicate BlocksFit(rt: Runtime, st: Storage) {
    ShortBlocks(st) && Bindable(st) && !("$" in st.order && LevelBlock(rt) in st.order)
  }

  /** What variables hold when a program is entered: local ones what is in their cells,
      members of a block what is in its area. */
  ghost predicate AtEntry(p: Prog, env: Env, store: map<Loc, Value>) {
    forall x :: x in p.vars.info ==>
      Lookup(env, x) == match p.vars.info[x]
        case LocalVar(v) => Get(store, LocalVar(v))
        case CommonVar(v, offset) =>
          if v < |p.vars.table| then p.rt.shared(AreaOf(p.rt, p.vars.table[v]), offset) else UNASSIGNED
  }

  lemma CompiledForm(tokens: seq<Token>, p: Block)
    requires ParseLines(Empty, tokens).Ok? && NestWhole(ParseLines(Empty, tokens).value, false) == Some(p)
    ensures NestedBlock(p, false) && FormedBlock(p)
  {
    hide ParseLines, NestWhole, NestedBlock;
    LinesForm(Empty, tokens);
    WholeKept(ParseLines(Empty, tokens).value, false);
  }

  lemma CompiledStorage(p: Block, c: Ctx)
    requires WellPlaced(c.vars) && ShortBlocks(c.vars)
    ensures WellPlaced(AfterBlock(p, c).vars)
    ensures AfterBlock(p, c).vars.blocks == c.vars.blocks && AfterBlock(p, c).vars.order == c.vars.order
    ensures AfterBlock(p, c).vars.count <= 0x1_0000 ==> Addressable(AfterBlock(p, c).vars)
  {
    hide AfterBlock, WellPlaced;
    BlockExtends(p, c);
    if AfterBlock(p, c).vars.count <= 0x1_0000 {
      CountedAddressable(AfterBlock(p, c).vars);
    }
  }

  lemma {:induction false} BlocksDefs(st: Storage, k: nat, name: string)
    requires AllThere(st) && k <= |st.order| && Def(name) in BlocksCells(st, k)
    ensures exists i: nat :: i > 0 && name == ComLabel(i)
  {
    hide ComLabel, BlockCells;
    if Def(name) in BlocksCells(st, k - 1) {
      BlocksDefs(st, k - 1, name);
    } else {
      BlockNames(k - 1, st.order[k - 1], st.blocks[st.order[k - 1]], name);
      assert k > 0 && name == ComLabel(k);
    }
  }

  /** The program's part of the image */
  lemma ProgramImage(code: seq<byte>, list: seq<Item>, st: Storage)
    requires AllThere(st) && NoCom(Flatten(list)) && Image(code, Whole(list, st)) && End(Whole(list, st)) <= CODE_SIZE
    ensures Image(code, Flatten(list)) && End(Flatten(list)) <= CODE_SIZE
  {
    hide Image, Flatten, BlocksCells;
    var cs := Flatten(list);
    EndOrder(cs, PreludeCells(st));
    forall k | 0 <= k < |cs| && cs[k].Slot? ensures Def(cs[k].name) !in PreludeCells(st) {
      assert cs[k] in cs && cs[k] == Slot(cs[k].name);
      if Def(cs[k].name) in BlocksCells(st, |st.order|) {
        BlocksDefs(st, |st.order|, cs[k].name);
      }
    }
    ImageStart(code, cs, PreludeCells(st));
  }

  lemma CompiledIsAssembled(rt: Runtime, tokens: seq<Token>, p: Block, code: seq<byte>, pc: nat, list: seq<Item>)
    requires Compiled(tokens, p, code, pc, list) && BlocksFit(rt, Initial(tokens).vars)
    ensures Assembled(Object(rt, p, Initial(tokens), code, list)) && NestedBlock(p, false) && FormedBlock(p)
  {
    hide ParseLines, NestWhole, NestedBlock, FormedBlock, EmitBlock, AfterBlock, Flatten, Image, Closed, Distinct,
         HasHeader, Shaped, Addressable, WellPlaced, Whole, NoCom, ReadHead, Bindable, Filled;
    var c := Initial(tokens);
    InitialGood(tokens);
    ProgramImage(code, list, c.vars);
    CompiledForm(Body(tokens), p);
    CompiledStorage(p, c);
    var vars := AfterBlock(p, c).vars;
    SelfExtends(vars);
    BlockShape(p, c, -1, vars);
    OpShape(OP_RETURN);
    ShapeConcat(EmitBlock(p, c, -1), [Op(OP_RETURN)]);
  }

  /** The blocks of the head can be bound. */
  lemma HeadBinds(rt: Runtime, tokens: seq<Token>, count: nat)
    requires var st := Initial(tokens).vars;
      BlocksFit(rt, st) && Writable(st) && AreasFit(rt, st) && st.count <= count < 0x8000
    ensures CanBind(rt, Initial(tokens).vars)
  {
    hide ReadHead, AtHome, Ordered, AreasFit, Bindable, Writable;
    InitialGood(tokens);
    var st := Initial(tokens).vars;
    forall b | b in st.blocks ensures st.blocks[b].varNo < 0x8000 && st.blocks[b].size < 0x8000 {
      assert BlockAtHome(st, b);
    }
  }

  /** A member's cell is its area's once its block is bound. */
  lemma MemberBound(rt: Runtime, st: Storage, vars: Storage, x: string, store: map<Loc, Value>)
    requires GoodHead(st) && WellPlaced(vars) && vars.blocks == st.blocks && vars.order == st.order
    requires x in vars.info && vars.info[x].CommonVar?
    ensures var v := vars.info[x].v;
      v < |vars.table|
      && Get(BoundBlocks(rt, st, |st.order|, store), vars.info[x])
         == rt.shared(AreaOf(rt, vars.table[v]), vars.info[x].offset)
  {
    hide BoundBlocks, BlockAtHome;
    assert AtHome(vars, x);
    var b := vars.table[vars.info[x].v];
    assert b in st.order;
    var j :| 0 <= j < |st.order| && st.order[j] == b;
    BoundBlock(rt, st, j, |st.order|, store, vars.info[x].offset);
  }

  /** Binding the blocks makes the cells hold what the environment says. */
  lemma EntryAgrees(p: Prog, st: Storage, env: Env, store: map<Loc, Value>)
    requires GoodHead(st) && AllThere(st) && WellPlaced(p.vars)
    requires p.vars.blocks == st.blocks && p.vars.order == st.order
    requires AtEntry(p, env, store)
    ensures Agree(p, env, BoundBlocks(p.rt, st, |st.order|, store))
  {
    hide BoundBlocks, GoodHead, WellPlaced, Get;
    forall x | x in p.vars.info
      ensures Get(BoundBlocks(p.rt, st, |st.order|, store), p.vars.info[x]) == Lookup(env, x)
    {
      match p.vars.info[x]
      case LocalVar(v) => OthersBound(p.rt, st, |st.order|, store, p.vars.info[x]);
      case CommonVar(v, offset) => MemberBound(p.rt, st, p.vars, x, store);
    }
  }

  /** After n steps the blocks are bound and the program's first instruction is reached, the
      stack being as it was all the time. */
  ghost predicate Binds(p: Prog, st: Storage, m: Machine, n: nat) {
    && m.Running? && AllThere(st) && StackKept(p.rt, p.code, m, n)
    && Run(p.rt, p.code, m, n) == m.(pc := Pc(p, 0), store := BoundBlocks(p.rt, st, |st.order|, m.store))
  }

  /** From the header's start offset every block is bound in the order of its creation, and
      the program's first instruction is reached with the stack as it was. */
  lemma BindsFirst(rt: Runtime, tokens: seq<Token>, p: Block, code: seq<byte>, pc: nat, list: seq<Item>, m: Machine)
    returns (n: nat)
    requires Compiled(tokens, p, code, pc, list) && BlocksFit(rt, Initial(tokens).vars)
    requires AreasFit(rt, Initial(tokens).vars)
    requires Entered(code, m)
    ensures Binds(Object(rt, p, Initial(tokens), code, list), Initial(tokens).vars, m, n)
    ensures AreasApart(rt, Initial(tokens).vars)
  {
    hide ParseLines, NestWhole, EmitBlock, AfterBlock, Image, Closed, Distinct, LE, ReadHead, Flatten, PreludeCells,
         AreasFit, Writable, Run, BoundBlocks, CanBind, StackKept, ShortBlocks, Bindable, AreasApart;
    EntersExactly(tokens, p, code, pc, list);
    AreasApartExactly(rt, Initial(tokens).vars);
    Widths();
    var c := Initial(tokens);
    EndOrder(Flatten(list), PreludeCells(c.vars));
    LERoundTrip(StartOf(list, c.vars), 4);
    AtZero(list);
    CountGrows(p, c);
    HeadBinds(rt, tokens, AfterBlock(p, c).vars.count);
    n := PreludeRun(rt, code, Flatten(list), c.vars, m);
  }

  lemma CountGrows(p: Block, c: Ctx)
    ensures c.vars.count <= AfterBlock(p, c).vars.count
  {
    hide AfterBlock, WellPlaced;
    BlockExtends(p, c);
  }

  /** Both have ended: with the same values and the same files, and the stack as it was. */
  ghost predicate EndsAs(p: Prog, m: Machine, r: Result, m1: Machine) {
    && m.Running? && r.Done? && r.signal.Normal? && m1.Finished?
    && m1.stack == m.stack && m1.world == r.world && Agree(p, r.env, m1.store)
  }

  /** A compiled program in a system that can hold its blocks, about to be entered with the
      values that env gives its variables and the files w */
  ghost predicate Loaded(rt: Runtime, tokens: seq<Token>, p: Block, code: seq<byte>, pc: nat, list: seq<Item>,
                         m: Machine, env: Env, w: int)
  {
    && Compiled(tokens, p, code, pc, list)
    && BlocksFit(rt, Initial(tokens).vars) && AreasFit(rt, Initial(tokens).vars)
    && Entered(code, m) && m.world == w && AtEntry(Object(rt, p, Initial(tokens), code, list), env, m.store)
  }

  /** The code of the whole program, and what it comes to for every allowance of rounds. */
  lemma WholeRun(rt: Runtime, tokens: seq<Token>, p: Block, code: seq<byte>, pc: nat, list: seq<Item>, f: nat,
                 m: Machine, env: Env, w: int)
    returns (n: nat, m1: Machine)
    requires Loaded(rt, tokens, p, code, pc, list, m, env, w)
    ensures Run(rt, code, m, n) == m1
    ensures var r := ExecProgram(rt, p, f, env, w);
      && (r.Spin? ==> m1.Running? && n >= f)
      && (r.Done? ==> EndsAs(Object(rt, p, Initial(tokens), code, list), m, r, m1))
  {
    hide ParseLines, NestWhole, EmitBlock, AfterBlock, Flatten, Image, Closed, Distinct, HasHeader, ExecProgram,
         Run, Agree, Assembled, Pc, NestedBlock, FormedBlock, ReadHead, Body, Whole, NoCom, Writable, BoundBlocks,
         GoodHead, WellPlaced, BlocksFit, AreasFit, AtEntry;
    var c := Initial(tokens);
    var prog := Object(rt, p, c, code, list);
    CompiledIsAssembled(rt, tokens, p, code, pc, list);
    CompiledForm(Body(tokens), p);
    var start := BindsFirst(rt, tokens, p, code, pc, list, m);
    var m0 := m.(pc := Pc(prog, 0), store := BoundBlocks(rt, c.vars, |c.vars.order|, m.store));
    EntryHolds(rt, tokens, p, code, list, env, m.store);
    n, m1 := ProgramRun(prog, p, c, f, m0, env);
    Compose(prog, m, start, m0, n, m1);
    n := start + n;
  }

  lemma EntryHolds(rt: Runtime, tokens: seq<Token>, p: Block, code: seq<byte>, list: seq<Item>, env: Env,
                   store: map<Loc, Value>)
    requires BlocksFit(rt, Initial(tokens).vars) && AtEntry(Object(rt, p, Initial(tokens), code, list), env, store)
    ensures AllThere(Initial(tokens).vars)
    ensures Agree(Object(rt, p, Initial(tokens), code, list), env,
                  BoundBlocks(rt, Initial(tokens).vars, |Initial(tokens).vars.order|, store))
  {
    hide AfterBlock, ReadHead, Agree, AtEntry, BoundBlocks, WellPlaced, Bindable, Filled;
    InitialGood(tokens);
    CompiledStorage(p, Initial(tokens));
    EntryAgrees(Object(rt, p, Initial(tokens), code, list), Initial(tokens).vars, env, store);
  }

  /** The program proper */
  lemma ProgramRun(prog: Prog, p: Block, c: Ctx, f: nat, m: Machine, env: Env) returns (n: nat, m1: Machine)
    requires Assembled(prog) && prog.list == EmitBlock(p, c, -1) + [Op(OP_RETURN)] && prog.vars == AfterBlock(p, c).vars
    requires NestedBlock(p, false) && FormedBlock(p)
    requires m.Running? && m.pc == Pc(prog, 0) && m.modes == {} && Agree(prog, env, m.store)
    ensures Run(prog.rt, prog.code, m, n) == m1
    ensures var r := ExecProgram(prog.rt, p, f, env, m.world);
      && (r.Spin? ==> m1.Running? && n >= f)
      && (r.Done? ==> EndsAs(prog, m, r, m1))
  {
    hide EmitBlock, AfterBlock, ExecBlock, Follow, Run, Agree, Assembled, Pc, NestedBlock, FormedBlock, WellPlaced,
         Ended;
    var items, a := EmitBlock(p, c, -1), Around(-1, 0, 0);
    ProgramPlaced(prog, items);
    SelfExtends(prog.vars);
    n, m1 := BlockRun(prog, a, false, f, p, c, 0, m, env, m.world);
    BlockEnds(prog.rt, p, f, env, m.world);
    n, m1 := FollowRun(prog, p, c, f, m, n, m1, ExecBlock(prog.rt, p, f, env, m.world));
    var r := ExecProgram(prog.rt, p, f, env, m.world);
    if r.Done? {
      EndedNormal(prog, a, f, |items|, m, n, m1, r);
      BeginsFacts(prog, m1, |items|, r.env, r.world);
      SimpleRun(prog, |items|, OP_RETURN, m1);
      Compose(prog, m, n, m1, 1, Finished(m1.stack, m1.store, m1.world));
      n, m1 := n + 1, Finished(m1.stack, m1.store, m1.world);
    } else {
      EndedSpin(prog, a, f, |items|, m, n, m1);
    }
  }

  /** A program's GOTOs are followed to their labels, each at the cost of a step at least. */
  lemma {:induction false} FollowRun(prog: Prog, p: Block, c: Ctx, f: nat, m: Machine, n: nat, m1: Machine, r: Result)
    returns (n2: nat, m2: Machine)
    requires Assembled(prog) && prog.list == EmitBlock(p, c, -1) + [Op(OP_RETURN)] && prog.vars == AfterBlock(p, c).vars
    requires NestedBlock(p, false) && FormedBlock(p) && Outside(r)
    requires Ended(prog, Around(-1, 0, 0), f, |EmitBlock(p, c, -1)|, m, n, m1, r)
    ensures var r1 := Follow(prog.rt, p, r, f);
      && (r1.Done? ==> r1.signal.Normal?)
      && Ended(prog, Around(-1, 0, 0), f, |EmitBlock(p, c, -1)|, m, n2, m2, r1)
    decreases f
  {
    hide EmitBlock, AfterBlock, EnterBlock, Run, Agree, Assembled, Pc, NestedBlock, FormedBlock, WellPlaced, Ended,
         BlockLabs, Enters;
    var items, a := EmitBlock(p, c, -1), Around(-1, 0, 0);
    n2, m2 := n, m1;
    if r.Done? && r.signal.Go? {
      var name := r.signal.name;
      EndedGo(prog, a, f, |items|, m, n, m1, r);
      HasMark(prog, p, c, name);
      if f == 0 {
        SpinsAtOnce(prog, a, |items|, m, n, m1, r);
      } else {
        ProgramPlaced(prog, items);
        SelfExtends(prog.vars);
        n2, m2 := EnterBlockRun(prog, a, false, f - 1, p, name, c, 0, m1, r.env, r.world);
        EnterBlockEnds(prog.rt, p, name, f - 1, r.env, r.world);
        var r1 := EnterBlock(prog.rt, p, name, f - 1, r.env, r.world);
        n2, m2 := FollowRun(prog, p, c, f - 1, m1, n2, m2, r1);
        OneRound(prog, a, f, f - 1, |items|, m, n, m1, n2, m2, Follow(prog.rt, p, r1, f - 1));
        n2 := n + n2;
      }
    }
  }

  lemma EndedGo(p: Prog, a: Around, f: nat, k: nat, m: Machine, n: nat, m1: Machine, r: Result)
    requires Ended(p, a, f, k, m, n, m1, r) && r.Done? && r.signal.Go?
    ensures Enters(p, m1, r.signal.name, r.env, r.world) && m1.Running? && m.Running? && m1.stack == m.stack
    ensures Run(p.rt, p.code, m, n) == m1 && n >= 1 && D(r.signal.name) in p.list && !IsGenerated(r.signal.name)
  {
    hide Run, Begins, Spot;
  }

  lemma SpinsAtOnce(p: Prog, a: Around, k: nat, m: Machine, n: nat, m1: Machine, r: Result)
    requires Ended(p, a, 0, k, m, n, m1, r)
    ensures Ended(p, a, 0, k, m, n, m1, Spin)
  {
    hide Run, Begins, Spot;
  }

  /** A label of the programmer's that the code defines is one of the program's. */
  lemma HasMark(prog: Prog, p: Block, c: Ctx, name: string)
    requires prog.list == EmitBlock(p, c, -1) + [Op(OP_RETURN)] && D(name) in prog.list && !IsGenerated(name)
    ensures name in BlockLabs(p).marks
  {
    hide EmitBlock, BlockLabs;
    var m := set x | x in BlockLabs(p).marks;
    BlockMarks(p, c, -1, m);
  }

  lemma EndedSpin(p: Prog, a: Around, f: nat, k: nat, m: Machine, n: nat, m1: Machine)
    requires Ended(p, a, f, k, m, n, m1, Spin)
    ensures m1.Running? && Run(p.rt, p.code, m, n) == m1 && n >= f
  {
  }

  lemma ProgramPlaced(p: Prog, items: seq<Item>)
    requires p.list == items + [Op(OP_RETURN)]
    ensures Placed(p, 0, items) && |items| < |p.list| && p.list[|items|] == Op(OP_RETURN)
  {
  }

  /** If the source ends, so does the compiled program, with the same values in its
      variables and the same files, and with the stack it was entered with. */
  lemma MeaningKept(rt: Runtime, tokens: seq<Token>, p: Block, code: seq<byte>, pc: nat, list: seq<Item>, f: nat,
                    m: Machine, env: Env, w: int)
    returns (n: nat)
    requires Loaded(rt, tokens, p, code, pc, list, m, env, w)
    requires ExecProgram(rt, p, f, env, w).Done?
    ensures EndsAs(Object(rt, p, Initial(tokens), code, list), m, ExecProgram(rt, p, f, env, w),
                   Run(rt, code, m, n))
  {
    hide ParseLines, EmitBlock, AfterBlock, ExecProgram, Run, Agree, Compiled, ReadHead, BlocksFit, AreasFit,
         AtEntry;
    var m1;
    n, m1 := WholeRun(rt, tokens, p, code, pc, list, f, m, env, w);
  }

  /** If the compiled program stops, it stops properly, and the source ends with the same
      result. */
  lemma StopsOnlyAtEnd(rt: Runtime, tokens: seq<Token>, p: Block, code: seq<byte>, pc: nat, list: seq<Item>, n: nat,
                       m: Machine, env: Env, w: int)
    returns (f: nat)
    requires Loaded(rt, tokens, p, code, pc, list, m, env, w)
    requires !Run(rt, code, m, n).Running?
    ensures EndsAs(Object(rt, p, Initial(tokens), code, list), m, ExecProgram(rt, p, f, env, w),
                   Run(rt, code, m, n))
  {
    hide ParseLines, EmitBlock, AfterBlock, ExecProgram, Run, Agree, Compiled, ReadHead, BlocksFit, AreasFit,
         AtEntry;
    f := n + 1;
    var n', m' := WholeRun(rt, tokens, p, code, pc, list, f, m, env, w);
    SameStop(rt, code, m, n, n');
  }

  /** Once stopped, more steps change nothing; so two stops are the same. */
  lemma SameStop(rt: Runtime, code: seq<byte>, m: Machine, a: nat, b: nat)
    requires !Run(rt, code, m, a).Running?
    ensures a <= b ==> Run(rt, code, m, b) == Run(rt, code, m, a)
    ensures !Run(rt, code, m, b).Running? ==> Run(rt, code, m, b) == Run(rt, code, m, a)
  {
    hide Run;
    if a <= b {
      RunAdd(rt, code, m, a, b - a);
      Stopped(rt, code, Run(rt, code, m, a), b - a);
    } else if !Run(rt, code, m, b).Running? {
      RunAdd(rt, code, m, b, a - b);
      Stopped(rt, code, Run(rt, code, m, b), a - b);
    }
  }

  /** No number of rounds is enough. */
  ghost predicate NeverEnds(rt: Runtime, p: Block, env: Env, w: int) {
    forall f: nat :: ExecProgram(rt, p, f, env, w).Spin?
  }

  ghost predicate NeverStops(rt: Runtime, code: seq<byte>, m: Machine) {
    forall n: nat :: Run(rt, code, m, n).Running?
  }

  /** The source runs for ever exactly when the compiled program does. */
  lemma DivergenceKept(rt: Runtime, tokens: seq<Token>, p: Block, code: seq<byte>, pc: nat, list: seq<Item>,
                       m: Machine, env: Env, w: int)
    requires Loaded(rt, tokens, p, code, pc, list, m, env, w)
    ensures NeverEnds(rt, p, env, w) <==> NeverStops(rt, code, m)
  {
    hide ParseLines, EmitBlock, AfterBlock, ExecProgram, Run, Agree, Compiled, ReadHead, BlocksFit, AreasFit,
         AtEntry;
    if NeverEnds(rt, p, env, w) {
      forall n: nat ensures Run(rt, code, m, n).Running? {
        if !Run(rt, code, m, n).Running? {
          var f := StopsOnlyAtEnd(rt, tokens, p, code, pc, list, n, m, env, w);
        }
      }
    }
    if NeverStops(rt, code, m) {
      forall f: nat ensures ExecProgram(rt, p, f, env, w).Spin? {
        if ExecProgram(rt, p, f, env, w).Done? {
          var n := MeaningKept(rt, tokens, p, code, pc, list, f, m, env, w);
        }
      }
    }
  }
}
