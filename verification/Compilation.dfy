/** A whole compile: the lines of the source, the checks at its end, and the header. */
module Compilation {
  import opened Outcomes
  import opened Bytes
  import opened Isa
  import opened Cells
  import opened Listing
  import opened CodeImages
  import opened Linking
  import opened Syntax
  import opened Grammar
  import opened Programs
  import opened StatementGrammar
  import opened Names
  import opened Storages
  import opened Generate
  import opened Labels
  import opened ConstructStack
  import opened Rejection
  import opened Structure
  import opened Nesting
  import opened Closure
  import opened Compilers
  import opened Statements
  import opened Prelude
  import opened Heading
  import StatementRuns

  const HDR_MAGIC: nat := 0
  const HDR_START_OFFSET: nat := 6
  const HDR_NO_VARS: nat := 12
  const HDR_OBJECT_SIZE: nat := 24
  const HDR_MAGIC_NO_L: nat := 100

  /** The table that the COMMON statements at the head leave */
  function Initial(tokens: seq<Token>): Ctx {
    match ReadHead(tokens, NoVariables)
    case None => Ctx(NoVariables, 0)
    case Some(r) => Ctx(r.0, 0)
  }

  /** The other lines */
  function Body(tokens: seq<Token>): seq<Token> {
    match ReadHead(tokens, NoVariables)
    case None => []
    case Some(r) => r.1
  }

  lemma InitialGood(tokens: seq<Token>)
    ensures GoodHead(Initial(tokens).vars) && AllThere(Initial(tokens).vars)
  {
    assert GoodHead(NoVariables);
    HeadGood(tokens, NoVariables);
  }

  /** Jumps to the programmer's labels find them. */
  ghost predicate UserLinked(list: seq<Item>) {
    forall i :: 0 <= i < |list| && list[i].I? && list[i].ins.Jump? && !IsGenerated(list[i].ins.target) ==>
      D(list[i].ins.target) in list
  }

  /** What label_dict knows about undefined labels at the end. */
  ghost predicate NoUndefined(labels: map<string, int>) {
    forall key :: key in labels && labels[key] < 0 ==> IsGenerated(key)
  }

  lemma OccurrenceFound(cs: seq<Cell>, k: nat)
    requires k < |cs|
    ensures Find(cs, |cs|, cs[k]) >= 0
  {
  }

  lemma JumpEntry(list: seq<Item>, i: nat)
    requires i < |list| && list[i].I? && list[i].ins.Jump? && D(list[i].ins.target) !in list
    ensures var e := Cells.Entry(Flatten(list), list[i].ins.target); e.Some? && e.value < 0
  {
    hide Flatten, Addr, Find;
    var name := list[i].ins.target;
    JumpCells(list, i);
    DefinedInList(list, name);
    OccurrenceFound(Flatten(list), |Flatten(list[..i])| + 1);
  }

  /** Slots come from jumps. */
  lemma {:induction false} SlotFromJump(list: seq<Item>, name: string)
    requires Slot(name) in Flatten(list)
    ensures exists i :: 0 <= i < |list| && list[i].I? && list[i].ins.Jump? && list[i].ins.target == name
  {
    var rest, x := list[..|list| - 1], list[|list| - 1];
    if Slot(name) in Flatten(rest) {
      SlotFromJump(rest, name);
      var i :| 0 <= i < |rest| && rest[i].I? && rest[i].ins.Jump? && rest[i].ins.target == name;
      assert list[i] == rest[i];
    } else {
      assert Slot(name) in ItemCells(x);
      assert list[|list| - 1].ins.target == name;
    }
  }

  /** The check of label_dict is exactly the check of the listing. */
  lemma UndefinedLabels(labels: map<string, int>, list: seq<Item>)
    requires Table(labels, Flatten(list))
    ensures NoUndefined(labels) <==> UserLinked(list)
  {
    hide Flatten, Addr, Find;
    var cs := Flatten(list);
    if NoUndefined(labels) {
      forall i | 0 <= i < |list| && list[i].I? && list[i].ins.Jump? && !IsGenerated(list[i].ins.target)
        ensures D(list[i].ins.target) in list
      {
        var name := list[i].ins.target;
        assert Cells.Entry(cs, name) == if name in labels then Some(labels[name]) else None;
        if D(name) !in list {
          JumpEntry(list, i);
        }
      }
    }
    if UserLinked(list) {
      forall key | key in labels && labels[key] < 0 ensures IsGenerated(key) {
        assert Cells.Entry(cs, key) == Some(labels[key]);
        DefinedInList(list, key);
        SlotFromJump(list, key);
      }
    }
  }

  /** The lines of the source, as comp() processes them. */
  method Lines(c: Compiler, ghost base: GState) returns (r: Outcome, ghost b: Block)
    requires Ready(c) && State(c) == base
    modifies c, c.operatorStack, c.priorityStack, c.image, c.image.code
    ensures r.Fail? <==> Fails(ParseLines(Empty, old(c.rest)), base)
    ensures r.Pass? ==> Ready(c) && ParseLines(Empty, old(c.rest)) == Ok(b, []) && GenBlock(b, base) == Good(State(c))
  {
    hide Ready, ParseLine, GenStmt;
    b := Empty;
    while c.rest != []
      invariant Ready(c) && GenBlock(b, base) == Good(State(c))
      invariant ParseLines(Empty, old(c.rest)) == ParseLines(b, c.rest)
      decreases |c.rest|
    {
      ghost var before, ts := b, c.rest;
      var step;
      step, b := ProcLine(c, b, base);
      if step.Fail? {
        LinesFail(before, ts, base);
        return step, b;
      }
    }
    ReadyFits(c);
    return Pass, b;
  }

  lemma ReadyFits(c: Compiler)
    requires Ready(c)
    ensures !Long(State(c).list)
  {
    hide Scanned, Labelled;
    c.image.ValidEnd();
  }

  lemma LinesFail(acc: Block, ts: seq<Token>, base: GState)
    requires ts != [] && Fails(ParseLine(acc, ts), base)
    ensures Fails(ParseLines(acc, ts), base)
  {
    hide GenBlock, ParseLine;
    match ParseLine(acc, ts) {
      case Err =>
      case Ok(b, rest) => LinesStay(b, rest, base);
    }
  }

  /** The labels that comp_finish() complains about. */
  method CheckLabels(c: Compiler) returns (r: Outcome)
    ensures r.Pass? <==> NoUndefined(c.image.labels)
    ensures r.Fail? ==> r.error == Rejected
  {
    var keys := c.image.labels.Keys;
    while keys != {}
      invariant keys <= c.image.labels.Keys
      invariant forall key :: key in c.image.labels && key !in keys && c.image.labels[key] < 0 ==> IsGenerated(key)
      decreases |keys|
    {
      var key :| key in keys;
      keys := keys - {key};
      if c.image.labels[key] < 0 && (key == "" || key[0] != '_') {
        return Fail(Rejected);
      }
    }
    return Pass;
  }

  lemma LabelsOf(c: Compiler)
    requires Ready(c)
    ensures NoUndefined(c.image.labels) <==> UserLinked(c.image.list)
  {
    hide Scanned, Labelled, Image, Table, Flatten, Distinct;
    UndefinedLabels(c.image.labels, c.image.list);
  }

  /** A last RETURN is no label and no jump. */
  lemma LinkedReturn(list: seq<Item>)
    ensures UserLinked(list + [Op(OP_RETURN)]) <==> UserLinked(list)
  {
    var all := list + [Op(OP_RETURN)];
    assert forall name: string :: D(name) in all <==> D(name) in list;
    if UserLinked(all) {
      forall i | 0 <= i < |list| && list[i].I? && list[i].ins.Jump? && !IsGenerated(list[i].ins.target)
        ensures D(list[i].ins.target) in list
      {
        assert all[i] == list[i];
      }
    }
  }

  /** comp_finish(): a RETURN, then the checks for open constructs and undefined labels. */
  method CompFinish(c: Compiler) returns (r: Outcome)
    requires Ready(c)
    modifies c.image, c.image.code
    ensures r.Fail? ==> c.jumpStack != [] || !UserLinked(old(c.image.list)) || Long(old(c.image.list) + [Op(OP_RETURN)])
    ensures r.Pass? ==> Ready(c) && State(c) == Put(old(State(c)), [Op(OP_RETURN)])
    ensures r.Pass? ==> c.jumpStack == [] && UserLinked(c.image.list)
  {
    hide Ready, NoUndefined, UserLinked;
    LinkedReturn(c.image.list);
    :- Emit(c, OP_RETURN);
    if c.jumpStack != [] {
      return Fail(Rejected);
    }
    LabelsOf(c);
    r := CheckLabels(c);
  }

  /** The header fields that the interpreter and the library packer rely on. */
  predicate HasHeader(code: seq<byte>, start: nat, pc: nat, vars: nat) {
    && |code| >= HEADER
    && code[HDR_MAGIC..HDR_MAGIC + 1] == LE(HDR_MAGIC_NO_L, 1)
    && code[HDR_START_OFFSET..HDR_START_OFFSET + 4] == LE(start, 4)
    && code[HDR_NO_VARS..HDR_NO_VARS + 2] == LE(vars, 2)
    && code[HDR_OBJECT_SIZE..HDR_OBJECT_SIZE + 4] == LE(pc, 4)
  }

  lemma SplicedHere(code: seq<byte>, a: nat, bs: seq<byte>)
    requires a + |bs| <= |code|
    ensures Splice(code, a, bs)[a..a + |bs|] == bs
  {
  }

  /** emit_final_header(), for those fields. */
  method FinalHeader(image: CodeImage, start: nat, vars: nat) returns (r: Outcome)
    requires image.Consistent() && start <= CODE_SIZE
    modifies image.code
    ensures r.Pass? <==> vars < 0x1_0000
    ensures r.Fail? ==> r.error == BadByte
    ensures r.Pass? ==> image.Consistent() && HasHeader(image.code[..], start, image.pc, vars)
  {
    hide Image, Table, LE;
    Widths();
    assert HEADER <= image.pc <= CODE_SIZE == |image.code[..]|;
    ghost var s0 := image.code[..];
    r := image.SetHeader(HDR_MAGIC, HDR_MAGIC_NO_L, 1);
    ghost var s1 := image.code[..];
    r := image.SetHeader(HDR_START_OFFSET, start, 4);
    ghost var s2 := image.code[..];
    :- image.SetHeader(HDR_NO_VARS, vars, 2);
    ghost var s3 := image.code[..];
    r := image.SetHeader(HDR_OBJECT_SIZE, image.pc, 4);
    FourFields(s0, LE(HDR_MAGIC_NO_L, 1), LE(start, 4), LE(vars, 2), LE(image.pc, 4), s1, s2, s3, image.code[..]);
  }

  lemma FourFields(s0: seq<byte>, magic: seq<byte>, start: seq<byte>, vars: seq<byte>, size: seq<byte>, s1: seq<byte>,
                   s2: seq<byte>, s3: seq<byte>, s4: seq<byte>)
    requires |s0| >= HEADER && |magic| == 1 && |start| == 4 && |vars| == 2 && |size| == 4
    requires s1 == Splice(s0, HDR_MAGIC, magic) && s2 == Splice(s1, HDR_START_OFFSET, start)
    requires s3 == Splice(s2, HDR_NO_VARS, vars) && s4 == Splice(s3, HDR_OBJECT_SIZE, size)
    ensures |s4| >= HEADER && s4[HDR_MAGIC..HDR_MAGIC + 1] == magic
    ensures s4[HDR_START_OFFSET..HDR_START_OFFSET + 4] == start
    ensures s4[HDR_NO_VARS..HDR_NO_VARS + 2] == vars && s4[HDR_OBJECT_SIZE..HDR_OBJECT_SIZE + 4] == size
  {
    SplicedHere(s0, HDR_MAGIC, magic);
    SpliceSlice(s1, HDR_START_OFFSET, start, HDR_MAGIC, HDR_MAGIC + 1);
    SplicedHere(s1, HDR_START_OFFSET, start);
    SpliceSlice(s2, HDR_NO_VARS, vars, HDR_MAGIC, HDR_MAGIC + 1);
    SpliceSlice(s2, HDR_NO_VARS, vars, HDR_START_OFFSET, HDR_START_OFFSET + 4);
    SplicedHere(s2, HDR_NO_VARS, vars);
    SpliceSlice(s3, HDR_OBJECT_SIZE, size, HDR_MAGIC, HDR_MAGIC + 1);
    SpliceSlice(s3, HDR_OBJECT_SIZE, size, HDR_START_OFFSET, HDR_START_OFFSET + 4);
    SpliceSlice(s3, HDR_OBJECT_SIZE, size, HDR_NO_VARS, HDR_NO_VARS + 2);
    SplicedHere(s3, HDR_OBJECT_SIZE, size);
  }

  /** A nested program's code with the programmer's labels defined has no open jump. */
  lemma NestedIsClosed(p: Block, c: Ctx)
    requires NestedBlock(p, false) && UserLinked(EmitBlock(p, c, -1) + [Op(OP_RETURN)])
    ensures Closed(EmitBlock(p, c, -1) + [Op(OP_RETURN)])
  {
    hide EmitBlock, NestedBlock;
    var items := EmitBlock(p, c, -1);
    var list := items + [Op(OP_RETURN)];
    BlockLinked(p, c, -1, false, list);
    forall i | 0 <= i < |list| && list[i].I? && list[i].ins.Jump? ensures D(list[i].ins.target) in list {
      assert list[i] in items;
      assert Reaches(list[i], list, -1);
    }
  }

  /** The source is accepted: it can be read, its code can be generated, no construct is
      left open, every label it names is defined, its block names can be written, and its
      variables can be counted. */
  ghost predicate Accepted(tokens: seq<Token>) {
    var parsed := ParseLines(Empty, Body(tokens));
    && ReadHead(tokens, NoVariables).Some? && parsed.Ok?
    && var made := GenBlock(parsed.value, GState([], [], Initial(tokens)));
    && made.Good? && made.g.stack == [] && UserLinked(made.g.list)
    && Writable(Initial(tokens).vars) && made.g.ctx.vars.count < 0x1_0000
  }

  /** All cells of the image: the program, and the code that binds its blocks */
  ghost function Whole(list: seq<Item>, st: Storage): seq<Cell>
    requires AllThere(st)
  {
    Flatten(list) + PreludeCells(st)
  }

  /** Where the interpreter starts */
  function StartOf(list: seq<Item>, st: Storage): nat {
    if st.order == [] then HEADER else End(Flatten(list))
  }

  /** Neither a label nor a slot of the program is one of the prelude's. */
  ghost predicate NoCom(cs: seq<Cell>) {
    NoComLabels(cs, 0) && NoComSlots(cs, 0)
  }

  /** The program, its RETURN and its prelude fit the image. */
  ghost predicate Fits(tokens: seq<Token>)
    requires Accepted(tokens)
  {
    var st := Initial(tokens).vars;
    && AllThere(st)
    && var made := GenBlock(ParseLines(Empty, Body(tokens)).value, GState([], [], Initial(tokens)));
    && End(Whole(made.g.list + [Op(OP_RETURN)], st)) <= CODE_SIZE
  }

  /** The program that was compiled */
  ghost predicate Compiled(tokens: seq<Token>, p: Block, code: seq<byte>, pc: nat, list: seq<Item>) {
    && ReadHead(tokens, NoVariables).Some? && ParseLines(Empty, Body(tokens)).Ok?
    && NestWhole(ParseLines(Empty, Body(tokens)).value, false) == Some(p)
    && var c := Initial(tokens);
    && list == EmitBlock(p, c, -1) + [Op(OP_RETURN)]
    && Closed(list) && Distinct(list) && NoCom(Flatten(list))
    && AllThere(c.vars) && Writable(c.vars)
    && Image(code, Whole(list, c.vars)) && pc == End(Whole(list, c.vars)) <= CODE_SIZE == |code|
    && AfterBlock(p, c).vars.count < 0x1_0000
    && HasHeader(code, StartOf(list, c.vars), pc, AfterBlock(p, c).vars.count)
  }

  lemma WholeProgram(b: Block, c: Ctx, g: GState)
    requires GenBlock(b, GState([], [], c)) == Good(g) && g.stack == []
    ensures NestWhole(b, false).Some?
    ensures g.list == EmitBlock(NestWhole(b, false).value, c, -1)
    ensures g.ctx == AfterBlock(NestWhole(b, false).value, c)
  {
    hide GenBlock, NestWhole, EmitBlock, AfterBlock;
    AcceptedIsNested(b, GState([], [], c));
    var items := EmitBlock(NestWhole(b, false).value, c, -1);
    assert [] + items == items;
  }

  /** Labels of a program are the programmer's or a construct's. */
  lemma LabelsNoCom(list: seq<Item>, n: nat)
    requires Labelled(list, 0, n) && Closed(list)
    ensures NoCom(Flatten(list))
  {
    hide Flatten, Find;
    forall i: nat | i > 0 ensures Def(ComLabel(i)) !in Flatten(list) && Slot(ComLabel(i)) !in Flatten(list) {
      NotComLabel(list, n, i);
      DefinedInList(list, ComLabel(i));
      if Def(ComLabel(i)) in Flatten(list) {
        DefFound(Flatten(list), ComLabel(i));
      }
      if Slot(ComLabel(i)) in Flatten(list) {
        SlotFromJump(list, ComLabel(i));
      }
    }
  }

  lemma DefFound(cs: seq<Cell>, name: string)
    requires Def(name) in cs
    ensures Defined(cs, name)
  {
  }

  lemma NotComLabel(list: seq<Item>, n: nat, i: nat)
    requires Labelled(list, 0, n)
    ensures D(ComLabel(i)) !in list
  {
    if D(ComLabel(i)) in list {
      var k :| 0 <= k < |list| && list[k] == D(ComLabel(i));
      ComLabelApart(i, 0, "X");
      var m: nat, s: string :| 0 <= m < n && IsSuffix(s) && list[k].name == LabelName(m, s);
      ComLabelApart(i, m, s);
    }
  }

  /** Every slot's label is defined, so no entry of the label table is open. */
  ghost predicate NothingOpen(labels: map<string, int>) {
    forall key :: key in labels ==> labels[key] >= 0
  }

  lemma {:induction false} BlocksDefine(st: Storage, k: nat, name: string)
    requires AllThere(st) && k <= |st.order| && Slot(name) in BlocksCells(st, k)
    ensures Def(name) in BlocksCells(st, k)
  {
    hide ComLabel, BlockCells;
    if Slot(name) in BlocksCells(st, k - 1) {
      BlocksDefine(st, k - 1, name);
    } else {
      BlockNames(k - 1, st.order[k - 1], st.blocks[st.order[k - 1]], name);
    }
  }

  lemma TableClosed(labels: map<string, int>, list: seq<Item>, st: Storage)
    requires Closed(list) && AllThere(st) && Table(labels, Whole(list, st))
    ensures NothingOpen(labels)
  {
    var cs := Whole(list, st);
    forall key | key in labels ensures labels[key] >= 0 {
      assert Cells.Entry(cs, key) == Some(labels[key]);
      if !Defined(cs, key) {
        SlotDefined(list, st, key);
      }
    }
  }

  lemma SlotDefined(list: seq<Item>, st: Storage, name: string)
    requires Closed(list) && AllThere(st) && Slot(name) in Whole(list, st)
    ensures Defined(Whole(list, st), name)
  {
    hide Flatten, BlocksCells, Find;
    if Slot(name) in Flatten(list) {
      SlotFromJump(list, name);
      DefinedInList(list, name);
      DefinedAppend(Flatten(list), PreludeCells(st), name);
    } else {
      BlocksDefine(st, |st.order|, name);
      DefinedAppend(Flatten(list), PreludeCells(st), name);
    }
  }

  lemma WholeLong(list: seq<Item>, st: Storage)
    requires AllThere(st)
    ensures Long(list) ==> End(Whole(list, st)) > CODE_SIZE
  {
    hide Flatten, Addr, PreludeCells;
    EndOrder(Flatten(list), PreludeCells(st));
  }

  lemma LinesTooLong(tokens: seq<Token>)
    requires Fails(ParseLines(Empty, Body(tokens)), GState([], [], Initial(tokens)))
    ensures !(Accepted(tokens) && Fits(tokens))
  {
    hide ParseLines, GenBlock, UserLinked, ReadHead, Body, Writable, Whole, AllThere;
    if Accepted(tokens) && Fits(tokens) {
      var list := GenBlock(ParseLines(Empty, Body(tokens)).value, GState([], [], Initial(tokens))).g.list;
      LongMore(list, [Op(OP_RETURN)]);
      WholeLong(list + [Op(OP_RETURN)], Initial(tokens).vars);
    }
  }

  lemma FinishTooLong(tokens: seq<Token>, b: Block, g: GState)
    requires ParseLines(Empty, Body(tokens)) == Ok(b, []) && GenBlock(b, GState([], [], Initial(tokens))) == Good(g)
    requires g.stack != [] || !UserLinked(g.list) || Long(g.list + [Op(OP_RETURN)])
    ensures !(Accepted(tokens) && Fits(tokens))
  {
    hide ParseLines, GenBlock, UserLinked, ReadHead, Body, Writable, Whole, AllThere, Long;
    if Accepted(tokens) && Fits(tokens) {
      WholeLong(g.list + [Op(OP_RETURN)], Initial(tokens).vars);
    }
  }

  lemma HeadRefused(tokens: seq<Token>)
    requires ReadHead(tokens, NoVariables) == None
    ensures !Accepted(tokens)
  {
    hide ParseLines, GenBlock, ReadHead;
  }

  lemma EndRefused(tokens: seq<Token>, b: Block, g: GState)
    requires ParseLines(Empty, Body(tokens)) == Ok(b, []) && GenBlock(b, GState([], [], Initial(tokens))) == Good(g)
    requires var st := Initial(tokens).vars;
      && AllThere(st)
      && (!Writable(st) || g.ctx.vars.count >= 0x1_0000 || End(Whole(g.list + [Op(OP_RETURN)], st)) > CODE_SIZE)
    ensures !(Accepted(tokens) && Fits(tokens))
  {
    hide ParseLines, GenBlock, UserLinked, ReadHead, Body, Writable, Whole, AllThere;
  }

  lemma Finished(tokens: seq<Token>, b: Block, g: GState, p: Block, list: seq<Item>, code: seq<byte>, pc: nat)
    requires ReadHead(tokens, NoVariables).Some? && ParseLines(Empty, Body(tokens)) == Ok(b, [])
    requires GenBlock(b, GState([], [], Initial(tokens))) == Good(g) && g.stack == [] && UserLinked(g.list)
    requires NestWhole(b, false) == Some(p)
    requires list == EmitBlock(p, Initial(tokens), -1) + [Op(OP_RETURN)] == g.list + [Op(OP_RETURN)]
    requires g.ctx == AfterBlock(p, Initial(tokens)) && Closed(list) && Distinct(list) && NoCom(Flatten(list))
    requires var st := Initial(tokens).vars;
      && AllThere(st) && Writable(st) && g.ctx.vars.count < 0x1_0000
      && Image(code, Whole(list, st)) && pc == End(Whole(list, st)) <= CODE_SIZE == |code|
      && HasHeader(code, StartOf(list, st), pc, g.ctx.vars.count)
    ensures Accepted(tokens) && Fits(tokens) && Compiled(tokens, p, code, pc, list)
  {
    hide ParseLines, GenBlock, NestWhole, EmitBlock, AfterBlock, UserLinked, Closed, HasHeader, Flatten, Distinct,
         ReadHead, Writable, NoCom, AllThere, Whole, Image, Body;
  }

  /** The blocks' code and the header, behind the linked program */
  method Seal(image: CodeImage, st: Storage, ghost list: seq<Item>) returns (r: Outcome)
    requires image.Consistent() && AllThere(st) && Closed(list) && NoComLabels(image.cells, 0)
    requires image.cells == Flatten(list) && image.pc == End(Flatten(list))
    modifies image`pc, image`labels, image`cells, image.code
    ensures r.Fail? ==> !Writable(st) || st.count >= 0x1_0000 || End(Whole(list, st)) > CODE_SIZE
    ensures r.Pass? ==> Writable(st) && st.count < 0x1_0000 && NothingOpen(image.labels)
    ensures r.Pass? ==>
      && Image(image.code[..], Whole(list, st)) && image.pc == End(Whole(list, st)) <= CODE_SIZE == |image.code[..]|
      && HasHeader(image.code[..], StartOf(list, st), image.pc, st.count)
  {
    hide CodeImage.Consistent, Flatten, Closed, NoComLabels, Writable, NothingOpen, PreludeCells, Image,
         HasHeader;
    var start;
    r, start := EmitPrelude(image, st);
    if r.Pass? {
      WholeImage(image, list, st);
      EndOrder(Flatten(list), PreludeCells(st));
      r := FinalHeader(image, start, st.count);
      if r.Pass? {
        WholeImage(image, list, st);
      }
    }
  }

  /** comp(): exactly the accepted sources whose code fits are compiled, and the result is the
      linked code of a properly nested program, with every label defined. */
  method Comp(tokens: seq<Token>) returns (r: Outcome, c: Compiler, ghost p: Block)
    requires Scanned(tokens)
    ensures r.Pass? <==> Accepted(tokens) && Fits(tokens)
    ensures r.Pass? ==> Compiled(tokens, p, c.image.code[..], c.image.pc, c.image.list)
    ensures r.Pass? ==> NothingOpen(c.image.labels)
  {
    hide Scanned, Labelled, CodeImage.Consistent, ParseLines, GenBlock, NestWhole, EmitBlock, AfterBlock, UserLinked,
         Closed, HasHeader, Flatten, Distinct, ReadHead, Writable, NothingOpen, NoCom, AllThere, GoodHead, Accepted,
         Fits, Compiled, Long, Fails, Image, PreludeCells;
    p := Empty;
    c := new Compiler(tokens);
    InitialGood(tokens);
    r := Head(c);
    if r.Fail? {
      HeadRefused(tokens);
      return r, c, p;
    }
    ghost var st := c.vars;
    ghost var b;
    r, b := Lines(c, GState([], [], Initial(tokens)));
    if r.Fail? {
      LinesTooLong(tokens);
      return r, c, p;
    }
    ghost var g := State(c);
    r := CompFinish(c);
    if r.Fail? {
      FinishTooLong(tokens, b, g);
      return r, c, p;
    }
    LinkedReturn(g.list);
    WholeProgram(b, Initial(tokens), g);
    p := NestWhole(b, false).value;
    NestedIsClosed(p, Initial(tokens));
    ghost var list := c.image.list;
    ReadyImage(c);
    FinalBlocks(p, Initial(tokens));
    SamePrelude(st, c.vars);
    r := Seal(c.image, c.vars, list);
    if r.Fail? {
      EndRefused(tokens, b, g);
      return r, c, p;
    }
    SealedAs(st, c.vars, list);
    Finished(tokens, b, g, p, list, c.image.code[..], c.image.pc);
    return Pass, c, p;
  }

  /** The blocks that the table knows at the end are those of the head. */
  lemma FinalBlocks(p: Block, c: Ctx)
    ensures AfterBlock(p, c).vars.blocks == c.vars.blocks && AfterBlock(p, c).vars.order == c.vars.order
  {
    hide AfterBlock;
    StatementRuns.BlockExtends(p, c);
  }

  lemma WholeImage(image: CodeImage, list: seq<Item>, st: Storage)
    requires image.Consistent() && AllThere(st) && image.cells == Whole(list, st) && Closed(list)
    ensures Image(image.code[..], Whole(list, st)) && NothingOpen(image.labels)
    ensures image.pc == End(Whole(list, st)) <= CODE_SIZE == |image.code[..]|
  {
    hide Image, Table, Flatten, PreludeCells, Closed, NothingOpen;
    TableClosed(image.labels, list, st);
  }

  lemma SealedAs(a: Storage, b: Storage, list: seq<Item>)
    requires AllThere(a) && AllThere(b) && PreludeCells(a) == PreludeCells(b) && a.order == b.order
    ensures Whole(list, a) == Whole(list, b) && StartOf(list, a) == StartOf(list, b)
  {
    hide AllThere, PreludeCells, Flatten;
  }

  lemma ReadyImage(c: Compiler)
    requires Ready(c) && Closed(c.image.list)
    ensures c.image.Consistent() && c.image.cells == Flatten(c.image.list) && c.image.pc == End(Flatten(c.image.list))
    ensures c.image.pc <= CODE_SIZE && Distinct(c.image.list) && NoCom(c.image.cells) && NoComLabels(c.image.cells, 0)
  {
    hide Scanned, Image, Table, Flatten, Closed, NoComLabels, NoComSlots;
    LabelsNoCom(c.image.list, c.jumpNo);
  }
}
