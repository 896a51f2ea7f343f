/** A block is rejected as soon as its beginning is: reading only adds to it, and code
    is generated from front to back. */
module Rejection {
  import opened Isa
  import opened Syntax
  import opened Grammar
  import opened Programs
  import opened StatementGrammar
  import opened ConstructStack
  import opened Overruns
  import opened Listing
  import opened Generate
  import opened Names
  import opened Room

  /** The reading fails, or its code cannot be generated or does not fit the image. */
  ghost predicate Fails(p: Parse<Block>, base: GState) {
    p.Err? || Lost(GenBlock(p.value, base))
  }

  ghost predicate StmtFails(p: Parse<Stmt>, g: GState) {
    p.Err? || Lost(GenStmt(p.value, g))
  }

  lemma {:induction false} StmtStays(acc: Block, t: Token, ts: seq<Token>, base: GState)
    requires Lost(GenBlock(acc, base))
    ensures Fails(ParseStmt(acc, t, ts), base)
    decreases Size(t, ts)
  {
    hide ParseSet, ParseKeyword, GenBlock, Lost;
    if t.kind == TKN_SEMICOLON {
      StmtStays(acc, Look(ts), Tail(ts), base);
    } else if t.kind == TKN_NAME && IsWord(t, "END") {
      EndStays(acc, ts);
    }
    if ParseStmt(acc, t, ts).Ok? && ParseStmt(acc, t, ts).value.Seq? {
      SeqRoom(acc, ParseStmt(acc, t, ts).value.last, base);
    }
  }

  lemma {:induction false} EndStays(acc: Block, ts: seq<Token>)
    ensures ParseEnd(acc, ts).Err? || ParseEnd(acc, ts) == Ok(acc, [])
    decreases |ts|
  {
    if ts != [] {
      EndStays(acc, ts[1..]);
    }
  }

  /** A statement that fails makes the rest of its group fail. */
  lemma {:induction false} GroupFails(acc: Block, t: Token, ts: seq<Token>, base: GState)
    requires Fails(ParseStmt(acc, t, ts), base)
    ensures Fails(ParseGroup(acc, t, ts), base)
    decreases Size(t, ts)
  {
    hide GenBlock, ParseStmt;
    match ParseStmt(acc, t, ts) {
      case Err =>
      case Ok(b, rest) =>
        if Look(rest).kind == TKN_SEMICOLON {
          StmtStays(b, Look(Tail(rest)), Tail(Tail(rest)), base);
          GroupFails(b, Look(Tail(rest)), Tail(Tail(rest)), base);
        }
    }
  }

  lemma GroupStays(acc: Block, t: Token, ts: seq<Token>, base: GState)
    requires Lost(GenBlock(acc, base))
    ensures Fails(ParseGroup(acc, t, ts), base)
  {
    StmtStays(acc, t, ts, base);
    GroupFails(acc, t, ts, base);
  }

  /** A rejected label, or nothing more to read after one. */
  ghost predicate StartFails(s: Start, base: GState) {
    s.Bad? || Lost(GenBlock(s.acc, base))
  }

  lemma {:induction false} SkipKeeps(acc: Block, t: Token, ts: seq<Token>)
    ensures SkipRemark(acc, t, ts).acc == acc
    decreases Size(t, ts)
  {
    if t.kind != TKN_END {
      SkipKeeps(acc, Look(ts), Tail(ts));
    }
  }

  lemma AfterLabelStays(acc: Block, ts: seq<Token>)
    ensures AfterLabel(acc, ts).Bad? || AfterLabel(acc, ts).acc == acc
  {
    SkipKeeps(acc, Look(ts), Tail(ts));
  }

  lemma LabelStays(acc: Block, t: Token, ts: seq<Token>, base: GState)
    requires Lost(GenBlock(acc, base))
    ensures StartFails(TakeLabel(acc, t, ts), base)
  {
    hide GenBlock, AfterLabel, Lost;
    SeqRoom(acc, LabelMark(t.text), base);
    if t.kind == TKN_LABEL && t.text != "" {
      SeqRoom(acc, LabelMark(LabelText(t.text)), base);
      AfterLabelStays(Seq(acc, LabelMark(LabelText(t.text))), ts);
    } else {
      AfterLabelStays(Seq(acc, LabelMark(t.text)), Tail(ts));
      AfterLabelStays(Seq(acc, LabelMark(t.text)), ts);
    }
  }

  lemma PrefetchedFails(acc: Block, t: Token, ts: seq<Token>, base: GState)
    requires StartFails(TakeLabel(acc, t, ts), base)
    ensures Fails(ParsePrefetched(acc, t, ts), base)
  {
    hide GenBlock, ParseGroup, TakeLabel;
    match TakeLabel(acc, t, ts) {
      case Bad =>
      case Start(acc', t', ts') => GroupStays(acc', t', ts', base);
    }
  }

  lemma PrefetchedStays(acc: Block, t: Token, ts: seq<Token>, base: GState)
    requires Lost(GenBlock(acc, base))
    ensures Fails(ParsePrefetched(acc, t, ts), base)
  {
    LabelStays(acc, t, ts, base);
    PrefetchedFails(acc, t, ts, base);
  }

  lemma {:induction false} BodyStays(acc: Block, ts: seq<Token>, base: GState)
    requires Lost(GenBlock(acc, base))
    ensures Fails(ParseBody(acc, ts), base)
    decreases |ts|
  {
    hide GenBlock, ParsePrefetched, TakeLabel;
    if ts != [] {
      LabelStays(acc, ts[0], ts[1..], base);
      match TakeLabel(acc, ts[0], ts[1..]) {
        case Bad =>
        case Start(acc', t', ts') =>
          PrefetchedStays(acc', t', ts', base);
          match ParsePrefetched(acc', t', ts') {
            case Err =>
            case Ok(b, rest) => BodyStays(b, rest, base);
          }
      }
    }
  }

  /** A line that fails makes the rest of its clause fail. */
  lemma BodyFails(acc: Block, ts: seq<Token>, base: GState)
    requires ts != []
    requires
      var start := TakeLabel(acc, ts[0], ts[1..]);
      || StartFails(start, base)
      || (!IsWord(start.t, "END") && Fails(ParsePrefetched(start.acc, start.t, start.ts), base))
    ensures Fails(ParseBody(acc, ts), base)
  {
    hide GenBlock, ParsePrefetched, TakeLabel;
    match TakeLabel(acc, ts[0], ts[1..]) {
      case Bad =>
      case Start(acc', t', ts') =>
        if Lost(GenBlock(acc', base)) {
          PrefetchedStays(acc', t', ts', base);
        }
        match ParsePrefetched(acc', t', ts') {
          case Err =>
          case Ok(b, rest) => BodyStays(b, rest, base);
        }
    }
  }

  lemma {:induction false} ElementStays(acc: Block, ts: seq<Token>, base: GState)
    requires Lost(GenBlock(acc, base))
    ensures Fails(ParseElement(acc, ts), base)
    decreases |ts|
  {
    hide GenBlock, ParseLine, EndLine;
    if !(IsWord(Look(ts), "CASE") || IsWord(Look(ts), "END") || ts == []) {
      LineStays(acc, ts, base);
      match ParseLine(acc, ts) {
        case Err =>
        case Ok(b, rest) => ElementStays(b, EndLine(rest), base);
      }
    }
  }

  lemma ElementFails(acc: Block, ts: seq<Token>, base: GState)
    requires !(IsWord(Look(ts), "CASE") || IsWord(Look(ts), "END") || ts == [])
    requires Fails(ParseLine(acc, ts), base)
    ensures Fails(ParseElement(acc, ts), base)
  {
    hide GenBlock, ParseLine, EndLine;
    match ParseLine(acc, ts) {
      case Err =>
      case Ok(b, rest) => ElementStays(b, EndLine(rest), base);
    }
  }

  lemma LineStays(acc: Block, ts: seq<Token>, base: GState)
    requires Lost(GenBlock(acc, base))
    ensures Fails(ParseLine(acc, ts), base)
  {
    PrefetchedStays(acc, Look(ts), Tail(ts), base);
  }

  lemma {:induction false} LinesStay(acc: Block, ts: seq<Token>, base: GState)
    requires Lost(GenBlock(acc, base))
    ensures Fails(ParseLines(acc, ts), base)
    decreases |ts|
  {
    hide GenBlock, ParseLine;
    if ts != [] {
      LineStays(acc, ts, base);
      match ParseLine(acc, ts) {
        case Err =>
        case Ok(b, rest) => LinesStay(b, rest, base);
      }
    }
  }

  lemma {:induction false} ArmsStay(arms: Arms, ts: seq<Token>, base: GState)
    requires Lost(GenArms(arms, base))
    ensures ParseArms(arms, ts).Err? || Lost(GenArms(ParseArms(arms, ts).value, base))
    decreases |ts|
  {
    hide ParseExpr, ParseFirst, ParseElement, GenArm, EndLine, NextArm;
    if !(IsWord(Look(ts), "END") || ts == []) && IsWord(Look(ts), "CASE") {
      ArmStays(arms, Tail(ts), base);
      match ParseArm(arms, Tail(ts)) {
        case Err =>
        case Ok(more, rest) => ArmsStay(more, rest, base);
      }
    }
  }

  lemma ArmKinds(arms: Arms, ts: seq<Token>)
    ensures ParseArm(arms, ts).Ok? ==> ParseArm(arms, ts).value.Arm? && ParseArm(arms, ts).value.init == arms
  {
    hide ParseExpr, ParseFirst, ParseElement, EndLine;
  }

  lemma ArmStays(arms: Arms, ts: seq<Token>, base: GState)
    requires Lost(GenArms(arms, base)) || Lost(GenElements(arms, base))
    ensures ParseArm(arms, ts).Err? || Lost(GenArms(ParseArm(arms, ts).value, base))
  {
    hide ParseArm, GenArms, GenElements, Lost;
    ArmKinds(arms, ts);
    match ParseArm(arms, ts) {
      case Err =>
      case Ok(more, _) => MoreRoom(arms, more.cond, more.body, base);
    }
  }

  /** An element that fails makes the whole CASE fail. */
  lemma ArmsFail(arms: Arms, ts: seq<Token>, base: GState)
    requires !IsWord(Look(ts), "END") && ts != [] && IsWord(Look(ts), "CASE")
    requires ParseArm(arms, Tail(ts)).Err? || Lost(GenArms(ParseArm(arms, Tail(ts)).value, base))
    ensures ParseArms(arms, ts).Err? || Lost(GenElements(ParseArms(arms, ts).value, base))
  {
    hide ParseArm, GenArms, GenElements, Lost;
    match ParseArm(arms, Tail(ts)) {
      case Err =>
      case Ok(more, rest) =>
        ArmsStay(more, rest, base);
        if ParseArms(more, rest).Ok? {
          ElementsRoom(ParseArms(more, rest).value, base);
        }
    }
  }

  /** So does the step from one element to the next. */
  lemma ElementsFail(arms: Arms, ts: seq<Token>, base: GState)
    requires GenArms(arms, base).Good? && Lost(NextArm(GenArms(arms, base).g))
    ensures ParseArms(arms, ts).Err? || Lost(GenElements(ParseArms(arms, ts).value, base))
  {
    hide ParseArm, NextArm, Lost, GenArms;
    assert GenElements(arms, base) == NextArm(GenArms(arms, base).g);
    hide GenElements;
    if !(IsWord(Look(ts), "END") || ts == []) && IsWord(Look(ts), "CASE") {
      ArmStays(arms, Tail(ts), base);
      match ParseArm(arms, Tail(ts)) {
        case Err =>
        case Ok(more, rest) =>
          ArmsStay(more, rest, base);
          if ParseArms(more, rest).Ok? {
            ElementsRoom(ParseArms(more, rest).value, base);
          }
      }
    }
  }

  /** An element whose first statements fail. */
  lemma FirstFails(ts: seq<Token>, start: GState)
    requires Fails(ParseFirst(ts), start)
    ensures ParseFirst(ts).Ok? ==> Fails(ParseElement(ParseFirst(ts).value, EndLine(ParseFirst(ts).rest)), start)
  {
    hide ParseFirst, ParseElement, GenBlock;
    match ParseFirst(ts) {
      case Err =>
      case Ok(b, rest) => ElementStays(b, EndLine(rest), start);
    }
  }

  /** The parts of a file operation in the order they are read. */
  lemma FileParts(call: Call, args: Exprs, ts: seq<Token>)
    ensures ParseOnError(EndLine(ts)).Err? ==> ParseFile(call, args, ts).Err?
    ensures ParseOnError(EndLine(ts)).Ok? ==>
              var first := ParseOnError(EndLine(ts));
              var second := ParseLocked(call, first.rest);
              && (second.Err? ==> ParseFile(call, args, ts).Err?)
              && (second.Ok? ==>
                  ParseFile(call, args, ts) == ParseChoice(call, args, first.value, second.value, second.rest))
    ensures ParseFile(call, args, ts).Ok? ==>
              var s := ParseFile(call, args, ts).value;
              s.File? && s.call == call && s.args == args && s.onError == ParseOnError(EndLine(ts)).value
  {
    hide ParseOnError, ParseLocked, ParseChoice;
  }

  lemma FileGen(s: Stmt, g: GState)
    requires s.File?
    ensures GenStmt(s, g) == GenFile(s, GenOperands(s.call, s.args, g))
    ensures var g1 := GenOperands(s.call, s.args, g);
      && (Long(g1.list) || Lost(GenCall(s.call, s.onError, g1)) ==> Lost(GenStmt(s, g)))
      && (forall g2 ::
            GenCall(s.call, s.onError, g1) == Good(g2) && Lost(GenLocked(s.call, s.locked, |g1.list| - 1, g2)) ==>
            Lost(GenStmt(s, g)))
  {
    hide GenCall, GenLocked, GenChoice, Operands, Long;
    var g1 := GenOperands(s.call, s.args, g);
    assert NullAt(s.call, |g1.list| - 1, g1);
    FileRoom(s, g1);
  }

  lemma FileSteps(s: Stmt, g: GState, g1: GState, g2: GState, g3: GState, g4: GState)
    requires s.File? && g1 == GenOperands(s.call, s.args, g) && GenCall(s.call, s.onError, g1) == Good(g2)
    requires GenLocked(s.call, s.locked, |g1.list| - 1, g2) == Good(g3) && GenChoice(s, g3) == Good(g4)
    ensures GenStmt(s, g) == Good(g4)
  {
    hide GenCall, GenOperands, GenLocked, GenChoice;
    assert GenFile(s, g1) == Good(g4);
  }

  /** A file operation fails where its first failing part does. */
  lemma FileFailsAt(call: Call, args: Exprs, ts: seq<Token>, g: GState)
    ensures var p, g1, first := ParseFile(call, args, ts), GenOperands(call, args, g), ParseOnError(EndLine(ts));
      && (Long(g1.list) || first.Err? || Lost(GenCall(call, first.value, g1)) ==> StmtFails(p, g))
      && (first.Ok? && GenCall(call, first.value, g1).Good? ==>
          var g2, second := GenCall(call, first.value, g1).g, ParseLocked(call, first.rest);
          && (second.Err? || Lost(GenLocked(call, second.value, |g1.list| - 1, g2)) ==> StmtFails(p, g))
          && (second.Ok? ==>
              var third := ParseChoice(call, args, first.value, second.value, second.rest);
              var locked := GenLocked(call, second.value, |g1.list| - 1, g2);
              p == third && (locked.Good? && ChoiceFails(third, locked.g) ==> StmtFails(p, g))))
  {
    hide ParseOnError, ParseLocked, ParseChoice, ParseFile, GenCall, GenLocked, GenChoice, GenStmt, GenOperands, Long;
    FileParts(call, args, ts);
    if ParseFile(call, args, ts).Ok? {
      FileGen(ParseFile(call, args, ts).value, g);
    }
  }

  /** A statement whose beginning does not fit */
  lemma SetFails(name: string, kind: int, ts: seq<Token>, g: GState)
    ensures Long(Value(g, Var(name)).list) ==> StmtFails(ParseSet(name, kind, ts), g)
  {
    hide ParseExpr, EmitE, AfterE, Long, GenSet;
    match ParseSet(name, kind, ts) {
      case Err =>
      case Ok(s, _) => SetRoom(name, s.op, s.e, s.short, g);
    }
  }

  lemma TestFails(until: bool, ts: seq<Token>, g: GState)
    ensures NoRoom(ParseExpr(ts), g.list, g.ctx) ==> StmtFails(ParseTest(until, ts), g)
  {
    hide ParseExpr, EmitE, AfterE, Long, FindLoop;
    match ParseExpr(ts) {
      case Err =>
      case Ok(e, _) =>
        if FindLoop(g.stack) >= 0 {
          PutRoom(Value(g, e), [I(Jump(TestOp(until), LabelName(FindLoop(g.stack), "X")))]);
        }
    }
  }

  lemma IfFails(ts: seq<Token>, g: GState)
    ensures NoRoom(ParseExpr(ts), g.list, g.ctx) ==> StmtFails(ParseIfStmt(ts), g)
  {
    hide ParseExpr, ParseBranches, EmitE, AfterE, Long, GenIf;
    match ParseIfStmt(ts) {
      case Err =>
      case Ok(s, _) => IfRoom(s, Open(Value(g, s.cond), IfEntry));
    }
  }

  lemma ArmFails(arms: Arms, ts: seq<Token>, base: GState)
    requires GenElements(arms, base).Good?
    ensures var g := GenElements(arms, base).g; NoRoom(ParseExpr(ts), g.list, g.ctx) ==>
              ParseArm(arms, ts).Err? || Lost(GenArms(ParseArm(arms, ts).value, base))
  {
    hide ParseExpr, ParseFirst, ParseElement, EndLine, EmitE, AfterE, Long, GenArm, NextArm;
    match ParseArm(arms, ts) {
      case Err =>
      case Ok(more, _) => ArmRoom(more.cond, more.body, GenElements(arms, base).g);
    }
  }

  ghost predicate ArmLost(p: Parse<Arms>, base: GState) {
    p.Err? || Lost(GenArms(p.value, base))
  }

  /** An element: its condition, the jump past it, its first statements and its lines */
  lemma ArmParts(arms: Arms, ts: seq<Token>, base: GState)
    requires GenElements(arms, base).Good?
    ensures var p, e, g := ParseArm(arms, ts), ParseExpr(ts), GenElements(arms, base).g;
      && (NoRoom(e, g.list, g.ctx) ==> ArmLost(p, base))
      && (e.Ok? ==>
          var g1, first := Value(g, e.value), ParseFirst(e.rest);
          && (!IsTop(g1, CaseEntry) ==> ArmLost(p, base))
          && (IsTop(g1, CaseEntry) ==>
              var start := JumpTop(g1, OP_JFALSE, CaseSuffix(g1.stack[0].element));
              && (Long(start.list) || Fails(first, start) ==> ArmLost(p, base))
              && (first.Ok? ==>
                  var body := ParseElement(first.value, EndLine(first.rest));
                  && (Fails(body, start) ==> ArmLost(p, base))
                  && (body.Ok? ==>
                      && p == Ok(Arm(arms, e.value, body.value), body.rest)
                      && GenArms(p.value, base) == GenBlock(body.value, start)))))
  {
    hide ParseExpr, ParseFirst, ParseElement, EndLine, EmitE, AfterE, Long, NextArm, GenBlock, JumpTop;
    ArmFails(arms, ts, base);
    if ParseExpr(ts).Ok? {
      var e, g := ParseExpr(ts).value, GenElements(arms, base).g;
      var g1 := Value(g, e);
      if IsTop(g1, CaseEntry) {
        var start := JumpTop(g1, OP_JFALSE, CaseSuffix(g1.stack[0].element));
        if Fails(ParseFirst(ParseExpr(ts).rest), start) {
          FirstFails(ParseExpr(ts).rest, start);
        }
      }
      if ParseArm(arms, ts).Ok? {
        var body := ParseArm(arms, ts).value.body;
        ArmRoom(e, body, g);
        assert GenArms(Arm(arms, e, body), base) == GenArm(e, body, g);
      }
    }
  }

  lemma FileFails(call: Call, args: Exprs, ts: seq<Token>, g: GState)
    ensures Long(Operands(args, g).list) || Long(GenOperands(call, args, g).list) ==>
              StmtFails(ParseFile(call, args, ts), g)
  {
    hide ParseOnError, ParseLocked, ParseChoice, GenStmt, Operands, Long, ParseFile, Lost;
    FileParts(call, args, ts);
    LockRoom(call, Open(Operands(args, g), BackEndEntry));
    if ParseFile(call, args, ts).Ok? {
      FileGen(ParseFile(call, args, ts).value, g);
    }
  }

  lemma KeyFails(call: Call, args: Exprs, ts: seq<Token>, g: GState)
    ensures Long(Operands(args, g).list) ==> StmtFails(ParseKey(call, args, ts), g)
    ensures Look(ts).kind == TKN_COMMA && ParseExpr(Tail(ts)).Ok?
            && Long(Operands(Args(args, ParseExpr(Tail(ts)).value), g).list) ==>
              StmtFails(ParseKey(call, args, ts), g)
  {
    hide ParseExpr, ParseFile, GenStmt, Operands, Long;
    if Look(ts).kind == TKN_COMMA && ParseExpr(Tail(ts)).Ok? {
      var k := ParseExpr(Tail(ts));
      OperandRoom(args, k.value, g);
      FileFails(call, Args(args, k.value), k.rest, g);
    }
  }

  lemma ReadFails(lock: nat, ts: seq<Token>, g: GState)
    ensures ParseName(ts).Ok? ==>
              var v := ParseName(ts);
              && (Long(Operands(One(v.value), g).list) ==> StmtFails(ParseRead(lock, ts), g))
              && (ParseName(Tail(v.rest)).Ok? && Long(Operands(Two(v.value, ParseName(Tail(v.rest)).value), g).list) ==>
                  StmtFails(ParseRead(lock, ts), g))
  {
    hide ParseKey, GenStmt, Operands, Long, Upper;
    if ParseName(ts).Ok? && ParseName(Tail(ParseName(ts).rest)).Ok? {
      var v, f := ParseName(ts), ParseName(Tail(ParseName(ts).rest));
      OperandRoom(One(v.value), f.value, g);
      KeyFails(Call(lock, OP_READ, lock > 0, true), Two(v.value, f.value), f.rest, g);
    }
  }

  ghost predicate SuccessFails(p: Parse<Stmt>, g: GState) {
    p.Err? || (p.value.File? && Lost(GenSuccess(p.value, g)))
  }

  /** THEN, with or without ELSE: what each part comes to */
  lemma SuccessParts(call: Call, args: Exprs, onError: Clause, locked: Clause, ts: seq<Token>, g: GState)
    ensures Fails(ParseClause(ts), g) ==> SuccessFails(ParseSuccess(call, args, onError, locked, ts), g)
    ensures ParseClause(ts).Ok? && GenBlock(ParseClause(ts).value, g).Good? ==>
              var p, a := ParseSuccess(call, args, onError, locked, ts), ParseClause(ts);
              var g1, us := GenBlock(a.value, g).g, EndLine(a.rest);
              var turn, more := Define(JumpTop(g1, OP_JMP, "X"), TopLabel(g1, "E")), ParseClause(Tail(us));
              var flat := Define(g1, TopLabel(g1, "E"));
              && (!IsTop(g1, BackEndEntry) ==> SuccessFails(p, g))
              && (IsTop(g1, BackEndEntry) && !IsWord(Look(us), "ELSE") ==>
                  && p == Ok(File(call, args, onError, locked, Clause(a.value), Absent), us)
                  && GenSuccess(p.value, g) == if flat.Bad? then Gen.Bad else Close(flat.g, "X"))
              && (IsTop(g1, BackEndEntry) && IsWord(Look(us), "ELSE") ==>
                  && (Lost(turn) || more.Err? ==> SuccessFails(p, g))
                  && (more.Ok? ==>
                      p == Ok(File(call, args, onError, locked, Clause(a.value), Clause(more.value)), more.rest))
                  && (more.Ok? && turn.Good? ==> GenSuccess(p.value, g) == GenOther(Clause(more.value), turn.g)))
  {
    hide ParseClause, GenBlock, GenOther, Define, Close, JumpTop, TopLabel, EndLine, IsWord, Long;
    if ParseSuccess(call, args, onError, locked, ts).Ok? {
      SuccessRoom(ParseSuccess(call, args, onError, locked, ts).value, g);
    }
  }

  ghost predicate ThenFails(p: Parse<Stmt>, g: GState) {
    p.Err? || (p.value.If? && Lost(GenThen(p.value, g)))
  }

  lemma ThenParts(cond: Expr, ts: seq<Token>, g: GState)
    ensures Fails(ParseClause(ts), g) ==> ThenFails(ParseThen(cond, ts), g)
    ensures ParseClause(ts).Ok? && GenBlock(ParseClause(ts).value, g).Good? ==>
              var p, a := ParseThen(cond, ts), ParseClause(ts);
              var g1, us := GenBlock(a.value, g).g, EndLine(a.rest);
              var turn, more := Define(JumpTop(g1, OP_JMP, "X"), TopLabel(g1, "E")), ParseClause(Tail(us));
              && (!IsTop(g1, IfEntry) ==> ThenFails(p, g))
              && (IsTop(g1, IfEntry) && !IsWord(Look(us), "ELSE") ==>
                  p == Ok(If(cond, Clause(a.value), Absent), us) && GenThen(p.value, g) == Close(g1, "E"))
              && (IsTop(g1, IfEntry) && IsWord(Look(us), "ELSE") ==>
                  && (Lost(turn) || more.Err? ==> ThenFails(p, g))
                  && (more.Ok? ==> p == Ok(If(cond, Clause(a.value), Clause(more.value)), more.rest))
                  && (more.Ok? && turn.Good? ==> GenThen(p.value, g) == GenElse(Clause(more.value), turn.g)))
  {
    hide ParseClause, GenBlock, GenElse, Define, Close, JumpTop, TopLabel, EndLine, IsWord, Long;
    if ParseThen(cond, ts).Ok? {
      ThenRoom(ParseThen(cond, ts).value, g);
    }
  }

  ghost predicate ChoiceFails(p: Parse<Stmt>, g: GState) {
    p.Err? || (p.value.File? && Lost(GenChoice(p.value, g)))
  }

  lemma ChoiceParts(call: Call, args: Exprs, onError: Clause, locked: Clause, ts: seq<Token>, g: GState)
    ensures var p, us := ParseChoice(call, args, onError, locked, ts), EndLine(ts);
      var fail, done := JumpTop(g, OP_JZE, "X"), JumpTop(g, OP_JNZ, "E");
      var els, thn := ParseClause(Tail(us)), ParseSuccess(call, args, onError, locked, Tail(us));
      if !call.thenElse then
        && p == Ok(File(call, args, onError, locked, Absent, Absent), ts)
        && GenChoice(p.value, g) == Close(Put(g, [Op(OP_POP)]), "X")
        && (Long(Put(g, [Op(OP_POP)]).list) ==> ChoiceFails(p, g))
      else if IsWord(Look(us), "ELSE") then
        && (Long(fail.list) || els.Err? ==> ChoiceFails(p, g))
        && (els.Ok? ==>
            && p == Ok(File(call, args, onError, locked, Absent, Clause(els.value)), els.rest)
            && GenChoice(p.value, g) == GenOther(Clause(els.value), fail))
      else if IsWord(Look(us), "THEN") then
        && p == thn && (Long(done.list) ==> ChoiceFails(p, g)) && (SuccessFails(thn, done) ==> ChoiceFails(p, g))
        && (thn.Ok? ==> thn.value.File? && GenChoice(thn.value, g) == GenSuccess(thn.value, done))
      else p.Err?
  {
    hide ParseClause, ParseSuccess, GenOther, GenSuccess, Close, JumpTop, EndLine, IsWord, Long;
    if ParseChoice(call, args, onError, locked, ts).Ok? {
      ChoiceRoom(ParseChoice(call, args, onError, locked, ts).value, g);
    }
  }

  /** ON ERROR, or the plain operation */
  lemma OnErrorParts(call: Call, ts: seq<Token>, g: GState)
    ensures var p, k := ParseOnError(ts), ParseClause(Tail(Tail(ts)));
      var g1 := Put(g, [Op(OP_ONERROR)]);
      var g2 := Put(g1, [Op(call.op)]);
      var g3 := Put(g2, [Op(OP_DUP)]);
      if !IsWord(Look(ts), "ON") || !IsWord(Look(Tail(ts)), "ERROR") then
        && p == Ok(Absent, ts) && GenCall(call, Absent, g) == Good(Put(g, [Op(call.op)]))
        && (Long(Put(g, [Op(call.op)]).list) ==> Lost(GenCall(call, Absent, g)))
      else
        && (k.Err? ==> p.Err?)
        && (Long(g1.list) || Long(g2.list) || Long(g3.list) ==> p.Err? || Lost(GenCall(call, p.value, g)))
        && (k.Ok? ==>
            && p == Ok(Clause(k.value), k.rest)
            && GenCall(call, p.value, g) == GenAside(p.value, "A", Put(JumpTop(g3, OP_JPZ, "A"), [Op(OP_POP)])))
  {
    hide ParseClause, GenAside, JumpTop, Long;
    ThreePuts(g, [Op(OP_ONERROR)], [Op(call.op)], [Op(OP_DUP)]);
    if ParseOnError(ts).Ok? {
      CallRoom(call, ParseOnError(ts).value, g);
    }
  }

  /** LOCKED, or nothing */
  lemma LockedParts(call: Call, ts: seq<Token>, t: int, g: GState)
    requires NullAt(call, t, g)
    ensures !call.canLock ==> ParseLocked(call, ts) == Ok(Absent, ts)
    ensures GenLocked(call, Absent, t, g) == Good(g)
    ensures call.canLock ==>
      var p, us := ParseLocked(call, ts), EndLine(ts);
      var k := ParseClause(Tail(us));
      var g1 := Put(Patched(t, g), [Op(OP_DUP)]);
      var g2 := Put(g1, [I(NumberLoad(ER_LCK))]);
      var g3 := Put(g2, [Op(OP_EQ)]);
      if !IsWord(Look(us), "LOCKED") then p == Ok(Absent, us)
      else
        && (k.Err? ==> p.Err?)
        && (Long(g1.list) || Long(g2.list) || Long(g3.list) ==> p.Err? || Lost(GenLocked(call, p.value, t, g)))
        && (k.Ok? ==>
            && p == Ok(Clause(k.value), k.rest)
            && GenLocked(call, p.value, t, g) == GenAside(p.value, "B", Put(JumpTop(g3, OP_JZE, "B"), [Op(OP_POP)])))
  {
    hide ParseClause, GenAside, JumpTop, Long, Lost;
    if call.canLock {
      ThreePuts(Patched(t, g), [Op(OP_DUP)], [I(NumberLoad(ER_LCK))], [Op(OP_EQ)]);
      if ParseLocked(call, ts).Ok? {
        LockedRoom(call, ParseLocked(call, ts).value, t, g);
      }
    }
  }

  /** BEGIN CASE: the elements, and what has to follow them */
  lemma CaseParts(ts: seq<Token>, g: GState)
    ensures var p, start := ParseCase(ts), Open(g, CaseEntry);
      if !IsWord(Look(ts), "CASE") || Look(Tail(ts)).kind != TKN_END then StmtFails(p, g)
      else
        var arms := ParseArms(NoArms, Tail(Tail(ts)));
        && (arms.Err? || Lost(GenElements(arms.value, start)) ==> StmtFails(p, g))
        && (arms.Ok? && (arms.rest == [] || !IsWord(Look(Tail(arms.rest)), "CASE")) ==> StmtFails(p, g))
        && (arms.Ok? && arms.rest != [] && IsWord(Look(Tail(arms.rest)), "CASE") ==>
            && p == Ok(Case(arms.value), Tail(Tail(arms.rest)))
            && var made := GenElements(arms.value, start);
            && (made.Good? ==> GenStmt(p.value, g) == Close(made.g, "X"))
            && (made.Good? && (made.g.stack == [] || Close(made.g, "X").Bad?) ==> StmtFails(p, g)))
  {
    hide ParseArms, GenElements, IsWord, Long;
    if ParseCase(ts).Ok? {
      CaseRoom(ParseCase(ts).value.arms, g);
    }
  }

  lemma GotoParts(name: string, rest: seq<Token>, g: GState)
    ensures var g1 := Put(g, [I(Jump(OP_JMP, name))]);
      if IsGenerated(name) then GenStmt(Goto(name), g).Bad?
      else
        && GenStmt(Goto(name), g) == Good(g1)
        && (Long(g1.list) ==> StmtFails(Ok(Goto(name), rest), g))
  {
    hide Long, Put;
  }

  ghost predicate BranchesFail(p: Parse<Stmt>, g: GState) {
    p.Err? || (p.value.If? && Lost(GenIf(p.value, g)))
  }

  /** THEN or ELSE after the condition of an IF */
  lemma BranchParts(cond: Expr, ts: seq<Token>, g: GState)
    ensures var p, t := ParseBranches(cond, ts), Look(ts);
      var thn, els := JumpTop(g, OP_JFALSE, "E"), JumpTop(g, OP_JTRUE, "X");
      var other, more := ParseClause(Tail(ts)), ParseThen(cond, Tail(ts));
      if IsWord(t, "THEN") then
        && p == more && (Long(thn.list) || ThenFails(more, thn) ==> BranchesFail(p, g))
        && (more.Ok? && more.value.If? && more.value.thn.Clause? ==> GenIf(more.value, g) == GenThen(more.value, thn))
      else if IsWord(t, "ELSE") then
        && (Long(els.list) || other.Err? ==> BranchesFail(p, g))
        && (other.Ok? ==>
            && p == Ok(If(cond, Absent, Clause(other.value)), other.rest)
            && GenIf(p.value, g) == GenElse(Clause(other.value), els))
      else p.Err?
  {
    hide ParseClause, ParseThen, GenThen, GenElse, JumpTop, IsWord, Long;
    if ParseBranches(cond, ts).Ok? {
      IfRoom(ParseBranches(cond, ts).value, g);
    }
  }
}
