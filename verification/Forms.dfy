/** What the parser builds is well formed: operators have their operands, short stores
    their constants, and file operations the operands and clauses they need. */
module Forms {
  import opened Outcomes
  import opened Isa
  import opened Syntax
  import opened Grammar
  import opened Programs
  import opened StatementGrammar
  import opened ConstructStack
  import opened Structure
  import opened Machines
  import opened Meanings

  lemma OperatorArity(ts: seq<Token>)
    requires OpLevel(ts) > 0
    ensures Arity(Opcode(ts[0].kind)) == 2
  {
  }

  lemma FormedBin(op: int, l: Expr, r: Expr)
    requires Arity(op) == 2 && FormedExpr(l) && FormedExpr(r)
    ensures FormedExpr(Bin(op, l, r))
  {
    assert ArgCount(One(l)) == 1 && FormedArgs(One(l));
    assert ArgCount(Two(l, r)) == 2;
  }

  lemma FormedFour(op: int, a: Expr, b: Expr, c: Expr, d: Expr)
    requires FormedExpr(a) && FormedExpr(b)
    ensures Arity(op) == 1 ==> FormedExpr(App(op, One(a)))
    ensures Arity(op) == 3 && FormedExpr(c) ==> FormedExpr(App(op, Three(a, b, c)))
    ensures Arity(op) == 4 && FormedExpr(c) && FormedExpr(d) ==> FormedExpr(App(op, Four(a, b, c, d)))
  {
    assert ArgCount(One(a)) == 1 && FormedArgs(One(a));
    assert ArgCount(Two(a, b)) == 2 && FormedArgs(Two(a, b));
    assert ArgCount(Three(a, b, c)) == 3 && (FormedExpr(c) ==> FormedArgs(Three(a, b, c)));
    assert ArgCount(Four(a, b, c, d)) == 4;
  }

  ghost predicate FormedResult(r: Parse<Expr>) {
    r.Ok? ==> FormedExpr(r.value)
  }

  lemma ExprForm(ts: seq<Token>)
    ensures FormedResult(ParseExpr(ts))
    decreases |ts|, 20
  {
    LevelForm(7, ts);
  }

  lemma {:induction false} LevelForm(k: nat, ts: seq<Token>)
    requires k <= 7
    ensures FormedResult(ParseLevel(k, ts))
    decreases |ts|, 10 + k
  {
    hide ParseItem, LoopLevel, FormedExpr;
    if k == 0 {
      ItemForm(false, ts);
    } else {
      LevelForm(k - 1, ts);
      match ParseLevel(k - 1, ts) {
        case Err =>
        case Ok(e, rest) => LoopForm(k, e, rest);
      }
    }
  }

  lemma {:induction false} LoopForm(k: nat, e: Expr, ts: seq<Token>)
    requires 1 <= k <= 7 && FormedExpr(e)
    ensures FormedResult(LoopLevel(k, e, ts))
    decreases |ts|, 10 + k
  {
    hide ParseLevel, FormedExpr, Opcode, Arity;
    if OpLevel(ts) == k {
      LevelForm(k - 1, ts[1..]);
      match ParseLevel(k - 1, ts[1..]) {
        case Err =>
        case Ok(right, rest) =>
          OperatorArity(ts);
          FormedBin(Opcode(ts[0].kind), e, right);
          LoopForm(k, Bin(Opcode(ts[0].kind), e, right), rest);
      }
    }
  }

  lemma {:induction false} ItemForm(minus: bool, ts: seq<Token>)
    ensures FormedResult(ParseItem(minus, ts))
    decreases |ts|, 5
  {
    hide ParsePrimary, FinishItem, FormedExpr;
    if ts == [] {
    } else if ts[0].kind == TKN_PLUS {
      ItemForm(minus, ts[1..]);
    } else if ts[0].kind == TKN_MINUS {
      ItemForm(!minus, ts[1..]);
    } else {
      PrimaryForm(minus, ts);
      match ParsePrimary(minus, ts) {
        case Err =>
        case Ok(base, rest) => FinishForm(minus && ts[0].kind != TKN_NUM, base, rest);
      }
    }
  }

  lemma FinishForm(minus: bool, base: Expr, ts: seq<Token>)
    requires FormedExpr(base)
    ensures FormedResult(FinishItem(minus, base, ts))
    decreases |ts|, 4
  {
    hide ParsePostfix, FormedExpr;
    PostfixForm(base, ts);
    match ParsePostfix(base, ts) {
      case Err =>
      case Ok(e, rest) => FormedFour(OP_NEG, e, e, e, e);
    }
  }

  lemma PrimaryForm(minus: bool, ts: seq<Token>)
    requires ts != []
    ensures FormedResult(ParsePrimary(minus, ts))
    decreases |ts|, 4
  {
    hide ParseExpr, ParseIf;
    IfForm(ts[1..]);
    ExprForm(ts[1..]);
  }

  lemma IfForm(ts: seq<Token>)
    ensures FormedResult(ParseIf(ts))
    decreases |ts|, 22
  {
    hide ParseExpr, ParseValues, FormedExpr;
    ExprForm(ts);
    match ParseExpr(ts) {
      case Err =>
      case Ok(c, rest) => ValuesForm(c, rest);
    }
  }

  lemma ValuesForm(c: Expr, ts: seq<Token>)
    requires FormedExpr(c)
    ensures FormedResult(ParseValues(c, ts))
    decreases |ts|, 21
  {
    hide ParseExpr, Upper;
    if ts != [] && IsWord(ts[0], "THEN") {
      ExprForm(ts[1..]);
      match ParseExpr(ts[1..]) {
        case Err =>
        case Ok(a, rest) =>
          if rest != [] && IsWord(rest[0], "ELSE") {
            ExprForm(rest[1..]);
          }
      }
    }
  }

  ghost predicate FormedMore(r: Parse<Option<Expr>>) {
    r.Ok? && r.value.Some? ==> FormedExpr(r.value.value)
  }

  lemma MoreForm(ts: seq<Token>)
    ensures FormedMore(ParseMore(ts))
    decreases |ts|, 21
  {
    hide ParseExpr, FormedExpr;
    if Look(ts).kind == TKN_COMMA {
      ExprForm(ts[1..]);
    }
  }

  lemma BoundsForm(ts: seq<Token>)
    ensures ParseBounds(ts).Ok? ==>
              var b := ParseBounds(ts).value;
              FormedExpr(b.first) && FormedExpr(OrZero(b.second)) && FormedExpr(OrZero(b.third))
    decreases |ts|, 22
  {
    assert FormedExpr(Num(0));
    hide ParseExpr, ParseMore, FormedExpr;
    ExprForm(ts);
    match ParseExpr(ts) {
      case Err =>
      case Ok(a, rest) =>
        MoreForm(rest);
        match ParseMore(rest) {
          case Err =>
          case Ok(b, rest') => MoreForm(rest');
        }
    }
  }

  lemma {:induction false} PostfixForm(e: Expr, ts: seq<Token>)
    requires FormedExpr(e)
    ensures FormedResult(ParsePostfix(e, ts))
    decreases |ts|, 3
  {
    hide ParseBounds, FormedExpr, Classify;
    if ts != [] && ts[0].kind == TKN_LSQBR {
      BoundsForm(ts[1..]);
      match ParseBounds(ts[1..]) {
        case Err =>
        case Ok(b, rest) =>
          if Look(rest).kind == TKN_RSQBR {
            ExtractionForm(e, b);
            PostfixForm(Extraction(e, b), rest[1..]);
          }
      }
    } else if ts != [] && ts[0].kind == TKN_LT && Classify(ts).Field? {
      var marked := Classify(ts).marked;
      BoundsForm(marked[1..]);
      match ParseBounds(marked[1..]) {
        case Err =>
        case Ok(b, rest) =>
          if Look(rest).kind == TKN_END_FIELD {
            FormedFour(OP_EXTRACT, e, b.first, OrZero(b.second), OrZero(b.third));
            PostfixForm(FieldOf(e, b), rest[1..]);
          }
      }
    }
  }

  lemma ExtractionForm(e: Expr, b: Bounds)
    requires FormedExpr(e) && FormedExpr(b.first) && FormedExpr(OrZero(b.second)) && FormedExpr(OrZero(b.third))
    requires b.third.Some? ==> b.second.Some?
    ensures FormedExpr(Extraction(e, b))
  {
    hide FormedExpr;
    FormedBin(OP_SUBSTRE, e, b.first);
    FormedFour(OP_SUBSTR, e, b.first, OrZero(b.second), e);
    FormedFour(OP_FIELD, e, b.first, OrZero(b.second), OrZero(b.third));
  }

  ghost predicate FormedBlocks(r: Parse<Block>) {
    r.Ok? ==> FormedBlock(r.value)
  }

  ghost predicate FormedStmts(r: Parse<Stmt>) {
    r.Ok? ==> FormedStmt(r.value)
  }

  lemma FormedMark(acc: Block, name: string)
    requires FormedBlock(acc)
    ensures FormedBlock(Seq(acc, LabelMark(name)))
  {
  }

  lemma {:induction false} SkipForm(acc: Block, t: Token, ts: seq<Token>)
    ensures SkipRemark(acc, t, ts).acc == acc
    decreases Size(t, ts)
  {
    if t.kind != TKN_END {
      SkipForm(acc, Look(ts), Tail(ts));
    }
  }

  lemma LabelForm(acc: Block, t: Token, ts: seq<Token>)
    requires FormedBlock(acc)
    ensures TakeLabel(acc, t, ts).Start? ==> FormedBlock(TakeLabel(acc, t, ts).acc)
  {
    hide FormedBlock, SkipRemark, LabelText;
    var name := if t.kind == TKN_LABEL && t.text != "" then LabelText(t.text) else t.text;
    var acc' := Seq(acc, LabelMark(name));
    FormedMark(acc, name);
    SkipForm(acc', Look(ts), Tail(ts));
    SkipForm(acc', Look(Tail(ts)), Tail(Tail(ts)));
  }

  lemma {:induction false} GroupForm(acc: Block, t: Token, ts: seq<Token>)
    requires FormedBlock(acc)
    ensures FormedBlocks(ParseGroup(acc, t, ts))
    decreases Size(t, ts), 3
  {
    hide ParseStmt, FormedBlock;
    StmtForm(acc, t, ts);
    match ParseStmt(acc, t, ts) {
      case Err =>
      case Ok(b, rest) =>
        if Look(rest).kind == TKN_SEMICOLON {
          GroupForm(b, Look(Tail(rest)), Tail(Tail(rest)));
        }
    }
  }

  lemma {:induction false} StmtForm(acc: Block, t: Token, ts: seq<Token>)
    requires FormedBlock(acc)
    ensures FormedBlocks(ParseStmt(acc, t, ts))
    decreases Size(t, ts), 2
  {
    hide ParseSet, ParseKeyword, ParseEnd, IsWord, FormedStmt;
    if t.kind == TKN_SEMICOLON {
      StmtForm(acc, Look(ts), Tail(ts));
    } else if t.kind == TKN_NAME {
      SetForm(t.text, Look(ts).kind, Tail(ts));
      KeywordForm(t, ts);
      EndForm(acc, ts);
    }
  }

  lemma {:induction false} EndForm(acc: Block, ts: seq<Token>)
    ensures ParseEnd(acc, ts).Ok? ==> ParseEnd(acc, ts).value == acc
    decreases |ts|
  {
    if ts != [] {
      EndForm(acc, ts[1..]);
    }
  }

  lemma SetForm(name: string, kind: int, ts: seq<Token>)
    ensures FormedStmts(ParseSet(name, kind, ts))
  {
    hide ParseExpr;
    ExprForm(ts);
    Digits();
  }

  lemma Digits()
    ensures DecimalValue("0") == 0 && DecimalValue("1") == 1
  {
    assert "0"[..0] == "" && "1"[..0] == "";
    assert DecimalValue("") == 0;
  }

  lemma KeywordForm(t: Token, ts: seq<Token>)
    ensures FormedStmts(ParseKeyword(t, ts))
    decreases |ts| + 1, 0
  {
    hide ParseTest, ParseIfStmt, ParseCase, ParseGoto, ParseFileKeyword, IsWord;
    TestForm(false, ts);
    TestForm(true, ts);
    IfStmtForm(ts);
    CaseForm(ts);
    GotoForm(ts);
    GotoForm(Tail(ts));
    FileKeywordForm(t, ts);
  }

  lemma GotoForm(ts: seq<Token>)
    ensures FormedStmts(ParseGoto(ts))
  {
  }

  lemma TestForm(until: bool, ts: seq<Token>)
    ensures FormedStmts(ParseTest(until, ts))
  {
    hide ParseExpr, IsWord;
    ExprForm(ts);
  }

  lemma FileKeywordForm(t: Token, ts: seq<Token>)
    ensures FormedStmts(ParseFileKeyword(t, ts))
    decreases |ts|, 16
  {
    hide ParseDelete, ParseRead, ParseRecordLock, IsWord;
    DeleteForm(0, ts);
    DeleteForm(OP_ULOCK, ts);
    ReadForm(0, ts);
    ReadForm(OP_LLOCK, ts);
    ReadForm(OP_ULOCK, ts);
    RecordLockForm(OP_LLOCK, ts);
    RecordLockForm(OP_ULOCK, ts);
  }

  lemma PrefetchedForm(acc: Block, t: Token, ts: seq<Token>)
    requires FormedBlock(acc)
    ensures FormedBlocks(ParsePrefetched(acc, t, ts))
    decreases Size(t, ts), 4
  {
    hide TakeLabel, ParseGroup, FormedBlock;
    LabelForm(acc, t, ts);
    match TakeLabel(acc, t, ts) {
      case Bad =>
      case Start(acc', t', ts') => GroupForm(acc', t', ts');
    }
  }

  lemma LineForm(acc: Block, ts: seq<Token>)
    requires FormedBlock(acc)
    ensures FormedBlocks(ParseLine(acc, ts))
    decreases |ts|, 5
  {
    PrefetchedForm(acc, Look(ts), Tail(ts));
  }

  lemma {:induction false} BodyForm(acc: Block, ts: seq<Token>)
    requires FormedBlock(acc)
    ensures FormedBlocks(ParseBody(acc, ts))
    decreases |ts|, 6
  {
    hide TakeLabel, ParsePrefetched, FormedBlock, IsWord;
    if ts != [] {
      LabelForm(acc, ts[0], ts[1..]);
      match TakeLabel(acc, ts[0], ts[1..]) {
        case Bad =>
        case Start(acc', t', ts') =>
          PrefetchedForm(acc', t', ts');
          match ParsePrefetched(acc', t', ts') {
            case Err =>
            case Ok(b, rest) => BodyForm(b, rest);
          }
      }
    }
  }

  lemma ClauseForm(ts: seq<Token>)
    ensures FormedBlocks(ParseClause(ts))
    decreases |ts|, 7
  {
    hide ParseBody, ParseGroup;
    BodyForm(Empty, Tail(ts));
    GroupForm(Empty, Look(ts), Tail(ts));
  }

  lemma OptionalForm(word: string, ts: seq<Token>)
    ensures ParseOptional(word, ts).Ok? ==> FormedClause(ParseOptional(word, ts).value)
    decreases |ts|, 8
  {
    hide ParseClause, IsWord, FormedBlock;
    ClauseForm(Tail(ts));
  }

  lemma IfStmtForm(ts: seq<Token>)
    ensures FormedStmts(ParseIfStmt(ts))
    decreases |ts|, 10
  {
    hide ParseExpr, ParseBranches, EndLine;
    ExprForm(ts);
    match ParseExpr(ts) {
      case Err =>
      case Ok(c, rest) => BranchesForm(c, EndLine(rest));
    }
  }

  lemma BranchesForm(c: Expr, ts: seq<Token>)
    requires FormedExpr(c)
    ensures FormedStmts(ParseBranches(c, ts))
    decreases |ts|, 9
  {
    hide ParseClause, ParseThen, Upper, FormedExpr, FormedBlock;
    if IsWord(Look(ts), "THEN") {
      ThenForm(c, Tail(ts));
    } else if IsWord(Look(ts), "ELSE") {
      ClauseForm(Tail(ts));
      match ParseClause(Tail(ts)) {
        case Err =>
        case Ok(b, _) => assert FormedClause(Clause(b)) && FormedClause(Absent);
      }
    }
  }

  lemma ThenForm(c: Expr, ts: seq<Token>)
    requires FormedExpr(c)
    ensures FormedStmts(ParseThen(c, ts))
    decreases |ts|, 9
  {
    hide ParseClause, ParseOptional, EndLine, FormedExpr, FormedBlock;
    ClauseForm(ts);
    match ParseClause(ts) {
      case Err =>
      case Ok(a, rest) =>
        OptionalForm("ELSE", EndLine(rest));
        assert FormedClause(Clause(a));
    }
  }

  lemma CaseForm(ts: seq<Token>)
    ensures FormedStmts(ParseCase(ts))
    decreases |ts|, 10
  {
    hide ParseArms, IsWord, FormedArms;
    ArmsForm(NoArms, Tail(Tail(ts)));
  }

  lemma {:induction false} ArmsForm(arms: Arms, ts: seq<Token>)
    requires arms.NoArms? || FormedArms(arms)
    ensures ParseArms(arms, ts).Ok? ==> FormedArms(ParseArms(arms, ts).value)
    decreases |ts|, 9
  {
    hide ParseArm, Upper;
    if !(IsWord(Look(ts), "END") || ts == []) && IsWord(Look(ts), "CASE") {
      ArmForm(arms, Tail(ts));
      match ParseArm(arms, Tail(ts)) {
        case Err =>
        case Ok(more, rest) => ArmsForm(more, rest);
      }
    }
  }

  lemma ArmForm(arms: Arms, ts: seq<Token>)
    requires FormedArms(arms)
    ensures ParseArm(arms, ts).Ok? ==> FormedArms(ParseArm(arms, ts).value)
    decreases |ts|, 8
  {
    hide ParseExpr, ParseFirst, ParseElement, EndLine, FormedExpr, FormedBlock;
    ExprForm(ts);
    match ParseExpr(ts) {
      case Err =>
      case Ok(e, rest) =>
        FirstForm(rest);
        match ParseFirst(rest) {
          case Err =>
          case Ok(b, rest') => ElementForm(b, EndLine(rest'));
        }
    }
  }

  lemma FirstForm(ts: seq<Token>)
    ensures FormedBlocks(ParseFirst(ts))
    decreases |ts|, 7
  {
    hide ParseGroup;
    GroupForm(Empty, Look(Tail(ts)), Tail(Tail(ts)));
  }

  lemma {:induction false} ElementForm(acc: Block, ts: seq<Token>)
    requires FormedBlock(acc)
    ensures FormedBlocks(ParseElement(acc, ts))
    decreases |ts|, 6
  {
    hide ParseLine, EndLine, FormedBlock, IsWord;
    if !(IsWord(Look(ts), "CASE") || IsWord(Look(ts), "END") || ts == []) {
      LineForm(acc, ts);
      match ParseLine(acc, ts) {
        case Err =>
        case Ok(b, rest) => ElementForm(b, EndLine(rest));
      }
    }
  }

  predicate IsLock(lock: nat) {
    lock == 0 || lock == OP_ULOCK || lock == OP_LLOCK
  }

  /** A call and the operands before its record id */
  predicate Opens(call: Call, args: Exprs) {
    && IsLock(call.lock) && FormedArgs(args)
    && ((call.op == OP_READ && call.thenElse && ArgCount(args) == 2 && args.init.Args? && args.init.last.Var?)
        || ((call.op == OP_DELETE || call.op == OP_LOCKREC) && !call.thenElse && ArgCount(args) == 1))
  }

  lemma DeleteForm(lock: nat, ts: seq<Token>)
    requires IsLock(lock)
    ensures FormedStmts(ParseDelete(lock, ts))
    decreases |ts|, 15
  {
    hide ParseExpr, ParseKey;
    ExprForm(ts);
    match ParseExpr(ts) {
      case Err =>
      case Ok(f, rest) =>
        assert ArgCount(One(f)) == 1 && FormedArgs(One(f));
        KeyForm(Call(lock, OP_DELETE, false, false), One(f), rest);
    }
  }

  lemma RecordLockForm(lock: nat, ts: seq<Token>)
    requires IsLock(lock)
    ensures FormedStmts(ParseRecordLock(lock, ts))
    decreases |ts|, 15
  {
    hide ParseKey;
    match ParseName(ts) {
      case Err =>
      case Ok(f, rest) =>
        assert ArgCount(One(f)) == 1 && FormedArgs(One(f));
        KeyForm(Call(lock, OP_LOCKREC, true, false), One(f), rest);
    }
  }

  lemma ReadForm(lock: nat, ts: seq<Token>)
    requires IsLock(lock)
    ensures FormedStmts(ParseRead(lock, ts))
    decreases |ts|, 15
  {
    hide ParseKey, Upper;
    match ParseName(ts) {
      case Err =>
      case Ok(v, rest) =>
        if IsWord(Look(rest), "FROM") {
          match ParseName(Tail(rest)) {
            case Err =>
            case Ok(f, rest') =>
              assert ArgCount(One(v)) == 1 && ArgCount(Two(v, f)) == 2 && FormedArgs(One(v)) && FormedArgs(Two(v, f));
              KeyForm(Call(lock, OP_READ, lock > 0, true), Two(v, f), rest');
          }
        }
    }
  }

  lemma KeyForm(call: Call, args: Exprs, ts: seq<Token>)
    requires Opens(call, args)
    ensures FormedStmts(ParseKey(call, args, ts))
    decreases |ts|, 14
  {
    hide ParseExpr, ParseFile;
    if Look(ts).kind == TKN_COMMA {
      ExprForm(Tail(ts));
      match ParseExpr(Tail(ts)) {
        case Err =>
        case Ok(k, rest) => FileForm(call, args, k, rest);
      }
    }
  }

  lemma CallForm(call: Call, args: Exprs, k: Expr, thn: Clause, els: Clause)
    requires Opens(call, args) && FormedExpr(k) && (call.thenElse <==> thn.Clause? || els.Clause?)
    ensures FormedCall(call, Args(args, k), thn, els)
  {
    if call.op == OP_READ {
      assert ArgCount(args) == ArgCount(args.init) + 1 && ArgCount(args.init) == ArgCount(args.init.init) + 1;
      assert args.init.init.NoArgs?;
      assert Receiver(Args(args, k)) == Some(args.init.last.name);
    }
  }

  lemma FileForm(call: Call, args: Exprs, k: Expr, ts: seq<Token>)
    requires Opens(call, args) && FormedExpr(k)
    ensures FormedStmts(ParseFile(call, Args(args, k), ts))
    decreases |ts|, 13
  {
    hide ParseOnError, ParseLocked, ParseChoice, EndLine, FormedClause, FormedExpr, Opens;
    OnErrorForm(EndLine(ts));
    match ParseOnError(EndLine(ts)) {
      case Err =>
      case Ok(onError, rest) =>
        LockedForm(call, rest);
        match ParseLocked(call, rest) {
          case Err =>
          case Ok(locked, rest') => ChoiceForm(call, args, k, onError, locked, rest');
        }
    }
  }

  lemma OnErrorForm(ts: seq<Token>)
    ensures ParseOnError(ts).Ok? ==> FormedClause(ParseOnError(ts).value)
    decreases |ts|, 9
  {
    hide ParseOptional, IsWord;
    OptionalForm("ERROR", Tail(ts));
  }

  lemma LockedForm(call: Call, ts: seq<Token>)
    ensures ParseLocked(call, ts).Ok? ==>
              FormedClause(ParseLocked(call, ts).value) && (ParseLocked(call, ts).value.Clause? ==> call.canLock)
    decreases |ts|, 9
  {
    hide ParseOptional, EndLine;
    OptionalForm("LOCKED", EndLine(ts));
  }

  lemma ChoiceForm(call: Call, args: Exprs, k: Expr, onError: Clause, locked: Clause, ts: seq<Token>)
    requires Opens(call, args) && FormedExpr(k) && FormedClause(onError) && FormedClause(locked)
    requires locked.Clause? ==> call.canLock
    ensures FormedStmts(ParseChoice(call, Args(args, k), onError, locked, ts))
    decreases |ts|, 10
  {
    hide ParseClause, ParseSuccess, FormedCall, Opens, FormedBlock, FormedExpr, Upper;
    var us := EndLine(ts);
    if !call.thenElse {
      CallForm(call, args, k, Absent, Absent);
      assert FormedClause(Absent);
    } else if IsWord(Look(us), "ELSE") {
      ClauseForm(Tail(us));
      match ParseClause(Tail(us)) {
        case Err =>
        case Ok(b, _) =>
          CallForm(call, args, k, Absent, Clause(b));
          assert FormedClause(Clause(b)) && FormedClause(Absent);
      }
    } else if IsWord(Look(us), "THEN") {
      SuccessForm(call, args, k, onError, locked, Tail(us));
    }
  }

  lemma SuccessForm(call: Call, args: Exprs, k: Expr, onError: Clause, locked: Clause, ts: seq<Token>)
    requires Opens(call, args) && FormedExpr(k) && FormedClause(onError) && FormedClause(locked) && call.thenElse
    requires locked.Clause? ==> call.canLock
    ensures FormedStmts(ParseSuccess(call, Args(args, k), onError, locked, ts))
    decreases |ts|, 9
  {
    hide ParseClause, ParseOptional, FormedCall, Opens, FormedBlock, FormedExpr, EndLine;
    ClauseForm(ts);
    match ParseClause(ts) {
      case Err =>
      case Ok(a, rest) =>
        OptionalForm("ELSE", EndLine(rest));
        match ParseOptional("ELSE", EndLine(rest)) {
          case Err =>
          case Ok(b, _) =>
            CallForm(call, args, k, Clause(a), b);
            assert FormedClause(Clause(a));
        }
    }
  }

  lemma {:induction false} LinesForm(acc: Block, ts: seq<Token>)
    requires FormedBlock(acc)
    ensures FormedBlocks(ParseLines(acc, ts))
    decreases |ts|
  {
    hide ParseLine, FormedBlock;
    if ts != [] {
      LineForm(acc, ts);
      match ParseLine(acc, ts) {
        case Err =>
        case Ok(b, rest) => LinesForm(b, rest);
      }
    }
  }

  /** Nesting keeps a program well formed. */
  predicate FormedPartial(o: Partial) {
    (forall i :: 0 <= i < |o.frames| ==> FormedBlock(o.frames[i])) && FormedBlock(o.cur)
  }

  lemma {:induction false} BlockKept(b: Block, inLoop: bool)
    ensures NestBlock(b, inLoop).Some? && FormedBlock(b) ==> FormedPartial(NestBlock(b, inLoop).value)
    decreases b, 0
  {
    hide FormedStmt, NestStmt;
    match b
    case Empty =>
    case Seq(init, last) =>
      BlockKept(init, inLoop);
      if NestBlock(init, inLoop).Some? {
        var o := NestBlock(init, inLoop).value;
        if last.RepeatMark? {
          if o.frames != [] {
            RepeatKept(o);
          }
        } else if !last.LoopMark? {
          StmtKept(last, inLoop || o.frames != []);
        }
      }
  }

  lemma RepeatKept(o: Partial)
    requires CloseLoop(o).Some?
    ensures FormedPartial(o) ==> FormedPartial(CloseLoop(o).value)
  {
    var b := o.frames[|o.frames| - 1];
    assert FormedBlock(o.cur) ==> FormedStmt(Loop(o.cur));
    assert FormedBlock(b) && FormedStmt(Loop(o.cur)) ==> FormedBlock(Seq(b, Loop(o.cur)));
  }

  lemma WholeKept(b: Block, inLoop: bool)
    ensures NestWhole(b, inLoop).Some? && FormedBlock(b) ==> FormedBlock(NestWhole(b, inLoop).value)
    decreases b, 1
  {
    hide NestBlock, FormedBlock;
    BlockKept(b, inLoop);
  }

  lemma ClauseKept(k: Clause, inLoop: bool)
    ensures NestClause(k, inLoop).Some? ==> (k.Absent? <==> NestClause(k, inLoop).value.Absent?)
    ensures NestClause(k, inLoop).Some? && FormedClause(k) ==> FormedClause(NestClause(k, inLoop).value)
    decreases k, 0
  {
    hide NestWhole, FormedBlock;
    if k.Clause? {
      WholeKept(k.body, inLoop);
    }
  }

  lemma StmtKept(s: Stmt, inLoop: bool)
    ensures NestStmt(s, inLoop).Some? && FormedStmt(s) ==> FormedStmt(NestStmt(s, inLoop).value)
    decreases s, 1
  {
    hide NestClause, NestArms, FormedClause, FormedArms, FormedExpr, FormedArgs, FormedSet;
    match s {
      case If(_, thn, els) =>
        ClauseKept(thn, inLoop);
        ClauseKept(els, inLoop);
      case Case(arms) => ArmsKept(arms, inLoop);
      case File(_, _, onError, locked, thn, els) =>
        ClauseKept(onError, inLoop);
        ClauseKept(locked, inLoop);
        ClauseKept(thn, inLoop);
        ClauseKept(els, inLoop);
      case _ =>
    }
  }

  lemma {:induction false} ArmsKept(arms: Arms, inLoop: bool)
    ensures NestArms(arms, inLoop).Some? && FormedArms(arms) ==> FormedArms(NestArms(arms, inLoop).value)
    decreases arms, 0
  {
    hide NestWhole, FormedBlock, FormedExpr;
    match arms
    case NoArms =>
    case Arm(init, cond, body) =>
      ArmsKept(init, inLoop);
      WholeKept(body, inLoop);
  }
}
