/** The statement routines of the one-pass compiler. */
module Statements {
  import opened Outcomes
  import opened Isa
  import opened Listing
  import opened CodeImages
  import opened Syntax
  import opened Grammar
  import opened Programs
  import opened StatementGrammar
  import opened Names
  import opened Generate
  import opened Labels
  import opened ConstructStack
  import opened Rejection
  import opened Growth
  import opened Linking
  import opened Compilers
  import opened Room
  import opened Overruns

  /** Between statements no expression is being compiled. */
  ghost predicate Ready(c: Compiler)
    reads c, c.image, c.image.code
  {
    && c.Valid()
    && c.depth == 0 && !c.unaryMinus
    && forall i :: 0 <= i < |c.jumpStack| ==> c.jumpStack[i].number < c.jumpNo
  }

  ghost function State(c: Compiler): GState
    reads c, c.image
  {
    GState(c.image.list, c.jumpStack, c.Context())
  }

  lemma LineFits(ts: seq<Token>)
    requires Scanned(ts)
    ensures Line(ts) < INIT_TOKENS
  {
    assert ts[0..] == ts;
  }

  /** What Next() delivers: names have the scanner's form. */
  predicate Proper(t: Token) {
    NameToken(t) ==> NameText(t.text)
  }

  /** get_token() */
  method Next(c: Compiler)
    requires Ready(c)
    modifies c
    ensures Ready(c) && State(c) == old(State(c))
    ensures c.token == Look(old(c.rest)) && c.rest == Tail(old(c.rest)) && Proper(c.token)
  {
    hide CodeImage.Valid, Labelled;
    c.GetToken();
  }

  /** exprf() */
  method ExprF(c: Compiler) returns (r: Outcome, ghost e: Expr)
    requires Ready(c)
    modifies c, c.operatorStack, c.priorityStack, c.image, c.image.code
    ensures r.Fail? ==> NoRoom(ParseExpr(old(c.rest)), old(c.image.list), old(c.Context()))
    ensures r.Pass? ==> Ready(c) && ParseExpr(old(c.rest)) == Ok(e, c.rest) && State(c) == Value(old(State(c)), e)
  {
    hide CodeImage.Valid, Scanned, Labelled, ParseExpr, EmitE, AfterE, Line;
    LineFits(c.rest);
    ghost var before := c.Context();
    e :- c.Expression();
    LabelledE(e, before);
    return Pass, e;
  }

  method Emit(c: Compiler, op: nat) returns (r: Outcome)
    requires Ready(c) && op < 256
    modifies c.image, c.image.code
    ensures r.Fail? ==> Long(Put(old(State(c)), [Op(op)]).list)
    ensures r.Pass? ==> Ready(c) && State(c) == Put(old(State(c)), [Op(op)])
  {
    hide CodeImage.Valid, Scanned, Labelled;
    r := c.EmitOp(op);
  }

  method EmitJumpTo(c: Compiler, op: nat, name: string) returns (r: Outcome)
    requires Ready(c) && op < 256
    modifies c.image, c.image.code
    ensures r.Fail? ==> Long(Put(old(State(c)), [I(Jump(op, name))]).list)
    ensures r.Pass? ==> Ready(c) && State(c) == Put(old(State(c)), [I(Jump(op, name))])
  {
    hide CodeImage.Valid, Scanned, Labelled;
    r := c.EmitJump(op, name);
  }

  /** A jump to a label of the innermost construct. */
  method EmitTopJump(c: Compiler, op: nat, suffix: string) returns (r: Outcome)
    requires Ready(c) && op < 256 && c.jumpStack != []
    modifies c.image, c.image.code
    ensures r.Fail? ==> Long(JumpTop(old(State(c)), op, suffix).list)
    ensures r.Pass? ==> Ready(c) && State(c) == JumpTop(old(State(c)), op, suffix)
  {
    r := EmitJumpTo(c, op, LabelName(c.jumpStack[0].number, suffix));
  }

  /** A label of the innermost construct. */
  method DefineTop(c: Compiler, suffix: string) returns (r: Outcome)
    requires Ready(c) && c.jumpStack != [] && IsSuffix(suffix)
    modifies c.image, c.image.code
    ensures r.Fail? ==> Define(old(State(c)), TopLabel(old(State(c)), suffix)).Bad?
    ensures r.Pass? ==> Ready(c) && Define(old(State(c)), TopLabel(old(State(c)), suffix)) == Good(State(c))
  {
    hide CodeImage.Valid, Scanned, Labelled;
    r := c.SetLabel(c.jumpStack[0].number, suffix);
  }

  /** The innermost construct's last label; its entry is removed. */
  method CloseTop(c: Compiler, suffix: string) returns (r: Outcome)
    requires Ready(c) && c.jumpStack != [] && IsSuffix(suffix)
    modifies c, c.image, c.image.code
    ensures r.Fail? ==> Close(old(State(c)), suffix).Bad?
    ensures r.Pass? ==> Ready(c) && Close(old(State(c)), suffix) == Good(State(c))
    ensures c.rest == old(c.rest) && c.token == old(c.token)
  {
    hide CodeImage.Valid, Scanned, Labelled;
    :- DefineTop(c, suffix);
    c.jumpStack := c.jumpStack[1..];
    return Pass;
  }

  /** A jump to the construct's end, and the label of what follows. */
  method JumpAndDefine(c: Compiler, suffix: string) returns (r: Outcome)
    requires Ready(c) && c.jumpStack != [] && IsSuffix(suffix)
    modifies c.image, c.image.code
    ensures r.Fail? ==> Lost(Define(JumpTop(old(State(c)), OP_JMP, "X"), TopLabel(old(State(c)), suffix)))
    ensures r.Pass? ==> Ready(c)
    ensures r.Pass? ==> Define(JumpTop(old(State(c)), OP_JMP, "X"), TopLabel(old(State(c)), suffix)) == Good(State(c))
  {
    hide Ready;
    TurnRoom(State(c), OP_JMP, suffix);
    :- EmitTopJump(c, OP_JMP, "X");
    r := DefineTop(c, suffix);
  }

  /** Whether the innermost construct is of this kind. */
  method TopIs(c: Compiler, kind: Construct) returns (b: bool)
    ensures b == IsTop(State(c), kind) && (b ==> c.jumpStack != [])
  {
    return c.jumpStack != [] && c.jumpStack[0].kind == kind;
  }

  method OpenConstruct(c: Compiler, kind: Construct)
    requires Ready(c)
    modifies c
    ensures Ready(c) && State(c) == Open(old(State(c)), kind)
    ensures c.rest == old(c.rest) && c.token == old(c.token)
  {
    hide CodeImage.Valid, Scanned, Labelled;
    LabelledWiden(c.image.list, 0, c.jumpNo, 0, c.jumpNo + 1);
    c.jumpStack := [Entry(kind, c.jumpNo, 0)] + c.jumpStack;
    c.jumpNo := c.jumpNo + 1;
  }

  /** set_label() with a label of the program. */
  method DefineUser(c: Compiler, name: string) returns (r: Outcome)
    requires Ready(c) && !IsGenerated(name)
    modifies c.image, c.image.code
    ensures r.Fail? ==> Define(old(State(c)), name).Bad?
    ensures r.Pass? ==> Ready(c) && Define(old(State(c)), name) == Good(State(c))
  {
    hide CodeImage.Valid, Scanned, Labelled;
    LabelledUser(c.image.list, name, 0, c.jumpNo);
    r := c.image.SetLabel(name);
  }

  /** emit_lvar_reference() and simple_var_reference(), for a scalar. */
  method LoadVariable(c: Compiler, name: string) returns (r: Outcome)
    requires Ready(c)
    modifies c`vars, c.image, c.image.code
    ensures r.Fail? ==> Long(Value(old(State(c)), Var(name)).list)
    ensures r.Pass? ==> Ready(c) && State(c) == Value(old(State(c)), Var(name))
  {
    hide CodeImage.Valid, Scanned, Labelled, EmitE, AfterE;
    ghost var before := c.Context();
    r := c.EmitVariable(name);
    LabelledE(Var(name), before);
  }

  /** is_assignment() and process_operator() */
  method Assignment(c: Compiler) returns (r: Outcome, ghost s: Stmt)
    requires Ready(c) && IsSetOperator(Look(c.rest).kind)
    modifies c, c.operatorStack, c.priorityStack, c.image, c.image.code
    ensures r.Fail? ==>
              StmtFails(ParseSet(old(c.token.text), Look(old(c.rest)).kind, Tail(old(c.rest))), old(State(c)))
    ensures r.Pass? ==> Ready(c) && GenStmt(s, old(State(c))) == Good(State(c))
    ensures r.Pass? ==> ParseSet(old(c.token.text), Look(old(c.rest)).kind, Tail(old(c.rest))) == Ok(s, c.rest)
  {
    hide Long, Ready, ParseExpr, EmitE, AfterE;
    s := RepeatMark;
    ghost var g := State(c);
    var name, kind := c.token.text, Look(c.rest).kind;
    SetFails(name, kind, Tail(c.rest), g);
    :- LoadVariable(c, name);
    Next(c);
    var op := SetOpcode(kind);
    if IsShort(kind, Look(c.rest)) && Look(Tail(c.rest)).kind == TKN_END {
      ghost var e := if Look(c.rest).kind == TKN_STRING then Str("") else Num(DecimalValue(Look(c.rest).text));
      :- Emit(c, if op == OP_ADD then OP_INC else if op == OP_SUB then OP_DEC
                 else if Look(c.rest).kind == TKN_STRING then OP_STNULL else OP_STZ);
      Next(c);
      return Pass, Set(name, op, e, true);
    }
    ghost var e;
    e :- StoreValue(c, op);
    return Pass, Set(name, op, e, false);
  }

  /** The expression on the right and the opcodes that store it. */
  method StoreValue(c: Compiler, op: nat) returns (r: Outcome, ghost e: Expr)
    requires Ready(c) && op < 256
    modifies c, c.operatorStack, c.priorityStack, c.image, c.image.code
    ensures r.Fail? ==>
              var p := ParseExpr(old(c.rest));
              p.Err? || Long(old(c.image.list) + StoreCode(op, p.value, false, old(c.Context())))
    ensures r.Pass? ==> Ready(c) && ParseExpr(old(c.rest)) == Ok(e, c.rest)
    ensures r.Pass? ==>
              State(c) == GState(old(c.image.list) + StoreCode(op, e, false, old(c.Context())), old(c.jumpStack),
                                 AfterE(e, old(c.Context())))
  {
    hide Long, Ready, ParseExpr, EmitE, AfterE;
    e := Num(0);
    ghost var g := State(c);
    var plain := op == OP_STOR || op == OP_APPEND;
    if ParseExpr(c.rest).Ok? {
      StoreRoom(g.list, op, ParseExpr(c.rest).value, g.ctx);
    }
    if !plain {
      :- Emit(c, OP_DUP);
    }
    e :- ExprF(c);
    :- Emit(c, op);
    if !plain {
      :- Emit(c, OP_STOR);
      StoreRegroup(g.list, [Op(OP_DUP)], EmitE(e, g.ctx), [Op(op)], [Op(OP_STOR)]);
    } else {
      Regroup(g.list, EmitE(e, g.ctx), [Op(op)]);
    }
    return Pass, e;
  }

  lemma StoreRegroup<T>(p: seq<T>, a: seq<T>, b: seq<T>, c: seq<T>, d: seq<T>)
    ensures p + a + b + c + d == p + (a + b + c + d)
  {
  }

  /** Search the construct stack from the top for a loop. */
  method FindOpenLoop(c: Compiler) returns (found: bool, index: nat)
    ensures found <==> FindLoop(c.jumpStack) >= 0
    ensures found ==> index < |c.jumpStack| && c.jumpStack[index].number == FindLoop(c.jumpStack)
  {
    index := 0;
    while index < |c.jumpStack|
      invariant index <= |c.jumpStack| && FindLoop(c.jumpStack) == FindLoop(c.jumpStack[index..])
    {
      if c.jumpStack[index].kind.LoopEntry? {
        return true, index;
      }
      assert c.jumpStack[index..][1..] == c.jumpStack[index + 1..];
      index := index + 1;
    }
    return false, index;
  }

  /** st_while_until_common() */
  method WhileUntil(c: Compiler, until: bool) returns (r: Outcome, ghost s: Stmt)
    requires Ready(c)
    modifies c, c.operatorStack, c.priorityStack, c.image, c.image.code
    ensures r.Fail? ==> StmtFails(ParseTest(until, old(c.rest)), old(State(c)))
    ensures r.Pass? ==> Ready(c) && ParseTest(until, old(c.rest)) == Ok(s, c.rest)
    ensures r.Pass? ==> GenStmt(s, old(State(c))) == Good(State(c))
  {
    hide Long, Ready, ParseExpr, EmitE, AfterE, FindLoop;
    s := RepeatMark;
    var found, index := FindOpenLoop(c);
    if !found {
      return Fail(Rejected), s;
    }
    ghost var e;
    TestFails(until, c.rest, State(c));
    e :- ExprF(c);
    :- EmitJumpTo(c, if until then OP_JTRUE else OP_JFALSE, LabelName(c.jumpStack[index].number, "X"));
    if IsWord(Look(c.rest), "DO") {
      Next(c);
    }
    return Pass, Test(until, e);
  }

  /** continue_exit_common() */
  method ContinueExit(c: Compiler, again: bool) returns (r: Outcome)
    requires Ready(c)
    modifies c.image, c.image.code
    ensures r.Fail? ==> Lost(GenStmt(Leave(again), old(State(c))))
    ensures r.Pass? ==> Ready(c) && GenStmt(Leave(again), old(State(c))) == Good(State(c))
  {
    hide Long, Ready, FindLoop;
    var found, index := FindOpenLoop(c);
    if !found {
      return Fail(Rejected);
    }
    r := EmitJumpTo(c, OP_JMP, LabelName(c.jumpStack[index].number, if again then "R" else "X"));
  }

  /** st_loop() */
  method LoopStart(c: Compiler) returns (r: Outcome)
    requires Ready(c)
    modifies c, c.image, c.image.code
    ensures r.Fail? ==> GenStmt(LoopMark, old(State(c))).Bad?
    ensures r.Pass? ==> Ready(c) && GenStmt(LoopMark, old(State(c))) == Good(State(c)) && c.rest == old(c.rest)
  {
    hide Ready;
    OpenConstruct(c, LoopEntry);
    r := DefineTop(c, "R");
  }

  /** st_repeat() */
  method Repeat(c: Compiler) returns (r: Outcome)
    requires Ready(c)
    modifies c, c.image, c.image.code
    ensures r.Fail? ==> Lost(GenStmt(RepeatMark, old(State(c))))
    ensures r.Pass? ==> Ready(c) && GenStmt(RepeatMark, old(State(c))) == Good(State(c)) && c.rest == old(c.rest)
  {
    hide Long, Ready;
    if c.jumpStack == [] || !c.jumpStack[0].kind.LoopEntry? {
      return Fail(Rejected);
    }
    CloseRoom(JumpTop(State(c), OP_JMP, "R"), "X");
    :- EmitTopJump(c, OP_JMP, "R");
    r := CloseTop(c, "X");
  }

  /** st_goto() */
  method GotoLabel(c: Compiler) returns (r: Outcome, ghost s: Stmt)
    requires Ready(c)
    modifies c, c.image, c.image.code
    ensures r.Fail? ==> StmtFails(ParseGoto(old(c.rest)), old(State(c)))
    ensures r.Pass? ==> Ready(c) && ParseGoto(old(c.rest)) == Ok(s, c.rest)
    ensures r.Pass? ==> GenStmt(s, old(State(c))) == Good(State(c))
  {
    hide Ready, GenStmt, Long, Lost, Put;
    s := RepeatMark;
    var t := Look(c.rest);
    var name := t.text;
    if t.kind == TKN_LABEL {
      Next(c);
      if name == "" {
        return Fail(Rejected), s;
      }
      if name[0] == ':' {
        name := name[1..];
      }
    } else if t.kind == TKN_NAME || t.kind == TKN_NUM || t.kind == TKN_FLOAT || t.kind == TKN_NAME_LBR {
      Next(c);
      if Look(c.rest).kind == TKN_COLON {
        Next(c);
      }
    } else {
      return Fail(Rejected), s;
    }
    GotoParts(name, c.rest, State(c));
    :- EmitJumpTo(c, OP_JMP, name);
    return Pass, Goto(name);
  }

  /** Skip an end-of-line token in the look-ahead. */
  method SkipLineEnd(c: Compiler)
    requires Ready(c)
    modifies c
    ensures Ready(c) && State(c) == old(State(c)) && c.rest == EndLine(old(c.rest))
  {
    hide Ready;
    if Look(c.rest).kind == TKN_END {
      Next(c);
    }
  }

  /** st_remark(), entered when a label is followed by a remark character. */
  method Remark(c: Compiler, ghost acc: Block)
    requires Ready(c) && Proper(c.token)
    modifies c
    decreases Size(c.token, c.rest)
    ensures Ready(c) && Proper(c.token) && State(c) == old(State(c))
    ensures SkipRemark(acc, old(c.token), old(c.rest)) == Start(acc, c.token, c.rest)
  {
    hide Ready;
    while c.token.kind != TKN_END
      invariant Ready(c) && Proper(c.token) && State(c) == old(State(c))
      invariant SkipRemark(acc, old(c.token), old(c.rest)) == SkipRemark(acc, c.token, c.rest)
      decreases Size(c.token, c.rest)
    {
      Next(c);
    }
  }

  /** The token after a label, which may start a remark. */
  method LabelEnd(c: Compiler, ghost acc: Block) returns (r: Outcome)
    requires Ready(c)
    modifies c
    ensures r.Fail? ==> AfterLabel(acc, old(c.rest)).Bad?
    ensures r.Pass? ==> Ready(c) && Proper(c.token) && State(c) == old(State(c))
    ensures r.Pass? ==> AfterLabel(acc, old(c.rest)) == Start(acc, c.token, c.rest)
  {
    hide Ready, SkipRemark;
    Next(c);
    if c.token.kind != TKN_END {
      if c.token.text == "" {
        return Fail(Rejected);
      }
      if c.token.text[0] == '*' || c.token.text[0] == '!' {
        Remark(c, acc);
      }
    }
    return Pass;
  }

  /** check_for_label() */
  method Label(c: Compiler, ghost acc: Block, ghost base: GState) returns (r: Outcome, ghost b: Block)
    requires Ready(c) && Proper(c.token) && GenBlock(acc, base) == Good(State(c))
    modifies c, c.image, c.image.code
    ensures r.Fail? ==> StartFails(TakeLabel(acc, old(c.token), old(c.rest)), base)
    ensures r.Pass? ==> Ready(c) && Proper(c.token) && GenBlock(b, base) == Good(State(c))
    ensures r.Pass? ==> TakeLabel(acc, old(c.token), old(c.rest)) == Start(b, c.token, c.rest)
  {
    hide Ready, AfterLabel;
    b := acc;
    if c.token.kind == TKN_NAME && Look(c.rest).kind == TKN_COLON {
      b := Seq(acc, LabelMark(c.token.text));
      AfterLabelStays(b, Tail(c.rest));
      assert GenBlock(b, base) == Define(State(c), c.token.text);
      :- DefineUser(c, c.token.text);
      Next(c);
      :- LabelEnd(c, b);
    } else if c.token.kind == TKN_LABEL {
      var name := LabelText(c.token.text);
      b := Seq(acc, LabelMark(name));
      AfterLabelStays(b, c.rest);
      assert GenBlock(b, base) == Define(State(c), name);
      :- DefineUser(c, name);
      :- LabelEnd(c, b);
    } else if c.token.kind == TKN_NUM || c.token.kind == TKN_FLOAT {
      b := Seq(acc, LabelMark(c.token.text));
      AfterLabelStays(b, c.rest);
      AfterLabelStays(b, Tail(c.rest));
      assert GenBlock(b, base) == Define(State(c), c.token.text);
      :- DefineUser(c, c.token.text);
      if Look(c.rest).kind == TKN_COLON {
        Next(c);
      }
      :- LabelEnd(c, b);
    }
    return Pass, b;
  }

  /** st_end(): nothing but line ends to the end of the source. */
  method FinalEnd(c: Compiler, ghost acc: Block) returns (r: Outcome)
    requires Ready(c)
    modifies c
    ensures r.Fail? ==> ParseEnd(acc, old(c.rest)).Err?
    ensures r.Pass? ==> Ready(c) && State(c) == old(State(c)) && ParseEnd(acc, old(c.rest)) == Ok(acc, c.rest)
  {
    hide Ready;
    while c.rest != []
      invariant Ready(c) && State(c) == old(State(c)) && ParseEnd(acc, old(c.rest)) == ParseEnd(acc, c.rest)
      decreases |c.rest|
    {
      if Look(c.rest).kind != TKN_END {
        return Fail(Rejected);
      }
      Next(c);
    }
    return Pass;
  }

  /** proc_statement_group() */
  method Group(c: Compiler, ghost acc: Block, ghost base: GState) returns (r: Outcome, ghost b: Block)
    requires Ready(c) && GenBlock(acc, base) == Good(State(c))
    modifies c, c.operatorStack, c.priorityStack, c.image, c.image.code
    decreases Size(c.token, c.rest), 3
    ensures r.Fail? ==> Fails(ParseGroup(acc, old(c.token), old(c.rest)), base)
    ensures r.Pass? ==> Ready(c) && ParseGroup(acc, old(c.token), old(c.rest)) == Ok(b, c.rest)
    ensures r.Pass? ==> GenBlock(b, base) == Good(State(c))
  {
    hide Ready, ParseStmt, GenBlock;
    b := acc;
    while true
      invariant Ready(c) && GenBlock(b, base) == Good(State(c))
      invariant ParseGroup(acc, old(c.token), old(c.rest)) == ParseGroup(b, c.token, c.rest)
      invariant Size(c.token, c.rest) <= Size(old(c.token), old(c.rest))
      decreases Size(c.token, c.rest)
    {
      ghost var t, ts, before := c.token, c.rest, b;
      var done;
      done, b := Statement(c, b, base);
      if done.Fail? {
        GroupFails(before, t, ts, base);
        return done, b;
      }
      if Look(c.rest).kind != TKN_SEMICOLON {
        break;
      }
      Next(c);
      Next(c);
    }
    return Pass, b;
  }

  /** proc_statement() */
  method Statement(c: Compiler, ghost acc: Block, ghost base: GState) returns (r: Outcome, ghost b: Block)
    requires Ready(c) && GenBlock(acc, base) == Good(State(c))
    modifies c, c.operatorStack, c.priorityStack, c.image, c.image.code
    decreases Size(c.token, c.rest), 2
    ensures r.Fail? ==> Fails(ParseStmt(acc, old(c.token), old(c.rest)), base)
    ensures r.Pass? ==> Ready(c) && ParseStmt(acc, old(c.token), old(c.rest)) == Ok(b, c.rest)
    ensures r.Pass? ==> GenBlock(b, base) == Good(State(c))
  {
    hide Ready, ParseSet, ParseKeyword, ParseEnd, GenStmt, IsWord;
    b := acc;
    while c.token.kind == TKN_SEMICOLON
      invariant Ready(c) && GenBlock(acc, base) == Good(State(c))
      invariant ParseStmt(acc, old(c.token), old(c.rest)) == ParseStmt(acc, c.token, c.rest)
      invariant Size(c.token, c.rest) <= Size(old(c.token), old(c.rest))
      decreases Size(c.token, c.rest)
    {
      Next(c);
    }
    if c.token.kind == TKN_END {
      return Pass, acc;
    }
    if c.token.kind != TKN_NAME {
      return Fail(Rejected), acc;
    }
    ghost var s;
    if IsSetOperator(Look(c.rest).kind) {
      s :- Assignment(c);
    } else if Look(c.rest).kind == TKN_LSQBR || Look(c.rest).kind == TKN_LT || Look(c.rest).kind == TKN_OBJREF {
      return Fail(Rejected), acc;
    } else if IsWord(c.token, "END") {
      :- FinalEnd(c, acc);
      return Pass, acc;
    } else {
      s :- Keyword(c);
    }
    return Pass, Seq(acc, s);
  }

  /** is_statement() */
  method Keyword(c: Compiler) returns (r: Outcome, ghost s: Stmt)
    requires Ready(c)
    modifies c, c.operatorStack, c.priorityStack, c.image, c.image.code
    decreases |c.rest| + 1, 0
    ensures r.Fail? ==> StmtFails(ParseKeyword(old(c.token), old(c.rest)), old(State(c)))
    ensures r.Pass? ==> Ready(c) && ParseKeyword(old(c.token), old(c.rest)) == Ok(s, c.rest)
    ensures r.Pass? ==> GenStmt(s, old(State(c))) == Good(State(c))
  {
    hide Ready, GenStmt, IsWord, ParseTest, ParseIfStmt, ParseCase, ParseGoto, ParseDelete, ParseRead, ParseRecordLock;
    s := RepeatMark;
    if IsWord(c.token, "LOOP") {
      s := LoopMark;
      r := LoopStart(c);
    } else if IsWord(c.token, "REPEAT") {
      r := Repeat(c);
    } else if IsWord(c.token, "EXIT") {
      s := Leave(false);
      r := ContinueExit(c, false);
    } else if IsWord(c.token, "CONTINUE") {
      s := Leave(true);
      r := ContinueExit(c, true);
    } else if IsWord(c.token, "WHILE") {
      r, s := WhileUntil(c, false);
    } else if IsWord(c.token, "UNTIL") {
      r, s := WhileUntil(c, true);
    } else if IsWord(c.token, "IF") {
      r, s := IfStatement(c);
    } else if IsWord(c.token, "BEGIN") {
      r, s := CaseStatement(c);
    } else if IsWord(c.token, "GOTO") {
      r, s := GotoLabel(c);
    } else if IsWord(c.token, "GO") {
      if IsWord(Look(c.rest), "TO") {
        Next(c);
      }
      r, s := GotoLabel(c);
    } else {
      r, s := FileStatement(c);
    }
  }

  /** The file statements */
  method FileStatement(c: Compiler) returns (r: Outcome, ghost s: Stmt)
    requires Ready(c)
    modifies c, c.operatorStack, c.priorityStack, c.image, c.image.code
    decreases |c.rest|, 16
    ensures r.Fail? ==> StmtFails(ParseFileKeyword(old(c.token), old(c.rest)), old(State(c)))
    ensures r.Pass? ==> Ready(c) && ParseFileKeyword(old(c.token), old(c.rest)) == Ok(s, c.rest)
    ensures r.Pass? ==> GenStmt(s, old(State(c))) == Good(State(c))
  {
    hide Ready, GenStmt, IsWord, ParseDelete, ParseRead, ParseRecordLock;
    s := RepeatMark;
    if IsWord(c.token, "DELETE") {
      r, s := Delete(c, 0);
    } else if IsWord(c.token, "DELETEU") {
      r, s := Delete(c, OP_ULOCK);
    } else if IsWord(c.token, "READ") {
      r, s := Read(c, 0);
    } else if IsWord(c.token, "READL") {
      r, s := Read(c, OP_LLOCK);
    } else if IsWord(c.token, "READU") {
      r, s := Read(c, OP_ULOCK);
    } else if IsWord(c.token, "RECORDLOCKL") {
      r, s := RecordLock(c, OP_LLOCK);
    } else if IsWord(c.token, "RECORDLOCKU") {
      r, s := RecordLock(c, OP_ULOCK);
    } else {
      r := Fail(Rejected);
    }
  }

  /** proc_line_prefetched() */
  method Prefetched(c: Compiler, ghost acc: Block, ghost base: GState) returns (r: Outcome, ghost b: Block)
    requires Ready(c) && Proper(c.token) && GenBlock(acc, base) == Good(State(c))
    modifies c, c.operatorStack, c.priorityStack, c.image, c.image.code
    decreases Size(c.token, c.rest), 4
    ensures r.Fail? ==> Fails(ParsePrefetched(acc, old(c.token), old(c.rest)), base)
    ensures r.Pass? ==> Ready(c) && ParsePrefetched(acc, old(c.token), old(c.rest)) == Ok(b, c.rest)
    ensures r.Pass? ==> GenBlock(b, base) == Good(State(c))
  {
    hide Ready, GenBlock, ParseGroup, TakeLabel;
    ghost var t, ts := c.token, c.rest;
    var labelled;
    labelled, b := Label(c, acc, base);
    if labelled.Fail? {
      PrefetchedFails(acc, t, ts, base);
      return labelled, b;
    }
    b :- Group(c, b, base);
    SkipLineEnd(c);
    return Pass, b;
  }

  /** proc_line() */
  method ProcLine(c: Compiler, ghost acc: Block, ghost base: GState) returns (r: Outcome, ghost b: Block)
    requires Ready(c) && GenBlock(acc, base) == Good(State(c))
    modifies c, c.operatorStack, c.priorityStack, c.image, c.image.code
    decreases |c.rest|, 5
    ensures r.Fail? ==> Fails(ParseLine(acc, old(c.rest)), base)
    ensures r.Pass? ==> Ready(c) && ParseLine(acc, old(c.rest)) == Ok(b, c.rest)
    ensures r.Pass? ==> GenBlock(b, base) == Good(State(c))
  {
    hide Ready, GenBlock, ParsePrefetched;
    Next(c);
    r, b := Prefetched(c, acc, base);
  }

  /** The lines of a clause up to its END. */
  method ClauseLines(c: Compiler) returns (r: Outcome, ghost b: Block)
    requires Ready(c)
    modifies c, c.operatorStack, c.priorityStack, c.image, c.image.code
    decreases |c.rest|, 6
    ensures r.Fail? ==> Fails(ParseBody(Empty, old(c.rest)), old(State(c)))
    ensures r.Pass? ==> Ready(c) && ParseBody(Empty, old(c.rest)) == Ok(b, c.rest)
    ensures r.Pass? ==> GenBlock(b, old(State(c))) == Good(State(c))
  {
    hide Ready, ParsePrefetched, TakeLabel, IsWord, GenStmt;
    b := Empty;
    ghost var base := State(c);
    while true
      invariant Ready(c) && GenBlock(b, base) == Good(State(c)) && |c.rest| <= |old(c.rest)|
      invariant ParseBody(Empty, old(c.rest)) == ParseBody(b, c.rest)
      decreases |c.rest|
    {
      if c.rest == [] {
        return Fail(Rejected), b;
      }
      ghost var ts, before := c.rest, b;
      Next(c);
      var done;
      done, b := Label(c, b, base);
      if done.Fail? {
        BodyFails(before, ts, base);
        return done, b;
      }
      if IsWord(c.token, "END") {
        break;
      }
      done, b := Prefetched(c, b, base);
      if done.Fail? {
        BodyFails(before, ts, base);
        return done, b;
      }
    }
    return Pass, b;
  }

  /** The statements conditioned by THEN, ELSE, ERROR or LOCKED. */
  method ClauseBody(c: Compiler) returns (r: Outcome, ghost b: Block)
    requires Ready(c)
    modifies c, c.operatorStack, c.priorityStack, c.image, c.image.code
    decreases |c.rest|, 7
    ensures r.Fail? ==> Fails(ParseClause(old(c.rest)), old(State(c)))
    ensures r.Pass? ==> Ready(c) && ParseClause(old(c.rest)) == Ok(b, c.rest)
    ensures r.Pass? ==> GenBlock(b, old(State(c))) == Good(State(c))
  {
    hide Ready, ParseBody, ParseGroup, GenStmt;
    if Look(c.rest).kind == TKN_END {
      Next(c);
      r, b := ClauseLines(c);
    } else {
      Next(c);
      r, b := Group(c, Empty, State(c));
    }
  }

  /** st_if() */
  method IfStatement(c: Compiler) returns (r: Outcome, ghost s: Stmt)
    requires Ready(c)
    modifies c, c.operatorStack, c.priorityStack, c.image, c.image.code
    decreases |c.rest|, 10
    ensures r.Fail? ==> StmtFails(ParseIfStmt(old(c.rest)), old(State(c)))
    ensures r.Pass? ==> Ready(c) && ParseIfStmt(old(c.rest)) == Ok(s, c.rest)
    ensures r.Pass? ==> GenStmt(s, old(State(c))) == Good(State(c))
  {
    hide Long, Ready, ParseExpr, ParseBranches, GenIf, EmitE, AfterE;
    s := RepeatMark;
    ghost var cond;
    IfFails(c.rest, State(c));
    cond :- ExprF(c);
    OpenConstruct(c, IfEntry);
    SkipLineEnd(c);
    r, s := Branches(c, cond);
  }

  /** if_back_end() */
  method Branches(c: Compiler, ghost cond: Expr) returns (r: Outcome, ghost s: Stmt)
    requires Ready(c) && c.jumpStack != []
    modifies c, c.operatorStack, c.priorityStack, c.image, c.image.code
    decreases |c.rest|, 9
    ensures r.Fail? ==>
              || ParseBranches(cond, old(c.rest)).Err?
              || Lost(GenIf(ParseBranches(cond, old(c.rest)).value, old(State(c))))
    ensures r.Pass? ==> Ready(c) && ParseBranches(cond, old(c.rest)) == Ok(s, c.rest)
    ensures r.Pass? ==> GenIf(s, old(State(c))) == Good(State(c))
  {
    hide Long, Ready, ParseClause, ParseBranches, ParseThen, GenIf, GenThen, GenElse, Upper, JumpTop;
    s := RepeatMark;
    BranchParts(cond, c.rest, State(c));
    Next(c);
    if !IsWord(c.token, "THEN") {
      if !IsWord(c.token, "ELSE") {
        return Fail(Rejected), s;
      }
      :- EmitTopJump(c, OP_JTRUE, "X");
      ghost var b;
      b :- ElseClause(c);
      return Pass, If(cond, Absent, Clause(b));
    }
    :- EmitTopJump(c, OP_JFALSE, "E");
    r, s := ThenClause(c, cond);
  }

  /** The THEN clause, and the ELSE clause if there is one. */
  method ThenClause(c: Compiler, ghost cond: Expr) returns (r: Outcome, ghost s: Stmt)
    requires Ready(c)
    modifies c, c.operatorStack, c.priorityStack, c.image, c.image.code
    decreases |c.rest|, 9
    ensures r.Fail? ==> ThenFails(ParseThen(cond, old(c.rest)), old(State(c)))
    ensures r.Pass? ==> Ready(c) && ParseThen(cond, old(c.rest)) == Ok(s, c.rest)
    ensures r.Pass? ==> GenThen(s, old(State(c))) == Good(State(c))
  {
    hide Long, Ready, State, ParseClause, ParseThen, GenBlock, GenThen, GenElse, IsWord, IsTop, Define, Close,
         JumpTop, TopLabel;
    s := RepeatMark;
    ghost var a, b;
    ThenParts(cond, c.rest, State(c));
    a :- ClauseBody(c);
    SkipLineEnd(c);
    if !IsWord(Look(c.rest), "ELSE") {
      var top := TopIs(c, IfEntry);
      if !top {
        return Fail(Rejected), s;
      }
      :- CloseTop(c, "E");
      return Pass, If(cond, Clause(a), Absent);
    }
    Next(c);
    var top := TopIs(c, IfEntry);
    if !top {
      return Fail(Rejected), s;
    }
    :- JumpAndDefine(c, "E");
    b :- ElseClause(c);
    return Pass, If(cond, Clause(a), Clause(b));
  }

  /** if_else_clause() */
  method ElseClause(c: Compiler) returns (r: Outcome, ghost b: Block)
    requires Ready(c)
    modifies c, c.operatorStack, c.priorityStack, c.image, c.image.code
    decreases |c.rest|, 8
    ensures r.Fail? ==>
              || ParseClause(old(c.rest)).Err?
              || Lost(GenElse(Clause(ParseClause(old(c.rest)).value), old(State(c))))
    ensures r.Pass? ==> Ready(c) && ParseClause(old(c.rest)) == Ok(b, c.rest)
    ensures r.Pass? ==> GenElse(Clause(b), old(State(c))) == Good(State(c))
  {
    hide Long, Ready, ParseClause, GenBlock;
    b := Empty;
    if ParseClause(c.rest).Ok? {
      ElseRoom(Clause(ParseClause(c.rest).value), State(c));
    }
    b :- ClauseBody(c);
    var top := TopIs(c, IfEntry);
    if !top {
      return Fail(Rejected), b;
    }
    :- CloseTop(c, "X");
    return Pass, b;
  }

  /** st_begin(): BEGIN CASE */
  method CaseStatement(c: Compiler) returns (r: Outcome, ghost s: Stmt)
    requires Ready(c)
    modifies c, c.operatorStack, c.priorityStack, c.image, c.image.code
    decreases |c.rest|, 10
    ensures r.Fail? ==> StmtFails(ParseCase(old(c.rest)), old(State(c)))
    ensures r.Pass? ==> Ready(c) && ParseCase(old(c.rest)) == Ok(s, c.rest)
    ensures r.Pass? ==> GenStmt(s, old(State(c))) == Good(State(c))
  {
    hide Long, Lost, StmtFails, Ready, ParseCase, ParseArms, GenElements, GenStmt, IsWord, Open, Close;
    CaseParts(c.rest, State(c));
    s := RepeatMark;
    Next(c);
    if !IsWord(c.token, "CASE") || Look(c.rest).kind != TKN_END {
      return Fail(Rejected), s;
    }
    Next(c);
    OpenConstruct(c, CaseEntry);
    ghost var arms;
    arms :- Elements(c);
    if c.rest == [] {
      return Fail(Rejected), s;
    }
    Next(c);
    if !IsWord(Look(c.rest), "CASE") {
      return Fail(Rejected), s;
    }
    Next(c);
    if c.jumpStack == [] {
      return Fail(Rejected), s;
    }
    :- CloseTop(c, "X");
    return Pass, Case(arms);
  }

  /** The loop over the elements. */
  method Elements(c: Compiler) returns (r: Outcome, ghost arms: Arms)
    requires Ready(c)
    modifies c, c.operatorStack, c.priorityStack, c.image, c.image.code
    decreases |c.rest|, 9
    ensures r.Fail? ==>
              || ParseArms(NoArms, old(c.rest)).Err?
              || Lost(GenElements(ParseArms(NoArms, old(c.rest)).value, old(State(c))))
    ensures r.Pass? ==> Ready(c) && ParseArms(NoArms, old(c.rest)) == Ok(arms, c.rest)
    ensures r.Pass? ==> GenElements(arms, old(State(c))) == Good(State(c))
  {
    hide Long, Ready, ParseArm, GenArm, IsWord, NextArm;
    arms := NoArms;
    ghost var base := State(c);
    while true
      invariant Ready(c) && GenArms(arms, base) == Good(State(c)) && |c.rest| <= |old(c.rest)|
      invariant ParseArms(NoArms, old(c.rest)) == ParseArms(arms, c.rest)
      decreases |c.rest|
    {
      ghost var before, ts := arms, c.rest;
      var step := StartElement(c);
      if step.Fail? {
        ElementsFail(before, ts, base);
        return step, arms;
      }
      if IsWord(Look(c.rest), "END") || c.rest == [] {
        break;
      }
      if !IsWord(Look(c.rest), "CASE") {
        return Fail(Rejected), arms;
      }
      Next(c);
      step, arms := Element(c, arms, base);
      if step.Fail? {
        ArmsFail(before, ts, base);
        return step, arms;
      }
    }
    return Pass, arms;
  }

  /** The jump over the other elements and this element's label. */
  method StartElement(c: Compiler) returns (r: Outcome)
    requires Ready(c)
    modifies c, c.image, c.image.code
    ensures r.Fail? ==> Lost(NextArm(old(State(c))))
    ensures r.Pass? ==> Ready(c) && NextArm(old(State(c))) == Good(State(c))
    ensures c.rest == old(c.rest)
  {
    hide Long, CodeImage.Valid, Scanned, Labelled;
    if c.jumpStack == [] {
      return Fail(Rejected);
    }
    var element := c.jumpStack[0].element;
    if element != 0 {
      :- JumpAndDefine(c, CaseSuffix(element));
    }
    c.jumpStack := [c.jumpStack[0].(element := element + 1)] + c.jumpStack[1..];
    return Pass;
  }

  /** CASE condition and the element's statements. */
  method Element(c: Compiler, ghost arms: Arms, ghost base: GState) returns (r: Outcome, ghost more: Arms)
    requires Ready(c)
    requires GenElements(arms, base) == Good(State(c))
    modifies c, c.operatorStack, c.priorityStack, c.image, c.image.code
    decreases |c.rest|, 8
    ensures r.Fail? ==>
              || ParseArm(arms, old(c.rest)).Err?
              || Lost(GenArms(ParseArm(arms, old(c.rest)).value, base))
    ensures r.Pass? ==> Ready(c) && ParseArm(arms, old(c.rest)) == Ok(more, c.rest)
    ensures r.Pass? ==> GenArms(more, base) == Good(State(c))
  {
    hide Long, Lost, Fails, NoRoom, Ready, ParseArm, ParseExpr, ParseFirst, ParseElement, GenElements, GenArms,
         GenBlock, EmitE, AfterE, JumpTop;
    more := arms;
    ghost var e, b;
    ArmParts(arms, c.rest, base);
    e :- ExprF(c);
    if c.jumpStack == [] || !c.jumpStack[0].kind.CaseEntry? {
      return Fail(Rejected), more;
    }
    :- EmitTopJump(c, OP_JFALSE, CaseSuffix(c.jumpStack[0].element));
    ghost var start := State(c);
    b :- FirstStatements(c);
    SkipLineEnd(c);
    b :- ElementLines(c, b, start);
    return Pass, Arm(arms, e, b);
  }

  /** Statements on the line of the CASE itself. */
  method FirstStatements(c: Compiler) returns (r: Outcome, ghost b: Block)
    requires Ready(c)
    modifies c, c.operatorStack, c.priorityStack, c.image, c.image.code
    decreases |c.rest|, 7
    ensures r.Fail? ==> Fails(ParseFirst(old(c.rest)), old(State(c)))
    ensures r.Pass? ==> Ready(c) && ParseFirst(old(c.rest)) == Ok(b, c.rest)
    ensures r.Pass? ==> GenBlock(b, old(State(c))) == Good(State(c))
  {
    hide Ready, ParseGroup, GenStmt;
    b := Empty;
    if Look(c.rest).kind == TKN_SEMICOLON {
      Next(c);
      if Look(c.rest).kind != TKN_END {
        Next(c);
        b :- Group(c, Empty, State(c));
      }
    } else if Look(c.rest).kind != TKN_END {
      return Fail(Rejected), b;
    }
    return Pass, b;
  }

  /** The lines up to the next CASE or END. */
  method ElementLines(c: Compiler, ghost acc: Block, ghost base: GState) returns (r: Outcome, ghost b: Block)
    requires Ready(c) && GenBlock(acc, base) == Good(State(c))
    modifies c, c.operatorStack, c.priorityStack, c.image, c.image.code
    decreases |c.rest|, 6
    ensures r.Fail? ==> Fails(ParseElement(acc, old(c.rest)), base)
    ensures r.Pass? ==> Ready(c) && ParseElement(acc, old(c.rest)) == Ok(b, c.rest)
    ensures r.Pass? ==> GenBlock(b, base) == Good(State(c))
  {
    hide Ready, ParseLine, IsWord, GenBlock;
    b := acc;
    while !IsWord(Look(c.rest), "CASE") && !IsWord(Look(c.rest), "END") && c.rest != []
      invariant Ready(c) && GenBlock(b, base) == Good(State(c)) && |c.rest| <= |old(c.rest)|
      invariant ParseElement(acc, old(c.rest)) == ParseElement(b, c.rest)
      decreases |c.rest|
    {
      ghost var before, ts := b, c.rest;
      var step;
      step, b := ProcLine(c, b, base);
      if step.Fail? {
        ElementFails(before, ts, base);
        return step, b;
      }
      SkipLineEnd(c);
    }
    return Pass, b;
  }

  /** DELETE and DELETEU */
  method Delete(c: Compiler, lock: nat) returns (r: Outcome, ghost s: Stmt)
    requires Ready(c) && lock <= 255
    modifies c, c.operatorStack, c.priorityStack, c.image, c.image.code
    decreases |c.rest|, 15
    ensures r.Fail? ==> StmtFails(ParseDelete(lock, old(c.rest)), old(State(c)))
    ensures r.Pass? ==> Ready(c) && ParseDelete(lock, old(c.rest)) == Ok(s, c.rest)
    ensures r.Pass? ==> GenStmt(s, old(State(c))) == Good(State(c))
  {
    hide Long, Ready, ParseExpr, ParseKey, EmitE, AfterE, GenStmt, EmitArgs, AfterArgs;
    s := RepeatMark;
    ghost var f, g := Num(0), State(c);
    NoOperands(g);
    if ParseExpr(c.rest).Ok? {
      OneMore(NoArgs, ParseExpr(c.rest).value, g);
      KeyFails(Call(lock, OP_DELETE, false, false), One(ParseExpr(c.rest).value), ParseExpr(c.rest).rest, g);
    }
    f :- ExprF(c);
    r, s := Key(c, Call(lock, OP_DELETE, false, false), One(f), g);
  }

  /** record_lock_common() */
  method RecordLock(c: Compiler, lock: nat) returns (r: Outcome, ghost s: Stmt)
    requires Ready(c) && lock <= 255
    modifies c, c.operatorStack, c.priorityStack, c.image, c.image.code
    decreases |c.rest|, 15
    ensures r.Fail? ==> StmtFails(ParseRecordLock(lock, old(c.rest)), old(State(c)))
    ensures r.Pass? ==> Ready(c) && ParseRecordLock(lock, old(c.rest)) == Ok(s, c.rest)
    ensures r.Pass? ==> GenStmt(s, old(State(c))) == Good(State(c))
  {
    hide Long, Ready, ParseKey, EmitE, AfterE, GenStmt, EmitArgs, AfterArgs;
    s := RepeatMark;
    ghost var f, g := Num(0), State(c);
    NoOperands(g);
    if ParseName(c.rest).Ok? {
      OneMore(NoArgs, ParseName(c.rest).value, g);
      KeyFails(Call(lock, OP_LOCKREC, true, false), One(ParseName(c.rest).value), ParseName(c.rest).rest, g);
    }
    f :- SimpleVariable(c);
    r, s := Key(c, Call(lock, OP_LOCKREC, true, false), One(f), g);
  }

  /** read_common() */
  method Read(c: Compiler, lock: nat) returns (r: Outcome, ghost s: Stmt)
    requires Ready(c) && lock <= 255
    modifies c, c.operatorStack, c.priorityStack, c.image, c.image.code
    decreases |c.rest|, 15
    ensures r.Fail? ==> StmtFails(ParseRead(lock, old(c.rest)), old(State(c)))
    ensures r.Pass? ==> Ready(c) && ParseRead(lock, old(c.rest)) == Ok(s, c.rest)
    ensures r.Pass? ==> GenStmt(s, old(State(c))) == Good(State(c))
  {
    hide Long, Ready, ParseKey, EmitE, AfterE, GenStmt, EmitArgs, AfterArgs, Upper;
    s := RepeatMark;
    ghost var v, f, g := Num(0), Num(0), State(c);
    NoOperands(g);
    ReadFails(lock, c.rest, g);
    if ParseName(c.rest).Ok? {
      OneMore(NoArgs, ParseName(c.rest).value, g);
    }
    v :- SimpleVariable(c);
    OneMore(NoArgs, v, g);
    if !IsWord(Look(c.rest), "FROM") {
      return Fail(Rejected), s;
    }
    Next(c);
    if ParseName(c.rest).Ok? {
      OneMore(One(v), ParseName(c.rest).value, g);
    }
    f :- SimpleVariable(c);
    OneMore(One(v), f, g);
    r, s := Key(c, Call(lock, OP_READ, lock > 0, true), Two(v, f), g);
  }

  /** simple_var_reference() and simple_lvar_reference() */
  method SimpleVariable(c: Compiler) returns (r: Outcome, ghost e: Expr)
    requires Ready(c)
    modifies c, c.image, c.image.code
    ensures r.Fail? ==> NoRoom(ParseName(old(c.rest)), old(c.image.list), old(c.Context()))
    ensures r.Pass? ==> Ready(c) && ParseName(old(c.rest)) == Ok(e, c.rest) && State(c) == Value(old(State(c)), e)
  {
    hide Ready, EmitE, AfterE;
    e := Num(0);
    if Look(c.rest).kind != TKN_NAME {
      return Fail(Rejected), e;
    }
    Next(c);
    e := Var(c.token.text);
    :- LoadVariable(c, c.token.text);
    return Pass, e;
  }

  /** check_comma(), the record id, and the clauses. */
  method Key(c: Compiler, call: Call, ghost args: Exprs, ghost g: GState) returns (r: Outcome, ghost s: Stmt)
    requires Ready(c) && call.lock <= 255 && call.op <= 255 && State(c) == Operands(args, g)
    modifies c, c.operatorStack, c.priorityStack, c.image, c.image.code
    decreases |c.rest|, 14
    ensures r.Fail? ==> StmtFails(ParseKey(call, args, old(c.rest)), g)
    ensures r.Pass? ==> Ready(c) && ParseKey(call, args, old(c.rest)) == Ok(s, c.rest)
    ensures r.Pass? ==> GenStmt(s, g) == Good(State(c))
  {
    hide Long, Ready, ParseExpr, ParseFile, EmitE, AfterE, GenStmt, EmitArgs, AfterArgs, Operands;
    s := RepeatMark;
    ghost var k;
    if Look(c.rest).kind != TKN_COMMA {
      return Fail(Rejected), s;
    }
    Next(c);
    KeyFails(call, args, old(c.rest), g);
    if ParseExpr(c.rest).Ok? {
      OneMore(args, ParseExpr(c.rest).value, g);
    }
    k :- ExprF(c);
    r, s := BackEnd(c, call, Args(args, k), g);
  }

  /** back_end(): its three clause stacks are always pushed and popped by one caller,
      so their top entries are the fields of call and the local address. */
  method BackEnd(c: Compiler, call: Call, ghost args: Exprs, ghost g: GState) returns (r: Outcome, ghost s: Stmt)
    requires Ready(c) && call.lock <= 255 && call.op <= 255 && State(c) == Operands(args, g)
    modifies c, c.operatorStack, c.priorityStack, c.image, c.image.code
    decreases |c.rest|, 13
    ensures r.Fail? ==> StmtFails(ParseFile(call, args, old(c.rest)), g)
    ensures r.Pass? ==> Ready(c) && ParseFile(call, args, old(c.rest)) == Ok(s, c.rest)
    ensures r.Pass? ==> GenStmt(s, g) == Good(State(c))
  {
    hide Long, Lost, Ready, ParseOnError, ParseLocked, ParseChoice, ParseFile, GenStmt, GenCall, GenLocked, GenChoice,
         Operands, At, StmtFails, ChoiceFails, LockCode;
    s := RepeatMark;
    FileFailsAt(call, args, c.rest, g);
    OpenConstruct(c, BackEndEntry);
    var address;
    address :- Prepare(c, call);
    ghost var start, t := State(c), |State(c).list| - 1;
    SkipLineEnd(c);
    ghost var onError, locked;
    onError :- OnErrorClause(c, call);
    ghost var called := State(c);
    CalledAt(call, onError, start, called, t);
    locked :- LockedClause(c, call, address, t);
    ghost var ready := State(c);
    r, s := Choice(c, call, args, onError, locked);
    if r.Pass? {
      FileSteps(s, g, start, called, ready, State(c));
    }
  }

  /** The opcode and its ON ERROR clause leave the NULL where it is. */
  lemma CalledAt(call: Call, onError: Clause, start: GState, after: GState, t: int)
    requires GenCall(call, onError, start) == Good(after) && t == |start.list| - 1
    ensures call.canLock && t >= 0 ==>
              t < |after.list| && after.list[t] == start.list[t] && At(after.list, t) == At(start.list, t)
  {
    hide GenCall, At;
    CallKeeps(call, onError, start, |start.list|);
    if t >= 0 {
      SameAt(start.list, after.list, t);
    }
  }

  /** The lock opcode, and a NULL that LOCKED may replace. */
  method Prepare(c: Compiler, call: Call) returns (r: Outcome, address: nat)
    requires Ready(c) && call.lock <= 255
    modifies c.image, c.image.code
    ensures r.Fail? ==> Long(Put(old(State(c)), LockCode(call)).list)
    ensures r.Pass? ==> Ready(c) && State(c) == Put(old(State(c)), LockCode(call))
    ensures r.Pass? && call.canLock ==>
              var t := |c.image.list| - 1;
              t >= 0 && c.image.list[t] == Op(OP_NULL) && address == At(c.image.list, t)
  {
    hide Ready, At, Long;
    address := 0;
    ghost var start := c.image.list;
    LockRoom(call, State(c));
    if call.lock > 0 {
      :- Emit(c, call.lock);
    }
    LockParts(call, start);
    if call.canLock {
      :- Emit(c, OP_NULL);
      address := NullAddress(c);
    }
    return Pass, address;
  }

  lemma LockParts(call: Call, start: seq<Item>)
    ensures var first := if call.lock > 0 then start + [Op(call.lock)] else start;
      start + LockCode(call) == if call.canLock then first + [Op(OP_NULL)] else first
  {
  }

  /** The NULL just emitted is the byte before pc. */
  method NullAddress(c: Compiler) returns (address: nat)
    requires Ready(c) && c.image.list != [] && c.image.list[|c.image.list| - 1] == Op(OP_NULL)
    ensures address == At(c.image.list, |c.image.list| - 1)
  {
    hide Scanned, Labelled, Flatten;
    ghost var list, k := c.image.list, |c.image.list| - 1;
    assert list[..k + 1] == list;
    AtNext(list, k);
    AtPositive(list, k);
    address := c.image.pc - 1;
  }

  lemma AtPositive(list: seq<Item>, k: nat)
    requires k <= |list|
    ensures At(list, k) > 0
  {
  }

  lemma SameAt(a: seq<Item>, b: seq<Item>, t: nat)
    requires t < |a| <= |b| && b[..|a|] == a
    ensures b[t] == a[t] && At(b, t) == At(a, t)
  {
    assert b[..t] == b[..|a|][..t] == a[..t];
    assert b[t] == b[..|a|][t];
  }

  lemma NoOperands(g: GState)
    ensures Operands(NoArgs, g) == g
  {
    assert g.list + [] == g.list;
  }

  lemma OneMore(args: Exprs, e: Expr, g: GState)
    ensures Operands(Args(args, e), g) == Value(Operands(args, g), e)
  {
    hide EmitE, AfterE;
    Regroup(g.list, EmitArgs(args, g.ctx), EmitE(e, AfterArgs(args, g.ctx)));
  }

  /** The opcode itself, with ON ERROR before it if that clause is there. */
  method OnErrorClause(c: Compiler, call: Call) returns (r: Outcome, ghost k: Clause)
    requires Ready(c) && call.op <= 255 && c.jumpStack != []
    modifies c, c.operatorStack, c.priorityStack, c.image, c.image.code
    decreases |c.rest|, 10
    ensures r.Fail? ==>
              || ParseOnError(old(c.rest)).Err?
              || Lost(GenCall(call, ParseOnError(old(c.rest)).value, old(State(c))))
    ensures r.Pass? ==> Ready(c) && ParseOnError(old(c.rest)) == Ok(k, c.rest) && c.jumpStack != []
    ensures r.Pass? ==> GenCall(call, k, old(State(c))) == Good(State(c))
  {
    hide Long, Lost, Ready, ParseOnError, ParseClause, GenCall, GenAside, IsWord, JumpTop;
    k := Absent;
    OnErrorParts(call, c.rest, State(c));
    if !IsWord(Look(c.rest), "ON") || !IsWord(Look(Tail(c.rest)), "ERROR") {
      r := Emit(c, call.op);
      return r, k;
    }
    Next(c);
    Next(c);
    :- Emit(c, OP_ONERROR);
    :- Emit(c, call.op);
    :- Emit(c, OP_DUP);
    r, k := Aside(c, OP_JPZ, "A");
  }

  /** The jump around a clause, the POP of the status, the clause, and the way out. */
  method Aside(c: Compiler, op: nat, suffix: string) returns (r: Outcome, ghost k: Clause)
    requires Ready(c) && op <= 255 && c.jumpStack != [] && IsSuffix(suffix)
    modifies c, c.operatorStack, c.priorityStack, c.image, c.image.code
    decreases |c.rest|, 8
    ensures r.Fail? ==>
              || ParseClause(old(c.rest)).Err?
              || Lost(GenAside(Clause(ParseClause(old(c.rest)).value), suffix,
                               Put(JumpTop(old(State(c)), op, suffix), [Op(OP_POP)])))
    ensures r.Pass? ==> Ready(c) && k.Clause? && ParseClause(old(c.rest)) == Ok(k.body, c.rest) && c.jumpStack != []
    ensures r.Pass? ==> GenAside(k, suffix, Put(JumpTop(old(State(c)), op, suffix), [Op(OP_POP)])) == Good(State(c))
  {
    hide Long, Ready, ParseClause, GenBlock;
    k := Absent;
    if ParseClause(c.rest).Ok? {
      JumpAsideRoom(Clause(ParseClause(c.rest).value), op, suffix, State(c));
      AsideRoom(Clause(ParseClause(c.rest).value), suffix, Put(JumpTop(State(c), op, suffix), [Op(OP_POP)]));
    }
    :- EmitTopJump(c, op, suffix);
    :- Emit(c, OP_POP);
    ghost var b;
    b :- ClauseBody(c);
    var top := TopIs(c, BackEndEntry);
    if !top {
      return Fail(Rejected), k;
    }
    :- JumpAndDefine(c, suffix);
    return Pass, Clause(b);
  }

  /** LOCKED: the NULL becomes a NOWAIT. */
  method LockedClause(c: Compiler, call: Call, address: nat, ghost t: int) returns (r: Outcome, ghost k: Clause)
    requires Ready(c) && c.jumpStack != []
    requires call.canLock ==>
               0 <= t < |c.image.list| && c.image.list[t] == Op(OP_NULL) && address == At(c.image.list, t)
    modifies c, c.operatorStack, c.priorityStack, c.image, c.image.code
    decreases |c.rest|, 10
    ensures r.Fail? ==>
              || ParseLocked(call, old(c.rest)).Err?
              || Lost(GenLocked(call, ParseLocked(call, old(c.rest)).value, t, old(State(c))))
    ensures r.Pass? ==> Ready(c) && ParseLocked(call, old(c.rest)) == Ok(k, c.rest) && c.jumpStack != []
    ensures r.Pass? ==> GenLocked(call, k, t, old(State(c))) == Good(State(c))
  {
    hide Long, Lost, Ready, ParseLocked, ParseClause, GenLocked, GenAside, IsWord, JumpTop, At;
    k := Absent;
    LockedParts(call, c.rest, t, State(c));
    if !call.canLock {
      return Pass, k;
    }
    SkipLineEnd(c);
    if !IsWord(Look(c.rest), "LOCKED") {
      return Pass, k;
    }
    Next(c);
    Patch(c, address, t);
    :- Emit(c, OP_DUP);
    :- EmitStatus(c);
    :- Emit(c, OP_EQ);
    r, k := Aside(c, OP_JZE, "B");
  }

  method Patch(c: Compiler, address: nat, ghost t: nat)
    requires Ready(c) && t < |c.image.list| && c.image.list[t] == Op(OP_NULL) && address == At(c.image.list, t)
    modifies c.image, c.image.code
    ensures Ready(c) && State(c) == old(State(c)).(list := old(c.image.list)[t := Op(OP_NOWAIT)])
  {
    hide CodeImage.Valid, Scanned, Labelled, At;
    LabelledReplace(c.image.list, t, Simple(OP_NOWAIT), 0, c.jumpNo);
    c.image.Replace(address, OP_NOWAIT, t);
  }

  method EmitStatus(c: Compiler) returns (r: Outcome)
    requires Ready(c)
    modifies c.image, c.image.code
    ensures r.Fail? ==> Long(Put(old(State(c)), [I(NumberLoad(ER_LCK))]).list)
    ensures r.Pass? ==> Ready(c) && State(c) == Put(old(State(c)), [I(NumberLoad(ER_LCK))])
  {
    hide CodeImage.Valid, Scanned, Labelled;
    r := c.EmitNumber(ER_LCK);
  }

  /** THEN and ELSE, or neither. */
  method Choice(c: Compiler, call: Call, ghost args: Exprs, ghost onError: Clause, ghost locked: Clause)
    returns (r: Outcome, ghost s: Stmt)
    requires Ready(c) && c.jumpStack != []
    modifies c, c.operatorStack, c.priorityStack, c.image, c.image.code
    decreases |c.rest|, 11
    ensures r.Fail? ==> ChoiceFails(ParseChoice(call, args, onError, locked, old(c.rest)), old(State(c)))
    ensures r.Pass? ==> Ready(c) && ParseChoice(call, args, onError, locked, old(c.rest)) == Ok(s, c.rest)
    ensures r.Pass? ==> GenChoice(s, old(State(c))) == Good(State(c))
  {
    hide Long, Ready, SuccessFails, ParseClause, ParseChoice, ParseSuccess, GenBlock, GenChoice, GenOther, GenSuccess,
         Upper, Define, Close, JumpTop, TopLabel;
    s := RepeatMark;
    ChoiceParts(call, args, onError, locked, c.rest, State(c));
    if !call.thenElse {
      :- Emit(c, OP_POP);
      :- CloseTop(c, "X");
      return Pass, File(call, args, onError, locked, Absent, Absent);
    }
    SkipLineEnd(c);
    if IsWord(Look(c.rest), "ELSE") {
      Next(c);
      :- EmitTopJump(c, OP_JZE, "X");
      ghost var b;
      b :- OtherClause(c);
      return Pass, File(call, args, onError, locked, Absent, Clause(b));
    }
    if !IsWord(Look(c.rest), "THEN") {
      return Fail(Rejected), s;
    }
    Next(c);
    :- EmitTopJump(c, OP_JNZ, "E");
    r, s := Success(c, call, args, onError, locked);
  }

  /** Without ELSE, the label of the ELSE clause and the end label. */
  method BothLabels(c: Compiler) returns (r: Outcome)
    requires Ready(c) && c.jumpStack != []
    modifies c, c.image, c.image.code
    ensures var d := Define(old(State(c)), TopLabel(old(State(c)), "E"));
      if r.Fail? then d.Bad? || Close(d.g, "X").Bad? else Ready(c) && d.Good? && Close(d.g, "X") == Good(State(c))
    ensures c.rest == old(c.rest)
  {
    hide Ready;
    r := DefineTop(c, "E");
    if r.Pass? {
      r := CloseTop(c, "X");
    }
  }

  /** The THEN clause of a file operation, and its ELSE clause. */
  method Success(c: Compiler, call: Call, ghost args: Exprs, ghost onError: Clause, ghost locked: Clause)
    returns (r: Outcome, ghost s: Stmt)
    requires Ready(c) && call.thenElse
    modifies c, c.operatorStack, c.priorityStack, c.image, c.image.code
    decreases |c.rest|, 10
    ensures r.Fail? ==> SuccessFails(ParseSuccess(call, args, onError, locked, old(c.rest)), old(State(c)))
    ensures r.Pass? ==> Ready(c) && ParseSuccess(call, args, onError, locked, old(c.rest)) == Ok(s, c.rest)
    ensures r.Pass? ==> GenSuccess(s, old(State(c))) == Good(State(c))
  {
    hide Long, Ready, State, Put, ParseClause, ParseSuccess, GenBlock, GenSuccess, GenOther, IsWord, IsTop, Define,
         Close, JumpTop, TopLabel;
    s := RepeatMark;
    ghost var a, b;
    SuccessParts(call, args, onError, locked, c.rest, State(c));
    a :- ClauseBody(c);
    SkipLineEnd(c);
    if !IsWord(Look(c.rest), "ELSE") {
      var top := TopIs(c, BackEndEntry);
      if !top {
        return Fail(Rejected), s;
      }
      :- BothLabels(c);
      return Pass, File(call, args, onError, locked, Clause(a), Absent);
    }
    Next(c);
    var top := TopIs(c, BackEndEntry);
    if !top {
      return Fail(Rejected), s;
    }
    :- JumpAndDefine(c, "E");
    b :- OtherClause(c);
    return Pass, File(call, args, onError, locked, Clause(a), Clause(b));
  }

  /** process_else_clause() and the exit label */
  method OtherClause(c: Compiler) returns (r: Outcome, ghost b: Block)
    requires Ready(c)
    modifies c, c.operatorStack, c.priorityStack, c.image, c.image.code
    decreases |c.rest|, 8
    ensures r.Fail? ==>
              || ParseClause(old(c.rest)).Err?
              || Lost(GenOther(Clause(ParseClause(old(c.rest)).value), old(State(c))))
    ensures r.Pass? ==> Ready(c) && ParseClause(old(c.rest)) == Ok(b, c.rest)
    ensures r.Pass? ==> GenOther(Clause(b), old(State(c))) == Good(State(c))
  {
    hide Long, Ready, ParseClause, GenBlock;
    b := Empty;
    if ParseClause(c.rest).Ok? {
      OtherRoom(Clause(ParseClause(c.rest).value), State(c));
    }
    b :- ClauseBody(c);
    var top := TopIs(c, BackEndEntry);
    if !top {
      return Fail(Rejected), b;
    }
    :- CloseTop(c, "X");
    return Pass, b;
  }
}
