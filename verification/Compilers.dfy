/** The one-pass compiler: it reads tokens and emits code without building a tree. */
module Compilers {
  import opened Outcomes
  import opened Isa
  import opened Cells
  import opened Listing
  import opened CodeImages
  import opened Syntax
  import opened Grammar
  import opened Names
  import opened Storages
  import opened Generate
  import opened Labels
  import opened Precedence
  import opened OperatorStack
  import opened Room
  import opened Programs

  class Compiler {
    // the token being processed, and the look-ahead with everything after it
    var token: Token
    var rest: seq<Token>
    // the operator stack shared by every expression being compiled
    const operatorStack: array<int>
    const priorityStack: array<int>
    var depth: nat
    var unaryMinus: bool
    // open constructs, innermost first, and the next construct number
    var jumpStack: seq<Entry>
    var jumpNo: nat
    // symbol_info and var_count
    var vars: Storage
    const image: CodeImage

    ghost predicate Valid()
      reads this, image, image.code
    {
      && image.Valid()
      && Labelled(image.list, 0, jumpNo)
      && Scanned(rest)
      && (operatorStack as object) != (priorityStack as object)
      && (operatorStack as object) != (image.code as object)
      && (priorityStack as object) != (image.code as object)
      && operatorStack.Length == priorityStack.Length == INIT_TOKENS
    }

    constructor (tokens: seq<Token>)
      requires Scanned(tokens)
      ensures Valid() && rest == tokens && image.list == [] && image.pc == HEADER
      ensures depth == 0 && !unaryMinus && priorityStack[0] == STACK_MARK
      ensures jumpStack == [] && Context() == Ctx(NoVariables, 0)
      ensures fresh(operatorStack) && fresh(priorityStack) && fresh(image) && fresh(image.code)
    {
      token := EndToken;
      rest := tokens;
      operatorStack := new int[INIT_TOKENS](_ => 0);
      priorityStack := new int[INIT_TOKENS](i => if i == 0 then STACK_MARK else 0);
      depth := 0;
      unaryMinus := false;
      jumpStack := [];
      jumpNo := 0;
      vars := NoVariables;
      image := new CodeImage();
    }

    ghost function Context(): Ctx
      reads this
    {
      Ctx(vars, jumpNo)
    }

    /** Operator stack slots in use, and tokens that could still claim one on this line. */
    ghost function Claim(): nat
      reads this
    {
      depth + (if unaryMinus then 1 else 0) + Line(rest)
    }

    /** The stack from its bottom to index d. */
    ghost function StackTo(d: nat): (seq<int>, seq<int>)
      requires d < operatorStack.Length == priorityStack.Length
      reads operatorStack, priorityStack
    {
      (operatorStack[..d + 1], priorityStack[..d + 1])
    }

    /** get_token(): tokens of all lines are one sequence, every line ended by TKN_END. */
    method GetToken()
      requires Scanned(rest)
      modifies this`token, this`rest
      ensures token == Look(old(rest)) && rest == (if old(rest) == [] then [] else old(rest)[1..])
      ensures Scanned(rest)
      ensures old(rest) != [] ==> old(rest) == [token] + rest
      ensures token.kind != TKN_END ==> Line(rest) + 1 == Line(old(rest))
    {
      token := Look(rest);
      if rest != [] {
        ScannedTail(rest);
        rest := rest[1..];
      }
    }

    /** emit_simple() with one of the compiler's opcodes. */
    method EmitOp(op: nat) returns (r: Outcome)
      requires Valid() && op < 256
      modifies image, image.code
      ensures r.Fail? ==> Long(old(image.list) + [Op(op)])
      ensures r.Pass? ==> Valid() && image.list == old(image.list) + [Op(op)]
    {
      hide Scanned, Labelled, CodeImage.Valid;
      LabelledCode(image.list, Simple(op), 0, jumpNo);
      r := image.EmitSimple(op);
    }

    method EmitJump(op: nat, name: string) returns (r: Outcome)
      requires Valid() && op <= 255
      modifies image, image.code
      ensures r.Fail? ==> Long(old(image.list) + [I(Jump(op, name))])
      ensures r.Pass? ==> Valid() && image.list == old(image.list) + [I(Jump(op, name))]
    {
      hide Scanned, Labelled, CodeImage.Valid;
      LabelledCode(image.list, Jump(op, name), 0, jumpNo);
      r := image.EmitJump(op, name);
    }

    method EmitNumber(n: int) returns (r: Outcome)
      requires Valid()
      modifies image, image.code
      ensures r.Fail? ==> Long(old(image.list) + EmitE(Num(n), Context()))
      ensures r.Pass? ==> Valid() && image.list == old(image.list) + EmitE(Num(n), Context())
    {
      hide Scanned, Labelled, CodeImage.Valid;
      LabelledCode(image.list, NumberLoad(n), 0, jumpNo);
      r := image.EmitNumericLoad(n);
    }

    method EmitText(s: string) returns (r: Outcome)
      requires Valid()
      modifies image, image.code
      ensures r.Fail? ==> !IsByteText(s) || Long(old(image.list) + EmitE(Str(s), Context()))
      ensures r.Pass? ==> Valid() && IsByteText(s) && image.list == old(image.list) + EmitE(Str(s), Context())
    {
      hide Scanned, Labelled, CodeImage.Valid, TextLoad;
      LabelledText(s, 0, jumpNo);
      LabelledConcat(image.list, TextLoad(s), 0, jumpNo);
      r := image.EmitStringLoad(s);
    }

    /** make_var() */
    method MakeVar(name: string)
      requires name !in vars.info
      modifies this`vars
      ensures vars == Touch(old(vars), name)
    {
      var table, v := vars.table + [name], vars.count;
      vars := vars.(info := vars.info[name := LocalVar(v)], attrs := vars.attrs[name := Attr(0, -1)], table := table,
                    count := v + 1);
    }

    /** emit_var_reference_common() for a scalar: find_var(), make_var() if it is new,
        then emit_var_load(). */
    method EmitVariable(name: string) returns (r: Outcome)
      requires Valid()
      modifies this`vars, image, image.code
      ensures r.Fail? ==> Long(old(image.list) + EmitE(Var(name), old(Context())))
      ensures r.Pass? ==> Valid() && image.list == old(image.list) + EmitE(Var(name), old(Context()))
      ensures r.Pass? ==> Context() == AfterE(Var(name), old(Context()))
    {
      hide Scanned, Labelled, CodeImage.Valid, VarLoad;
      if name !in vars.info {
        MakeVar(name);
      }
      LabelledCode(image.list, VarLoad(vars.info[name]), 0, jumpNo);
      r := image.EmitVarLoad(vars.info[name]);
    }

    /** set_label() with a generated name. */
    method SetLabel(n: nat, suffix: string) returns (r: Outcome)
      requires Valid() && n < jumpNo && IsSuffix(suffix)
      modifies image, image.code
      ensures r.Pass? <==> D(LabelName(n, suffix)) !in old(image.list)
      ensures r.Fail? ==> r.error == Duplicate
      ensures r.Pass? ==> Valid() && image.list == old(image.list) + [D(LabelName(n, suffix))]
    {
      hide Scanned, Labelled, CodeImage.Valid;
      LabelledDef(image.list, n, suffix, 0, jumpNo);
      r := image.SetLabel(LabelName(n, suffix));
    }

    /** Store on top of the operator stack; an index past its end ends the compile. */
    method Push(op: int, priority: int) returns (r: Outcome)
      requires operatorStack.Length == priorityStack.Length == INIT_TOKENS
      requires (operatorStack as object) != (priorityStack as object)
      modifies this`depth, operatorStack, priorityStack
      ensures r == if old(depth) + 1 < INIT_TOKENS then Pass else Fail(Rejected)
      ensures r.Pass? ==> depth == old(depth) + 1
      ensures r.Pass? ==> operatorStack[..] == old(operatorStack[..])[depth := op]
      ensures r.Pass? ==> priorityStack[..] == old(priorityStack[..])[depth := priority]
    {
      if depth + 1 >= INIT_TOKENS {
        return Fail(Rejected);
      }
      depth := depth + 1;
      operatorStack[depth] := op;
      priorityStack[depth] := priority;
      return Pass;
    }

    /** The tests that decide whether the look-ahead continues the expression. */
    method AtOperator() returns (b: bool)
      ensures b <==> OpLevel(rest) > 0
    {
      var k := Look(rest).kind;
      if k < 12 || k > 31 {
        return false;
      }
      if k == TKN_COLON {
        return ColonApplies(Look(rest[1..]));
      }
      return true;
    }

    /** The operator stack, the listing and the tables agree with the pending frames
        and the operand e just read. */
    ghost predicate Progress(fs: seq<Frame>, e: Expr, neg: bool, base: nat, c: Ctx, done: seq<Item>)
      reads this, operatorStack, priorityStack, image
    {
      && Stacked(fs)
      && Pending(operatorStack[..], priorityStack[..], base, fs, neg, depth)
      && image.list + NegPart(neg) == done + Code(fs, e, c)
      && Context() == AfterE(e, FramesCtx(fs, c))
    }

    /** Emit the operator on top of the stack and remove it. */
    method EmitTop(ghost fs: seq<Frame>, ghost e: Expr, ghost neg: bool, ghost base: nat, ghost c: Ctx,
                   ghost done: seq<Item>, ghost ts: seq<Token>)
      returns (r: Outcome, ghost fs': seq<Frame>, ghost e': Expr)
      requires Valid() && Progress(fs, e, neg, base, c, done) && depth > base
      requires neg || OpLevel(ts) == 0 || OpLevel(ts) >= fs[|fs| - 1].level
      modifies this`depth, image, image.code
      ensures Stacked(fs') && Resume(fs, 0, e, ts) == Resume(fs', 0, e', ts)
      ensures r.Fail? ==> Long(done + Code(fs', e', c))
      ensures r.Pass? ==> Valid() && Progress(fs', e', false, base, c, done) && depth == old(depth) - 1
    {
      hide Long, Resume, EmitE, AfterE, Scanned, OpLevel, Code, FramesCtx, Stacked, Labelled, CodeImage.Valid, Pending;
      fs', e' := fs, e;
      PendingTop(operatorStack[..], priorityStack[..], base, fs, neg, depth);
      var op := operatorStack[depth];
      ghost var before := image.list;
      if !neg {
        PopCode(fs, e, c);
        PopFrame(fs, e, ts);
        fs', e' := fs[..|fs| - 1], Bin(fs[|fs| - 1].op, fs[|fs| - 1].left, e);
        assert before + [] == before;
        Regroup(done, Code(fs, e, c), [Op(op)]);
      }
      :- EmitOp(op);
      depth := depth - 1;
      assert image.list + [] == image.list;
      return Pass, fs', e';
    }

    /** insert_pseudo_operator(): emit what binds at least as tightly as the operator in
        token, then stack it.  The priority bump tests the look-ahead for **, which is
        the operator's operand, so it never applies where an operand follows. */
    method InsertOperator(ghost fs: seq<Frame>, ghost e: Expr, ghost neg: bool, ghost base: nat, ghost c: Ctx,
                          ghost done: seq<Item>)
      returns (r: Outcome, ghost fs': seq<Frame>)
      requires Valid() && Progress(fs, e, neg, base, c, done) && base <= depth
      requires OpLevel([token] + rest) > 0 && depth + 1 < INIT_TOKENS
      modifies this`depth, this`token, this`rest, operatorStack, priorityStack, image, image.code
      ensures r.Fail? ==> NoRoom(Resume(fs, 0, e, [old(token)] + old(rest)), done, c)
      ensures r.Pass? ==> Valid() && Stacked(fs') && base < depth <= old(depth) + 1
      ensures r.Pass? ==> token == Look(old(rest)) && rest == (if old(rest) == [] then [] else old(rest)[1..])
      ensures r.Pass? && token.kind != TKN_END ==> Line(rest) + 1 == Line(old(rest))
      ensures r.Pass? ==> image.list == done + FramesCode(fs', c) && Context() == FramesCtx(fs', c)
      ensures r.Pass? ==>
                || ParseItem(false, [token] + rest).Err?
                || Pending(operatorStack[..], priorityStack[..], base, fs', false, depth)
      ensures r.Pass? ==> StackTo(base) == old(StackTo(base))
      ensures r.Pass? ==>
                Resume(fs, 0, e, [old(token)] + old(rest))
                == match ParseItem(false, [token] + rest) case Err => Err case Ok(e', ts) => Resume(fs', 0, e', ts)
    {
      hide Long, Resume, EmitE, AfterE, Scanned, Code, FramesCtx, FramesCode, Labelled, CodeImage.Valid, Pending,
           ParseItem, Opcode, Priority, Line, OpLevel, Stacked, Ceiling;
      ghost var ts, e', neg' := [token] + rest, e, neg;
      OperatorFacts(token, rest);
      fs' := fs;
      var priority := Priority(token.kind);
      if depth > base {
        PendingTop(operatorStack[..], priorityStack[..], base, fs, neg, depth);
      } else {
        PendingBase(operatorStack[..], priorityStack[..], base, fs, neg, depth);
      }
      while priority >= priorityStack[depth]
        invariant Valid() && Progress(fs', e', neg', base, c, done) && base <= depth <= old(depth)
        invariant operatorStack[..] == old(operatorStack[..]) && priorityStack[..] == old(priorityStack[..])
        invariant token == old(token) && rest == old(rest)
        invariant Resume(fs, 0, e, ts) == Resume(fs', 0, e', ts)
        invariant depth > base ==> neg' || (fs' != [] && priorityStack[depth] == 10 * fs'[|fs'| - 1].level + 11)
        invariant depth == base ==> !neg' && fs' == [] && priorityStack[depth] == STACK_MARK
        invariant neg' ==> priorityStack[depth] == 1
        decreases depth
      {
        ghost var f, x;
        r, f, x := EmitTop(fs', e', neg', base, c, done, ts);
        if r.Fail? {
          ResumeNoRoom(f, x, ts, c, done);
          return r, fs';
        }
        fs', e', neg' := f, x, false;
        if depth > base {
          PendingTop(operatorStack[..], priorityStack[..], base, fs', neg', depth);
        } else {
          PendingBase(operatorStack[..], priorityStack[..], base, fs', neg', depth);
        }
      }
      CeilingFacts(fs');
      fs' := StackOperator(fs', e', base, c, done, priority);
      return Pass, fs';
    }

    /** The second half: the operator becomes the top frame and its operand is next. */
    method StackOperator(ghost fs: seq<Frame>, ghost e: Expr, ghost base: nat, ghost c: Ctx, ghost done: seq<Item>,
                         priority: int)
      returns (ghost fs': seq<Frame>)
      requires Valid() && Progress(fs, e, false, base, c, done) && base <= depth && depth + 1 < INIT_TOKENS
      requires 0 < OpLevel([token] + rest) <= Ceiling(fs) && priority == Priority(token.kind)
      modifies this`depth, this`token, this`rest, operatorStack, priorityStack
      ensures Valid() && Stacked(fs') && depth == old(depth) + 1
      ensures token == Look(old(rest)) && rest == (if old(rest) == [] then [] else old(rest)[1..])
      ensures token.kind != TKN_END ==> Line(rest) + 1 == Line(old(rest))
      ensures image.list == done + FramesCode(fs', c) && Context() == FramesCtx(fs', c)
      ensures
        || ParseItem(false, [token] + rest).Err?
        || Pending(operatorStack[..], priorityStack[..], base, fs', false, depth)
      ensures StackTo(base) == old(StackTo(base))
      ensures Resume(fs, 0, e, [old(token)] + old(rest))
           == match ParseItem(false, [token] + rest) case Err => Err case Ok(e', ts) => Resume(fs', 0, e', ts)
    {
      hide Resume, EmitE, AfterE, Scanned, Code, FramesCtx, FramesCode, Labelled, CodeImage.Valid, Pending, ParseItem,
           Opcode, Priority, Line, OpLevel, Stacked, Ceiling;
      ghost var ts := [token] + rest;
      OperatorFacts(token, rest);
      NextItem(rest);
      ghost var f := Frame(e, Opcode(token.kind), OpLevel(ts));
      PushFrame(fs, e, ts);
      PushCode(fs, f, c);
      PendingPush(operatorStack[..], priorityStack[..], base, fs, depth, f);
      assert image.list + [] == image.list;
      var pushed := Push(Opcode(token.kind), if Look(rest).kind == TKN_PWR then priority + 1 else priority);
      GetToken();
      return fs + [f];
    }

    /** The first token, the minus that the caller left, and the mark */
    method OpenStack() returns (r: Outcome)
      requires Valid() && Claim() < INIT_TOKENS
      modifies this`token, this`rest, this`depth, this`unaryMinus, operatorStack, priorityStack
      ensures r.Fail? ==> ParseExpr(old(rest)).Err?
      ensures r.Pass? ==> Valid() && !unaryMinus
      ensures r.Pass? ==> depth == old(depth) + (if old(unaryMinus) then 2 else 1) < INIT_TOKENS
      ensures r.Pass? ==> priorityStack[depth] == STACK_MARK && StackTo(old(depth)) == old(StackTo(depth))
      ensures r.Pass? && old(unaryMinus) ==> operatorStack[depth - 1] == OP_NEG && priorityStack[depth - 1] == 1
      ensures r.Pass? && token.kind != TKN_END ==> depth + Line(rest) <= old(Claim())
      ensures r.Pass? ==> |rest| + (if token.kind == TKN_END then 0 else 1) <= |old(rest)|
      ensures r.Pass? ==>
                ParseExpr(old(rest))
                == match ParseItem(false, [token] + rest) case Err => Err case Ok(x, us) => Resume([], 0, x, us)
    {
      hide ParseExpr, ParseItem, OpLevel, Scanned, Labelled, CodeImage.Valid, Line, Resume;
      ghost var ts := rest;
      StartExpr(ts);
      EmptyLine(ts);
      GetToken();
      assert [token] + rest == if ts == [] then [EndToken] else ts;
      if unaryMinus {
        var pushed := Push(OP_NEG, 1);
        unaryMinus := false;
      }
      r := Push(0, STACK_MARK);
    }

    /** expr_common(), as exprf() calls it */
    method Expression() returns (r: Outcome, ghost e: Expr)
      requires Valid() && Claim() < INIT_TOKENS
      modifies this, operatorStack, priorityStack, image, image.code
      decreases |rest|, 20
      ensures r.Fail? ==> NoRoom(ParseExpr(old(rest)), old(image.list), old(Context()))
      ensures r.Pass? ==> Valid() && ParseExpr(old(rest)) == Ok(e, rest)
      ensures r.Pass? ==> image.list == old(image.list) + EmitE(e, old(Context()))
      ensures r.Pass? ==> Context() == AfterE(e, old(Context())) && jumpStack == old(jumpStack)
      ensures r.Pass? ==> !unaryMinus && Claim() <= old(Claim())
      ensures r.Pass? ==> depth == old(depth) + (if old(unaryMinus) then 1 else 0) < INIT_TOKENS
      ensures r.Pass? ==> StackTo(old(depth)) == old(StackTo(depth))
      ensures r.Pass? && old(unaryMinus) ==> operatorStack[depth] == OP_NEG && priorityStack[depth] == 1
    {
      hide Long, ParseExpr, ParseItem, EmitE, AfterE, OpLevel, Scanned, Labelled, CodeImage.Valid, Line, Resume,
           Pending, FramesCode, FramesCtx, Stacked, Code;
      e := Num(0);
      ghost var ts, c, done := rest, Context(), image.list;
      :- OpenStack();
      PendingEmpty(operatorStack[..], priorityStack[..], depth, c);
      ghost var base, ops, pris := depth, operatorStack[..], priorityStack[..];
      assert done == done + FramesCode([], c);
      ghost var fs, neg;
      fs, e, neg :- Operations(ts, base, c, done);
      e :- Flush(fs, e, neg, base, c, done);
      Shorter(operatorStack[..], ops, base, base - 1);
      Shorter(priorityStack[..], pris, base, base - 1);
      Shorter(operatorStack[..], ops, base, old(depth));
      Shorter(priorityStack[..], pris, base, old(depth));
      return Pass, e;
    }

    /** The operands and operators of one expression. */
    method Operations(ghost ts: seq<Token>, ghost base: nat, ghost c: Ctx, ghost done: seq<Item>)
      returns (r: Outcome, ghost fs: seq<Frame>, ghost e: Expr, ghost neg: bool)
      requires Valid() && base == depth < INIT_TOKENS
      requires token.kind != TKN_END ==> depth + Line(rest) < INIT_TOKENS
      requires Pending(operatorStack[..], priorityStack[..], base, [], false, depth)
      requires image.list == done + FramesCode([], c) && Context() == FramesCtx([], c)
      requires ParseExpr(ts)
            == match ParseItem(false, [token] + rest) case Err => Err case Ok(x, us) => Resume([], 0, x, us)
      modifies this, operatorStack, priorityStack, image, image.code
      decreases |rest| + (if token.kind == TKN_END then 0 else 1), 17
      ensures r.Fail? ==> NoRoom(ParseExpr(ts), done, c)
      ensures r.Pass? ==> Valid() && Progress(fs, e, neg, base, c, done) && jumpStack == old(jumpStack)
      ensures r.Pass? ==> OpLevel(rest) == 0 && ParseExpr(ts) == Resume(fs, 0, e, rest)
      ensures r.Pass? ==> StackTo(base) == old(StackTo(base)) && base <= depth
      ensures r.Pass? ==> !unaryMinus && Claim() <= old(depth) + Line(old(rest)) && old(token).kind != TKN_END
    {
      hide Long, NoRoom, ParseExpr, ParseItem, Resume, EmitE, AfterE, OpLevel, Scanned, Code, FramesCode, FramesCtx,
           Pending, Stacked, Labelled, CodeImage.Valid, Line;
      NoFrames();
      fs, e, neg := [], Num(0), false;
      ghost var bound, first := depth + Line(rest), token.kind;
      while true
        invariant Valid() && Stacked(fs) && base <= depth < INIT_TOKENS
        invariant StackTo(base) == old(StackTo(base)) && jumpStack == old(jumpStack)
        invariant token.kind != TKN_END ==> depth + Line(rest) <= bound < INIT_TOKENS
        invariant first != TKN_END || (token == old(token) && rest == old(rest))
        invariant |rest| + (if token.kind == TKN_END then 0 else 1)
               <= old(|rest| + (if token.kind == TKN_END then 0 else 1))
        invariant
          || ParseItem(false, [token] + rest).Err?
          || Pending(operatorStack[..], priorityStack[..], base, fs, false, depth)
        invariant image.list == done + FramesCode(fs, c) && Context() == FramesCtx(fs, c)
        invariant ParseExpr(ts)
               == match ParseItem(false, [token] + rest) case Err => Err case Ok(x, us) => Resume(fs, 0, x, us)
        decreases |rest|
      {
        ghost var p := ParseItem(false, [token] + rest);
        r, e, neg := Operand(fs, base, c, done);
        if r.Fail? {
          OperandNoRoom(fs, p, c, done);
          return r, fs, e, neg;
        }
        var more := AtOperator();
        if !more {
          break;
        }
        GetToken();
        OperatorFacts(token, rest);
        fs :- InsertOperator(fs, e, neg, base, c, done);
      }
      return Pass, fs, e, neg;
    }

    /** The operators still on the stack are emitted and the mark is removed. */
    method Flush(ghost fs: seq<Frame>, ghost e: Expr, ghost neg: bool, ghost base: nat, ghost c: Ctx,
                 ghost done: seq<Item>)
      returns (r: Outcome, ghost e': Expr)
      requires Valid() && Progress(fs, e, neg, base, c, done) && 0 < base <= depth && OpLevel(rest) == 0
      modifies this`depth, image, image.code
      ensures r.Fail? ==> NoRoom(Resume(fs, 0, e, rest), done, c)
      ensures r.Pass? ==> Valid() && depth == base - 1 && Resume(fs, 0, e, rest) == Ok(e', rest)
      ensures r.Pass? ==> image.list == done + EmitE(e', c) && Context() == AfterE(e', c)
    {
      hide Long, Resume, EmitE, AfterE, Scanned, OpLevel, Code, FramesCtx, FramesCode, Stacked, Labelled,
           CodeImage.Valid, Pending;
      ghost var fs', neg' := fs, neg;
      e' := e;
      StackBottom(operatorStack[..], priorityStack[..], base, fs, neg, depth);
      while priorityStack[depth] != STACK_MARK
        invariant Valid() && Progress(fs', e', neg', base, c, done) && base <= depth
        invariant Resume(fs, 0, e, rest) == Resume(fs', 0, e', rest)
        invariant depth < INIT_TOKENS && (depth == base <==> priorityStack[depth] == STACK_MARK)
        invariant depth == base ==> fs' == [] && !neg'
        decreases depth
      {
        r, fs', e' := EmitTop(fs', e', neg', base, c, done, rest);
        if r.Fail? {
          ResumeNoRoom(fs', e', rest, c, done);
          return r, e';
        }
        neg' := false;
        StackBottom(operatorStack[..], priorityStack[..], base, fs', neg', depth);
      }
      FinishExpr(e', rest);
      PendingEmpty(operatorStack[..], priorityStack[..], depth, c);
      CodeAfter(done, [], e', c);
      assert done + [] == done && image.list + [] == image.list;
      if depth > 0 {
        depth := depth - 1;
      }
      return Pass, e';
    }

    /** get_expr_item() seen from the expression it belongs to. */
    method Operand(ghost fs: seq<Frame>, ghost base: nat, ghost c: Ctx, ghost done: seq<Item>)
      returns (r: Outcome, ghost e: Expr, ghost neg: bool)
      requires Valid() && Stacked(fs) && base <= depth < INIT_TOKENS
      requires token.kind != TKN_END ==> depth + Line(rest) < INIT_TOKENS
      requires
        || ParseItem(false, [token] + rest).Err?
        || Pending(operatorStack[..], priorityStack[..], base, fs, false, depth)
      requires image.list == done + FramesCode(fs, c) && Context() == FramesCtx(fs, c)
      modifies this, operatorStack, priorityStack, image, image.code
      decreases |rest| + (if token.kind == TKN_END then 0 else 1), 16
      ensures r.Fail? ==> NoRoom(ParseItem(false, [old(token)] + old(rest)), old(image.list), old(Context()))
      ensures r.Pass? ==> Valid() && ParseItem(false, [old(token)] + old(rest)) == Ok(e, rest)
      ensures r.Pass? ==> Progress(fs, e, neg, base, c, done) && jumpStack == old(jumpStack)
      ensures r.Pass? ==> !unaryMinus && Claim() <= old(depth) + Line(old(rest)) && old(token).kind != TKN_END
      ensures r.Pass? ==> StackTo(base) == old(StackTo(base)) && base <= depth && |rest| <= |old(rest)|
    {
      hide Long, ParseItem, EmitE, AfterE, Scanned, Code, FramesCode, FramesCtx, Stacked, Pending, Labelled,
           CodeImage.Valid, Line;
      ghost var ops, pris, d := operatorStack[..], priorityStack[..], depth;
      e, neg :- Item();
      Shorter(operatorStack[..], ops, d, base);
      Shorter(priorityStack[..], pris, d, base);
      PendingKept(ops, pris, operatorStack[..], priorityStack[..], base, fs, d);
      if neg {
        PendingNeg(operatorStack[..], priorityStack[..], base, fs, d);
      }
      CodeAfter(done, fs, e, c);
      return Pass, e, neg;
    }

    /** get_expr_item(): a signed operand and its extractions.  The operand's NEG may
        be left on the operator stack, where the next operator or the end of the
        expression emits it. */
    method Item() returns (r: Outcome, ghost e: Expr, ghost neg: bool)
      requires Valid() && depth < INIT_TOKENS && (token.kind != TKN_END ==> depth + Line(rest) < INIT_TOKENS)
      modifies this, operatorStack, priorityStack, image, image.code
      decreases |rest| + (if token.kind == TKN_END then 0 else 1), 15
      ensures r.Fail? ==> NoRoom(ParseItem(false, [old(token)] + old(rest)), old(image.list), old(Context()))
      ensures r.Pass? ==> Valid() && ParseItem(false, [old(token)] + old(rest)) == Ok(e, rest)
      ensures r.Pass? ==> image.list + NegPart(neg) == old(image.list) + EmitE(e, old(Context()))
      ensures r.Pass? ==> Context() == AfterE(e, old(Context())) && jumpStack == old(jumpStack)
      ensures r.Pass? ==> !unaryMinus && Claim() <= old(depth) + Line(old(rest)) && old(token).kind != TKN_END
      ensures r.Pass? ==> depth == old(depth) + (if neg then 1 else 0) < INIT_TOKENS
      ensures r.Pass? ==> StackTo(old(depth)) == old(StackTo(depth))
      ensures r.Pass? && neg ==> operatorStack[depth] == OP_NEG && priorityStack[depth] == 1
      ensures r.Pass? ==> |rest| <= |old(rest)|
    {
      hide Long, ParseItem, ParsePostfix, ParsePrimary, EmitE, AfterE, Scanned, Labelled, CodeImage.Valid, Line;
      e, neg := Num(0), false;
      ghost var c, done := Context(), image.list;
      unaryMinus := false;
      Signs();
      ghost var minus, t, ts := unaryMinus, token, rest;
      PrimaryStep(minus, t, ts);
      r, e, neg := Primary();
      if r.Fail? {
        ItemNoRoom(minus, t, ts, c, done);
        return r, e, neg;
      }
      r, e, neg := Extractions(e, neg, c, done);
      if r.Fail? {
        SignedNoRoom(minus, t, ts, c, done);
        return r, e, neg;
      }
      e :- Negate(e, neg, c, done);
      return Pass, e, neg;
    }

    /** A minus that no nested expression took is applied to the operand now. */
    method Negate(ghost e: Expr, ghost neg: bool, ghost c: Ctx, ghost done: seq<Item>)
      returns (r: Outcome, ghost e': Expr)
      requires Valid() && image.list == done + EmitE(e, c) && Context() == AfterE(e, c) && !(unaryMinus && neg)
      modifies this`unaryMinus, image, image.code
      ensures r.Fail? ==> Long(done + EmitE(App(OP_NEG, One(e)), c)) && old(unaryMinus)
      ensures r.Pass? ==> Valid() && !unaryMinus && e' == if old(unaryMinus) || neg then App(OP_NEG, One(e)) else e
      ensures r.Pass? ==> image.list + NegPart(neg) == done + EmitE(e', c) && Context() == AfterE(e', c)
    {
      hide Long, EmitE, AfterE, Scanned, Labelled, CodeImage.Valid;
      e' := if unaryMinus || neg then App(OP_NEG, One(e)) else e;
      NegCode(e, c);
      Regroup(done, EmitE(e, c), [Op(OP_NEG)]);
      if unaryMinus {
        :- EmitOp(OP_NEG);
        unaryMinus := false;
      }
      assert image.list + [] == image.list;
      return Pass, e';
    }

    /** Leading signs: plus is skipped, minus toggles unary_minus. */
    method Signs()
      requires Scanned(rest) && (token.kind != TKN_END ==> Claim() < INIT_TOKENS)
      modifies this`token, this`rest, this`unaryMinus
      ensures Scanned(rest) && token.kind != TKN_PLUS && token.kind != TKN_MINUS
      ensures ParseItem(unaryMinus, [token] + rest) == ParseItem(old(unaryMinus), [old(token)] + old(rest))
      ensures token.kind != TKN_END ==> old(token).kind != TKN_END && Claim() <= old(Claim()) < INIT_TOKENS
      ensures |rest| <= |old(rest)|
      ensures |rest| + (if token.kind == TKN_END then 0 else 1)
           <= old(|rest| + (if token.kind == TKN_END then 0 else 1))
    {
      hide ParseItem, Scanned, Line;
      ghost var first := token;
      while token.kind == TKN_PLUS || token.kind == TKN_MINUS
        invariant Scanned(rest) && |rest| <= |old(rest)|
        invariant ParseItem(unaryMinus, [token] + rest) == ParseItem(old(unaryMinus), [old(token)] + old(rest))
        invariant token.kind != TKN_END ==> first.kind != TKN_END && Claim() <= old(Claim())
        invariant |rest| + (if token.kind == TKN_END then 0 else 1)
               <= |old(rest)| + (if first.kind == TKN_END then 0 else 1)
        decreases |rest| + (if token.kind == TKN_END then 0 else 1)
      {
        SignStep(unaryMinus, token, rest);
        if token.kind == TKN_MINUS {
          unaryMinus := !unaryMinus;
        }
        GetToken();
      }
    }

    /** The cases of get_expr_item_again() other than signs.  neg: the pending minus was
        handed to a nested expression, which left a NEG on the operator stack. */
    method Primary() returns (r: Outcome, ghost e: Expr, ghost neg: bool)
      requires Valid() && depth < INIT_TOKENS && (token.kind != TKN_END ==> Claim() < INIT_TOKENS)
      modifies this, operatorStack, priorityStack, image, image.code
      decreases |rest| + (if token.kind == TKN_END then 0 else 1), 12
      ensures r.Fail? ==>
                NoRoom(ParsePrimary(old(unaryMinus), [old(token)] + old(rest)), old(image.list), old(Context()))
      ensures r.Pass? ==> Valid() && ParsePrimary(old(unaryMinus), [old(token)] + old(rest)) == Ok(e, rest)
      ensures r.Pass? ==> image.list == old(image.list) + EmitE(e, old(Context()))
      ensures r.Pass? ==> Context() == AfterE(e, old(Context())) && jumpStack == old(jumpStack)
      ensures r.Pass? ==> (unaryMinus || neg) == (old(unaryMinus) && old(token).kind != TKN_NUM) && !(unaryMinus && neg)
      ensures r.Pass? ==> old(token).kind != TKN_END && Claim() <= old(Claim())
      ensures r.Pass? ==> depth == old(depth) + (if neg then 1 else 0) < INIT_TOKENS
      ensures r.Pass? ==> StackTo(old(depth)) == old(StackTo(depth))
      ensures r.Pass? && neg ==> operatorStack[depth] == OP_NEG && priorityStack[depth] == 1
    {
      hide Long, ParseExpr, ParseIf, EmitE, AfterE, Scanned, Labelled, CodeImage.Valid, Line, DecimalValue;
      e, neg := Num(0), false;
      ghost var ts := [token] + rest;
      assert ts[0] == token && ts[1..] == rest;
      if token.kind == TKN_NAME {
        if IsWord(token, "IF") {
          neg := unaryMinus;
          e :- Conditional();
        } else {
          if Look(rest).kind == TKN_OBJREF {
            return Fail(Rejected), e, neg;
          }
          e := Var(token.text);
          :- EmitVariable(token.text);
        }
      } else if token.kind == TKN_NUM {
        var n := DecimalValue(token.text);
        if unaryMinus {
          n := -n;
          unaryMinus := false;
        }
        e := Num(n);
        NumberKeeps(n, Context());
        :- EmitNumber(n);
      } else if token.kind == TKN_STRING {
        e := Str(token.text);
        TextKeeps(token.text, Context());
        :- EmitText(token.text);
      } else if token.kind == TKN_LBR {
        neg := unaryMinus;
        e :- Expression();
        ghost var us := rest;
        GetToken();
        if token.kind != TKN_RBR {
          return Fail(Rejected), e, neg;
        }
      } else {
        return Fail(Rejected), e, neg;
      }
      return Pass, e, neg;
    }

    /** IF condition THEN value ELSE value */
    method Conditional() returns (r: Outcome, ghost e: Expr)
      requires Valid() && Claim() < INIT_TOKENS
      modifies this, operatorStack, priorityStack, image, image.code
      decreases |rest|, 22
      ensures r.Fail? ==> NoRoom(ParseIf(old(rest)), old(image.list), old(Context()))
      ensures r.Pass? ==> Valid() && ParseIf(old(rest)) == Ok(e, rest)
      ensures r.Pass? ==> image.list == old(image.list) + EmitE(e, old(Context()))
      ensures r.Pass? ==> Context() == AfterE(e, old(Context())) && jumpStack == old(jumpStack)
      ensures r.Pass? ==> !unaryMinus && Claim() <= old(Claim())
      ensures r.Pass? ==> depth == old(depth) + (if old(unaryMinus) then 1 else 0) < INIT_TOKENS
      ensures r.Pass? ==> StackTo(old(depth)) == old(StackTo(depth))
      ensures r.Pass? && old(unaryMinus) ==> operatorStack[depth] == OP_NEG && priorityStack[depth] == 1
    {
      hide Long, NoRoom, ParseExpr, ParseIf, ParseValues, EmitE, AfterE, Scanned, Labelled, CodeImage.Valid, Line,
           Upper;
      IfStep(rest);
      e := Num(0);
      ghost var c, done, neg := Context(), image.list, unaryMinus;
      ghost var t;
      r, t := Expression();
      if r.Fail? {
        ConditionNoRoom(old(rest), c, done);
        return r, e;
      }
      var n := jumpNo;
      TestRoom(t, rest, c, done);
      ghost var start, ops, pris := image.list, operatorStack[..], priorityStack[..];
      LabelledWiden(image.list, 0, n, 0, n + 1);
      jumpStack := [Entry(IfExprEntry, n, 0)] + jumpStack;
      jumpNo := jumpNo + 1;
      :- EmitJump(OP_JFALSE, LabelName(n, "E"));
      e :- Values(start, t, c, done);
      jumpStack := jumpStack[1..];
      Shorter(operatorStack[..], ops, depth, old(depth));
      Shorter(priorityStack[..], pris, depth, old(depth));
      if neg {
        SameTop(operatorStack[..], ops, depth);
        SameTop(priorityStack[..], pris, depth);
      }
      return Pass, e;
    }

    /** THEN value ELSE value, after the condition and its jump. */
    method Values(ghost start: seq<Item>, ghost t: Expr, ghost c: Ctx, ghost done: seq<Item>)
      returns (r: Outcome, ghost e: Expr)
      requires Valid() && Claim() < INIT_TOKENS && !unaryMinus
      requires jumpStack != [] && jumpStack[0].number < jumpNo == jumpStack[0].number + 1
      requires Labelled(start, 0, jumpStack[0].number) && start == done + EmitE(t, c)
      requires AfterE(t, c) == Context().(next := jumpStack[0].number)
      requires image.list == start + [I(Jump(OP_JFALSE, LabelName(jumpStack[0].number, "E")))]
      modifies this, operatorStack, priorityStack, image, image.code
      decreases |rest|, 21
      ensures r.Fail? ==> NoRoom(ParseValues(t, old(rest)), done, c)
      ensures r.Pass? ==> Valid() && ParseValues(t, old(rest)) == Ok(e, rest)
      ensures r.Pass? ==> image.list == done + EmitE(e, c) && Context() == AfterE(e, c) && jumpStack == old(jumpStack)
      ensures r.Pass? ==> !unaryMinus && Claim() <= old(Claim()) && depth == old(depth)
      ensures r.Pass? ==> StackTo(depth) == old(StackTo(depth))
    {
      hide Long, ParseExpr, EmitE, AfterE, Scanned, Labelled, CodeImage.Valid, Line, Upper;
      e := Num(0);
      ghost var a, b;
      if !IsWord(Look(rest), "THEN") {
        return Fail(Rejected), e;
      }
      ValuesRoom(t, rest, c, done);
      a :- ThenValue(start);
      if !IsWord(Look(rest), "ELSE") {
        return Fail(Rejected), e;
      }
      b :- ElseValue();
      IfCode(done, t, a, b, c);
      return Pass, IfThen(t, a, b);
    }

    method ThenValue(ghost start: seq<Item>) returns (r: Outcome, ghost a: Expr)
      requires Valid() && Claim() < INIT_TOKENS && !unaryMinus && IsWord(Look(rest), "THEN")
      requires jumpStack != [] && jumpStack[0].number < jumpNo == jumpStack[0].number + 1
      requires Labelled(start, 0, jumpStack[0].number)
      requires image.list == start + [I(Jump(OP_JFALSE, LabelName(jumpStack[0].number, "E")))]
      modifies this, operatorStack, priorityStack, image, image.code
      decreases |rest|, 20
      ensures r.Fail? ==>
                var p := ParseExpr(old(rest)[1..]);
                p.Err? || Long(old(image.list) + EmitE(p.value, old(Context()))
                               + [I(Jump(OP_JMP, LabelName(old(jumpStack)[0].number, "X")))])
      ensures r.Pass? ==> Valid() && ParseExpr(old(rest)[1..]) == Ok(a, rest)
      ensures r.Pass? ==> Context() == AfterE(a, old(Context())) && jumpStack == old(jumpStack)
      ensures r.Pass? ==> image.list == old(image.list) + EmitE(a, old(Context()))
                            + [I(Jump(OP_JMP, LabelName(jumpStack[0].number, "X")))]
                            + [D(LabelName(jumpStack[0].number, "E"))]
      ensures r.Pass? ==> D(LabelName(jumpStack[0].number, "X")) !in image.list && jumpStack[0].number < jumpNo
      ensures r.Pass? ==> !unaryMinus && Claim() <= old(Claim()) && depth == old(depth)
      ensures r.Pass? ==> StackTo(depth) == old(StackTo(depth))
    {
      hide Long, ParseExpr, EmitE, AfterE, Scanned, Labelled, CodeImage.Valid, Line, Upper;
      ghost var c := Context();
      GetToken();
      ghost var p := ParseExpr(rest);
      if p.Ok? {
        LongMore(image.list + EmitE(p.value, c), [I(Jump(OP_JMP, LabelName(jumpStack[0].number, "X")))]);
      }
      a :- Expression();
      LabelledE(a, c);
      :- BetweenValues(start, Jump(OP_JFALSE, LabelName(jumpStack[0].number, "E")), EmitE(a, c));
      return Pass, a;
    }

    method ElseValue() returns (r: Outcome, ghost b: Expr)
      requires Valid() && Claim() < INIT_TOKENS && !unaryMinus && IsWord(Look(rest), "ELSE")
      requires jumpStack != [] && jumpStack[0].number < jumpNo
      requires D(LabelName(jumpStack[0].number, "X")) !in image.list
      modifies this, operatorStack, priorityStack, image, image.code
      decreases |rest|, 20
      ensures r.Fail? ==> NoRoom(ParseExpr(old(rest)[1..]), old(image.list), old(Context()))
      ensures r.Pass? ==> Valid() && ParseExpr(old(rest)[1..]) == Ok(b, rest)
      ensures r.Pass? ==> Context() == AfterE(b, old(Context())) && jumpStack == old(jumpStack)
      ensures r.Pass? ==> image.list == old(image.list) + EmitE(b, old(Context()))
                            + [D(LabelName(jumpStack[0].number, "X"))]
      ensures r.Pass? ==> !unaryMinus && Claim() <= old(Claim()) && depth == old(depth)
      ensures r.Pass? ==> StackTo(depth) == old(StackTo(depth))
    {
      hide Long, ParseExpr, EmitE, AfterE, Scanned, Labelled, CodeImage.Valid, Line, Upper;
      ghost var c, before := Context(), image.list;
      GetToken();
      b :- Expression();
      LabelledE(b, c);
      LabelledWiden(EmitE(b, c), c.next, jumpNo, jumpStack[0].number + 1, jumpNo);
      AfterValues(before, EmitE(b, c));
      return Pass, b;
    }

    /** Jump over the ELSE value, and the label it starts with. */
    method BetweenValues(ghost before: seq<Item>, ghost ins: Instr<string>, ghost inner: seq<Item>) returns (r: Outcome)
      requires Valid() && jumpStack != [] && jumpStack[0].number < jumpNo
      requires image.list == before + [I(ins)] + inner
      requires Labelled(before, 0, jumpStack[0].number) && Labelled(inner, jumpStack[0].number + 1, jumpNo)
      modifies image, image.code
      ensures r.Fail? ==> Long(old(image.list) + [I(Jump(OP_JMP, LabelName(jumpStack[0].number, "X")))])
      ensures r.Pass? ==> Valid() && D(LabelName(jumpStack[0].number, "X")) !in image.list
      ensures r.Pass? ==> image.list == old(image.list) + [I(Jump(OP_JMP, LabelName(jumpStack[0].number, "X")))]
                                          + [D(LabelName(jumpStack[0].number, "E"))]
    {
      hide Long, Scanned, Labelled, CodeImage.Valid;
      var n := jumpStack[0].number;
      :- EmitJump(OP_JMP, LabelName(n, "X"));
      StillNew(before, n, ins, inner, Jump(OP_JMP, LabelName(n, "X")), jumpNo, "E");
      StillNew(before, n, ins, inner, Jump(OP_JMP, LabelName(n, "X")), jumpNo, "X");
      DifferentLabels(n);
      var labelled := SetLabel(n, "E");
      return Pass;
    }

    /** The label that ends the construct. */
    method AfterValues(ghost before: seq<Item>, ghost inner: seq<Item>)
      requires Valid() && jumpStack != [] && jumpStack[0].number < jumpNo
      requires image.list == before + inner && D(LabelName(jumpStack[0].number, "X")) !in before
      requires Labelled(inner, jumpStack[0].number + 1, jumpNo)
      modifies image, image.code
      ensures Valid() && image.list == old(image.list) + [D(LabelName(jumpStack[0].number, "X"))]
    {
      hide Scanned, Labelled, CodeImage.Valid;
      var n := jumpStack[0].number;
      NotLabelled(inner, n, "X", n + 1, jumpNo);
      var labelled := SetLabel(n, "X");
    }

    /** Field and substring extractions, in any order and number. */
    method Extractions(ghost base: Expr, ghost neg: bool, ghost c: Ctx, ghost done: seq<Item>)
      returns (r: Outcome, ghost e: Expr, ghost neg': bool)
      requires Valid() && Claim() < INIT_TOKENS && !(unaryMinus && neg)
      requires image.list == done + EmitE(base, c) && Context() == AfterE(base, c)
      modifies this, operatorStack, priorityStack, image, image.code
      decreases |rest|, 10
      ensures r.Fail? ==> NoRoom(ParsePostfix(base, old(rest)), done, c)
      ensures r.Pass? ==> Valid() && ParsePostfix(base, old(rest)) == Ok(e, rest)
      ensures r.Pass? ==> image.list == done + EmitE(e, c) && Context() == AfterE(e, c) && jumpStack == old(jumpStack)
      ensures r.Pass? ==> (unaryMinus || neg') == (old(unaryMinus) || neg) && !(unaryMinus && neg') && (neg ==> neg')
      ensures r.Pass? ==> Claim() <= old(Claim())
      ensures r.Pass? ==> depth == old(depth) + (if neg' && !neg then 1 else 0) < INIT_TOKENS
      ensures r.Pass? ==> StackTo(old(depth)) == old(StackTo(depth))
      ensures r.Pass? && neg' && !neg ==> operatorStack[depth] == OP_NEG && priorityStack[depth] == 1
    {
      hide Long, ParsePostfix, ParseExpr, EmitE, AfterE, Scanned, Labelled, CodeImage.Valid, Line;
      e, neg' := base, neg;
      while true
        invariant Valid() && Claim() <= old(Claim()) && jumpStack == old(jumpStack)
        invariant image.list == done + EmitE(e, c) && Context() == AfterE(e, c)
        invariant (unaryMinus || neg') == (old(unaryMinus) || neg) && !(unaryMinus && neg') && (neg ==> neg')
        invariant depth == old(depth) + (if neg' && !neg then 1 else 0) < INIT_TOKENS
        invariant StackTo(old(depth)) == old(StackTo(depth))
        invariant neg' && !neg ==> operatorStack[depth] == OP_NEG && priorityStack[depth] == 1
        invariant ParsePostfix(base, old(rest)) == ParsePostfix(e, rest) && |rest| <= |old(rest)|
        decreases |rest|
      {
        ghost var minus, ops, pris, d := unaryMinus, operatorStack[..], priorityStack[..], depth;
        var more;
        more, e :- Extract(e, c, done);
        if !more {
          break;
        }
        neg' := neg' || minus;
        Shorter(operatorStack[..], ops, d, old(depth));
        Shorter(priorityStack[..], pris, d, old(depth));
        if !minus {
          SameTop(operatorStack[..], ops, depth);
          SameTop(priorityStack[..], pris, depth);
        }
      }
      return Pass, e, neg';
    }

    /** One extraction, if the look-ahead starts one. */
    method Extract(ghost base: Expr, ghost c: Ctx, ghost done: seq<Item>)
      returns (r: Outcome, more: bool, ghost e: Expr)
      requires Valid() && Claim() < INIT_TOKENS
      requires image.list == done + EmitE(base, c) && Context() == AfterE(base, c)
      modifies this, operatorStack, priorityStack, image, image.code
      decreases |rest|, 9
      ensures r.Fail? ==> NoRoom(ParsePostfix(base, old(rest)), done, c)
      ensures r.Pass? ==> Valid() && |rest| <= |old(rest)|
      ensures r.Pass? && !more ==> ParsePostfix(base, old(rest)) == Ok(base, rest) && e == base
      ensures r.Pass? && more ==> ParsePostfix(base, old(rest)) == ParsePostfix(e, rest) && |rest| < |old(rest)|
      ensures r.Pass? ==> image.list == done + EmitE(e, c) && Context() == AfterE(e, c) && jumpStack == old(jumpStack)
      ensures r.Pass? ==> Claim() <= old(Claim()) && unaryMinus == (old(unaryMinus) && !more)
      ensures r.Pass? ==> depth == old(depth) + (if old(unaryMinus) && more then 1 else 0) < INIT_TOKENS
      ensures r.Pass? ==> StackTo(old(depth)) == old(StackTo(depth))
      ensures r.Pass? && more && old(unaryMinus) ==> operatorStack[depth] == OP_NEG && priorityStack[depth] == 1
    {
      hide Long, ParsePostfix, ParseExpr, EmitE, AfterE, Scanned, Labelled, CodeImage.Valid, Line, Classify;
      e, more := base, false;
      if Look(rest).kind == TKN_LT {
        var role := FieldRole();
        if role.Operator? {
          PostfixOperator(e, rest);
        } else if role.Crash? {
          PostfixCrash(e, rest);
          return Fail(Rejected), false, e;
        } else {
          more := true;
          e :- FieldReference(e, c, done, role);
        }
      } else if Look(rest).kind == TKN_LSQBR {
        more := true;
        e :- Substring(e, c, done);
      } else {
        PostfixEnd(e, rest);
      }
      return Pass, more, e;
    }

    /** is_field_ref(): what the < in the look-ahead is. */
    method FieldRole() returns (role: FieldRef)
      requires rest != []
      ensures role == Classify(rest)
    {
      hide Line;
      var n, i, j := 1, 0, 1;
      var found := false;
      while n < |rest| && rest[n].kind != TKN_END && !found
        invariant 1 <= n <= |rest| && i >= 0 && j >= 1
        invariant found ==> n < |rest| && rest[n].kind in {TKN_GT, TKN_GE, TKN_NEX} && Closing(rest, 1, 0, 1) == Some(n)
        invariant !found ==> Closing(rest, 1, 0, 1) == Closing(rest, n, i, j)
        decreases |rest| - n, !found
      {
        var k := rest[n].kind;
        if k == TKN_LT {
          if i == 0 { j := j + 1; }
        } else if k == TKN_GT || k == TKN_GE || k == TKN_NEX {
          if i == 0 && j == 1 {
            found := true;
            continue;
          }
          if i == 0 { j := j - 1; }
        } else if k == TKN_LBR {
          i := i + 1;
        } else if k == TKN_RBR {
          if i == 0 {
            return Operator;
          }
          i := i - 1;
        } else if i == 0 && (k == TKN_AND || k == TKN_OR || IsWord(rest[n], "THEN")) {
          return Operator;
        }
        n := n + 1;
      }
      if !found {
        return Operator;
      }
      var next := if rest[n].kind == TKN_GE || rest[n].kind == TKN_NEX then rest[n] else Look(rest[n + 1..]);
      if n != 2 && next.kind in {TKN_NUM, TKN_HEXNUM, TKN_FLOAT} {
        return Operator;
      }
      if rest[n].kind == TKN_GE {
        return Crash;
      }
      var marked := rest[n := rest[n].(kind := TKN_END_FIELD)];
      if rest[n].kind == TKN_NEX {
        if Look(rest[n + 1..]).text != "=" || rest[n + 1].kind == TKN_END {
          return Crash;
        }
        marked := marked[n + 1 := Token(TKN_LE, "<=")];
      }
      return Field(marked);
    }

    /** x<f,v,s>, with the < in the look-ahead and its > to be marked. */
    method FieldReference(ghost base: Expr, ghost c: Ctx, ghost done: seq<Item>, role: FieldRef)
      returns (r: Outcome, ghost e: Expr)
      requires Valid() && Claim() < INIT_TOKENS && Look(rest).kind == TKN_LT && role.Field? && role == Classify(rest)
      requires image.list == done + EmitE(base, c) && Context() == AfterE(base, c)
      modifies this, operatorStack, priorityStack, image, image.code
      decreases |rest|, 8
      ensures r.Fail? ==> NoRoom(ParsePostfix(base, old(rest)), done, c)
      ensures r.Pass? ==> Valid() && ParsePostfix(base, old(rest)) == ParsePostfix(e, rest) && |rest| < |old(rest)|
      ensures r.Pass? ==> image.list == done + EmitE(e, c) && Context() == AfterE(e, c) && jumpStack == old(jumpStack)
      ensures r.Pass? ==> !unaryMinus && Claim() <= old(Claim())
      ensures r.Pass? ==> depth == old(depth) + (if old(unaryMinus) then 1 else 0) < INIT_TOKENS
      ensures r.Pass? ==> StackTo(old(depth)) == old(StackTo(depth))
      ensures r.Pass? && old(unaryMinus) ==> operatorStack[depth] == OP_NEG && priorityStack[depth] == 1
    {
      hide Long, ParsePostfix, ParseBounds, EmitE, AfterE, Scanned, Labelled, CodeImage.Valid, Line, Classify,
           BoundCode, AfterBounds;
      e := base;
      FieldStep(base, rest);
      FieldRoom(base, rest, c, done);
      MarkedLine(rest, role.marked);
      rest := role.marked;
      GetToken();
      ghost var b;
      var count;
      count, b :- Positions(true);
      if Look(rest).kind != TKN_END_FIELD {
        return Fail(Rejected), e;
      }
      GetToken();
      FieldCode(base, b, c);
      :- EmitOp(OP_EXTRACT);
      Regroup3(done, EmitE(base, c), BoundCode(b, true, AfterE(base, c)), [Op(OP_EXTRACT)]);
      return Pass, FieldOf(base, b);
    }

    /** One to three expressions; zeros for the missing ones if asked for. */
    method Positions(zero: bool) returns (r: Outcome, count: nat, ghost b: Bounds)
      requires Valid() && Claim() < INIT_TOKENS
      modifies this, operatorStack, priorityStack, image, image.code
      decreases |rest|, 22
      ensures r.Fail? ==>
                var p := ParseBounds(old(rest));
                p.Err? || Long(old(image.list) + BoundCode(p.value, zero, old(Context())))
      ensures r.Pass? ==> Valid() && ParseBounds(old(rest)) == Ok(b, rest)
      ensures r.Pass? ==> count == if b.second.None? then 1 else if b.third.None? then 2 else 3
      ensures r.Pass? ==> image.list == old(image.list) + BoundCode(b, zero, old(Context()))
      ensures r.Pass? ==> Context() == AfterBounds(b, old(Context())) && jumpStack == old(jumpStack)
      ensures r.Pass? ==> !unaryMinus && Claim() <= old(Claim())
      ensures r.Pass? ==> depth == old(depth) + (if old(unaryMinus) then 1 else 0) < INIT_TOKENS
      ensures r.Pass? ==> StackTo(old(depth)) == old(StackTo(depth))
      ensures r.Pass? && old(unaryMinus) ==> operatorStack[depth] == OP_NEG && priorityStack[depth] == 1
    {
      hide Long, ParseExpr, ParseMore, ParseBounds, EmitE, AfterE, Scanned, Labelled, CodeImage.Valid, Line;
      BoundsStep(rest);
      ghost var c, done, neg := Context(), image.list, unaryMinus;
      ghost var first, second, third;
      b, count := Bounds(Num(0), None, None), 0;
      ghost var whole := ParseBounds(rest);
      if whole.Ok? {
        BoundsNoRoom(done, whole.value, zero, c);
      }
      first :- Expression();
      ghost var ops, pris := operatorStack[..], priorityStack[..];
      var two, three;
      NoMore(rest);
      two, second :- Bound(zero);
      if zero || two {
        three, third :- Bound(zero);
      } else {
        NumberKeeps(0, Context());
        three, third := false, None;
        assert image.list == image.list + [];
      }
      b, count := Bounds(first, second, third), if three then 3 else if two then 2 else 1;
      BoundRegroup(done, b, zero, c);
      Shorter(operatorStack[..], ops, depth, old(depth));
      Shorter(priorityStack[..], pris, depth, old(depth));
      if neg {
        SameTop(operatorStack[..], ops, depth);
        SameTop(priorityStack[..], pris, depth);
      }
      return Pass, count, b;
    }

    /** The optional next expression of a bound list; without it, a zero if asked for. */
    method Bound(zero: bool) returns (r: Outcome, present: bool, ghost o: Option<Expr>)
      requires Valid() && Claim() < INIT_TOKENS && !unaryMinus
      modifies this, operatorStack, priorityStack, image, image.code
      decreases |rest|, 21
      ensures r.Fail? ==>
                var p := ParseMore(old(rest));
                || p.Err?
                || Long(old(image.list) + if p.value.Some? || zero then EmitE(OrZero(p.value), old(Context())) else [])
      ensures r.Pass? ==> Valid() && ParseMore(old(rest)) == Ok(o, rest) && present == o.Some?
      ensures r.Pass? ==> image.list == old(image.list) +
                            if o.Some? || zero then EmitE(OrZero(o), old(Context())) else []
      ensures r.Pass? ==> Context() == AfterE(OrZero(o), old(Context())) && jumpStack == old(jumpStack)
      ensures r.Pass? ==> !unaryMinus && Claim() <= old(Claim()) && depth == old(depth)
      ensures r.Pass? ==> StackTo(depth) == old(StackTo(depth)) && |rest| <= |old(rest)|
    {
      hide Long, ParseExpr, EmitE, AfterE, Scanned, Labelled, CodeImage.Valid, Line;
      present, o := false, None;
      if Look(rest).kind == TKN_COMMA {
        GetToken();
        ghost var e;
        e :- Expression();
        return Pass, true, Some(e);
      }
      NumberKeeps(0, Context());
      if zero {
        :- EmitNumber(0);
      } else {
        assert image.list == image.list + [];
      }
      return Pass, false, None;
    }

    /** x[a], x[a,b] or x[a,b,c], with the bracket in the look-ahead. */
    method Substring(ghost base: Expr, ghost c: Ctx, ghost done: seq<Item>)
      returns (r: Outcome, ghost e: Expr)
      requires Valid() && Claim() < INIT_TOKENS && Look(rest).kind == TKN_LSQBR
      requires image.list == done + EmitE(base, c) && Context() == AfterE(base, c)
      modifies this, operatorStack, priorityStack, image, image.code
      decreases |rest|, 8
      ensures r.Fail? ==> NoRoom(ParsePostfix(base, old(rest)), done, c)
      ensures r.Pass? ==> Valid() && ParsePostfix(base, old(rest)) == ParsePostfix(e, rest) && |rest| < |old(rest)|
      ensures r.Pass? ==> image.list == done + EmitE(e, c) && Context() == AfterE(e, c) && jumpStack == old(jumpStack)
      ensures r.Pass? ==> !unaryMinus && Claim() <= old(Claim())
      ensures r.Pass? ==> depth == old(depth) + (if old(unaryMinus) then 1 else 0) < INIT_TOKENS
      ensures r.Pass? ==> StackTo(old(depth)) == old(StackTo(depth))
      ensures r.Pass? && old(unaryMinus) ==> operatorStack[depth] == OP_NEG && priorityStack[depth] == 1
    {
      hide Long, ParsePostfix, ParseBounds, EmitE, AfterE, Scanned, Labelled, CodeImage.Valid, Line, BoundCode,
           AfterBounds;
      e := base;
      SubstringStep(base, rest);
      SubstringRoom(base, rest, c, done);
      GetToken();
      ghost var b;
      var count;
      count, b :- Positions(false);
      var op := if count == 1 then OP_SUBSTRE else if count == 2 then OP_SUBSTR else OP_FIELD;
      :- EmitOp(op);
      ExtractionCode(base, b, c);
      Regroup3(done, EmitE(base, c), BoundCode(b, false, AfterE(base, c)), [Op(op)]);
      if Look(rest).kind != TKN_RSQBR {
        return Fail(Rejected), e;
      }
      GetToken();
      return Pass, Extraction(base, b);
    }
  }
}
