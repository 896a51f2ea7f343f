/** What loops do, said of the lines they are written with. */
module LoopLaws {
  import opened Outcomes
  import opened Syntax
  import opened Programs
  import opened StatementGrammar
  import opened Structure
  import opened Scripts
  import opened ReadingBack
  import opened Machines
  import opened Meanings
  import opened Sources

  /** The nested program that these tokens are read as */
  function ProgramOf(ts: seq<Token>): Option<Block> {
    match ParseLines(Empty, ts)
    case Err => None
    case Ok(b, _) => NestWhole(b, false)
  }

  function Single(c: Cmd): Line {
    Line(NoMark, MoreCmds(c, NoCmds))
  }

  /** LOOP, some lines, and REPEAT */
  function Looped(ls: Lines): Lines {
    MoreLines(Single(LoopCmd), Repeated(ls))
  }

  function Repeated(ls: Lines): Lines {
    match ls
    case NoLines => MoreLines(Single(RepeatCmd), NoLines)
    case MoreLines(l, more) => MoreLines(l, Repeated(more))
  }

  lemma {:induction false} RepeatedTree(acc: Block, ls: Lines)
    ensures LinesTree(acc, Repeated(ls)) == Seq(LinesTree(acc, ls), RepeatMark)
    decreases ls
  {
    hide CmdsTree;
    match ls
    case NoLines => OneCmd(acc, RepeatCmd);
    case MoreLines(l, more) => RepeatedTree(CmdsTree(MarkTree(acc, l.mark), l.g, true), more);
  }

  lemma OneCmd(acc: Block, c: Cmd)
    ensures CmdsTree(MarkTree(acc, NoMark), MoreCmds(c, NoCmds), true) == Seq(acc, CmdTree(c, true))
  {
    hide CmdTree;
    assert CmdsTree(Seq(acc, CmdTree(c, true)), NoCmds, true) == Seq(acc, CmdTree(c, true));
  }

  /** One block behind another */
  function Put(a: Block, b: Block): Block {
    if b.Empty? then a else Seq(Put(a, b.init), b.last)
  }

  lemma {:induction false} PutTwice(a: Block, b: Block, c: Block)
    ensures Put(Put(a, b), c) == Put(a, Put(b, c))
  {
    if c.Seq? {
      PutTwice(a, b, c.init);
    }
  }

  lemma {:induction false} CmdsPut(acc: Block, g: Cmds, last: bool)
    ensures CmdsTree(acc, g, last) == Put(acc, CmdsTree(Empty, g, last))
    decreases g
  {
    hide CmdTree;
    match g
    case NoCmds =>
    case MoreCmds(c, more) =>
      var s := CmdTree(c, last && more.NoCmds?);
      CmdsPut(Seq(acc, s), more, last);
      CmdsPut(Seq(Empty, s), more, last);
      PutTwice(acc, Seq(Empty, s), CmdsTree(Empty, more, last));
  }

  lemma LinePut(acc: Block, l: Line)
    ensures CmdsTree(MarkTree(acc, l.mark), l.g, true) == Put(acc, CmdsTree(MarkTree(Empty, l.mark), l.g, true))
  {
    hide CmdsTree;
    var mark := MarkTree(Empty, l.mark);
    CmdsPut(MarkTree(acc, l.mark), l.g, true);
    CmdsPut(mark, l.g, true);
    assert MarkTree(acc, l.mark) == Put(acc, mark);
    PutTwice(acc, mark, CmdsTree(Empty, l.g, true));
  }

  lemma {:induction false} LinesPut(acc: Block, ls: Lines)
    ensures LinesTree(acc, ls) == Put(acc, LinesTree(Empty, ls))
    decreases ls
  {
    hide CmdsTree;
    match ls
    case NoLines =>
    case MoreLines(l, more) =>
      var b := CmdsTree(MarkTree(Empty, l.mark), l.g, true);
      LinePut(acc, l);
      LinesPut(Put(acc, b), more);
      LinesPut(b, more);
      PutTwice(acc, b, LinesTree(Empty, more));
  }

  /** Behind an open LOOP, lines nest as they do in a loop. */
  lemma {:induction false} NestPut(b: Block, inLoop: bool)
    requires NestBlock(b, true).Some?
    ensures var o := NestBlock(b, true).value;
      NestBlock(Put(Seq(Empty, LoopMark), b), inLoop) == Some(Partial([Empty] + o.frames, o.cur))
    decreases b
  {
    hide NestStmt;
    if b.Empty? {
      assert NestBlock(Empty, inLoop) == Some(Partial([], Empty));
      assert [] + [Empty] == [Empty] + [];
    } else {
      NestPut(b.init, inLoop);
      NestLast(b, true);
      NestLast(Put(Seq(Empty, LoopMark), b), inLoop);
      FramesBehind(NestBlock(b.init, true).value.frames, NestBlock(b.init, true).value.cur);
    }
  }

  lemma NestLast(b: Block, inLoop: bool)
    requires b.Seq?
    ensures NestBlock(b, inLoop)
         == match NestBlock(b.init, inLoop)
            case None => None
            case Some(o) =>
              if b.last.LoopMark? then Some(Partial(o.frames + [o.cur], Empty))
              else if b.last.RepeatMark? then CloseLoop(o)
              else match NestStmt(b.last, inLoop || o.frames != [])
                case None => None
                case Some(s) => Some(Partial(o.frames, Seq(o.cur, s)))
  {
    hide NestStmt;
  }

  lemma FramesBehind(frames: seq<Block>, cur: Block)
    ensures ([Empty] + frames) + [cur] == [Empty] + (frames + [cur])
    ensures frames != [] ==> ([Empty] + frames)[..|frames|] == [Empty] + frames[..|frames| - 1]
  {
  }

  lemma LoopNests(ls: Lines, b: Block)
    requires NestWhole(LinesTree(Empty, ls), true) == Some(b)
    ensures NestWhole(LinesTree(Empty, Looped(ls)), false) == Some(Seq(Empty, Loop(b)))
  {
    hide LinesTree, NestBlock, CmdsTree;
    var open := Seq(Empty, LoopMark);
    OneCmd(Empty, LoopCmd);
    assert LinesTree(Empty, Looped(ls)) == LinesTree(open, Repeated(ls)) by { LoopedFirst(ls); }
    RepeatedTree(open, ls);
    LinesPut(open, ls);
    NestPut(LinesTree(Empty, ls), false);
    NestLast(Seq(LinesTree(open, ls), RepeatMark), false);
    assert [Empty] + [] == [Empty];
  }

  lemma LoopedFirst(ls: Lines)
    ensures LinesTree(Empty, Looped(ls)) == LinesTree(Seq(Empty, LoopMark), Repeated(ls))
  {
    OneCmd(Empty, LoopCmd);
    hide CmdsTree;
  }

  /** After a round: the next one, with one fewer allowed, unless the round left the loop or
      went elsewhere */
  function NextRound(rt: Runtime, p: Block, r: Result, f: nat): Result {
    if r.Spin? then Spin
    else if r.signal.Break? then r.(signal := Normal)
    else if r.signal.Go? then r
    else ExecBlock(rt, p, f, r.env, r.world)
  }

  /** LOOP and REPEAT run the lines between them in rounds: a round that ends, or goes on
      with the next, is followed by another one; a round that leaves the loop ends it. */
  lemma LoopRounds(rt: Runtime, ls: Lines, b: Block, f: nat, env: Env, w: int)
    requires LinesOk(Looped(ls), []) && NestWhole(LinesTree(Empty, ls), true) == Some(b)
    ensures var p := ProgramOf(PrintLines(Looped(ls)));
      && p.Some? && ExecBlock(rt, p.value, 0, env, w) == Spin
      && ExecBlock(rt, p.value, f + 1, env, w) == NextRound(rt, p.value, ExecBlock(rt, b, f + 1, env, w), f)
  {
    hide LinesOk, PrintLines, ParseLines, LinesTree, Looped, NestWhole, NextRound;
    ReadLines(Empty, Looped(ls));
    LoopNests(ls, b);
    Rounds(rt, b, f, env, w);
  }

  lemma Rounds(rt: Runtime, b: Block, f: nat, env: Env, w: int)
    ensures var p := Seq(Empty, Loop(b));
      && ExecBlock(rt, p, 0, env, w) == Spin
      && ExecBlock(rt, p, f + 1, env, w) == NextRound(rt, p, ExecBlock(rt, b, f + 1, env, w), f)
  {
    hide ExecBlock;
    Alone(rt, Loop(b), f + 1, env, w);
    Alone(rt, Loop(b), 0, env, w);
    var r := ExecBlock(rt, b, f + 1, env, w);
    if r.Done? {
      Alone(rt, Loop(b), f, r.env, r.world);
    }
  }
}
