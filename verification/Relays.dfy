/** The relay that hands a client over from the front to the session: what it does in every
    round under every behaviour of the operating system, that no byte is lost, doubled or
    reordered, and that bytes which wait are delivered. */
module Relays {
  import opened Outcomes
  import opened Bytes
  import opened Wiring

  /** One pump: nothing there, an error, the end, or bytes that were taken and the parts of
      them that were given, one after the other, until all were or one was refused. */
  datatype Pumped = Idle | Broke | Over | Moved(data: seq<byte>, parts: seq<seq<byte>>, refused: Option<Writing>)

  function Joined(parts: seq<seq<byte>>): seq<byte> {
    if parts == [] then [] else Joined(parts[..|parts| - 1]) + parts[|parts| - 1]
  }

  function PartsLog(dst: Port, parts: seq<seq<byte>>): seq<Event> {
    if parts == [] then [] else PartsLog(dst, parts[..|parts| - 1]) + [Gave(dst, parts[|parts| - 1])]
  }

  function PumpLog(src: Port, dst: Port, x: Pumped): seq<Event> {
    match x
    case Idle => [Dry(src)]
    case Broke => [Torn(src)]
    case Over => [Ended(src)]
    case Moved(data, parts, refused) =>
      [Took(src, data)] + PartsLog(dst, parts) + if refused.Some? then [Refused(dst, refused.value)] else []
  }

  /** A send that is not refused takes a byte at least; the sending goes on to the end. */
  predicate PumpOk(x: Pumped) {
    x.Moved? ==>
      && x.data != [] && (forall i :: 0 <= i < |x.parts| ==> x.parts[i] != [])
      && Joined(x.parts) <= x.data && (x.refused == None <==> Joined(x.parts) == x.data)
  }

  /** 0 at the end of the stream, -1 on an error; a pipe is read only when bytes wait. */
  function PumpResult(src: Port, x: Pumped): int {
    match x
    case Idle => if src == Pipe then -1 else 1
    case Broke => -1
    case Over => 0
    case Moved(data, _, refused) => if refused.Some? then -1 else |data|
  }

  lemma JoinedMore(parts: seq<seq<byte>>, part: seq<byte>)
    ensures Joined(parts + [part]) == Joined(parts) + part
    ensures forall dst :: PartsLog(dst, parts + [part]) == PartsLog(dst, parts) + [Gave(dst, part)]
  {
    assert (parts + [part])[..|parts|] == parts;
  }

  /** sock_to_sock(), sock_to_pipe() and pipe_to_sock() */
  method Pump(w: Wires, src: Port, dst: Port) returns (r: int, ghost x: Pumped)
    requires src != dst
    modifies w`time, w`log
    ensures w.log == old(w.log) + PumpLog(src, dst, x) && PumpOk(x) && r == PumpResult(src, x)
  {
    hide Joined, PartsLog, PumpLog;
    var buf := new byte[BUFSZ](_ => 0);
    var n := w.Receive(src, buf);
    NoneMoved(src, dst);
    if n == 0 {
      return 0, Over;
    }
    if n < 0 {
      x := if n == -1 then Idle else Broke;
      return (if n == -1 && src != Pipe then 1 else -1), x;
    }
    ghost var data, parts: seq<seq<byte>> := buf[..n], [];
    NothingJoined(dst);
    var off := 0;
    while off < n
      invariant 0 <= off <= n && (forall i :: 0 <= i < |parts| ==> parts[i] != []) && Joined(parts) == data[..off]
      invariant data == buf[..n] && w.log == old(w.log) + ([Took(src, data)] + PartsLog(dst, parts))
    {
      var k := w.Send(dst, buf, off, n - off);
      if k <= 0 {
        x := Moved(data, parts, Some(if k == 0 then Sent(0) else if k == -1 then Full else WriteFailed));
        MovedLog(src, dst, data, parts, x.refused);
        return -1, x;
      }
      JoinedMore(parts, buf[off..off + k]);
      assert data[..off] + buf[off..off + k] == data[..off + k];
      parts := parts + [buf[off..off + k]];
      off := off + k;
    }
    x := Moved(data, parts, None);
    MovedLog(src, dst, data, parts, None);
    return n, x;
  }

  lemma NoneMoved(src: Port, dst: Port)
    ensures PumpLog(src, dst, Idle) == [Dry(src)] && PumpLog(src, dst, Broke) == [Torn(src)]
    ensures PumpLog(src, dst, Over) == [Ended(src)]
  {
  }

  lemma MovedLog(src: Port, dst: Port, data: seq<byte>, parts: seq<seq<byte>>, refused: Option<Writing>)
    ensures PumpLog(src, dst, Moved(data, parts, refused))
         == [Took(src, data)] + PartsLog(dst, parts)
            + if refused.Some? then [Refused(dst, refused.value)] else []
  {
  }

  lemma NothingJoined(dst: Port)
    ensures Joined([]) == [] && PartsLog(dst, []) == []
  {
  }

  function PumpTook(x: Pumped): seq<byte> {
    if x.Moved? then x.data else []
  }

  function PumpGave(x: Pumped): seq<byte> {
    if x.Moved? then Joined(x.parts) else []
  }

  lemma {:induction false} PartsCarry(src: Port, dst: Port, data: seq<byte>, parts: seq<seq<byte>>)
    requires src != dst
    ensures Carries([Took(src, data)] + PartsLog(dst, parts), src, dst, data, Joined(parts))
  {
    if parts == [] {
      CarriesNothing(src, dst);
      CarriesMore([], Took(src, data), src, dst, [], []);
      assert [] + [Took(src, data)] == [Took(src, data)] + PartsLog(dst, parts) && [] + data == data;
    } else {
      var init, last := parts[..|parts| - 1], parts[|parts| - 1];
      PartsCarry(src, dst, data, init);
      CarriesMore([Took(src, data)] + PartsLog(dst, init), Gave(dst, last), src, dst, data, Joined(init));
      assert [Took(src, data)] + PartsLog(dst, init) + [Gave(dst, last)] == [Took(src, data)] + PartsLog(dst, parts);
      assert data + [] == data;
    }
  }

  lemma PumpCarries(src: Port, dst: Port, x: Pumped)
    requires src != dst && PumpOk(x)
    ensures Carries(PumpLog(src, dst, x), src, dst, PumpTook(x), PumpGave(x)) && PumpGave(x) <= PumpTook(x)
    ensures PumpResult(src, x) >= 0 ==> PumpGave(x) == PumpTook(x)
  {
    hide Joined, PartsLog, Carries;
    match x
    case Moved(data, parts, refused) =>
      PartsCarry(src, dst, data, parts);
      if refused.Some? {
        CarriesMore([Took(src, data)] + PartsLog(dst, parts), Refused(dst, refused.value), src, dst, data,
                    Joined(parts));
        assert data + [] == data && Joined(parts) + [] == Joined(parts);
      } else {
        assert [Took(src, data)] + PartsLog(dst, parts) + [] == [Took(src, data)] + PartsLog(dst, parts);
      }
    case _ =>
      var e := PumpLog(src, dst, x)[0];
      CarriesNothing(src, dst);
      CarriesMore([], e, src, dst, [], []);
      assert [] + PumpLog(src, dst, x) == PumpLog(src, dst, x) && [] + Part(e, true, src) == [];
  }

  // With the front

  /** One round: the poll, the front's bytes where the poll reports some, and the client's. */
  datatype FrontRound = FrontRound(p: Polled, down: Option<Pumped>, up: Option<Pumped>)

  datatype FrontEnd = Exit(code: int) | Cut

  predicate FrontOk(r: FrontRound) {
    && (r.down.Some? <==> r.p.Ready? && r.p.second)
    && (r.up.Some? <==> r.p.Ready? && r.p.first && (r.down.Some? ==> PumpResult(Front, r.down.value) > 0))
    && (r.down.Some? ==> PumpOk(r.down.value)) && (r.up.Some? ==> PumpOk(r.up.value))
  }

  /** How the phase ends with this round, if it does: the front's end is the signal. */
  function FrontExit(r: FrontRound): Option<FrontEnd> {
    if !r.p.Ready? then Some(Exit(2))
    else if r.down.Some? && PumpResult(Front, r.down.value) == 0 then Some(Cut)
    else if r.down.Some? && PumpResult(Front, r.down.value) < 0 then Some(Exit(3))
    else if r.up.Some? && PumpResult(Net, r.up.value) <= 0 then Some(Exit(3))
    else None
  }

  function Maybe(src: Port, dst: Port, x: Option<Pumped>): seq<Event> {
    if x.Some? then PumpLog(src, dst, x.value) else []
  }

  function FrontLog(r: FrontRound): seq<Event> {
    [Asked(r.p)] + Maybe(Front, Net, r.down) + Maybe(Net, Front, r.up)
  }

  function FrontLogs(rs: seq<FrontRound>): seq<Event> {
    if rs == [] then [] else FrontLogs(rs[..|rs| - 1]) + FrontLog(rs[|rs| - 1])
  }

  /** A phase of so many rounds at most: it goes on while no round ends it. */
  predicate FrontRun(rs: seq<FrontRound>, rounds: nat, end: Option<FrontEnd>) {
    && (forall i :: 0 <= i < |rs| ==> FrontOk(rs[i]))
    && (forall i :: 0 <= i < |rs| - 1 ==> FrontExit(rs[i]) == None)
    && |rs| <= rounds && (end == None ==> |rs| == rounds)
    && (if rs == [] then end == None else FrontExit(rs[|rs| - 1]) == end)
  }

  lemma FrontMore(rs: seq<FrontRound>, r: FrontRound)
    ensures FrontLogs(rs + [r]) == FrontLogs(rs) + FrontLog(r)
  {
    assert (rs + [r])[..|rs|] == rs;
  }

  lemma FrontRunMore(rs: seq<FrontRound>, n: nat, r: FrontRound, rounds: nat)
    requires FrontRun(rs, n, None) && n < rounds && FrontOk(r)
    ensures FrontExit(r) == None ==> FrontRun(rs + [r], n + 1, None)
    ensures FrontExit(r) != None ==> FrontRun(rs + [r], rounds, FrontExit(r))
  {
    hide FrontOk, FrontExit;
    var all := rs + [r];
    assert forall i :: 0 <= i < |rs| ==> all[i] == rs[i];
  }

  /** The first phase of main() */
  method ServeFront(w: Wires, rounds: nat) returns (end: Option<FrontEnd>, ghost rs: seq<FrontRound>)
    modifies w`time, w`log
    ensures w.log == old(w.log) + FrontLogs(rs) && FrontRun(rs, rounds, end)
  {
    hide FrontLogs, FrontRun, PumpOk, PumpLog, PumpResult;
    rs, end := [], None;
    NoFront();
    var n := 0;
    while n < rounds
      invariant 0 <= n <= rounds && w.log == old(w.log) + FrontLogs(rs) && FrontRun(rs, n, None)
    {
      ghost var r: FrontRound;
      end, r := OneFront(w);
      FrontMore(rs, r);
      FrontRunMore(rs, n, r, rounds);
      rs := rs + [r];
      if end.Some? {
        return end, rs;
      }
      n := n + 1;
    }
    return None, rs;
  }

  lemma NoFront()
    ensures FrontLogs([]) == [] && FrontRun([], 0, None)
  {
  }

  /** The body of its loop */
  method OneFront(w: Wires) returns (end: Option<FrontEnd>, ghost r: FrontRound)
    modifies w`time, w`log
    ensures w.log == old(w.log) + FrontLog(r) && FrontOk(r) && end == FrontExit(r)
  {
    hide PumpOk, PumpLog;
    var p := w.Poll();
    r := FrontRound(p, None, None);
    if !p.Ready? {
      return Some(Exit(2)), r;
    }
    if p.second {
      var n, x := Pump(w, Front, Net);
      r := FrontRound(p, Some(x), None);
      if n == 0 {
        return Some(Cut), r;
      }
      if n < 0 {
        return Some(Exit(3)), r;
      }
    }
    if p.first {
      var n, x := Pump(w, Net, Front);
      r := r.(up := Some(x));
      if n <= 0 {
        return Some(Exit(3)), r;
      }
    }
    return None, r;
  }

  // With the session

  /** One round: the poll, the client's bytes where there are some, and the peek at the pipe
      with the session's bytes where some wait. */
  datatype Round = Round(p: Polled, up: Option<Pumped>, k: Option<Peeked>, down: Option<Pumped>)

  predicate RoundOk(r: Round) {
    && (r.up.Some? <==> r.p.Ready? && r.p.first)
    && (r.k.Some? <==> !r.p.PollFailed? && (r.up.Some? ==> PumpResult(Net, r.up.value) > 0))
    && (r.down.Some? <==> r.k == Some(Waiting))
    && (r.up.Some? ==> PumpOk(r.up.value)) && (r.down.Some? ==> PumpOk(r.down.value))
  }

  /** A clean end is the client's, the session's, or that of the pipe. */
  function RoundExit(r: Round): Option<int> {
    if r.p.PollFailed? then Some(3)
    else if r.up.Some? && PumpResult(Net, r.up.value) == 0 then Some(0)
    else if r.up.Some? && PumpResult(Net, r.up.value) < 0 then Some(3)
    else if r.down.Some? && PumpResult(Pipe, r.down.value) == 0 then Some(0)
    else if r.down.Some? && PumpResult(Pipe, r.down.value) < 0 then Some(3)
    else if r.k == Some(Gone) then Some(0)
    else None
  }

  function RoundLog(r: Round): seq<Event> {
    [Asked(r.p)] + Maybe(Net, Pipe, r.up) + (if r.k.Some? then [Looked(r.k.value)] else []) + Maybe(Pipe, Net, r.down)
  }

  function RoundLogs(rs: seq<Round>): seq<Event> {
    if rs == [] then [] else RoundLogs(rs[..|rs| - 1]) + RoundLog(rs[|rs| - 1])
  }

  predicate SessionRun(rs: seq<Round>, rounds: nat, code: Option<int>) {
    && (forall i :: 0 <= i < |rs| ==> RoundOk(rs[i]))
    && (forall i :: 0 <= i < |rs| - 1 ==> RoundExit(rs[i]) == None)
    && |rs| <= rounds && (code == None ==> |rs| == rounds)
    && (if rs == [] then code == None else RoundExit(rs[|rs| - 1]) == code)
  }

  lemma RoundMore(rs: seq<Round>, r: Round)
    ensures RoundLogs(rs + [r]) == RoundLogs(rs) + RoundLog(r)
  {
    assert (rs + [r])[..|rs|] == rs;
  }

  lemma SessionRunMore(rs: seq<Round>, n: nat, r: Round, rounds: nat)
    requires SessionRun(rs, n, None) && n < rounds && RoundOk(r)
    ensures RoundExit(r) == None ==> SessionRun(rs + [r], n + 1, None)
    ensures RoundExit(r) != None ==> SessionRun(rs + [r], rounds, RoundExit(r))
  {
    hide RoundOk, RoundExit;
    var all := rs + [r];
    assert forall i :: 0 <= i < |rs| ==> all[i] == rs[i];
  }

  /** The second phase; None: still running. */
  method ServeSession(w: Wires, rounds: nat) returns (code: Option<int>, ghost rs: seq<Round>)
    modifies w`time, w`log
    ensures w.log == old(w.log) + RoundLogs(rs) && SessionRun(rs, rounds, code)
  {
    hide RoundLogs, SessionRun, PumpOk, PumpLog, PumpResult;
    rs, code := [], None;
    NoSession();
    var n := 0;
    while n < rounds
      invariant 0 <= n <= rounds && w.log == old(w.log) + RoundLogs(rs) && SessionRun(rs, n, None)
    {
      ghost var r: Round;
      code, r := OneRound(w);
      RoundMore(rs, r);
      SessionRunMore(rs, n, r, rounds);
      rs := rs + [r];
      if code.Some? {
        return code, rs;
      }
      n := n + 1;
    }
    return None, rs;
  }

  lemma NoSession()
    ensures RoundLogs([]) == [] && SessionRun([], 0, None)
  {
  }

  /** The body of its loop */
  method OneRound(w: Wires) returns (code: Option<int>, ghost r: Round)
    modifies w`time, w`log
    ensures w.log == old(w.log) + RoundLog(r) && RoundOk(r) && code == RoundExit(r)
  {
    hide PumpOk, PumpLog;
    var p := w.Poll();
    r := Round(p, None, None, None);
    if p.PollFailed? {
      return Some(3), r;
    }
    if p.Ready? && p.first {
      var n, x := Pump(w, Net, Pipe);
      r := r.(up := Some(x));
      if n <= 0 {
        return Some(if n == 0 then 0 else 3), r;
      }
    }
    var k := w.Peek();
    r := r.(k := Some(k));
    if k.Waiting? {
      var n, x := Pump(w, Pipe, Net);
      r := r.(down := Some(x));
      if n <= 0 {
        return Some(if n == 0 then 0 else 3), r;
      }
    } else if k.Gone? {
      return Some(0), r;
    }
    return None, r;
  }

  // The whole run

  /** a: the rounds with the front, and how they ended; b: those with the session, once the
      front's end has been seen and the session has come */
  ghost predicate Run(log: seq<Event>, rounds: nat, a: seq<FrontRound>, end: Option<FrontEnd>, b: Option<seq<Round>>,
                      code: Option<int>)
  {
    && FrontRun(a, rounds, end)
    && match end
       case None => b == None && log == FrontLogs(a) && code == None
       case Some(Exit(c)) => b == None && log == FrontLogs(a) && code == Some(c)
       case Some(Cut) =>
         match b
         case None => log == FrontLogs(a) + [NotOpened] && code == Some(3)
         case Some(rs) => log == FrontLogs(a) + [Opened] + RoundLogs(rs) && SessionRun(rs, rounds, code)
  }

  /** main(): the exit code, or None while it is still running after so many rounds of a
      phase. */
  method Cutover(w: Wires, rounds: nat)
    returns (code: Option<int>, ghost a: seq<FrontRound>, ghost end: Option<FrontEnd>, ghost b: Option<seq<Round>>)
    requires w.log == []
    modifies w`time, w`log
    ensures Run(w.log, rounds, a, end, b, code)
  {
    hide FrontLogs, FrontRun, RoundLogs, SessionRun;
    b := None;
    var how;
    how, a := ServeFront(w, rounds);
    end := how;
    match how {
      case None => return None, a, end, b;
      case Some(Exit(c)) => return Some(c), a, end, b;
      case Some(Cut) =>
    }
    var came := w.Connect();
    if !came {
      return Some(3), a, end, b;
    }
    ghost var rs;
    code, rs := ServeSession(w, rounds);
    b := Some(rs);
  }

  // Nothing is lost

  lemma MaybeKeeps(log: seq<Event>, src: Port, dst: Port, app: Port, x: Option<Pumped>)
    requires Tight(log, app) && app != Net && ((src == Net && dst == app) || (src == app && dst == Net))
    requires x.Some? ==> PumpOk(x.value)
    ensures Loose(log + Maybe(src, dst, x), app)
    ensures (x.Some? ==> PumpResult(src, x.value) >= 0) ==> Tight(log + Maybe(src, dst, x), app)
  {
    hide Loose, Tight, PumpOk, PumpLog, Carries;
    if x.Some? {
      PumpCarries(src, dst, x.value);
      PieceKeeps(log, PumpLog(src, dst, x.value), src, dst, app, PumpTook(x.value), PumpGave(x.value));
    } else {
      assert log + [] == log;
      TightIsLoose(log, app);
    }
  }

  lemma TightIsLoose(log: seq<Event>, app: Port)
    requires Tight(log, app)
    ensures Loose(log, app)
  {
  }

  lemma FrontKeeps(log: seq<Event>, r: FrontRound)
    requires Tight(log, Front) && FrontOk(r)
    ensures Loose(log + FrontLog(r), Front) && (FrontExit(r) != Some(Exit(3)) ==> Tight(log + FrontLog(r), Front))
  {
    hide Loose, Tight, PumpOk, Maybe;
    var l1 := log + [Asked(r.p)];
    var l2 := l1 + Maybe(Front, Net, r.down);
    QuietKeeps(log, Asked(r.p), Front);
    MaybeKeeps(l1, Front, Net, Front, r.down);
    assert log + FrontLog(r) == l2 + Maybe(Net, Front, r.up);
    if r.down.Some? && PumpResult(Front, r.down.value) < 0 {
      NoneThere(l2, Net, Front);
    } else {
      MaybeKeeps(l2, Net, Front, Front, r.up);
    }
  }

  lemma NoneThere(log: seq<Event>, src: Port, dst: Port)
    ensures log + Maybe(src, dst, None) == log
  {
  }

  /** With the front every byte taken has been given, unless an error ended the phase. */
  lemma {:induction false} FrontFlow(a: seq<FrontRound>, rounds: nat, end: Option<FrontEnd>)
    requires FrontRun(a, rounds, end)
    ensures Loose(FrontLogs(a), Front) && (end != Some(Exit(3)) ==> Tight(FrontLogs(a), Front))
    decreases |a|
  {
    hide Loose, Tight, FrontOk, FrontExit, FrontLog;
    if a == [] {
      EmptyTight(Front);
      TightIsLoose([], Front);
    } else {
      var init := a[..|a| - 1];
      assert |init| > 0 ==> init[|init| - 1] == a[|a| - 2];
      FrontFlow(init, |init|, None);
      FrontKeeps(FrontLogs(init), a[|a| - 1]);
    }
  }

  lemma RoundKeeps(log: seq<Event>, r: Round)
    requires Tight(log, Pipe) && RoundOk(r)
    ensures Loose(log + RoundLog(r), Pipe) && (RoundExit(r) != Some(3) ==> Tight(log + RoundLog(r), Pipe))
  {
    hide Loose, Tight, PumpOk, Maybe;
    var l1 := log + [Asked(r.p)];
    var l2 := l1 + Maybe(Net, Pipe, r.up);
    var l3 := l2 + if r.k.Some? then [Looked(r.k.value)] else [];
    QuietKeeps(log, Asked(r.p), Pipe);
    MaybeKeeps(l1, Net, Pipe, Pipe, r.up);
    assert log + RoundLog(r) == l3 + Maybe(Pipe, Net, r.down);
    if r.k.Some? {
      QuietKeeps(l2, Looked(r.k.value), Pipe);
      MaybeKeeps(l3, Pipe, Net, Pipe, r.down);
    } else {
      assert l3 == l2;
      NoneThere(l3, Pipe, Net);
    }
  }

  lemma {:induction false} SessionFlow(rs: seq<Round>, rounds: nat, code: Option<int>)
    requires SessionRun(rs, rounds, code)
    ensures Loose(RoundLogs(rs), Pipe) && (code != Some(3) ==> Tight(RoundLogs(rs), Pipe))
    decreases |rs|
  {
    hide Loose, Tight, RoundOk, RoundExit, RoundLog;
    if rs == [] {
      EmptyTight(Pipe);
      TightIsLoose([], Pipe);
    } else {
      var init := rs[..|rs| - 1];
      assert |init| > 0 ==> init[|init| - 1] == rs[|rs| - 2];
      SessionFlow(init, |init|, None);
      RoundKeeps(RoundLogs(init), rs[|rs| - 1]);
    }
  }

  /** The cutover loses, doubles and reorders nothing: what the front got and then what the
      session got is what was taken from the client, what the front got is all that had been
      taken when its end was seen, and the client gets the front's bytes and then the
      session's. */
  lemma NothingLost(log: seq<Event>, rounds: nat, a: seq<FrontRound>, rs: seq<Round>, code: Option<int>)
    requires Run(log, rounds, a, Some(Cut), Some(rs), code)
    ensures Given(log, Front) == Taken(FrontLogs(a), Net)
    ensures Given(log, Front) + Given(log, Pipe) <= Taken(log, Net)
    ensures Given(log, Net) <= Taken(log, Front) + Taken(log, Pipe)
    ensures code != Some(3) ==>
      && Given(log, Front) + Given(log, Pipe) == Taken(log, Net)
      && Given(log, Net) == Taken(log, Front) + Taken(log, Pipe)
  {
    hide Through, FrontRun, SessionRun, FrontLogs, RoundLogs;
    FrontFlow(a, rounds, Some(Cut));
    SessionFlow(rs, rounds, code);
    Unused(FrontLogs(a), Front, Pipe);
    Unused(RoundLogs(rs), Pipe, Front);
    forall took: bool, p: Port
      ensures Through(log, took, p) == Through(FrontLogs(a), took, p) + Through(RoundLogs(rs), took, p)
    {
      TwoPhases(FrontLogs(a), RoundLogs(rs), took, p);
    }
  }

  lemma TwoPhases(a: seq<Event>, b: seq<Event>, took: bool, p: Port)
    ensures Through(a + [Opened] + b, took, p) == Through(a, took, p) + Through(b, took, p)
  {
    hide Through;
    ThroughConcat(a + [Opened], b, took, p);
    ThroughConcat(a, [Opened], took, p);
    OneEvent(Opened, took, p);
  }

  /** Before the front's end is seen nothing has been doubled or reordered either, and the
      session is not touched. */
  lemma NothingLostYet(log: seq<Event>, rounds: nat, a: seq<FrontRound>, end: Option<FrontEnd>, code: Option<int>)
    requires Run(log, rounds, a, end, None, code) && end != Some(Cut)
    ensures Given(log, Front) <= Taken(log, Net) && Given(log, Net) <= Taken(log, Front)
    ensures Given(log, Pipe) == [] && Taken(log, Pipe) == []
  {
    hide Through, FrontRun, FrontLogs;
    FrontFlow(a, rounds, end);
    Unused(log, Front, Pipe);
  }

  // What waits is delivered

  function Flat(pieces: seq<seq<Event>>): seq<Event> {
    if pieces == [] then [] else Flat(pieces[..|pieces| - 1]) + pieces[|pieces| - 1]
  }

  /** Pieces each of which takes something while there is something to take, have taken it
      all after as many of them as there are bytes. */
  lemma {:induction false} TakenInTime(pieces: seq<seq<Event>>, src: Port, size: nat)
    requires forall i :: 0 <= i < |pieces| && |Taken(Flat(pieces[..i]), src)| < size ==> Taken(pieces[i], src) != []
    ensures |Taken(Flat(pieces), src)| >= if |pieces| < size then |pieces| else size
    decreases |pieces|
  {
    hide Through;
    if pieces != [] {
      var init, last := pieces[..|pieces| - 1], pieces[|pieces| - 1];
      assert forall i :: 0 <= i < |init| ==> init[..i] == pieces[..i] && init[i] == pieces[i];
      TakenInTime(init, src, size);
      ThroughConcat(Flat(init), last, true, src);
    }
  }

  function Pieces(rs: seq<Round>): seq<seq<Event>> {
    seq(|rs|, i requires 0 <= i < |rs| => RoundLog(rs[i]))
  }

  lemma {:induction false} RoundsFlat(rs: seq<Round>)
    ensures RoundLogs(rs) == Flat(Pieces(rs))
  {
    hide RoundLog;
    if rs != [] {
      RoundsFlat(rs[..|rs| - 1]);
      assert Pieces(rs)[..|rs| - 1] == Pieces(rs[..|rs| - 1]);
    }
  }

  /** A round with bytes in the pipe that does not end the run takes some of them. */
  lemma WaitingTaken(r: Round)
    requires RoundOk(r) && RoundExit(r) == None && r.k == Some(Waiting)
    ensures Taken(RoundLog(r), Pipe) != []
  {
    hide Through, Carries;
    var before := [Asked(r.p)] + Maybe(Net, Pipe, r.up) + [Looked(Waiting)];
    assert RoundLog(r) == before + PumpLog(Pipe, Net, r.down.value);
    ThroughConcat(before, PumpLog(Pipe, Net, r.down.value), true, Pipe);
    PumpCarries(Pipe, Net, r.down.value);
    TakenOf(PumpLog(Pipe, Net, r.down.value), Pipe, Net, PumpTook(r.down.value), PumpGave(r.down.value));
  }

  lemma TakenOf(piece: seq<Event>, src: Port, dst: Port, took: seq<byte>, gave: seq<byte>)
    requires Carries(piece, src, dst, took, gave)
    ensures Taken(piece, src) == took
  {
  }

  /** If these bytes wait in the pipe, and the run has not ended, the client has them after
      as many rounds as there are bytes. */
  lemma Delivered(rs: seq<Round>, rounds: nat, data: seq<byte>)
    requires SessionRun(rs, rounds, None) && |data| <= rounds
    requires forall i :: 0 <= i < |rs| && |Taken(RoundLogs(rs[..i]), Pipe)| < |data| ==> rs[i].k == Some(Waiting)
    requires Taken(RoundLogs(rs), Pipe) <= data || data <= Taken(RoundLogs(rs), Pipe)
    ensures data <= Given(RoundLogs(rs), Net)
  {
    hide Through, RoundLogs, RoundOk, RoundExit, RoundLog;
    var pieces := Pieces(rs);
    forall i | 0 <= i < |pieces| && |Taken(Flat(pieces[..i]), Pipe)| < |data| ensures Taken(pieces[i], Pipe) != [] {
      RoundsFlat(rs[..i]);
      assert pieces[..i] == Pieces(rs[..i]);
      WaitingTaken(rs[i]);
    }
    TakenInTime(pieces, Pipe, |data|);
    RoundsFlat(rs);
    SessionFlow(rs, rounds, None);
  }

  /** A round in which the client's bytes are reported and read, and that does not end the
      run, takes some of them. */
  lemma ReportedTaken(r: Round)
    requires RoundOk(r) && RoundExit(r) == None && r.p.Ready? && r.p.first && !r.up.value.Idle?
    ensures Taken(RoundLog(r), Net) != []
  {
    hide Through, Carries, Maybe;
    var x := r.up.value;
    var after := (if r.k.Some? then [Looked(r.k.value)] else []) + Maybe(Pipe, Net, r.down);
    assert Maybe(Net, Pipe, r.up) == PumpLog(Net, Pipe, x) by { SomeLog(Net, Pipe, r.up); }
    assert RoundLog(r) == [Asked(r.p)] + PumpLog(Net, Pipe, x) + after;
    ThroughConcat([Asked(r.p)] + PumpLog(Net, Pipe, x), after, true, Net);
    ThroughConcat([Asked(r.p)], PumpLog(Net, Pipe, x), true, Net);
    PumpCarries(Net, Pipe, x);
    TakenOf(PumpLog(Net, Pipe, x), Net, Pipe, PumpTook(x), PumpGave(x));
  }

  lemma SomeLog(src: Port, dst: Port, x: Option<Pumped>)
    requires x.Some?
    ensures Maybe(src, dst, x) == PumpLog(src, dst, x.value)
  {
  }

  /** The session has the client's bytes after as many rounds as there are of them, if the
      poll reports them and the read finds them. */
  lemma Forwarded(rs: seq<Round>, rounds: nat, data: seq<byte>)
    requires SessionRun(rs, rounds, None) && |data| <= rounds
    requires forall i :: 0 <= i < |rs| && |Taken(RoundLogs(rs[..i]), Net)| < |data| ==>
      rs[i].p.Ready? && rs[i].p.first && rs[i].up != Some(Idle)
    requires Taken(RoundLogs(rs), Net) <= data || data <= Taken(RoundLogs(rs), Net)
    ensures data <= Given(RoundLogs(rs), Pipe)
  {
    hide Through, RoundLogs, RoundExit, RoundLog;
    var pieces := Pieces(rs);
    forall i | 0 <= i < |pieces| && |Taken(Flat(pieces[..i]), Net)| < |data| ensures Taken(pieces[i], Net) != [] {
      RoundsFlat(rs[..i]);
      assert pieces[..i] == Pieces(rs[..i]);
      ReportedTaken(rs[i]);
    }
    TakenInTime(pieces, Net, |data|);
    RoundsFlat(rs);
    SessionFlow(rs, rounds, None);
  }

  function FrontPieces(rs: seq<FrontRound>): seq<seq<Event>> {
    seq(|rs|, i requires 0 <= i < |rs| => FrontLog(rs[i]))
  }

  lemma {:induction false} FrontFlat(rs: seq<FrontRound>)
    ensures FrontLogs(rs) == Flat(FrontPieces(rs))
  {
    hide FrontLog;
    if rs != [] {
      FrontFlat(rs[..|rs| - 1]);
      assert FrontPieces(rs)[..|rs| - 1] == FrontPieces(rs[..|rs| - 1]);
    }
  }

  lemma FrontTaken(r: FrontRound)
    requires FrontOk(r) && FrontExit(r) == None && r.p.Ready? && r.p.second && !r.down.value.Idle?
    ensures Taken(FrontLog(r), Front) != []
  {
    hide Through, Carries, Maybe;
    var x := r.down.value;
    assert Maybe(Front, Net, r.down) == PumpLog(Front, Net, x) by { SomeLog(Front, Net, r.down); }
    assert FrontLog(r) == [Asked(r.p)] + PumpLog(Front, Net, x) + Maybe(Net, Front, r.up);
    ThroughConcat([Asked(r.p)] + PumpLog(Front, Net, x), Maybe(Net, Front, r.up), true, Front);
    ThroughConcat([Asked(r.p)], PumpLog(Front, Net, x), true, Front);
    PumpCarries(Front, Net, x);
    TakenOf(PumpLog(Front, Net, x), Front, Net, PumpTook(x), PumpGave(x));
  }

  /** So it is with the front's bytes in the first phase. */
  lemma FrontDelivered(rs: seq<FrontRound>, rounds: nat, data: seq<byte>)
    requires FrontRun(rs, rounds, None) && |data| <= rounds
    requires forall i :: 0 <= i < |rs| && |Taken(FrontLogs(rs[..i]), Front)| < |data| ==>
      rs[i].p.Ready? && rs[i].p.second && rs[i].down != Some(Idle)
    requires Taken(FrontLogs(rs), Front) <= data || data <= Taken(FrontLogs(rs), Front)
    ensures data <= Given(FrontLogs(rs), Net)
  {
    hide Through, FrontLogs, FrontExit, FrontLog;
    var pieces := FrontPieces(rs);
    forall i | 0 <= i < |pieces| && |Taken(Flat(pieces[..i]), Front)| < |data| ensures Taken(pieces[i], Front) != [] {
      FrontFlat(rs[..i]);
      assert pieces[..i] == FrontPieces(rs[..i]);
      FrontTaken(rs[i]);
    }
    TakenInTime(pieces, Front, |data|);
    FrontFlat(rs);
    FrontFlow(rs, rounds, None);
  }
}
