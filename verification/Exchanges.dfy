/** The relay between two sockets: both are polled, whatever either has is sent on to the
    other, and a send that finds no room is tried again. */
module Exchanges {
  import opened Outcomes
  import opened Bytes
  import opened Wiring

  /** One try at sending: a part was taken, there was no room and a poll waited for some, or
      nothing was taken */
  datatype Try = Part(data: seq<byte>) | NoRoom(p: Polled) | NoneTaken

  /** How the sending ended: with all, with an error, or with the rounds used up */
  datatype Sending = All | SendFailed | Spent

  datatype Passed = Idle | Broke | Over | Moved(data: seq<byte>, tries: seq<Try>, end: Sending)

  function TryLog(dst: Port, t: Try): seq<Event> {
    match t
    case Part(data) => [Gave(dst, data)]
    case NoRoom(p) => [Refused(dst, Full), Asked(p)]
    case NoneTaken => [Refused(dst, Sent(0))]
  }

  function TriesLog(dst: Port, tries: seq<Try>): seq<Event> {
    if tries == [] then [] else TriesLog(dst, tries[..|tries| - 1]) + TryLog(dst, tries[|tries| - 1])
  }

  /** The parts that were taken */
  function Sum(tries: seq<Try>): seq<byte> {
    if tries == [] then []
    else Sum(tries[..|tries| - 1]) + if tries[|tries| - 1].Part? then tries[|tries| - 1].data else []
  }

  function PassLog(src: Port, dst: Port, x: Passed): seq<Event> {
    match x
    case Idle => [Dry(src)]
    case Broke => [Torn(src)]
    case Over => [Ended(src)]
    case Moved(data, tries, end) =>
      [Took(src, data)] + TriesLog(dst, tries) + if end.SendFailed? then [Refused(dst, WriteFailed)] else []
  }

  predicate PassOk(x: Passed) {
    x.Moved? ==>
      && x.data != [] && (forall i :: 0 <= i < |x.tries| && x.tries[i].Part? ==> x.tries[i].data != [])
      && Sum(x.tries) <= x.data && (x.end.All? <==> Sum(x.tries) == x.data)
  }

  function Rounds(x: Passed): nat {
    if x.Moved? then |x.tries| else 0
  }

  function PassTook(x: Passed): seq<byte> {
    if x.Moved? then x.data else []
  }

  function PassGave(x: Passed): seq<byte> {
    if x.Moved? then Sum(x.tries) else []
  }

  predicate Clean(x: Passed) {
    x.Idle? || (x.Moved? && x.end.All?)
  }

  /** 0 at the end of either side, 2 on an error or a time-out; OutOfRounds: not over yet */
  datatype Exit = Code(code: int) | OutOfRounds

  function PassExit(x: Passed): Option<Exit> {
    match x
    case Over => Some(Code(0))
    case Broke => Some(Code(2))
    case Idle => None
    case Moved(_, _, end) =>
      if end.SendFailed? then Some(Code(2)) else if end.Spent? then Some(OutOfRounds) else None
  }

  lemma TriesMore(dst: Port, tries: seq<Try>, t: Try)
    ensures TriesLog(dst, tries + [t]) == TriesLog(dst, tries) + TryLog(dst, t)
    ensures Sum(tries + [t]) == Sum(tries) + if t.Part? then t.data else []
  {
    assert (tries + [t])[..|tries|] == tries;
  }

  lemma NoTries(dst: Port)
    ensures TriesLog(dst, []) == [] && Sum([]) == []
  {
  }

  /** The body of relay()'s inner loop, with so many tries at most */
  method Pass(w: Wires, src: Port, dst: Port, buf: array<byte>, rounds: nat)
    returns (how: Option<Exit>, left: nat, n: nat, ghost x: Passed)
    requires src != dst && buf.Length == BUFSZ
    modifies w`time, w`log, buf
    ensures w.log == old(w.log) + PassLog(src, dst, x) && PassOk(x)
    ensures rounds == left + Rounds(x) && n == |PassTook(x)| && how == PassExit(x)
    ensures how == Some(OutOfRounds) ==> left == 0
  {
    hide TriesLog, Sum, TryLog, PassLog;
    how, left, n := None, rounds, 0;
    var got := w.Receive(src, buf);
    if got <= 0 {
      x := if got == 0 then Over else if got == -1 then Idle else Broke;
      how := if got == 0 then Some(Code(0)) else if got == -1 then None else Some(Code(2));
      NoneMoved(src, dst, x);
      return;
    }
    n := got;
    ghost var data, tries := buf[..n], [];
    var end;
    end, left, tries := SendOut(w, dst, buf, n, rounds);
    how := if end.All? then None else if end.Spent? then Some(OutOfRounds) else Some(Code(2));
    x := Moved(data, tries, end);
    MovedLog(old(w.log), src, dst, data, tries, end);
  }

  lemma NoneMoved(src: Port, dst: Port, x: Passed)
    requires !x.Moved?
    ensures PassLog(src, dst, x) == [if x.Idle? then Dry(src) else if x.Broke? then Torn(src) else Ended(src)]
  {
  }

  lemma MovedLog(log: seq<Event>, src: Port, dst: Port, data: seq<byte>, tries: seq<Try>, end: Sending)
    ensures log + [Took(src, data)]
              + (TriesLog(dst, tries) + if end.SendFailed? then [Refused(dst, WriteFailed)] else [])
         == log + PassLog(src, dst, Moved(data, tries, end))
  {
  }

  /** Until all is sent */
  method SendOut(w: Wires, dst: Port, buf: array<byte>, n: nat, rounds: nat)
    returns (end: Sending, left: nat, ghost tries: seq<Try>)
    requires n <= buf.Length
    modifies w`time, w`log
    ensures w.log == old(w.log)
                     + (TriesLog(dst, tries) + if end.SendFailed? then [Refused(dst, WriteFailed)] else [])
    ensures forall i :: 0 <= i < |tries| && tries[i].Part? ==> tries[i].data != []
    ensures Sum(tries) <= buf[..n] && (end.All? <==> Sum(tries) == buf[..n])
    ensures rounds == left + |tries| && (end.Spent? ==> left == 0)
  {
    hide TriesLog, Sum, TryLog;
    end, left, tries := All, rounds, [];
    NoTries(dst);
    var off := 0;
    while off < n
      invariant 0 <= off <= n && rounds == left + |tries| && Sum(tries) == buf[..off] && end == All
      invariant forall i :: 0 <= i < |tries| && tries[i].Part? ==> tries[i].data != []
      invariant w.log == old(w.log) + TriesLog(dst, tries)
      decreases left
    {
      if left == 0 {
        end := Spent;
        return;
      }
      ghost var t;
      var failed, k;
      failed, k, t := OneTry(w, dst, buf, off, n - off);
      if failed {
        end := SendFailed;
        return;
      }
      TriesMore(dst, tries, t);
      assert buf[..off] + (if t.Part? then t.data else []) == buf[..off + k];
      left, tries, off := left - 1, tries + [t], off + k;
    }
  }

  method OneTry(w: Wires, dst: Port, buf: array<byte>, off: nat, n: nat) returns (failed: bool, k: nat, ghost t: Try)
    requires off + n <= buf.Length && n > 0
    modifies w`time, w`log
    ensures failed ==> w.log == old(w.log) + [Refused(dst, WriteFailed)]
    ensures !failed ==> w.log == old(w.log) + TryLog(dst, t)
    ensures k <= n && (t.Part? ==> k > 0 && t.data == buf[off..off + k]) && (!t.Part? ==> k == 0)
  {
    failed, k, t := false, 0, NoneTaken;
    var sent := w.Send(dst, buf, off, n);
    if sent == -2 {
      failed := true;
    } else if sent == -1 {
      var p := w.Poll();
      t := NoRoom(p);
    } else if sent > 0 {
      k, t := sent, Part(buf[off..off + sent]);
    }
  }

  lemma {:induction false} TriesCarry(src: Port, dst: Port, data: seq<byte>, tries: seq<Try>)
    requires src != dst
    ensures Carries([Took(src, data)] + TriesLog(dst, tries), src, dst, data, Sum(tries))
  {
    hide Carries;
    if tries == [] {
      CarriesNothing(src, dst);
      CarriesMore([], Took(src, data), src, dst, [], []);
      var e := Took(src, data);
      assert [] + [e] == [e] + TriesLog(dst, tries) && Wiring.Part(e, true, src) == data;
      assert [] + Wiring.Part(e, true, src) == data && [] + Wiring.Part(e, false, dst) == Sum(tries);
    } else {
      var init, t := tries[..|tries| - 1], tries[|tries| - 1];
      TriesCarry(src, dst, data, init);
      TryCarries(src, dst, [Took(src, data)] + TriesLog(dst, init), data, Sum(init), t);
      assert [Took(src, data)] + TriesLog(dst, init) + TryLog(dst, t) == [Took(src, data)] + TriesLog(dst, tries);
    }
  }

  lemma TryCarries(src: Port, dst: Port, piece: seq<Event>, took: seq<byte>, gave: seq<byte>, t: Try)
    requires src != dst && Carries(piece, src, dst, took, gave)
    ensures Carries(piece + TryLog(dst, t), src, dst, took, gave + if t.Part? then t.data else [])
  {
    hide Carries;
    var e := TryLog(dst, t)[0];
    CarriesMore(piece, e, src, dst, took, gave);
    assert took + [] == took && gave + [] == gave;
    if t.NoRoom? {
      CarriesMore(piece + [e], Asked(t.p), src, dst, took, gave);
      assert piece + [e] + [Asked(t.p)] == piece + TryLog(dst, t);
    } else {
      assert TryLog(dst, t) == [e];
    }
  }

  lemma PassCarries(src: Port, dst: Port, x: Passed)
    requires src != dst && PassOk(x)
    ensures Carries(PassLog(src, dst, x), src, dst, PassTook(x), PassGave(x)) && PassGave(x) <= PassTook(x)
    ensures Clean(x) || x.Over? ==> PassGave(x) == PassTook(x)
  {
    hide Sum, TriesLog, Carries;
    match x
    case Moved(data, tries, end) =>
      TriesCarry(src, dst, data, tries);
      var piece := [Took(src, data)] + TriesLog(dst, tries);
      if end.SendFailed? {
        CarriesMore(piece, Refused(dst, WriteFailed), src, dst, data, Sum(tries));
        assert data + [] == data && Sum(tries) + [] == Sum(tries);
      } else {
        assert piece + [] == piece;
      }
    case _ =>
      var e := PassLog(src, dst, x)[0];
      CarriesNothing(src, dst);
      CarriesMore([], e, src, dst, [], []);
      assert [] + PassLog(src, dst, x) == PassLog(src, dst, x) && [] + Wiring.Part(e, true, src) == [];
  }

  // Rounds

  /** One round: the poll, and each side that it reports, the network's first; after a
      time-out both sides are read once for the report, and what they had is dropped. */
  datatype Round = Round(p: Polled, down: Option<Passed>, up: Option<Passed>, report: seq<Event>)

  predicate RoundOk(r: Round, app: Port) {
    && (r.down.Some? <==> r.p.Ready? && r.p.first)
    && (r.up.Some? <==> r.p.Ready? && r.p.second && (r.down.Some? ==> Clean(r.down.value)))
    && (r.down.Some? ==> PassOk(r.down.value)) && (r.up.Some? ==> PassOk(r.up.value))
    && (r.p.TimedOut? ==> |r.report| == 2 && IsRead(r.report[0], Net) && IsRead(r.report[1], app))
    && (!r.p.TimedOut? ==> r.report == [])
  }

  predicate IsRead(e: Event, port: Port) {
    (e.Took? || e.Ended? || e.Dry? || e.Torn?) && e.port == port
  }

  function RoundExit(r: Round): Option<Exit> {
    if !r.p.Ready? then Some(Code(2))
    else if r.down.Some? && PassExit(r.down.value).Some? then PassExit(r.down.value)
    else if r.up.Some? then PassExit(r.up.value)
    else None
  }

  function Maybe(src: Port, dst: Port, x: Option<Passed>): seq<Event> {
    if x.Some? then PassLog(src, dst, x.value) else []
  }

  function RoundLog(app: Port, r: Round): seq<Event> {
    [Asked(r.p)] + Maybe(Net, app, r.down) + Maybe(app, Net, r.up) + r.report
  }

  function Logs(app: Port, rs: seq<Round>): seq<Event> {
    if rs == [] then [] else Logs(app, rs[..|rs| - 1]) + RoundLog(app, rs[|rs| - 1])
  }

  function RoundsOf(r: Round): nat {
    1 + (if r.down.Some? then Rounds(r.down.value) else 0) + (if r.up.Some? then Rounds(r.up.value) else 0)
  }

  function Used(rs: seq<Round>): nat {
    if rs == [] then 0 else Used(rs[..|rs| - 1]) + RoundsOf(rs[|rs| - 1])
  }

  /** end None: the rounds are used up between two of them */
  ghost predicate Run(app: Port, rs: seq<Round>, rounds: nat, end: Option<Exit>) {
    && (forall i :: 0 <= i < |rs| ==> RoundOk(rs[i], app))
    && (forall i :: 0 <= i < |rs| - 1 ==> RoundExit(rs[i]) == None)
    && Used(rs) <= rounds && (end == None || end == Some(OutOfRounds) ==> Used(rs) == rounds)
    && (if rs == [] then end == None else RoundExit(rs[|rs| - 1]) == end)
  }

  lemma RoundMore(app: Port, rs: seq<Round>, r: Round)
    ensures Logs(app, rs + [r]) == Logs(app, rs) + RoundLog(app, r) && Used(rs + [r]) == Used(rs) + RoundsOf(r)
  {
    assert (rs + [r])[..|rs|] == rs;
  }

  lemma RunMore(app: Port, rs: seq<Round>, n: nat, r: Round, rounds: nat)
    requires Run(app, rs, n, None) && n + RoundsOf(r) <= rounds && RoundOk(r, app)
    requires RoundExit(r) == Some(OutOfRounds) ==> n + RoundsOf(r) == rounds
    ensures RoundExit(r) == None ==> Run(app, rs + [r], n + RoundsOf(r), None)
    ensures RoundExit(r) != None ==> Run(app, rs + [r], rounds, RoundExit(r))
  {
    hide RoundOk, RoundExit, RoundsOf, Used;
    RoundMore(app, rs, r);
    var all := rs + [r];
    assert forall i :: 0 <= i < |rs| ==> all[i] == rs[i];
  }

  /** relay(): the exit code and the counts of bytes sent on; None: still running */
  method Relay(w: Wires, app: Port, rounds: nat)
    returns (code: Option<int>, netToApp: nat, appToNet: nat, ghost rs: seq<Round>, ghost end: Option<Exit>)
    requires w.log == [] && app != Net
    modifies w`time, w`log
    ensures w.log == Logs(app, rs) && Run(app, rs, rounds, end)
    ensures code == if end.Some? && end.value.Code? then Some(end.value.code) else None
    ensures code == Some(0) ==> netToApp == |Given(w.log, app)| && appToNet == |Given(w.log, Net)|
  {
    hide Logs, Run, RoundOk, RoundExit, RoundsOf, RoundLog;
    rs, end := [], None;
    var buf := new byte[BUFSZ](_ => 0);
    NoRounds(app);
    netToApp, appToNet := 0, 0;
    var left: nat := rounds;
    while left > 0
      invariant left <= rounds && w.log == Logs(app, rs) && Run(app, rs, rounds - left, None)
      invariant netToApp == |Given(w.log, app)| && appToNet == |Given(w.log, Net)| && end == None
      decreases left
    {
      ghost var n, log0 := rounds - left, w.log;
      ghost var r: Round;
      var down, up, how;
      how, left, down, up, r := OneRound(w, app, buf, left);
      RoundMore(app, rs, r);
      RunMore(app, rs, n, r, rounds);
      Flow(app, rs, n, None);
      if how == None || how == Some(Code(0)) {
        Counted(app, log0, r);
      }
      rs := rs + [r];
      netToApp, appToNet := netToApp + down, appToNet + up;
      if how.Some? {
        code, end := if how.value.Code? then Some(how.value.code) else None, how;
        return;
      }
    }
    code := None;
  }

  lemma NoRounds(app: Port)
    ensures Logs(app, []) == [] && Run(app, [], 0, None) && Given([], app) == [] && Given([], Net) == []
  {
  }

  lemma ExitClean(x: Passed)
    ensures PassExit(x) == None <==> Clean(x)
  {
  }

  /** The body of its loop; down and up: the bytes read from either side */
  method OneRound(w: Wires, app: Port, buf: array<byte>, rounds: nat)
    returns (end: Option<Exit>, left: nat, down: nat, up: nat, ghost r: Round)
    requires buf.Length == BUFSZ && app != Net && rounds > 0
    modifies w`time, w`log, buf
    ensures w.log == old(w.log) + RoundLog(app, r) && RoundOk(r, app) && end == RoundExit(r)
    ensures rounds == left + RoundsOf(r) && left < rounds && (end == Some(OutOfRounds) ==> left == 0)
    ensures down == Size(r.down) && up == Size(r.up)
  {
    hide PassOk, PassLog, PassExit, Rounds, PassTook, IsRead;
    left, down, up, end := rounds - 1, 0, 0, Some(Code(2));
    var p := w.Poll();
    r := Round(p, None, None, []);
    if p.Ready? {
      end, left, down, up, r := BothSides(w, app, buf, p, left);
    } else if p.TimedOut? {
      ghost var report := Report(w, app, buf);
      r := r.(report := report);
    }
  }

  /** Each side that the poll reports */
  method BothSides(w: Wires, app: Port, buf: array<byte>, p: Polled, rounds: nat)
    returns (end: Option<Exit>, left: nat, down: nat, up: nat, ghost r: Round)
    requires buf.Length == BUFSZ && app != Net && p.Ready?
    modifies w`time, w`log, buf
    ensures w.log == old(w.log) + (Maybe(Net, app, r.down) + Maybe(app, Net, r.up)) && r.p == p && r.report == []
    ensures RoundOk(r, app) && end == RoundExit(r)
    ensures rounds + 1 == left + RoundsOf(r) && (end == Some(OutOfRounds) ==> left == 0)
    ensures down == Size(r.down) && up == Size(r.up)
  {
    hide PassOk, PassLog, PassExit, Rounds, PassTook, IsRead, Clean;
    left, down, up, end := rounds, 0, 0, None;
    r := Round(p, None, None, []);
    if p.first {
      ghost var x;
      end, left, down, x := Pass(w, Net, app, buf, left);
      ExitClean(x);
      r := r.(down := Some(x));
    }
    if p.second && end == None {
      ghost var x;
      end, left, up, x := Pass(w, app, Net, buf, left);
      r := r.(up := Some(x));
    }
  }

  function Size(x: Option<Passed>): nat {
    if x.Some? then |PassTook(x.value)| else 0
  }

  /** After a time-out each side is read once more; what it had is given to nobody. */
  method Report(w: Wires, app: Port, buf: array<byte>) returns (ghost report: seq<Event>)
    requires buf.Length == BUFSZ
    modifies w`time, w`log, buf
    ensures w.log == old(w.log) + report && |report| == 2 && IsRead(report[0], Net) && IsRead(report[1], app)
  {
    ghost var log0 := w.log;
    var n := w.Receive(Net, buf);
    ghost var log1 := w.log;
    n := w.Receive(app, buf);
    report := [log1[|log0|], w.log[|log1|]];
  }

  // Nothing is lost

  lemma MaybeKeeps(log: seq<Event>, src: Port, dst: Port, app: Port, x: Option<Passed>)
    requires Tight(log, app) && app != Net && ((src == Net && dst == app) || (src == app && dst == Net))
    requires x.Some? ==> PassOk(x.value)
    ensures Loose(log + Maybe(src, dst, x), app)
    ensures (x.Some? ==> Clean(x.value) || x.value.Over?) ==> Tight(log + Maybe(src, dst, x), app)
  {
    hide Loose, Tight, PassOk, PassLog, Carries;
    if x.Some? {
      PassCarries(src, dst, x.value);
      PieceKeeps(log, PassLog(src, dst, x.value), src, dst, app, PassTook(x.value), PassGave(x.value));
    } else {
      assert log + [] == log;
      TightIsLoose(log, app);
    }
  }

  lemma TightIsLoose(log: seq<Event>, app: Port)
    requires Tight(log, app)
    ensures Loose(log, app)
  {
  }

  lemma ReportKeeps(log: seq<Event>, app: Port, report: seq<Event>)
    requires Tight(log, app) && |report| == 2 && IsRead(report[0], Net) && IsRead(report[1], app) && app != Net
    ensures Loose(log + report, app)
  {
    hide Through;
    var l1 := log + [report[0]];
    assert log + report == l1 + [report[1]];
    forall took: bool, p: Port
      ensures Through(log + report, took, p)
           == Through(log, took, p) + Wiring.Part(report[0], took, p) + Wiring.Part(report[1], took, p)
    {
      Recorded(log, report[0], took, p);
      Recorded(l1, report[1], took, p);
    }
  }

  lemma RoundKeeps(app: Port, log: seq<Event>, r: Round)
    requires Tight(log, app) && RoundOk(r, app) && app != Net
    ensures Loose(log + RoundLog(app, r), app)
    ensures RoundExit(r) == None || RoundExit(r) == Some(Code(0)) ==> Tight(log + RoundLog(app, r), app)
  {
    hide Loose, Tight, PassOk, Maybe, IsRead;
    var l1 := log + [Asked(r.p)];
    var l2 := l1 + Maybe(Net, app, r.down);
    var l3 := l2 + Maybe(app, Net, r.up);
    QuietKeeps(log, Asked(r.p), app);
    MaybeKeeps(l1, Net, app, app, r.down);
    assert log + RoundLog(app, r) == l3 + r.report;
    if r.p.Ready? {
      assert l3 + [] == l3;
      if r.up.Some? || r.down == None || Clean(r.down.value) {
        MaybeKeeps(l2, app, Net, app, r.up);
      } else {
        NoneThere(l2, app, Net);
      }
    } else {
      NoneThere(l1, Net, app);
      NoneThere(l2, app, Net);
      TightIsLoose(l1, app);
      if r.p.TimedOut? {
        ReportKeeps(l1, app, r.report);
      } else {
        assert l3 + [] == l3;
      }
    }
  }

  lemma NoneThere(log: seq<Event>, src: Port, dst: Port)
    ensures log + Maybe(src, dst, None) == log
  {
  }

  lemma Before(app: Port, rs: seq<Round>, rounds: nat, end: Option<Exit>)
    requires Run(app, rs, rounds, end) && rs != []
    ensures var n := |rs| - 1;
      && Run(app, rs[..n], Used(rs[..n]), None) && RoundOk(rs[n], app) && RoundExit(rs[n]) == end
      && Logs(app, rs) == Logs(app, rs[..n]) + RoundLog(app, rs[n])
  {
    hide RoundOk, RoundExit, RoundLog, RoundsOf;
    var init := rs[..|rs| - 1];
    assert |init| > 0 ==> init[|init| - 1] == rs[|rs| - 2];
  }

  /** While the relay runs, and at a clean end, every byte taken on either side has been given
      to the other, in order; otherwise none is given that was not taken. */
  lemma {:induction false} Flow(app: Port, rs: seq<Round>, rounds: nat, end: Option<Exit>)
    requires Run(app, rs, rounds, end) && app != Net
    ensures Loose(Logs(app, rs), app)
    ensures end == None || end == Some(Code(0)) ==> Tight(Logs(app, rs), app)
    decreases |rs|
  {
    hide Loose, Tight, Run, RoundOk, RoundExit, RoundLog;
    if rs == [] {
      EmptyTight(app);
      TightIsLoose([], app);
    } else {
      var init := rs[..|rs| - 1];
      Before(app, rs, rounds, end);
      Flow(app, init, Used(init), None);
      RoundKeeps(app, Logs(app, init), rs[|rs| - 1]);
    }
  }

  lemma PassCount(log: seq<Event>, src: Port, dst: Port, x: Option<Passed>)
    requires src != dst && (x.Some? ==> PassOk(x.value) && (Clean(x.value) || x.value.Over?))
    ensures var all := log + Maybe(src, dst, x);
      |Given(all, dst)| == |Given(log, dst)| + Size(x) && Given(all, src) == Given(log, src)
  {
    hide Through, PassOk, PassLog;
    if x.Some? {
      var piece := PassLog(src, dst, x.value);
      PassCarries(src, dst, x.value);
      OneWay(piece, src, dst);
      ThroughConcat(log, piece, false, src);
      ThroughConcat(log, piece, false, dst);
    } else {
      assert log + [] == log;
    }
  }

  /** The counts are of bytes given. */
  lemma Counted(app: Port, log: seq<Event>, r: Round)
    requires RoundOk(r, app) && app != Net && (RoundExit(r) == None || RoundExit(r) == Some(Code(0)))
    ensures var all := log + RoundLog(app, r);
      |Given(all, app)| == |Given(log, app)| + Size(r.down) && |Given(all, Net)| == |Given(log, Net)| + Size(r.up)
  {
    hide Through, PassOk, Maybe, Size;
    var l1 := log + [Asked(r.p)];
    var l2 := l1 + Maybe(Net, app, r.down);
    Recorded(log, Asked(r.p), false, Net);
    Recorded(log, Asked(r.p), false, app);
    assert log + RoundLog(app, r) == l2 + Maybe(app, Net, r.up) by { assert r.report == []; }
    PassCount(l1, Net, app, r.down);
    PassCount(l2, app, Net, r.up);
  }

  // What is reported is sent on

  /** A round in which a side is reported and has something takes some of it. */
  lemma ReportedTaken(app: Port, r: Round, src: Port)
    requires RoundOk(r, app) && RoundExit(r) == None && app != Net && (src == Net || src == app)
    requires var x := if src == Net then r.down else r.up; x.Some? && !x.value.Idle?
    ensures Taken(RoundLog(app, r), src) != []
  {
    hide Through, Maybe, PassOk;
    var l1, down, up := [Asked(r.p)], Maybe(Net, app, r.down), Maybe(app, Net, r.up);
    assert RoundLog(app, r) == l1 + down + up by { assert r.report == [] && l1 + down + up + [] == l1 + down + up; }
    ThroughConcat(l1 + down, up, true, src);
    ThroughConcat(l1, down, true, src);
    if src == Net {
      MaybeTaken(Net, app, r.down);
    } else {
      MaybeTaken(app, Net, r.up);
    }
  }

  lemma MaybeTaken(src: Port, dst: Port, x: Option<Passed>)
    requires src != dst && x.Some? && PassOk(x.value) && PassExit(x.value) == None && !x.value.Idle?
    ensures Taken(Maybe(src, dst, x), src) != []
  {
    hide Through, PassLog;
    PassCarries(src, dst, x.value);
  }

  /** If one side has these bytes, and the polls report it and the reads find them, the other
      has them after as many rounds as there are bytes, unless an end or an error came
      first. */
  lemma {:induction false} SentOn(app: Port, rs: seq<Round>, rounds: nat, src: Port, data: seq<byte>)
    requires Run(app, rs, rounds, None) && app != Net && (src == Net || src == app) && |data| <= |rs|
    requires forall i :: 0 <= i < |rs| && |Taken(Logs(app, rs[..i]), src)| < |data| ==>
      var x := if src == Net then rs[i].down else rs[i].up; x.Some? && !x.value.Idle?
    requires Taken(Logs(app, rs), src) <= data || data <= Taken(Logs(app, rs), src)
    ensures data <= Given(Logs(app, rs), if src == Net then app else Net)
  {
    hide Through, Logs, RoundOk, RoundExit;
    InTime(app, rs, rounds, src, |data|);
    Flow(app, rs, rounds, None);
  }

  lemma {:induction false} InTime(app: Port, rs: seq<Round>, rounds: nat, src: Port, size: nat)
    requires Run(app, rs, rounds, None) && app != Net && (src == Net || src == app)
    requires forall i :: 0 <= i < |rs| && |Taken(Logs(app, rs[..i]), src)| < size ==>
      var x := if src == Net then rs[i].down else rs[i].up; x.Some? && !x.value.Idle?
    ensures |Taken(Logs(app, rs), src)| >= if |rs| < size then |rs| else size
    decreases |rs|
  {
    hide Through, Run, Logs, Used, RoundOk, RoundExit, RoundLog;
    if rs == [] {
    } else {
      var init, r := rs[..|rs| - 1], rs[|rs| - 1];
      Before(app, rs, rounds, None);
      assert forall i :: 0 <= i < |init| ==> init[..i] == rs[..i] && init[i] == rs[i];
      InTime(app, init, Used(init), src, size);
      ThroughConcat(Logs(app, init), RoundLog(app, r), true, src);
      if |Taken(Logs(app, init), src)| < size {
        ReportedTaken(app, r, src);
      }
    }
  }
}
