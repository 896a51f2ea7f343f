/** The session's echo: every byte that is read is written back, and at the end of the
    stream the bytes are counted. */
module Echoes {
  import opened Outcomes
  import opened Bytes
  import opened Wiring

  /** The bytes still to be written back, and whether the end has been seen */
  datatype State = State(pend: seq<byte>, eof: bool)

  datatype Put = Accepted(k: nat) | Blocked(answer: Writing) | PutFailed
  datatype Got = Data(data: seq<byte>) | Eof | NoData | GotFailed

  /** One round: the poll, the write where something is pending and can be written, and the
      read where nothing is left pending */
  datatype Round = Round(p: Polled, put: Option<Put>, got: Option<Got>)

  function AfterPut(s: State, r: Round): State {
    match r.put
    case Some(Accepted(k)) => if k <= |s.pend| then s.(pend := s.pend[k..]) else s
    case _ => s
  }

  predicate Over(s: State) {
    s.eof && s.pend == []
  }

  predicate RoundOk(s: State, r: Round) {
    && !Over(s)
    && (r.put.Some? <==> r.p.Ready? && r.p.writable && s.pend != [])
    && (r.put.Some? && r.put.value.Accepted? ==> 0 < r.put.value.k <= |s.pend|)
    && (r.put.Some? && r.put.value.Blocked? ==> !r.put.value.answer.WriteFailed?)
    && (r.got.Some? <==> r.p.Ready? && r.p.first && r.put != Some(PutFailed) && AfterPut(s, r).pend == [])
    && (r.got.Some? && r.got.value.Data? ==> 0 < |r.got.value.data| <= BUFSZ)
  }

  function AfterRound(s: State, r: Round): State {
    match r.got
    case Some(Data(data)) => AfterPut(s, r).(pend := data)
    case Some(Eof) => AfterPut(s, r).(eof := true)
    case _ => AfterPut(s, r)
  }

  /** A poll without an answer and a failing call end the echo. */
  predicate Fails(r: Round) {
    !r.p.Ready? || r.put == Some(PutFailed) || r.got == Some(GotFailed)
  }

  function PutLog(port: Port, s: State, r: Round): seq<Event> {
    match r.put
    case None => []
    case Some(Accepted(k)) => [Gave(port, if k <= |s.pend| then s.pend[..k] else [])]
    case Some(Blocked(answer)) => [Refused(port, answer)]
    case Some(PutFailed) => [Refused(port, WriteFailed)]
  }

  function GotLog(port: Port, r: Round): seq<Event> {
    match r.got
    case None => []
    case Some(Data(data)) => [Took(port, data)]
    case Some(Eof) => [Ended(port)]
    case Some(NoData) => [Dry(port)]
    case Some(GotFailed) => [Torn(port)]
  }

  function StateAfter(rs: seq<Round>): State {
    if rs == [] then State([], false) else AfterRound(StateAfter(rs[..|rs| - 1]), rs[|rs| - 1])
  }

  function Logs(port: Port, rs: seq<Round>): seq<Event> {
    if rs == [] then []
    else
      var init, r := rs[..|rs| - 1], rs[|rs| - 1];
      Logs(port, init) + ([Asked(r.p)] + PutLog(port, StateAfter(init), r) + GotLog(port, r))
  }

  /** The rounds so far, none but perhaps the last of which failed */
  predicate Going(rs: seq<Round>) {
    AllOk(rs) && forall i :: 0 <= i < |rs| - 1 ==> !Fails(rs[i])
  }

  predicate AllOk(rs: seq<Round>) {
    forall i :: 0 <= i < |rs| ==> RoundOk(StateAfter(rs[..i]), rs[i])
  }

  /** What is returned: the number of bytes at the end of the stream, -1 after a failure;
      None: still running after so many rounds */
  ghost predicate Run(port: Port, rs: seq<Round>, rounds: nat, count: Option<int>) {
    && Going(rs) && |rs| <= rounds
    && match count
       case None => |rs| == rounds && (rs != [] ==> !Fails(rs[|rs| - 1]))
       case Some(n) =>
         if n < 0 then n == -1 && rs != [] && Fails(rs[|rs| - 1])
         else Over(StateAfter(rs)) && (rs != [] ==> !Fails(rs[|rs| - 1])) && n == |Given(Logs(port, rs), port)|
  }

  lemma OneMore(port: Port, rs: seq<Round>, r: Round)
    ensures StateAfter(rs + [r]) == AfterRound(StateAfter(rs), r)
    ensures Logs(port, rs + [r])
         == Logs(port, rs) + ([Asked(r.p)] + PutLog(port, StateAfter(rs), r) + GotLog(port, r))
  {
    assert (rs + [r])[..|rs|] == rs;
  }

  lemma AllOkMore(rs: seq<Round>, r: Round)
    requires AllOk(rs) && RoundOk(StateAfter(rs), r)
    ensures AllOk(rs + [r])
  {
    hide RoundOk, StateAfter;
    var all := rs + [r];
    forall i | 0 <= i < |all| ensures RoundOk(StateAfter(all[..i]), all[i]) {
      if i < |rs| {
        assert all[..i] == rs[..i] && all[i] == rs[i];
      } else {
        assert all[..i] == rs && all[i] == r;
      }
    }
  }

  lemma GoingMore(rs: seq<Round>, r: Round)
    requires Going(rs) && (rs != [] ==> !Fails(rs[|rs| - 1])) && RoundOk(StateAfter(rs), r)
    ensures Going(rs + [r])
  {
    hide AllOk, RoundOk, Fails, StateAfter;
    AllOkMore(rs, r);
    var all := rs + [r];
    forall i | 0 <= i < |all| - 1 ensures !Fails(all[i]) {
      assert all[i] == rs[i];
    }
  }

  /** What has been read is what has been written back and what is still pending. */
  lemma {:induction false} NothingLost(port: Port, rs: seq<Round>)
    requires Going(rs)
    ensures Taken(Logs(port, rs), port) == Given(Logs(port, rs), port) + StateAfter(rs).pend
    ensures StateAfter(rs).eof ==> Ended(port) in Logs(port, rs)
  {
    hide Through;
    if rs == [] {
      OneEvent(Opened, true, port);
      OneEvent(Opened, false, port);
    } else {
      var init, r := rs[..|rs| - 1], rs[|rs| - 1];
      GoingLess(rs);
      NothingLost(port, init);
      RoundBytes(port, Logs(port, init), StateAfter(init), r);
    }
  }

  lemma GoingLess(rs: seq<Round>)
    requires Going(rs) && rs != []
    ensures Going(rs[..|rs| - 1]) && RoundOk(StateAfter(rs[..|rs| - 1]), rs[|rs| - 1])
    ensures rs[..|rs| - 1] != [] ==> !Fails(rs[|rs| - 2])
  {
    hide RoundOk, Fails, StateAfter;
    AllOkLess(rs);
  }

  lemma AllOkLess(rs: seq<Round>)
    requires AllOk(rs) && rs != []
    ensures AllOk(rs[..|rs| - 1]) && RoundOk(StateAfter(rs[..|rs| - 1]), rs[|rs| - 1])
  {
    hide RoundOk, StateAfter;
    var init := rs[..|rs| - 1];
    forall i | 0 <= i < |init| ensures RoundOk(StateAfter(init[..i]), init[i]) {
      assert init[..i] == rs[..i];
    }
  }

  lemma RoundBytes(port: Port, log: seq<Event>, s: State, r: Round)
    requires RoundOk(s, r) && Taken(log, port) == Given(log, port) + s.pend
    ensures var all := log + ([Asked(r.p)] + PutLog(port, s, r) + GotLog(port, r));
      && Taken(all, port) == Given(all, port) + AfterRound(s, r).pend
      && |Given(all, port)| == |Given(log, port)| + PutSize(r)
      && |Taken(all, port)| == |Taken(log, port)| + GotSize(r)
      && (AfterRound(s, r).eof && !s.eof ==> Ended(port) in all) && (forall e :: e in log ==> e in all)
  {
    hide Through;
    var l1 := log + [Asked(r.p)];
    var l2 := l1 + PutLog(port, s, r);
    forall took: bool ensures Through(l1, took, port) == Through(log, took, port) {
      Recorded(log, Asked(r.p), took, port);
    }
    PutBytes(port, l1, s, r);
    GotBytes(port, l2, AfterPut(s, r), r);
    assert log + ([Asked(r.p)] + PutLog(port, s, r) + GotLog(port, r)) == l2 + GotLog(port, r);
    if r.got == Some(Eof) {
      assert (l2 + [Ended(port)])[|l2|] == Ended(port);
    }
  }

  function PutSize(r: Round): nat {
    if r.put.Some? && r.put.value.Accepted? then r.put.value.k else 0
  }

  function GotSize(r: Round): nat {
    if r.got.Some? && r.got.value.Data? then |r.got.value.data| else 0
  }

  lemma PutBytes(port: Port, log: seq<Event>, s: State, r: Round)
    requires RoundOk(s, r) && Taken(log, port) == Given(log, port) + s.pend
    ensures var all := log + PutLog(port, s, r);
      && Taken(all, port) == Given(all, port) + AfterPut(s, r).pend && Taken(all, port) == Taken(log, port)
      && |Given(all, port)| == |Given(log, port)| + PutSize(r)
  {
    hide Through, RoundOk;
    if r.put.Some? {
      var e := PutLog(port, s, r)[0];
      assert PutLog(port, s, r) == [e];
      if r.put.value.Accepted? {
        AcceptedSize(s, r);
      }
      Recorded(log, e, true, port);
      Recorded(log, e, false, port);
      Split(Given(log, port), s.pend, PutSize(r));
    } else {
      assert log + [] == log;
    }
  }

  lemma AcceptedSize(s: State, r: Round)
    requires RoundOk(s, r) && r.put.Some? && r.put.value.Accepted?
    ensures 0 < r.put.value.k <= |s.pend|
  {
  }

  lemma Split(a: seq<byte>, b: seq<byte>, k: nat)
    requires k <= |b|
    ensures a + b == a + b[..k] + b[k..] && b[0..] == b && a + b[..0] == a
  {
  }

  lemma GotBytes(port: Port, log: seq<Event>, s: State, r: Round)
    requires Taken(log, port) == Given(log, port) + s.pend && (r.got.Some? ==> s.pend == [])
    ensures var all := log + GotLog(port, r);
      && Taken(all, port) == Given(all, port) + (if r.got.Some? && r.got.value.Data? then r.got.value.data else s.pend)
      && Given(all, port) == Given(log, port) && |Taken(all, port)| == |Taken(log, port)| + GotSize(r)
  {
    hide Through;
    if r.got.Some? {
      var e := GotLog(port, r)[0];
      assert GotLog(port, r) == [e];
      Recorded(log, e, true, port);
      Recorded(log, e, false, port);
    } else {
      assert log + [] == log;
    }
  }

  /** echo_until_eof() */
  method EchoUntilEof(w: Wires, port: Port, rounds: nat) returns (count: Option<int>, ghost rs: seq<Round>)
    requires w.log == []
    modifies w`time, w`log
    ensures w.log == Logs(port, rs) && Run(port, rs, rounds, count)
  {
    hide Logs, StateAfter, Going, RoundOk, PutLog, GotLog, AfterRound;
    var pend := new byte[BUFSZ](_ => 0);
    var plen, poff, sawEof, echoed := 0, 0, false, 0;
    rs := [];
    Nothing(port);
    var n := 0;
    while n < rounds
      invariant 0 <= n <= rounds && |rs| == n && 0 <= poff <= plen <= BUFSZ
      invariant w.log == Logs(port, rs) && Going(rs) && (rs != [] ==> !Fails(rs[|rs| - 1]))
      invariant StateAfter(rs) == State(pend[poff..plen], sawEof) && echoed == |Given(w.log, port)|
    {
      if sawEof && plen == poff {
        return Some(echoed), rs;
      }
      ghost var r: Round;
      var k, failed;
      failed, k, plen, poff, sawEof, r := OneRound(w, port, pend, plen, poff, sawEof);
      OneMore(port, rs, r);
      GoingMore(rs, r);
      NothingLost(port, rs);
      RoundBytes(port, Logs(port, rs), StateAfter(rs), r);
      rs := rs + [r];
      n := n + 1;
      echoed := echoed + k;
      if failed {
        return Some(-1), rs;
      }
    }
    return None, rs;
  }

  lemma Nothing(port: Port)
    ensures Logs(port, []) == [] && StateAfter([]) == State([], false) && Going([]) && Given([], port) == []
  {
  }

  /** The body of its loop, after the test for the end; k: the bytes written */
  method OneRound(w: Wires, port: Port, pend: array<byte>, plen: nat, poff: nat, sawEof: bool)
    returns (failed: bool, k: nat, plen': nat, poff': nat, sawEof': bool, ghost r: Round)
    requires pend.Length == BUFSZ && poff <= plen <= BUFSZ && !(sawEof && plen == poff)
    modifies w`time, w`log, pend
    ensures poff' <= plen' <= BUFSZ && k == PutSize(r) && (failed <==> Fails(r))
    ensures var s := State(old(pend[poff..plen]), sawEof);
      && RoundOk(s, r) && AfterRound(s, r) == State(pend[poff'..plen'], sawEof')
      && w.log == old(w.log) + ([Asked(r.p)] + PutLog(port, s, r) + GotLog(port, r))
  {
    hide RoundOk, AfterRound, PutLog, GotLog, AfterPut;
    ghost var s, log0 := State(pend[poff..plen], sawEof), w.log;
    failed, k, plen', poff', sawEof' := false, 0, plen, poff, sawEof;
    var p := w.Poll();
    ghost var put: Option<Put>, got: Option<Got> := None, None;
    if !p.Ready? {
      r := Round(p, None, None);
      NoRound(port, s, p);
      return true, k, plen', poff', sawEof', r;
    }
    if p.writable && plen > poff {
      ghost var q;
      failed, k, plen', poff', q := WritePart(w, port, pend, plen, poff);
      put := Some(q);
    }
    ghost var mid, log1 := pend[poff'..plen'], w.log;
    if !failed && p.first && plen' == poff' {
      ghost var g;
      failed, plen', poff', sawEof', g := ReadPart(w, port, pend, sawEof);
      got := Some(g);
    }
    r := Round(p, put, got);
    RoundMade(port, log0, log1, w.log, s, p, put, got, mid);
  }

  lemma NoRound(port: Port, s: State, p: Polled)
    requires !p.Ready? && !Over(s)
    ensures var r := Round(p, None, None);
      RoundOk(s, r) && AfterRound(s, r) == s && [Asked(p)] + PutLog(port, s, r) + GotLog(port, r) == [Asked(p)]
  {
  }

  lemma RoundMade(port: Port, log0: seq<Event>, log1: seq<Event>, log2: seq<Event>, s: State, p: Polled,
                  put: Option<Put>, got: Option<Got>, mid: seq<byte>)
    requires p.Ready? && !Over(s) && (put.Some? <==> p.writable && s.pend != [])
    requires put == None ==> mid == s.pend && log1 == log0 + [Asked(p)]
    requires put.Some? ==>
      var q := Round(Ready(false, false, true), put, None);
      && PutSize(q) <= |s.pend| && (put.value.Accepted? ==> 0 < put.value.k)
      && (put.value.Blocked? ==> !put.value.answer.WriteFailed?)
      && log1 == log0 + [Asked(p)] + PutLog(port, State(s.pend, false), q)
      && AfterPut(State(s.pend, false), q).pend == mid
    requires got.Some? <==> p.first && put != Some(PutFailed) && mid == []
    requires got == None ==> log2 == log1
    requires got.Some? ==>
      log2 == log1 + GotLog(port, Round(TimedOut, None, got)) && (got.value.Data? ==> 0 < |got.value.data| <= BUFSZ)
    ensures var r := Round(p, put, got);
      && RoundOk(s, r) && log2 == log0 + ([Asked(p)] + PutLog(port, s, r) + GotLog(port, r))
      && AfterRound(s, r) == State(if got.Some? && got.value.Data? then got.value.data else mid,
                                   s.eof || got == Some(Eof))
  {
    var r := Round(p, put, got);
    assert log1 == log0 + [Asked(p)] + PutLog(port, s, r);
    assert log2 == log1 + GotLog(port, r);
    assert AfterPut(s, r) == State(mid, s.eof);
  }

  method WritePart(w: Wires, port: Port, pend: array<byte>, plen: nat, poff: nat)
    returns (failed: bool, k: nat, plen': nat, poff': nat, ghost put: Put)
    requires pend.Length == BUFSZ && poff < plen <= BUFSZ
    modifies w`time, w`log
    ensures poff' <= plen' <= BUFSZ && (failed <==> put == PutFailed)
    ensures var s, r := State(pend[poff..plen], false), Round(Ready(false, false, true), Some(put), None);
      && k == PutSize(r) <= plen - poff && (put.Accepted? ==> 0 < put.k)
      && (put.Blocked? ==> !put.answer.WriteFailed?)
      && w.log == old(w.log) + PutLog(port, s, r) && AfterPut(s, r).pend == pend[poff'..plen']
  {
    ghost var left := pend[poff..plen];
    failed, k, plen', poff' := false, 0, plen, poff;
    var sent := w.Send(port, pend, poff, plen - poff);
    if sent == -2 {
      failed, put := true, PutFailed;
    } else if sent <= 0 {
      put := Blocked(if sent == 0 then Sent(0) else Full);
    } else {
      put := Accepted(sent);
      assert pend[poff..poff + sent] == left[..sent] && pend[poff + sent..plen] == left[sent..];
      k, poff' := sent, poff + sent;
      if poff' == plen' {
        plen', poff' := 0, 0;
      }
    }
  }

  method ReadPart(w: Wires, port: Port, pend: array<byte>, sawEof: bool)
    returns (failed: bool, plen': nat, poff': nat, sawEof': bool, ghost got: Got)
    requires pend.Length == BUFSZ
    modifies w`time, w`log, pend
    ensures poff' <= plen' <= BUFSZ && (failed <==> got == GotFailed)
    ensures sawEof' == (sawEof || got == Eof) && pend[poff'..plen'] == if got.Data? then got.data else []
    ensures got.Data? ==> 0 < |got.data| <= BUFSZ
    ensures w.log == old(w.log) + GotLog(port, Round(TimedOut, None, Some(got)))
  {
    failed, plen', poff', sawEof', got := false, 0, 0, sawEof, NoData;
    var n := w.Receive(port, pend);
    if n == 0 {
      sawEof', got := true, Eof;
    } else if n == -2 {
      failed, got := true, GotFailed;
    } else if n > 0 {
      plen', got := n, Data(pend[..n]);
    }
  }

  // The echo ends

  /** The client lets every byte through and sends these bytes and then its end. */
  ghost predicate Willing(port: Port, rs: seq<Round>, data: seq<byte>) {
    forall i :: 0 <= i < |rs| ==>
      var r, had := rs[i], Taken(Logs(port, rs[..i]), port);
      && r.p.Ready? && r.p.first && r.p.writable
      && (r.put.Some? ==> r.put.value.Accepted?)
      && (r.got.Some? ==>
          || (r.got.value.Data? && had + r.got.value.data <= data)
          || (r.got.value.Eof? && had == data))
  }

  /** What is left to do: to read, to write back, and to see the end */
  function ToDo(size: int, taken: nat, s: State): int {
    2 * (size - taken) + |s.pend| + if s.eof then 0 else 1
  }

  lemma {:induction false} Progress(port: Port, rs: seq<Round>, data: seq<byte>)
    requires Going(rs) && Willing(port, rs, data)
    ensures Taken(Logs(port, rs), port) <= data && NoneFails(rs)
    ensures ToDo(|data|, |Taken(Logs(port, rs), port)|, StateAfter(rs)) <= 2 * |data| + 1 - |rs|
    ensures StateAfter(rs).eof ==> Taken(Logs(port, rs), port) == data && StateAfter(rs).pend == []
  {
    hide Through, Logs, RoundOk, AfterRound, StateAfter, Willing, Fails, Going, PutLog, GotLog, NoneFails;
    if rs == [] {
      Nothing(port);
      OneEvent(Opened, true, port);
      NoRounds();
    } else {
      var init, r := rs[..|rs| - 1], rs[|rs| - 1];
      var s := StateAfter(init);
      GoingLess(rs);
      WillingLess(port, rs, data);
      Progress(port, init, data);
      NothingLost(port, init);
      OneMore(port, init, r);
      assert init + [r] == rs;
      RoundTakes(port, Logs(port, init), s, r);
      StepDone(s, r, |data|, |Taken(Logs(port, init), port)|);
      NoneMore(rs);
    }
  }

  predicate NoneFails(rs: seq<Round>) {
    forall i :: 0 <= i < |rs| ==> !Fails(rs[i])
  }

  lemma NoRounds()
    ensures NoneFails([]) && StateAfter([]) == State([], false)
  {
  }

  lemma NoneMore(rs: seq<Round>)
    requires rs != [] && NoneFails(rs[..|rs| - 1]) && !Fails(rs[|rs| - 1])
    ensures NoneFails(rs)
  {
    hide Fails;
    forall i | 0 <= i < |rs| ensures !Fails(rs[i]) {
      if i < |rs| - 1 {
        assert rs[..|rs| - 1][i] == rs[i];
      }
    }
  }

  /** A round in which nothing is refused leaves less to do. */
  lemma StepDone(s: State, r: Round, size: nat, taken: nat)
    requires RoundOk(s, r) && r.p.Ready? && r.p.first && r.p.writable && (s.eof ==> s.pend == [])
    requires r.put.Some? ==> r.put.value.Accepted?
    requires r.got.Some? ==> r.got.value.Data? || r.got.value.Eof?
    ensures !Fails(r) && ToDo(size, taken + GotSize(r), AfterRound(s, r)) < ToDo(size, taken, s)
    ensures AfterRound(s, r).eof ==> r.got == Some(Eof) && AfterRound(s, r).pend == []
  {
  }

  lemma WillingLess(port: Port, rs: seq<Round>, data: seq<byte>)
    requires Willing(port, rs, data) && rs != []
    ensures Willing(port, rs[..|rs| - 1], data)
    ensures var r, had := rs[|rs| - 1], Taken(Logs(port, rs[..|rs| - 1]), port);
      && r.p.Ready? && r.p.first && r.p.writable
      && (r.put.Some? ==> r.put.value.Accepted?)
      && (r.got.Some? ==>
          || (r.got.value.Data? && had + r.got.value.data <= data)
          || (r.got.value.Eof? && had == data))
  {
    hide Through, Logs;
    var init := rs[..|rs| - 1];
    forall i | 0 <= i < |init| ensures init[..i] == rs[..i] {
    }
  }

  lemma RoundTakes(port: Port, log: seq<Event>, s: State, r: Round)
    ensures var all := log + ([Asked(r.p)] + PutLog(port, s, r) + GotLog(port, r));
      Taken(all, port) == Taken(log, port) + if r.got.Some? && r.got.value.Data? then r.got.value.data else []
  {
    hide Through;
    var put, got := PutLog(port, s, r), GotLog(port, r);
    ThroughConcat(log, [Asked(r.p)] + put + got, true, port);
    ThroughConcat([Asked(r.p)] + put, got, true, port);
    ThroughConcat([Asked(r.p)], put, true, port);
    OneEvent(Asked(r.p), true, port);
    if r.put.Some? {
      OneEvent(put[0], true, port);
    }
    if r.got.Some? {
      OneEvent(got[0], true, port);
    }
  }

  /** With a client that lets every byte through, the echo ends within two rounds a byte and
      two more, and has sent back all of it. */
  lemma Echoed(port: Port, rs: seq<Round>, rounds: nat, count: Option<int>, data: seq<byte>)
    requires Run(port, rs, rounds, count) && Willing(port, rs, data) && rounds >= 2 * |data| + 2
    ensures count == Some(|data|) && Given(Logs(port, rs), port) == data
  {
    hide Through, Logs, StateAfter, AllOk;
    Progress(port, rs, data);
    NothingLost(port, rs);
  }
}
