/** The ends of a relay, the system calls on them, and a record of every call and its
    answer. */
module Wiring {
  import opened Bytes

  const BUFSZ: nat := 16384

  datatype Port = Net | Front | Pipe

  /** What a system call may answer. */
  datatype Polled = Ready(first: bool, second: bool, writable: bool) | TimedOut | PollFailed
  datatype Peeked = Waiting | Empty | Gone
  datatype Reading = Arrived(data: seq<byte>) | NothingYet | ReadFailed
  datatype Writing = Sent(n: nat) | Full | WriteFailed

  /** One call: a poll or a peek and its answer, bytes taken from a port, its end, nothing
      there yet or an error, bytes given to a port, a refusal, and whether the session
      came. */
  datatype Event =
    | Asked(p: Polled)
    | Looked(k: Peeked)
    | Took(port: Port, data: seq<byte>)
    | Ended(port: Port)
    | Dry(port: Port)
    | Torn(port: Port)
    | Gave(port: Port, data: seq<byte>)
    | Refused(port: Port, answer: Writing)
    | Opened
    | NotOpened

  /** The event's bytes that were taken from the port, or given to it. */
  function Part(e: Event, took: bool, p: Port): seq<byte> {
    match e
    case Took(port, data) => if took && port == p then data else []
    case Gave(port, data) => if !took && port == p then data else []
    case _ => []
  }

  function Through(log: seq<Event>, took: bool, p: Port): seq<byte> {
    if log == [] then [] else Through(log[..|log| - 1], took, p) + Part(log[|log| - 1], took, p)
  }

  function Taken(log: seq<Event>, p: Port): seq<byte> { Through(log, true, p) }

  function Given(log: seq<Event>, p: Port): seq<byte> { Through(log, false, p) }

  lemma Recorded(log: seq<Event>, e: Event, took: bool, p: Port)
    ensures Through(log + [e], took, p) == Through(log, took, p) + Part(e, took, p)
  {
    assert (log + [e])[..|log|] == log;
  }

  lemma OneEvent(e: Event, took: bool, p: Port)
    ensures Through([e], took, p) == Part(e, took, p) && Through([], took, p) == []
  {
    assert [] + [e] == [e];
    Recorded([], e, took, p);
  }

  lemma {:induction false} ThroughConcat(a: seq<Event>, b: seq<Event>, took: bool, p: Port)
    ensures Through(a + b, took, p) == Through(a, took, p) + Through(b, took, p)
    decreases |b|
  {
    hide Part;
    if b == [] {
      assert a + b == a;
    } else {
      var b', e := b[..|b| - 1], b[|b| - 1];
      ThroughConcat(a, b', took, p);
      assert (a + b)[..|a + b| - 1] == a + b';
    }
  }

  /** The operating system: its answers depend on the time in any way at all. */
  datatype System = System(
    poll: nat -> Polled,
    peek: nat -> Peeked,
    read: (nat, Port) -> Reading,
    write: (nat, Port) -> Writing,
    connects: bool)

  class Wires {
    const os: System
    var time: nat
    var log: seq<Event>

    constructor (os: System)
      ensures this.os == os && log == []
    {
      this.os, time, log := os, 0, [];
    }

    method Poll() returns (p: Polled)
      modifies this`time, this`log
      ensures time > old(time) && p == os.poll(old(time)) && log == old(log) + [Asked(p)]
    {
      p := os.poll(time);
      time, log := time + 1, log + [Asked(p)];
    }

    /** recv(): how many bytes were put into the buffer; 0 at the end of the stream, -1
        if there is nothing yet, -2 on an error. */
    method Receive(port: Port, buf: array<byte>) returns (n: int)
      requires buf.Length == BUFSZ
      modifies this`time, this`log, buf
      ensures time > old(time) && -2 <= n <= BUFSZ
      ensures n > 0 ==> log == old(log) + [Took(port, buf[..n])]
      ensures n == 0 ==> log == old(log) + [Ended(port)]
      ensures n == -1 ==> log == old(log) + [Dry(port)]
      ensures n == -2 ==> log == old(log) + [Torn(port)]
    {
      var answer := os.read(time, port);
      time := time + 1;
      match answer {
        case NothingYet =>
          n := -1;
          log := log + [Dry(port)];
        case ReadFailed =>
          n := -2;
          log := log + [Torn(port)];
        case Arrived(data) =>
          var some := if |data| > BUFSZ then data[..BUFSZ] else data;
          n := |some|;
          forall i | 0 <= i < n {
            buf[i] := some[i];
          }
          log := log + [if n == 0 then Ended(port) else Took(port, buf[..n])];
      }
    }

    /** send(): how many of the n bytes at off were taken; -1 if there is no room yet,
        -2 on an error. */
    method Send(port: Port, buf: array<byte>, off: nat, n: nat) returns (w: int)
      requires off + n <= buf.Length
      modifies this`time, this`log
      ensures time > old(time) && -2 <= w <= n
      ensures w > 0 ==> log == old(log) + [Gave(port, buf[off..off + w])]
      ensures w == 0 ==> log == old(log) + [Refused(port, Sent(0))]
      ensures w == -1 ==> log == old(log) + [Refused(port, Full)]
      ensures w == -2 ==> log == old(log) + [Refused(port, WriteFailed)]
    {
      var answer := os.write(time, port);
      time := time + 1;
      match answer {
        case Full => w := -1;
        case WriteFailed => w := -2;
        case Sent(k) => w := if k > n then n else k;
      }
      log := log + [if w > 0 then Gave(port, buf[off..off + w])
                    else Refused(port, if w == 0 then Sent(0) else if w == -1 then Full else WriteFailed)];
    }

    method Peek() returns (k: Peeked)
      modifies this`time, this`log
      ensures time > old(time) && k == os.peek(old(time)) && log == old(log) + [Looked(k)]
    {
      k := os.peek(time);
      time, log := time + 1, log + [Looked(k)];
    }

    /** Waiting for the session to connect to its pipe */
    method Connect() returns (ok: bool)
      modifies this`log
      ensures ok == os.connects && log == old(log) + [if ok then Opened else NotOpened]
    {
      ok := os.connects;
      log := log + [if ok then Opened else NotOpened];
    }
  }

  /** Bytes go between the client and this other side only. */
  predicate On(e: Event, app: Port) {
    !e.Opened? && !e.NotOpened? && (e.Asked? || e.Looked? || e.port == Net || e.port == app)
  }

  /** None is given that was not taken before, in order. */
  ghost predicate Loose(log: seq<Event>, app: Port) {
    && (forall e :: e in log ==> On(e, app))
    && Given(log, app) <= Taken(log, Net) && Given(log, Net) <= Taken(log, app)
  }

  /** Every byte taken has been given. */
  ghost predicate Tight(log: seq<Event>, app: Port) {
    Loose(log, app) && Given(log, app) == Taken(log, Net) && Given(log, Net) == Taken(log, app)
  }

  lemma EmptyTight(app: Port)
    ensures Tight([], app)
  {
  }

  /** What a piece of the record is about: bytes from one port to another */
  predicate Between(e: Event, src: Port, dst: Port) {
    || e.Asked? || e.Looked?
    || ((e.Took? || e.Ended? || e.Dry? || e.Torn?) && e.port == src)
    || ((e.Gave? || e.Refused?) && e.port == dst)
  }

  ghost predicate Carries(piece: seq<Event>, src: Port, dst: Port, took: seq<byte>, gave: seq<byte>) {
    (forall e :: e in piece ==> Between(e, src, dst)) && Taken(piece, src) == took && Given(piece, dst) == gave
  }

  lemma CarriesNothing(src: Port, dst: Port)
    ensures Carries([], src, dst, [], [])
  {
  }

  lemma CarriesMore(piece: seq<Event>, e: Event, src: Port, dst: Port, took: seq<byte>, gave: seq<byte>)
    requires Carries(piece, src, dst, took, gave) && Between(e, src, dst)
    ensures Carries(piece + [e], src, dst, took + Part(e, true, src), gave + Part(e, false, dst))
  {
    hide Through, Part;
    Recorded(piece, e, true, src);
    Recorded(piece, e, false, dst);
  }

  lemma {:induction false} OneWay(piece: seq<Event>, src: Port, dst: Port)
    requires (forall e :: e in piece ==> Between(e, src, dst)) && src != dst
    ensures Taken(piece, dst) == [] && Given(piece, src) == []
  {
    if piece != [] {
      var rest, e := piece[..|piece| - 1], piece[|piece| - 1];
      assert e in piece && forall x :: x in rest ==> x in piece;
      OneWay(rest, src, dst);
      assert piece == rest + [e];
      Recorded(rest, e, true, dst);
      Recorded(rest, e, false, src);
    }
  }

  /** One more piece, in either direction */
  lemma PieceKeeps(log: seq<Event>, piece: seq<Event>, src: Port, dst: Port, app: Port, took: seq<byte>,
                   gave: seq<byte>)
    requires Tight(log, app) && Carries(piece, src, dst, took, gave) && gave <= took && app != Net
    requires (src == Net && dst == app) || (src == app && dst == Net)
    ensures Loose(log + piece, app) && (gave == took ==> Tight(log + piece, app))
  {
    hide Through;
    OneWay(piece, src, dst);
    ThroughConcat(log, piece, true, Net);
    ThroughConcat(log, piece, true, app);
    ThroughConcat(log, piece, false, Net);
    ThroughConcat(log, piece, false, app);
    MoreOfSame(Given(log, dst), Taken(log, src), gave, took);
  }

  lemma MoreOfSame(x: seq<byte>, y: seq<byte>, dx: seq<byte>, dy: seq<byte>)
    requires x == y && dx <= dy
    ensures x + dx <= y + dy
  {
  }

  /** A poll or a peek moves nothing. */
  lemma QuietKeeps(log: seq<Event>, e: Event, app: Port)
    requires Tight(log, app) && (e.Asked? || e.Looked?)
    ensures Tight(log + [e], app)
  {
    hide Through;
    Recorded(log, e, true, Net);
    Recorded(log, e, true, app);
    Recorded(log, e, false, Net);
    Recorded(log, e, false, app);
  }

  /** The other side is not used. */
  lemma {:induction false} Unused(log: seq<Event>, app: Port, p: Port)
    requires (forall e :: e in log ==> On(e, app)) && p != Net && p != app
    ensures Taken(log, p) == [] && Given(log, p) == []
  {
    if log != [] {
      var rest, e := log[..|log| - 1], log[|log| - 1];
      assert e in log && forall x :: x in rest ==> x in log;
      Unused(rest, app, p);
      assert log == rest + [e];
      Recorded(rest, e, true, p);
      Recorded(rest, e, false, p);
    }
  }
}
