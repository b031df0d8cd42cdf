/** Reading one bounded 206 body (`readRangeBody` in src/frontend/js/services/offlineService.js). */
module RangeBody {
  newtype byte = x: int | 0 <= x < 256
  type Bytes = seq<byte>

  /** How one `reader.read()` settles; an empty `Data` is a read with no bytes. */
  datatype Read = Data(bytes: Bytes) | Done | Failed

  /**
   * One read with what the timers and the abort signal do around it.  A body is a
   * finite list of these: after the last one the overall deadline has passed.
   */
  datatype BodyEvent = BodyEvent(abortedBefore: bool, late: bool, read: Read, idleFires: bool, abortedAfter: bool)

  datatype BodyResult = Body(bytes: Bytes) | BodyAborted | BodyTimeout | BodyOffline | BodyInvalid

  function Finish(held: Bytes, expected: nat, idle: bool): BodyResult {
    if idle then BodyTimeout else if |held| < expected then BodyInvalid else Body(held)
  }

  /** The read that must confirm the end once the promised bytes have arrived. */
  function ConfirmEnd(events: seq<BodyEvent>, expected: nat, held: Bytes, idle: bool): BodyResult {
    if events == [] then BodyTimeout
    else
      match events[0].read
      case Failed => if events[0].abortedAfter then BodyAborted else BodyOffline
      case Data(_) => BodyInvalid
      case Done => Finish(held, expected, idle || events[0].idleFires)
  }

  function ReadOn(events: seq<BodyEvent>, expected: nat, held: Bytes, idle: bool): BodyResult {
    if events == [] then BodyTimeout
    else
      var e := events[0];
      if e.abortedBefore then BodyAborted
      else if idle || e.late then BodyTimeout
      else if e.abortedAfter then BodyAborted
      else
        match e.read
        case Failed => BodyOffline
        case Done => Finish(held, expected, idle || e.idleFires)
        case Data(bytes) =>
          if |held| + |bytes| > expected then BodyInvalid
          else if |held| + |bytes| == expected then ConfirmEnd(events[1..], expected, held + bytes, idle || e.idleFires)
          else ReadOn(events[1..], expected, held + bytes, idle || e.idleFires)
  }

  function ReadBody(events: seq<BodyEvent>, expected: nat): BodyResult {
    ReadOn(events, expected, [], false)
  }

  // ---------------------------------------------------------------------------
  // What a successful read means
  // ---------------------------------------------------------------------------

  /** The data of all reads, in order. */
  function AllData(events: seq<BodyEvent>): Bytes {
    if events == [] then []
    else (if events[0].read.Data? then events[0].read.bytes else []) + AllData(events[1..])
  }

  ghost predicate OnlyData(events: seq<BodyEvent>) {
    forall i :: 0 <= i < |events| ==> events[i].read.Data?
  }

  /** The first `n` reads bring exactly `expected` bytes, not sooner, and the next one is the end. */
  ghost predicate Delivers(events: seq<BodyEvent>, n: nat, expected: nat) {
    && 0 < n < |events|
    && OnlyData(events[..n]) && events[n].read == Done
    && |AllData(events[..n])| == expected
    && |AllData(events[..n - 1])| < expected
  }

  /** A read that no abort, deadline or idle timer gets in the way of. */
  predicate Calm(e: BodyEvent) {
    !e.abortedBefore && !e.late && !e.abortedAfter && !e.idleFires
  }

  /** A read in whose course the idle timer fires, and nothing else. */
  predicate IdleOnly(e: BodyEvent) {
    e.idleFires && Calm(e.(idleFires := false))
  }

  /** Nothing gets in the way of the first `n` reads, and no idle timer fires on the next one. */
  ghost predicate Untroubled(events: seq<BodyEvent>, n: nat) {
    n < |events| && (forall i :: 0 <= i < n ==> Calm(events[i])) && !events[n].idleFires
  }

  lemma DataOfHead(events: seq<BodyEvent>, n: nat)
    requires 0 < n <= |events| && events[0].read.Data?
    ensures AllData(events[..n]) == events[0].read.bytes + AllData(events[1..][..n - 1])
  {
    assert events[..n][1..] == events[1..][..n - 1];
  }

  /** `ReadOn` succeeds only on a prefix of data that fills the promise, then the end. */
  lemma {:induction false} ReadOnSound(events: seq<BodyEvent>, expected: nat, held: Bytes, idle: bool) returns (n: nat)
    requires |held| < expected && ReadOn(events, expected, held, idle).Body?
    ensures 0 < n < |events| && OnlyData(events[..n]) && events[n].read == Done && Untroubled(events, n) && !idle
    ensures |held| + |AllData(events[..n])| == expected && |held| + |AllData(events[..n - 1])| < expected
    ensures ReadOn(events, expected, held, idle).bytes == held + AllData(events[..n])
  {
    var bytes := events[0].read.bytes;
    if |held| + |bytes| == expected {
      n := 1;
      assert events[..1] == [events[0]];
      assert AllData(events[..1]) == bytes + AllData([]);
      assert AllData(events[..0]) == [];
      assert events[1..][0] == events[1];
    } else {
      var rest := events[1..];
      var m := ReadOnSound(rest, expected, held + bytes, idle || events[0].idleFires);
      n := m + 1;
      DataOfHead(events, n);
      DataOfHead(events, m);
      assert rest[..m] == events[1..n];
      forall i | 0 <= i < n ensures events[..n][i].read.Data? && Calm(events[i]) {
        if i > 0 { assert events[..n][i] == rest[..m][i - 1] == rest[i - 1]; }
      }
    }
  }

  lemma {:induction false} ReadOnComplete(events: seq<BodyEvent>, expected: nat, held: Bytes, n: nat)
    requires |held| < expected && Untroubled(events, n)
    requires 0 < n < |events| && OnlyData(events[..n]) && events[n].read == Done
    requires |held| + |AllData(events[..n])| == expected && |held| + |AllData(events[..n - 1])| < expected
    ensures ReadOn(events, expected, held, false).Body?
  {
    assert events[0] == events[..n][0];
    var bytes := events[0].read.bytes;
    DataOfHead(events, n);
    if n == 1 {
      assert events[1..][..0] == [];
    } else {
      DataOfHead(events, n - 1);
      assert |held| + |bytes| < expected;
      var rest := events[1..][..n - 1];
      forall i | 0 <= i < |rest| ensures rest[i].read.Data? {
        assert rest[i] == events[..n][i + 1];
      }
      ReadOnComplete(events[1..], expected, held + bytes, n - 1);
    }
  }

  /** Whatever disturbs the reading, a success is the promised bytes followed by the end. */
  lemma BodyIsDelivered(events: seq<BodyEvent>, expected: nat) returns (n: nat)
    requires 0 < expected && ReadBody(events, expected).Body?
    ensures Delivers(events, n, expected) && ReadBody(events, expected).bytes == AllData(events[..n])
    ensures Untroubled(events, n)
  {
    n := ReadOnSound(events, expected, [], false);
  }

  lemma DataBeforeEnd(events: seq<BodyEvent>, n: nat, expected: nat)
    requires Delivers(events, n, expected)
    ensures forall i :: 0 <= i < n ==> events[i].read != Done
  {
    forall i | 0 <= i < n ensures events[i].read != Done {
      assert events[..n][i] == events[i];
    }
  }

  /**
   * Reading succeeds with `bytes` exactly when they are what the reads bring before the end, they
   * are as many as promised, and neither an abort nor a timer gets in the way of those reads.
   */
  lemma BodySucceedsIff(events: seq<BodyEvent>, expected: nat, bytes: Bytes)
    requires 0 < expected
    ensures ReadBody(events, expected) == Body(bytes) <==>
      exists n: nat :: Delivers(events, n, expected) && Untroubled(events, n) && AllData(events[..n]) == bytes
  {
    if ReadBody(events, expected) == Body(bytes) {
      var n := BodyIsDelivered(events, expected);
    }
    forall n: nat | Delivers(events, n, expected) && Untroubled(events, n) && AllData(events[..n]) == bytes
      ensures ReadBody(events, expected) == Body(bytes)
    {
      ReadOnComplete(events, expected, [], n);
      var m := BodyIsDelivered(events, expected);
      DataBeforeEnd(events, n, expected);
      DataBeforeEnd(events, m, expected);
      assert m == n;
    }
  }

  /** The first `n` reads went well, and the promise is not filled yet. */
  ghost predicate Underway(events: seq<BodyEvent>, n: nat, expected: nat) {
    && n <= |events| && OnlyData(events[..n]) && |AllData(events[..n])| < expected
    && forall i :: 0 <= i < n ==> Calm(events[i])
  }

  lemma {:induction false} ReadsOn(events: seq<BodyEvent>, n: nat, expected: nat, held: Bytes)
    requires n <= |events| && OnlyData(events[..n]) && |held| + |AllData(events[..n])| < expected
    requires forall i :: 0 <= i < n ==> Calm(events[i])
    ensures ReadOn(events, expected, held, false) == ReadOn(events[n..], expected, held + AllData(events[..n]), false)
  {
    if n == 0 {
      assert events[0..] == events && held + [] == held && events[..0] == [];
    } else {
      assert events[0] == events[..n][0];
      var bytes, rest := events[0].read.bytes, events[1..];
      DataOfHead(events, n);
      var head := rest[..n - 1];
      forall i | 0 <= i < |head| ensures head[i].read.Data? {
        assert head[i] == events[..n][i + 1];
      }
      ReadsOn(rest, n - 1, expected, held + bytes);
      assert rest[n - 1..] == events[n..];
      assert (held + bytes) + AllData(rest[..n - 1]) == held + AllData(events[..n]);
    }
  }

  /**
   * The first thing that goes wrong decides how the reading fails: an abort, a deadline or idle
   * timer, a lost connection, an early end, or more bytes than were promised.
   */
  lemma FirstTroubleDecides(events: seq<BodyEvent>, n: nat, expected: nat)
    requires Underway(events, n, expected)
    ensures n == |events| ==> ReadBody(events, expected) == BodyTimeout
    ensures n < |events| ==>
      var e, r, held := events[n], ReadBody(events, expected), AllData(events[..n]);
      && (e.abortedBefore || (!e.late && e.abortedAfter) ==> r == BodyAborted)
      && (!e.abortedBefore && e.late ==> r == BodyTimeout)
      && (Calm(e) && e.read == Failed ==> r == BodyOffline)
      && (Calm(e) && e.read == Done ==> r == BodyInvalid)
      && (Calm(e) && e.read.Data? && |held| + |e.read.bytes| > expected ==> r == BodyInvalid)
      && (IdleOnly(e) && e.read == Done ==> r == BodyTimeout)
      && (IdleOnly(e) && e.read.Data? && |held| + |e.read.bytes| < expected ==>
            r == if n + 1 < |events| && events[n + 1].abortedBefore then BodyAborted else BodyTimeout)
  {
    ReadsOn(events, n, expected, []);
    assert [] + AllData(events[..n]) == AllData(events[..n]);
  }

  /** Once the promise is filled: the end confirms it, more bytes refute it, and a lost connection stays one. */
  lemma EndDecides(events: seq<BodyEvent>, n: nat, expected: nat)
    requires Underway(events, n, expected) && n < |events| && Calm(events[n]) && events[n].read.Data?
    requires |AllData(events[..n])| + |events[n].read.bytes| == expected
    ensures var r := ReadBody(events, expected);
      && (n + 1 == |events| ==> r == BodyTimeout)
      && (n + 1 < |events| ==>
            var e := events[n + 1];
            && (e.read.Data? ==> r == BodyInvalid)
            && (e.read == Failed ==> r == if e.abortedAfter then BodyAborted else BodyOffline)
            && (e.read == Done && e.idleFires ==> r == BodyTimeout))
  {
    ReadsOn(events, n, expected, []);
    assert [] + AllData(events[..n]) == AllData(events[..n]);
    assert events[n..][0] == events[n] && events[n..][1..] == events[n + 1..];
  }

  /** A successful body is the start of the data that was sent. */
  lemma {:induction false} DataPrefix(events: seq<BodyEvent>, n: nat)
    requires n <= |events|
    ensures AllData(events[..n]) <= AllData(events)
  {
    if n > 0 {
      DataPrefix(events[1..], n - 1);
      assert events[..n][1..] == events[1..][..n - 1];
    }
  }

  // ---------------------------------------------------------------------------
  // The loop
  // ---------------------------------------------------------------------------

  /** The reader as the source writes it; `peak` is the most it ever held. */
  method ReadRangeBody(events: seq<BodyEvent>, expected: nat) returns (r: BodyResult, ghost peak: nat)
    ensures r == ReadBody(events, expected)
    ensures peak <= expected
  {
    var chunks: Bytes := [];
    var counted := 0;
    var idleTimeout := false;
    var i := 0;
    peak := 0;
    assert events[0..] == events;
    while true
      invariant 0 <= i <= |events|
      invariant counted == |chunks| <= expected && peak <= expected
      invariant ReadOn(events[i..], expected, chunks, idleTimeout) == ReadBody(events, expected)
      decreases |events| - i
    {
      if i == |events| {
        return BodyTimeout, peak;
      }
      var e := events[i];
      assert events[i..][1..] == events[i + 1..];
      if e.abortedBefore {
        return BodyAborted, peak;
      }
      if idleTimeout {
        return BodyTimeout, peak;
      }
      if e.late {
        return BodyTimeout, peak;
      }
      i := i + 1;
      if e.abortedAfter {
        return BodyAborted, peak;
      }
      if e.read.Failed? {
        return BodyOffline, peak;
      }
      idleTimeout := idleTimeout || e.idleFires;
      if e.read.Done? {
        break;
      }
      counted := counted + |e.read.bytes|;
      if counted > expected {
        return BodyInvalid, peak;
      }
      chunks := chunks + e.read.bytes;
      peak := |chunks|;
      if counted == expected {
        if i == |events| {
          return BodyTimeout, peak;
        }
        var eof := events[i];
        if eof.read.Failed? {
          return if eof.abortedAfter then BodyAborted else BodyOffline, peak;
        }
        if !eof.read.Done? {
          return BodyInvalid, peak;
        }
        idleTimeout := idleTimeout || eof.idleFires;
        break;
      }
    }
    if idleTimeout {
      return BodyTimeout, peak;
    }
    if counted < expected {
      return BodyInvalid, peak;
    }
    return Body(chunks), peak;
  }
}
