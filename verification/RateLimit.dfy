/** The fixed-window rate limiter (src/middleware/rateLimit.ts). */
module RateLimit {
  import opened Common

  datatype Bucket = Bucket(count: int, resetAt: int)

  datatype Decision = Decision(allowed: bool, retryAfterSeconds: int)

  datatype Limits = Limits(windowMs: int, max: int)

  /** A request of `key`, or a sweep of expired buckets. */
  datatype Event = Call(key: string, now: int) | Sweep(now: int)

  // ---------------------------------------------------------------------------
  // One key that is never swept
  // ---------------------------------------------------------------------------

  function CeilSeconds(ms: int): int {
    (ms + 999) / 1000
  }

  function Decide(l: Limits, b: Option<Bucket>, now: int): Decision {
    if b.None? || now >= b.value.resetAt then Decision(true, 0)
    else if b.value.count >= l.max then
      var seconds := CeilSeconds(b.value.resetAt - now);
      Decision(false, if seconds > 1 then seconds else 1)
    else Decision(true, 0)
  }

  function NextBucket(l: Limits, b: Option<Bucket>, now: int): Bucket {
    if b.None? || now >= b.value.resetAt then Bucket(1, now + l.windowMs)
    else if b.value.count >= l.max then b.value
    else Bucket(b.value.count + 1, b.value.resetAt)
  }

  /** The bucket of `key` after a run, as if nothing were ever swept. */
  function BucketAfter(l: Limits, es: seq<Event>, key: string): Option<Bucket> {
    if es == [] then None
    else
      var before, e := BucketAfter(l, es[..|es| - 1], key), es[|es| - 1];
      if e.Call? && e.key == key then Some(NextBucket(l, before, e.now)) else before
  }

  ghost predicate ClockRuns(es: seq<Event>) {
    forall i, j :: 0 <= i < j < |es| ==> es[i].now <= es[j].now
  }

  predicate OnTime(es: seq<Event>, now: int) {
    es == [] || es[|es| - 1].now <= now
  }

  /** Times at which calls of `key` were allowed. */
  function AllowedTimes(l: Limits, es: seq<Event>, key: string): seq<int> {
    if es == [] then []
    else
      var before, e := AllowedTimes(l, es[..|es| - 1], key), es[|es| - 1];
      if e.Call? && e.key == key && Decide(l, BucketAfter(l, es[..|es| - 1], key), e.now).allowed
      then before + [e.now] else before
  }

  /** How many of `times` lie in `[from, to)`. */
  function Count(times: seq<int>, from: int, to: int): (n: nat)
    ensures n <= |times|
  {
    if times == [] then 0
    else Count(times[..|times| - 1], from, to) + if from <= times[|times| - 1] < to then 1 else 0
  }

  /** The calls of `key` alone. */
  function CallsOf(es: seq<Event>, key: string): seq<Event> {
    if es == [] then []
    else
      var e := es[|es| - 1];
      if e.Call? && e.key == key then CallsOf(es[..|es| - 1], key) + [e] else CallsOf(es[..|es| - 1], key)
  }

  /** Sweeps and other keys leave no mark: the bucket that decides is that of the key's own calls. */
  lemma {:induction false} OwnCallsDecide(l: Limits, es: seq<Event>, key: string)
    ensures BucketAfter(l, es, key) == BucketAfter(l, CallsOf(es, key), key)
  {
    if es != [] {
      var before, e := es[..|es| - 1], es[|es| - 1];
      OwnCallsDecide(l, before, key);
      var calls := CallsOf(before, key);
      assert (calls + [e])[..|calls|] == calls;
    }
  }

  // ---------------------------------------------------------------------------
  // The bound
  // ---------------------------------------------------------------------------

  lemma CountNext(times: seq<int>, t: int, from: int, to: int)
    ensures Count(times + [t], from, to) == Count(times, from, to) + if from <= t < to then 1 else 0
  {
    assert (times + [t])[..|times|] == times;
  }

  lemma {:induction false} CountSplit(times: seq<int>, from: int, mid: int, to: int)
    requires from <= mid <= to
    ensures Count(times, from, to) == Count(times, from, mid) + Count(times, mid, to)
  {
    if times != [] {
      CountSplit(times[..|times| - 1], from, mid, to);
    }
  }

  lemma {:induction false} CountNarrows(times: seq<int>, from: int, to: int, from1: int, to1: int)
    requires from <= from1 && to1 <= to
    ensures Count(times, from1, to1) <= Count(times, from, to)
  {
    if times != [] {
      CountNarrows(times[..|times| - 1], from, to, from1, to1);
    }
  }

  /** A window of any limiter lets at least one call through. */
  function Capacity(l: Limits): int {
    if l.max < 1 then 1 else l.max
  }

  /**
   * Where the calls allowed so far lie around the current bucket, which began at `s`: it holds
   * exactly the calls from `s` on, the first of them at `s`, and fewer than the capacity were
   * allowed in the window's length before `s`.
   */
  ghost predicate Shape(l: Limits, b: Bucket, times: seq<int>) {
    var s, end := b.resetAt - l.windowMs, b.resetAt;
    && 1 <= b.count <= Capacity(l)
    && Count(times, s, end) == b.count && Count(times, s, s + 1) >= 1
    && (forall i :: 0 <= i < |times| ==> times[i] < end)
    && (forall a :: s - l.windowMs < a <= s ==> Count(times, a, s) < Capacity(l))
  }

  /** Calls allowed in the interval of the window's length that begins at `from`. */
  function InWindow(l: Limits, times: seq<int>, from: int): nat {
    Count(times, from, from + l.windowMs)
  }

  ghost predicate Bounded(l: Limits, times: seq<int>) {
    forall from :: InWindow(l, times, from) < 2 * Capacity(l)
  }

  lemma {:induction false} NothingLate(times: seq<int>, from: int, to: int)
    requires forall i :: 0 <= i < |times| ==> times[i] < from
    ensures Count(times, from, to) == 0
  {
    if times != [] {
      NothingLate(times[..|times| - 1], from, to);
    }
  }

  /** The call that opens a new bucket. */
  lemma OpensBucket(l: Limits, b: Bucket, times: seq<int>, now: int)
    requires l.windowMs > 0 && Shape(l, b, times) && Bounded(l, times) && now >= b.resetAt
    ensures Shape(l, Bucket(1, now + l.windowMs), times + [now]) && Bounded(l, times + [now])
  {
    var s, end := b.resetAt - l.windowMs, b.resetAt;
    forall a, to: int | s < a ensures Count(times, a, to) < Capacity(l) {
      NothingLate(times, end, to);
      if a <= end <= to {
        CountSplit(times, a, end, to);
        LaterThanStart(l, b, times, a, end);
      } else if end < a {
        NothingLate(times, a, to);
      } else {
        CountNarrows(times, a, end, a, to);
        LaterThanStart(l, b, times, a, end);
      }
    }
    forall a ensures InWindow(l, times + [now], a) < 2 * Capacity(l) {
      assert InWindow(l, times, a) < 2 * Capacity(l);
      CountNext(times, now, a, a + l.windowMs);
    }
    forall a | now - l.windowMs < a <= now ensures Count(times + [now], a, now) < Capacity(l) {
      CountNext(times, now, a, now);
    }
    NothingLate(times, now, now + l.windowMs);
    NothingLate(times, now, now + 1);
    CountNext(times, now, now, now + l.windowMs);
    CountNext(times, now, now, now + 1);
  }

  lemma LaterThanStart(l: Limits, b: Bucket, times: seq<int>, a: int, to: int)
    requires l.windowMs > 0 && Shape(l, b, times) && b.resetAt - l.windowMs < a && to == b.resetAt
    ensures Count(times, a, to) < Capacity(l)
  {
    var s := b.resetAt - l.windowMs;
    CountSplit(times, s, s + 1, to);
    CountNarrows(times, s + 1, to, a, to);
  }

  /** A call allowed in the current bucket. */
  lemma FillsBucket(l: Limits, b: Bucket, times: seq<int>, now: int)
    requires l.windowMs > 0 && Shape(l, b, times) && Bounded(l, times)
    requires b.resetAt - l.windowMs <= now < b.resetAt && b.count < l.max
    ensures Shape(l, Bucket(b.count + 1, b.resetAt), times + [now]) && Bounded(l, times + [now])
  {
    var s, end := b.resetAt - l.windowMs, b.resetAt;
    CountNext(times, now, s, end);
    CountNext(times, now, s, s + 1);
    forall a | s - l.windowMs < a <= s ensures Count(times + [now], a, s) < Capacity(l) {
      CountNext(times, now, a, s);
    }
    forall a ensures InWindow(l, times + [now], a) < 2 * Capacity(l) {
      assert InWindow(l, times, a) < 2 * Capacity(l);
      var to := a + l.windowMs;
      CountNext(times, now, a, to);
      if a <= now < to {
        NothingLate(times, end, to);
        if a <= s {
          CountSplit(times, a, s, to);
          CountNarrows(times, s, end, s, to);
        } else {
          CountSplit(times, a, end, to);
          LaterThanStart(l, b, times, a, end);
        }
      }
    }
  }

  /** The invariant of one key's run, whose latest event is no later than `last`. */
  ghost predicate KeyInv(l: Limits, b: Option<Bucket>, times: seq<int>, last: int) {
    && Bounded(l, times)
    && (b.None? ==> times == [])
    && (b.Some? ==> Shape(l, b.value, times) && b.value.resetAt - l.windowMs <= last)
  }

  lemma CallKeepsInv(l: Limits, b: Option<Bucket>, times: seq<int>, last: int, now: int)
    requires l.windowMs > 0 && KeyInv(l, b, times, last) && last <= now
    ensures KeyInv(l, Some(NextBucket(l, b, now)), if Decide(l, b, now).allowed then times + [now] else times, now)
  {
    if b.None? {
      FirstCall(l, now);
    } else if now >= b.value.resetAt {
      OpensBucket(l, b.value, times, now);
    } else if b.value.count < l.max {
      FillsBucket(l, b.value, times, now);
    }
  }

  lemma NothingAllowedYet(l: Limits, last: int)
    ensures KeyInv(l, None, [], last)
  {
    forall from ensures InWindow(l, [], from) < 2 * Capacity(l) {
    }
  }

  lemma {:induction false} KeyInvHolds(l: Limits, es: seq<Event>, key: string, last: int)
    requires l.windowMs > 0 && ClockRuns(es) && (es != [] ==> es[|es| - 1].now <= last)
    ensures KeyInv(l, BucketAfter(l, es, key), AllowedTimes(l, es, key), last)
  {
    if es == [] {
      NothingAllowedYet(l, last);
    } else {
      var before, e := es[..|es| - 1], es[|es| - 1];
      var b, times := BucketAfter(l, before, key), AllowedTimes(l, before, key);
      KeyInvHolds(l, before, key, e.now);
      if e.Call? && e.key == key {
        var times1 := if Decide(l, b, e.now).allowed then times + [e.now] else times;
        CallKeepsInv(l, b, times, e.now, e.now);
        LaterInv(l, Some(NextBucket(l, b, e.now)), times1, e.now, last);
      } else {
        LaterInv(l, b, times, e.now, last);
      }
    }
  }

  lemma LaterInv(l: Limits, b: Option<Bucket>, times: seq<int>, last: int, later: int)
    requires KeyInv(l, b, times, last) && last <= later
    ensures KeyInv(l, b, times, later)
  {
  }

  lemma FirstCall(l: Limits, now: int)
    requires l.windowMs > 0
    ensures Shape(l, Bucket(1, now + l.windowMs), [] + [now]) && Bounded(l, [] + [now])
  {
    var times: seq<int> := [];
    var s := now;
    CountNext(times, now, s, now + l.windowMs);
    CountNext(times, now, s, s + 1);
    forall a | s - l.windowMs < a <= s ensures Count(times + [now], a, s) < Capacity(l) {
      CountNext(times, now, a, s);
    }
    forall a ensures InWindow(l, times + [now], a) < 2 * Capacity(l) {
      CountNext(times, now, a, a + l.windowMs);
    }
  }

  /**
   * Whatever the calls and sweeps, any half-open interval of the window's length holds fewer
   * than 2 * max allowed calls of a key (fewer than 2 when max is below 1).
   */
  lemma RateBound(l: Limits, es: seq<Event>, key: string, from: int)
    requires ClockRuns(es)
    ensures InWindow(l, AllowedTimes(l, es, key), from) < 2 * Capacity(l)
  {
    if l.windowMs > 0 {
      KeyInvHolds(l, es, key, if es == [] then 0 else es[|es| - 1].now);
    } else {
      EmptyInterval(AllowedTimes(l, es, key), from, from + l.windowMs);
    }
  }

  lemma {:induction false} EmptyInterval(times: seq<int>, from: int, to: int)
    requires to <= from
    ensures Count(times, from, to) == 0
  {
    if times != [] {
      EmptyInterval(times[..|times| - 1], from, to);
    }
  }

  // ---------------------------------------------------------------------------
  // The bound is reached
  // ---------------------------------------------------------------------------

  /** `n` more calls of `key`, all at `now`. */
  function Burst(es: seq<Event>, key: string, now: int, n: nat): seq<Event> {
    if n == 0 then es else Burst(es, key, now, n - 1) + [Call(key, now)]
  }

  lemma RunNext(l: Limits, es: seq<Event>, key: string, now: int)
    ensures BucketAfter(l, es + [Call(key, now)], key) == Some(NextBucket(l, BucketAfter(l, es, key), now))
    ensures AllowedTimes(l, es + [Call(key, now)], key) ==
      if Decide(l, BucketAfter(l, es, key), now).allowed
      then AllowedTimes(l, es, key) + [now] else AllowedTimes(l, es, key)
  {
    assert (es + [Call(key, now)])[..|es|] == es;
  }

  /** The bucket of `key` after a run, and how many of its allowed calls lie in `[from, to)`. */
  ghost predicate At(l: Limits, es: seq<Event>, key: string, b: Bucket, from: int, to: int, n: int) {
    BucketAfter(l, es, key) == Some(b) && Count(AllowedTimes(l, es, key), from, to) == n
  }

  lemma OneMore(l: Limits, es: seq<Event>, key: string, now: int, b: Bucket, from: int, to: int, n: int)
    requires At(l, es, key, b, from, to, n) && now < b.resetAt && b.count < l.max
    ensures At(l, es + [Call(key, now)], key, Bucket(b.count + 1, b.resetAt), from, to,
               n + if from <= now < to then 1 else 0)
  {
    RunNext(l, es, key, now);
    CountNext(AllowedTimes(l, es, key), now, from, to);
  }

  /** `more` calls at once fit a bucket with room for them. */
  lemma {:induction false} BurstFits(l: Limits, es: seq<Event>, key: string, now: int, more: nat, b: Bucket,
                                     from: int, to: int, n: int)
    requires At(l, es, key, b, from, to, n) && now < b.resetAt && b.count + more <= l.max
    ensures At(l, Burst(es, key, now, more), key, Bucket(b.count + more, b.resetAt), from, to,
               n + if from <= now < to then more else 0)
    decreases more
  {
    if more > 0 {
      BurstFits(l, es, key, now, more - 1, b, from, to, n);
      OneMore(l, Burst(es, key, now, more - 1), key, now, Bucket(b.count + more - 1, b.resetAt), from, to,
              n + if from <= now < to then more - 1 else 0);
    }
  }

  /** One call opens a bucket at `start`, and `more` at `late` fit it. */
  function Fill(es: seq<Event>, key: string, start: int, late: int, more: nat): seq<Event> {
    Burst(es + [Call(key, start)], key, late, more)
  }

  lemma OpensAndFills(l: Limits, es: seq<Event>, key: string, start: int, late: int, more: nat, from: int, to: int)
    requires BucketAfter(l, es, key).None? || BucketAfter(l, es, key).value.resetAt <= start
    requires late < start + l.windowMs && more < l.max
    ensures At(l, Fill(es, key, start, late, more), key, Bucket(1 + more, start + l.windowMs), from, to,
               Count(AllowedTimes(l, es, key), from, to) +
               (if from <= start < to then 1 else 0) + (if from <= late < to then more else 0))
  {
    var b := Bucket(1, start + l.windowMs);
    var n := Count(AllowedTimes(l, es, key), from, to) + if from <= start < to then 1 else 0;
    assert At(l, es + [Call(key, start)], key, b, from, to, n) by {
      RunNext(l, es, key, start);
      CountNext(AllowedTimes(l, es, key), start, from, to);
    }
    BurstFits(l, es + [Call(key, start)], key, late, more, b, from, to, n);
  }

  lemma {:induction false} BurstOrdered(es: seq<Event>, key: string, now: int, n: nat)
    requires ClockRuns(es) && OnTime(es, now)
    ensures ClockRuns(Burst(es, key, now, n)) && OnTime(Burst(es, key, now, n), now)
  {
    if n > 0 {
      BurstOrdered(es, key, now, n - 1);
    }
  }

  /** One call, then the rest of the window's budget as it ends, then a whole budget as the next begins. */
  function TightRun(l: Limits, key: string): seq<Event>
    requires l.max >= 1
  {
    Fill(Fill([], key, 0, l.windowMs - 1, l.max - 1), key, l.windowMs, l.windowMs, l.max - 1)
  }

  lemma TightRunOrdered(l: Limits, key: string)
    requires l.max >= 1 && l.windowMs >= 1
    ensures ClockRuns(TightRun(l, key))
  {
    BurstOrdered([] + [Call(key, 0)], key, l.windowMs - 1, l.max - 1);
    var es := Fill([], key, 0, l.windowMs - 1, l.max - 1);
    BurstOrdered(es + [Call(key, l.windowMs)], key, l.windowMs, l.max - 1);
  }

  /** A key that waits until its window is nearly over gets 2 * max - 1 calls through within one window's length. */
  lemma BoundIsTight(l: Limits, key: string)
    requires l.max >= 1 && l.windowMs >= 2
    ensures ClockRuns(TightRun(l, key))
    ensures InWindow(l, AllowedTimes(l, TightRun(l, key), key), 1) == 2 * l.max - 1
  {
    var w, n := l.windowMs, l.max - 1;
    TightRunOrdered(l, key);
    OpensAndFills(l, [], key, 0, w - 1, n, 1, 1 + w);
    OpensAndFills(l, Fill([], key, 0, w - 1, n), key, w, w, n, 1, 1 + w);
  }

  // ---------------------------------------------------------------------------
  // Which calls are allowed
  // ---------------------------------------------------------------------------

  /** When the latest window opened: at the first allowed call that came after the one before had run out. */
  function Opening(windowMs: int, times: seq<int>): int
    requires times != []
  {
    var last := times[|times| - 1];
    if |times| == 1 then last
    else
      var before := Opening(windowMs, times[..|times| - 1]);
      if last >= before + windowMs then last else before
  }

  lemma {:induction false} BucketOpensAt(l: Limits, es: seq<Event>, key: string)
    ensures var b, times := BucketAfter(l, es, key), AllowedTimes(l, es, key);
      && (b.None? <==> times == [])
      && (b.Some? ==> b.value.resetAt == Opening(l.windowMs, times) + l.windowMs)
  {
    if es != [] {
      var before := es[..|es| - 1];
      BucketOpensAt(l, before, key);
      var times := AllowedTimes(l, before, key);
      assert (times + [es[|es| - 1].now])[..|times|] == times;
    }
  }

  /**
   * A call is allowed exactly when no call has been yet, or the latest window has run out, or
   * fewer than `max` calls have been allowed in it.
   */
  lemma AllowedIff(l: Limits, es: seq<Event>, key: string, now: int)
    requires l.windowMs > 0 && ClockRuns(es) && OnTime(es, now)
    ensures var times := AllowedTimes(l, es, key);
      Decide(l, BucketAfter(l, es, key), now).allowed <==>
        || times == []
        || now >= Opening(l.windowMs, times) + l.windowMs
        || InWindow(l, times, Opening(l.windowMs, times)) < l.max
  {
    BucketOpensAt(l, es, key);
    KeyInvHolds(l, es, key, now);
  }

  // ---------------------------------------------------------------------------
  // Retry-After
  // ---------------------------------------------------------------------------

  /** A refusal names the least whole number of seconds after which the key, left alone, is allowed. */
  lemma RetryAfterIsLeast(l: Limits, b: Option<Bucket>, now: int)
    requires !Decide(l, b, now).allowed
    ensures var seconds := Decide(l, b, now).retryAfterSeconds;
      && seconds >= 1
      && Decide(l, b, now + 1000 * seconds).allowed
      && forall fewer :: 0 <= fewer < seconds ==> !Decide(l, b, now + 1000 * fewer).allowed
    ensures NextBucket(l, b, now) == b.value
  {
  }

  // ---------------------------------------------------------------------------
  // The limiter
  // ---------------------------------------------------------------------------

  // What is kept is enough: an entry that is missing belongs to an expired bucket.

  /** What is kept for `key` is its unswept bucket, or that one has expired. */
  predicate Kept(l: Limits, buckets: map<string, Bucket>, es: seq<Event>, key: string) {
    var full := BucketAfter(l, es, key);
    if key in buckets then full == Some(buckets[key])
    else full.None? || (es != [] && full.value.resetAt <= es[|es| - 1].now)
  }

  ghost predicate AllKept(l: Limits, buckets: map<string, Bucket>, es: seq<Event>) {
    ClockRuns(es) && forall key :: Kept(l, buckets, es, key)
  }

  lemma CallKeeps(l: Limits, buckets: map<string, Bucket>, es: seq<Event>, key: string, now: int)
    requires AllKept(l, buckets, es) && OnTime(es, now)
    ensures AllKept(l, buckets[key := NextBucket(l, BucketAfter(l, es, key), now)], es + [Call(key, now)])
  {
    var next, es1 := buckets[key := NextBucket(l, BucketAfter(l, es, key), now)], es + [Call(key, now)];
    assert es1[..|es|] == es;
    forall other ensures Kept(l, next, es1, other) {
      assert Kept(l, buckets, es, other);
    }
  }

  lemma SweepKeeps(l: Limits, buckets: map<string, Bucket>, es: seq<Event>, now: int)
    requires AllKept(l, buckets, es) && OnTime(es, now)
    ensures AllKept(l, buckets, es + [Sweep(now)])
  {
    var es1 := es + [Sweep(now)];
    assert es1[..|es|] == es;
    forall key ensures Kept(l, buckets, es1, key) {
      assert Kept(l, buckets, es, key);
    }
  }

  lemma DropKeeps(l: Limits, buckets: map<string, Bucket>, es: seq<Event>, key: string)
    requires AllKept(l, buckets, es) && es != []
    requires key in buckets && buckets[key].resetAt <= es[|es| - 1].now
    ensures AllKept(l, buckets - {key}, es)
  {
    forall other ensures Kept(l, buckets - {key}, es, other) {
      assert Kept(l, buckets, es, other);
    }
  }

  const SWEEP_SIZE := 2000
  const SWEEP_INTERVAL_MS := 30000

  class RateLimiter {
    const limits: Limits
    var buckets: map<string, Bucket>
    var lastSweep: int
    ghost var events: seq<Event>

    ghost predicate Valid()
      reads this
    {
      AllKept(limits, buckets, events)
    }

    constructor (limits: Limits)
      ensures Valid() && events == [] && this.limits == limits
    {
      this.limits := limits;
      buckets, lastSweep, events := map[], 0, [];
    }

    /** However it has been swept, the limiter decides as if it never were. */
    method Allow(key: string, now: int) returns (d: Decision)
      requires Valid() && OnTime(events, now)
      modifies this
      ensures Valid() && events == old(events) + [Call(key, now)]
      ensures d == Decide(limits, BucketAfter(limits, old(events), key), now)
    {
      ghost var full := BucketAfter(limits, events, key);
      ghost var es := events + [Call(key, now)];
      CallKeeps(limits, buckets, events, key, now);
      assert Kept(limits, buckets, events, key);
      if key !in buckets || now >= buckets[key].resetAt {
        buckets := buckets[key := Bucket(1, now + limits.windowMs)];
        events := es;
        MaybeSweep(now);
        return Decision(true, 0);
      }
      var bucket := buckets[key];
      if bucket.count >= limits.max {
        var seconds := CeilSeconds(bucket.resetAt - now);
        assert buckets[key := bucket] == buckets;
        events := es;
        return Decision(false, if seconds > 1 then seconds else 1);
      }
      buckets := buckets[key := bucket.(count := bucket.count + 1)];
      events := es;
      return Decision(true, 0);
    }

    /** Drops expired buckets. */
    method DropExpired(now: int)
      requires Valid() && events != [] && now == events[|events| - 1].now
      modifies this`buckets
      ensures Valid()
      ensures forall key :: key in buckets <==> key in old(buckets) && now < old(buckets)[key].resetAt
    {
      var all := buckets;
      var keys := all.Keys;
      while keys != {}
        invariant Valid()
        invariant forall key :: key in buckets <==> key in all && (key in keys || now < all[key].resetAt)
        invariant forall key :: key in buckets ==> buckets[key] == all[key]
        decreases |keys|
      {
        var key :| key in keys;
        keys := keys - {key};
        if key in buckets && now >= buckets[key].resetAt {
          DropKeeps(limits, buckets, events, key);
          buckets := buckets - {key};
        }
      }
    }

    /** The timer's sweep. */
    method SweepNow(now: int)
      requires Valid() && OnTime(events, now)
      modifies this
      ensures Valid() && events == old(events) + [Sweep(now)]
      ensures forall key :: key in buckets <==> key in old(buckets) && now < old(buckets)[key].resetAt
    {
      SweepKeeps(limits, buckets, events, now);
      events := events + [Sweep(now)];
      DropExpired(now);
    }

    method MaybeSweep(now: int)
      requires Valid() && events != [] && now == events[|events| - 1].now
      modifies this`buckets, this`lastSweep
      ensures Valid()
      ensures
        if |old(buckets)| > SWEEP_SIZE && now - old(lastSweep) > SWEEP_INTERVAL_MS
        then
          && lastSweep == now
          && forall key :: key in buckets <==> key in old(buckets) && now < old(buckets)[key].resetAt
        else buckets == old(buckets) && lastSweep == old(lastSweep)
    {
      if |buckets| > SWEEP_SIZE && now - lastSweep > SWEEP_INTERVAL_MS {
        lastSweep := now;
        DropExpired(now);
      }
    }
  }
}
