/**
 * What each callback of the gate does to its flights, its queue and its callers, told by what
 * is pending and where slots are free.
 */
module GateSteps {
  import opened Common
  import opened GateModel
  import opened GateInvariant
  import opened GateTheorems

  // ---------------------------------------------------------------------------
  // Callers and flights
  // ---------------------------------------------------------------------------

  predicate Pending(g: GateState, w: int) {
    0 <= w < |g.waiters| && !g.waiters[w].cancelled
  }

  /** A flight that a caller of `key` may join: unsettled, and nobody has aborted it. */
  predicate MayJoin(g: GateState, f: nat, key: string) {
    key != "" && f < |g.flights| && g.flights[f].key == key && g.flights[f].state != Settled && !g.flights[f].aborted
  }

  /** The callers that wait for `f` have `outcome`, and no other caller has anything new. */
  ghost predicate OnlyTheirs(g: GateState, h: GateState, f: nat, outcome: Outcome) {
    && |h.waiters| == |g.waiters|
    && forall w :: 0 <= w < |g.waiters| ==>
         h.waiters[w] ==
           if Pending(g, w) && g.waiters[w].flight == f
           then g.waiters[w].(cancelled := true, results := [outcome])
           else g.waiters[w]
  }

  /** Flight `f` has become `fl`, and no other flight has changed. */
  predicate OnlyFlight(g: GateState, h: GateState, f: nat, fl: FlightData) {
    f < |g.flights| && h.flights == g.flights[f := fl]
  }

  /** `f` has left the queue, which keeps its order. */
  ghost predicate LeftQueue(g: GateState, h: GateState, f: nat) {
    exists i :: 0 <= i < |g.queue| && g.queue[i] == f && h.queue == g.queue[..i] + g.queue[i + 1..]
  }

  lemma LeavesQueue(q: seq<nat>, f: nat) returns (i: nat)
    requires Increasing(q) && f in q
    ensures i < |q| && q[i] == f && RemoveFirst(q, f) == q[..i] + q[i + 1..]
  {
    i :| 0 <= i < |q| && q[i] == f;
    RemoveFirstAt(q, i, f);
  }

  /** A flight's waiter set is the pending callers that name it. */
  lemma WaitersArePending(g: GateState, f: nat)
    requires Valid(g) && f < |g.flights|
    ensures forall w :: 0 <= w < |g.waiters| ==>
      (w in g.flights[f].waiters <==> Pending(g, w) && g.waiters[w].flight == f)
    ensures forall w :: w in g.flights[f].waiters ==> w < |g.waiters|
    ensures forall w :: Pending(g, w) ==> g.waiters[w].results == []
  {
    assert FlightOk(g, f, {});
    forall w | 0 <= w < |g.waiters|
      ensures w in g.flights[f].waiters <==> Pending(g, w) && g.waiters[w].flight == f
      ensures Pending(g, w) ==> g.waiters[w].results == []
    {
      assert WaiterOk(g, w);
    }
  }

  // ---------------------------------------------------------------------------
  // A new caller
  // ---------------------------------------------------------------------------

  /** The least number of seconds, at least 1, in which `limit` jobs a second would clear `queued` jobs. */
  ghost predicate LeastSeconds(k: nat, queued: nat, limit: nat) {
    && k >= 1 && k * Max(1, limit) >= queued
    && forall j: nat :: j >= 1 && j * Max(1, limit) >= queued ==> k <= j
  }

  lemma RetryAfterIsLeastSeconds(queued: nat, limit: nat)
    ensures LeastSeconds(RetryAfter(queued, limit), queued, limit)
  {
    var m, k := Max(1, limit), RetryAfter(queued, limit);
    forall j: nat | j >= 1 && j * m >= queued ensures k <= j {
      CeilIsLeast(queued, m, j);
    }
    CeilReaches(queued, m);
    if k > CeilDiv(queued, m) {
      assert k == 1;
    }
  }

  lemma CeilReaches(a: nat, m: nat)
    requires m > 0
    ensures CeilDiv(a, m) * m >= a
  {
    var q, r := (a + m - 1) / m, (a + m - 1) % m;
    assert q * m + r == a + m - 1;
  }

  lemma CeilIsLeast(a: nat, m: nat, j: nat)
    requires m > 0 && j * m >= a
    ensures CeilDiv(a, m) <= j
  {
    var q := CeilDiv(a, m);
    assert q * m <= a + m - 1;
    if q > j {
      Factor(q - j, m);
      assert false;
    }
  }

  lemma Factor(d: int, m: nat)
    requires d > 0
    ensures d * m >= m
  {
    assert (d - 1) * m >= 0;
  }

  /** A caller that is aborted already or comes after shutdown changes nothing, and only such a caller. */
  lemma RefusedCaller(g: GateState, key: string, hasSignal: bool, preAborted: bool)
    requires Valid(g)
    ensures var h := Next(g, Run(key, hasSignal, preAborted));
      if (hasSignal && preAborted) || g.shuttingDown then h == g else |h.waiters| == |g.waiters| + 1
  {
    StepEvolves(g, Run(key, hasSignal, preAborted));
  }

  /** A caller whose key a live flight serves waits for that flight, and nothing else happens. */
  lemma JoiningCaller(g: GateState, key: string, hasSignal: bool, preAborted: bool, f: nat)
    requires Valid(g) && !(hasSignal && preAborted) && !g.shuttingDown && MayJoin(g, f, key)
    ensures var h, w := Next(g, Run(key, hasSignal, preAborted)), |g.waiters|;
      && h.waiters == g.waiters + [WaiterData(f, hasSignal, false, [])]
      && OnlyFlight(g, h, f, g.flights[f].(waiters := g.flights[f].waiters + {w}))
      && h.queue == g.queue && h.started == g.started && h.keyed == g.keyed && h.active == g.active
      && h.metrics == g.metrics.(flightsSaved := g.metrics.flightsSaved + 1)
  {
    assert key in g.keyed && g.keyed[key] == f;
  }

  /** What a caller finds that no live flight serves: its own new flight, the last one. */
  ghost predicate FreshFlight(g: GateState, h: GateState, key: string, hasSignal: bool) {
    var f, w := |g.flights|, |g.waiters|;
    && |h.flights| == f + 1 && h.flights[..f] == g.flights && h.flights[f].key == key && !h.flights[f].aborted
    && |h.waiters| == w + 1 && h.waiters[..w] == g.waiters
    && h.waiters[w].flight == f && h.waiters[w].hasSignal == hasSignal
  }

  /**
   * A caller that is neither refused nor joins gets a new flight.  It starts at once exactly when
   * a slot is free; otherwise it is queued last, with its timer armed, exactly when the queue has
   * room; otherwise, and only then, the caller is refused, and told the least number of seconds
   * after which the queue would have drained.
   */
  lemma NewCaller(g: GateState, key: string, hasSignal: bool, preAborted: bool)
    requires Valid(g) && !(hasSignal && preAborted) && !g.shuttingDown && forall f :: !MayJoin(g, f, key)
    ensures var h := Next(g, Run(key, hasSignal, preAborted));
      var f, w, free := |g.flights|, |g.waiters|, g.active < g.options.activeLimit;
      var room := |g.queue| < g.options.queueMax;
      && FreshFlight(g, h, key, hasSignal)
      && (h.started == g.started + [f] <==> free)
      && (h.queue == g.queue + [f] <==> !free && room)
      && (h.waiters[w].results != [] <==> !free && !room)
      && (free ==>
            && h.queue == g.queue && h.active == g.active + 1
            && h.flights[f] == FlightData(key, Active, {w}, false, false, None) && Pending(h, w))
      && (!free ==> h.started == g.started && h.active == g.active)
      && (!free && room ==> h.flights[f] == FlightData(key, Queued, {w}, false, true, None) && Pending(h, w))
      && (!free && !room ==>
            && h.queue == g.queue && h.flights[f].state == Settled && h.keyed == g.keyed - {key}
            && exists k :: LeastSeconds(k, |g.queue|, g.options.activeLimit) && h.waiters[w].results == [QueueFull(k)])
  {
    NotJoinable(g, key);
    var g3 := Newly(g, key, hasSignal);
    assert Next(g, Run(key, hasSignal, preAborted)) == Enqueue(g3, |g.flights|);
    if g.active < g.options.activeLimit {
      NewlyStarts(g, key, hasSignal);
    } else if |g.queue| < g.options.queueMax {
      NewlyQueues(g, key, hasSignal);
    } else {
      NewlyRefused(g, key, hasSignal);
    }
  }

  /** The gate with the new flight and its caller, before the flight is enqueued. */
  function Newly(g: GateState, key: string, hasSignal: bool): GateState {
    var f := |g.flights|;
    var g1 := CreateFlight(g, key);
    var g2 := if key != "" then g1.(keyed := g1.keyed[key := f]) else g1;
    AttachWaiter(g2, f, hasSignal)
  }

  lemma NewlyIs(g: GateState, key: string, hasSignal: bool)
    ensures var n, f, w := Newly(g, key, hasSignal), |g.flights|, |g.waiters|;
      n == g.(flights := g.flights + [FlightData(key, Queued, {w}, false, false, None)],
              waiters := g.waiters + [WaiterData(f, hasSignal, false, [])],
              keyed := if key != "" then g.keyed[key := f] else g.keyed)
  {
    var f, w, fl := |g.flights|, |g.waiters|, FlightData(key, Queued, {}, false, false, None);
    assert (g.flights + [fl])[f := fl.(waiters := fl.waiters + {w})] == g.flights + [fl.(waiters := fl.waiters + {w})];
    assert fl.waiters + {w} == {w};
  }

  lemma NewlyStarts(g: GateState, key: string, hasSignal: bool)
    requires !g.shuttingDown && g.active < g.options.activeLimit
    ensures var h, f, w := Enqueue(Newly(g, key, hasSignal), |g.flights|), |g.flights|, |g.waiters|;
      && FreshFlight(g, h, key, hasSignal) && h.started == g.started + [f] && h.queue == g.queue
      && h.active == g.active + 1
      && h.flights[f] == FlightData(key, Active, {w}, false, false, None) && Pending(h, w) && h.waiters[w].results == []
  {
    NewlyIs(g, key, hasSignal);
  }

  lemma NewlyQueues(g: GateState, key: string, hasSignal: bool)
    requires !g.shuttingDown && g.active >= g.options.activeLimit && |g.queue| < g.options.queueMax
    ensures var h, f, w := Enqueue(Newly(g, key, hasSignal), |g.flights|), |g.flights|, |g.waiters|;
      && FreshFlight(g, h, key, hasSignal) && h.started == g.started && h.queue == g.queue + [f]
      && h.active == g.active
      && h.flights[f] == FlightData(key, Queued, {w}, false, true, None) && Pending(h, w) && h.waiters[w].results == []
  {
    NewlyIs(g, key, hasSignal);
  }

  lemma NewlyRefused(g: GateState, key: string, hasSignal: bool)
    requires !g.shuttingDown && g.active >= g.options.activeLimit && |g.queue| >= g.options.queueMax && "" !in g.keyed
    ensures var h, f, w := Enqueue(Newly(g, key, hasSignal), |g.flights|), |g.flights|, |g.waiters|;
      && FreshFlight(g, h, key, hasSignal) && h.started == g.started && h.queue == g.queue && h.active == g.active
      && h.flights[f].state == Settled && h.keyed == g.keyed - {key}
      && exists k :: LeastSeconds(k, |g.queue|, g.options.activeLimit) && h.waiters[w].results == [QueueFull(k)]
  {
    NewlyIs(g, key, hasSignal);
    RetryAfterIsLeastSeconds(|g.queue|, g.options.activeLimit);
  }

  lemma NotJoinable(g: GateState, key: string)
    requires Valid(g) && forall f :: !MayJoin(g, f, key)
    ensures !Joinable(g, key)
  {
    if Joinable(g, key) {
      assert MayJoin(g, g.keyed[key], key);
    }
  }

  // ---------------------------------------------------------------------------
  // The other callbacks
  // ---------------------------------------------------------------------------

  /** The flight as it is once settled. */
  function SettledAs(fl: FlightData, outcome: Outcome): FlightData {
    fl.(state := Settled, waiters := {}, timer := false, outcome := Some(outcome))
  }

  /** The last waiter of a queued flight takes it out of the queue; of an active one, aborts its task. */
  lemma LastWaiterLeaves(g: GateState, w: nat)
    requires Valid(g) && Enabled(g, CallerAbort(w)) && Pending(g, w)
    requires forall v :: Pending(g, v) && g.waiters[v].flight == g.waiters[w].flight ==> v == w
    ensures var h, f := Next(g, CallerAbort(w)), g.waiters[w].flight;
      && h.waiters == g.waiters[w := g.waiters[w].(cancelled := true, results := [CallerAborted])]
      && h.started == g.started && h.active == g.active && h.metrics == g.metrics
      && (g.flights[f].state == Queued ==>
            LeftQueue(g, h, f) && OnlyFlight(g, h, f, SettledAs(g.flights[f], NoWaitersRemain)))
      && (g.flights[f].state == Active ==>
            && h.queue == g.queue && h.keyed == g.keyed
            && OnlyFlight(g, h, f, g.flights[f].(waiters := {}, aborted := true)))
  {
    var f := g.waiters[w].flight;
    var fl := g.flights[f];
    WaitersArePending(g, f);
    assert FlightOk(g, f, {}) && WaiterOk(g, w);
    assert fl.waiters == {w} && {w} - {w} == {};
    assert g.waiters[w].results + [CallerAborted] == [CallerAborted];
    if fl.state == Queued {
      IncreasingSuffix(g.started, g.queue);
      LastWaiterDequeues(g, w);
    }
  }

  lemma LastWaiterDequeues(g: GateState, w: nat)
    requires InRange(g) && Pending(g, w) && g.waiters[w].results == [] && Increasing(g.queue)
    requires var f := g.waiters[w].flight; f in g.queue && g.flights[f].waiters == {w} && g.flights[f].state == Queued
    ensures var h, f := CancelWaiter(g, w), g.waiters[w].flight;
      && h.waiters == g.waiters[w := g.waiters[w].(cancelled := true, results := [CallerAborted])]
      && h.started == g.started && h.active == g.active && h.metrics == g.metrics
      && LeftQueue(g, h, f) && OnlyFlight(g, h, f, SettledAs(g.flights[f], NoWaitersRemain))
  {
    var h, f := CancelWaiter(g, w), g.waiters[w].flight;
    var i := LeavesQueue(g.queue, f);
    assert {w} - {w} == {};
    assert g.waiters[w].results + [CallerAborted] == [CallerAborted];
    var waiters := g.waiters[w := g.waiters[w].(cancelled := true, results := [CallerAborted])];
    assert ReleaseAll(waiters, {}, NoWaitersRemain) == waiters;
    assert h.flights == g.flights[f := SettledAs(g.flights[f], NoWaitersRemain)];
  }

  /** A caller that has its answer does not hear its own signal. */
  lemma LateSignal(g: GateState, w: nat)
    requires Valid(g) && Enabled(g, CallerAbort(w)) && !Pending(g, w)
    ensures Next(g, CallerAbort(w)) == g
  {
  }

  /** The queue timer takes its flight out of the queue and rejects all who wait for it, and nobody else. */
  lemma TimeoutRejects(g: GateState, f: nat)
    requires Valid(g) && Enabled(g, TimerFires(f))
    ensures var h := Next(g, TimerFires(f));
      && LeftQueue(g, h, f) && OnlyTheirs(g, h, f, QueueTimeout)
      && OnlyFlight(g, h, f, SettledAs(g.flights[f], QueueTimeout))
      && h.started == g.started && h.active == g.active
      && h.metrics == g.metrics.(totalQueueTimeouts := g.metrics.totalQueueTimeouts + 1)
  {
    WaitersArePending(g, f);
    assert FlightOk(g, f, {});
    IncreasingSuffix(g.started, g.queue);
    var i := LeavesQueue(g.queue, f);
    var h := Next(g, TimerFires(f));
    assert h.queue == g.queue[..i] + g.queue[i + 1..];
  }

  /** A task's outcome goes to all who wait for its flight, and to nobody else; its slot is freed or handed on. */
  lemma OutcomeIsDelivered(g: GateState, f: nat, outcome: Outcome)
    requires Valid(g) && Enabled(g, TaskSettles(f, outcome))
    ensures var h := Next(g, TaskSettles(f, outcome));
      && OnlyTheirs(g, h, f, outcome) && |h.flights| == |g.flights|
      && h.flights[f] == SettledAs(g.flights[f], outcome)
      && (g.queue == [] || g.shuttingDown ==>
            h.started == g.started && h.queue == g.queue && h.active == g.active - 1)
      && (g.queue != [] && !g.shuttingDown ==>
            h.started == g.started + [g.queue[0]] && h.queue == g.queue[1..] && h.active == g.active)
  {
    WaitersArePending(g, f);
    FlightSettles(g, f, outcome);
    if g.queue != [] && !g.shuttingDown {
      SlotGoesToQueueHead(g, f, outcome);
    }
  }

  lemma FlightSettles(g: GateState, f: nat, outcome: Outcome)
    requires Valid(g) && Enabled(g, TaskSettles(f, outcome))
    ensures var h := Next(g, TaskSettles(f, outcome));
      && |h.flights| == |g.flights| && h.flights[f] == SettledAs(g.flights[f], outcome)
      && |h.waiters| == |g.waiters|
      && forall w :: 0 <= w < |g.waiters| ==>
           h.waiters[w] == if w in g.flights[f].waiters then Release(g.waiters[w], outcome) else g.waiters[w]
  {
    assert FlightOk(g, f, {});
    SettleEvolves(g, f, outcome);
    PumpSpares(FinishFlight(g.(active := g.active - 1), f, outcome), f);
  }

  /** The pump starts queued flights, and leaves every other one as it is. */
  lemma {:induction false} PumpSpares(k: GateState, f: nat)
    requires f < |k.flights| && forall i :: 0 <= i < |k.queue| ==> k.queue[i] < |k.flights| && k.queue[i] != f
    ensures |Pump(k).flights| == |k.flights| && Pump(k).flights[f] == k.flights[f]
    decreases |k.queue|
  {
    if !k.shuttingDown && k.active < k.options.activeLimit && |k.queue| > 0 {
      PumpSpares(StartFlight(k.(queue := k.queue[1..]), k.queue[0]), f);
    }
  }

  /** New bounds are taken exactly when the gate is open and no flight is unsettled. */
  lemma BoundsChangeWhenIdle(g: GateState, options: Options)
    requires Valid(g)
    ensures var idle := forall f :: 0 <= f < |g.flights| ==> g.flights[f].state == Settled;
      Next(g, Configure(options)) == if !g.shuttingDown && idle then g.(options := options) else g
  {
    var busy := ActiveSet(g.flights);
    if g.active == 0 && g.queue == [] {
      assert busy == {};
      forall f | 0 <= f < |g.flights| ensures g.flights[f].state == Settled {
        assert FlightOk(g, f, {});
        assert f !in busy;
      }
    } else if g.active > 0 {
      assert busy != {};
      var f :| f in busy;
      assert g.flights[f].state == Active;
    } else {
      assert FlightOk(g, g.queue[0], {});
    }
  }
}
