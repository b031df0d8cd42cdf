/** What the gate guarantees over whole runs. */
module GateTheorems {
  import opened Common
  import opened GateModel
  import opened GateInvariant

  // ---------------------------------------------------------------------------
  // Runs
  // ---------------------------------------------------------------------------

  /** One callback: every step keeps the gate valid. */
  ghost function Next(g: GateState, e: Event): (h: GateState)
    requires Valid(g) && Enabled(g, e)
    ensures Valid(h)
  {
    StepKeepsValid(g, e);
    Step(g, e)
  }

  /** Every event can fire when its turn comes. */
  ghost predicate Legal(g: GateState, es: seq<Event>)
    requires Valid(g)
    decreases |es|
  {
    es == [] || (Enabled(g, es[0]) && Legal(Next(g, es[0]), es[1..]))
  }

  /** Every reachable state is valid. */
  ghost function Execute(g: GateState, es: seq<Event>): (h: GateState)
    requires Valid(g) && Legal(g, es)
    ensures Valid(h)
    decreases |es|
  {
    if es == [] then g else Execute(Next(g, es[0]), es[1..])
  }

  ghost predicate Reachable(g: GateState) {
    exists options, es ::
      Valid(NewGate(options)) && Legal(NewGate(options), es) && g == Execute(NewGate(options), es)
  }

  lemma ReachableIsValid(g: GateState)
    requires Reachable(g)
    ensures Valid(g)
  {
  }

  // ---------------------------------------------------------------------------
  // What never changes back
  // ---------------------------------------------------------------------------

  ghost predicate FlightEvolves(a: FlightData, b: FlightData) {
    && a.key == b.key
    && (a.aborted ==> b.aborted)
    && (a.state == Settled ==> a == b)
    && (a.state == Active ==> b.state != Queued)
  }

  ghost predicate WaiterEvolves(a: WaiterData, b: WaiterData) {
    && a.flight == b.flight && a.hasSignal == b.hasSignal
    && (a.cancelled ==> a == b)
  }

  ghost predicate Evolves(g: GateState, h: GateState) {
    && |g.flights| <= |h.flights| && |g.waiters| <= |h.waiters|
    && (forall f :: 0 <= f < |g.flights| ==> FlightEvolves(g.flights[f], h.flights[f]))
    && (forall w :: 0 <= w < |g.waiters| ==> WaiterEvolves(g.waiters[w], h.waiters[w]))
    && g.started <= h.started
    && (g.shuttingDown ==> h.shuttingDown)
  }

  lemma EvolvesTransitive(a: GateState, b: GateState, c: GateState)
    requires Evolves(a, b) && Evolves(b, c)
    ensures Evolves(a, c)
  {
    forall f | 0 <= f < |a.flights|
      ensures FlightEvolves(a.flights[f], c.flights[f])
    {
      assert FlightEvolves(a.flights[f], b.flights[f]) && FlightEvolves(b.flights[f], c.flights[f]);
    }
    forall w | 0 <= w < |a.waiters|
      ensures WaiterEvolves(a.waiters[w], c.waiters[w])
    {
      assert WaiterEvolves(a.waiters[w], b.waiters[w]) && WaiterEvolves(b.waiters[w], c.waiters[w]);
    }
  }

  lemma {:induction false} PumpEvolves(g: GateState)
    requires forall i :: 0 <= i < |g.queue| ==> g.queue[i] < |g.flights| && g.flights[g.queue[i]].state == Queued
    requires Increasing(g.queue)
    ensures Evolves(g, Pump(g))
    ensures Pump(g).waiters == g.waiters && Pump(g).keyed == g.keyed && Pump(g).shuttingDown == g.shuttingDown
    decreases |g.queue|
  {
    if !g.shuttingDown && g.active < g.options.activeLimit && |g.queue| > 0 {
      var h := StartFlight(g.(queue := g.queue[1..]), g.queue[0]);
      HeadNotInRest(g.queue);
      forall i | 0 <= i < |h.queue|
        ensures h.queue[i] < |h.flights| && h.flights[h.queue[i]].state == Queued
      {
        assert h.queue[i] == g.queue[i + 1] && h.queue[i] in g.queue[1..];
      }
      PumpEvolves(h);
      EvolvesTransitive(g, h, Pump(h));
    }
  }

  /** The waiters in the sets of these flights point back at them. */
  ghost predicate PointBack(g: GateState, fs: seq<nat>) {
    && InRange(g)
    && forall i :: 0 <= i < |fs| ==>
         && fs[i] < |g.flights| && g.flights[fs[i]].state == Queued
         && forall w :: w in g.flights[fs[i]].waiters ==> w < |g.waiters| && g.waiters[w].flight == fs[i]
  }

  ghost predicate Waits(g: GateState, w: nat)
    requires InRange(g) && w < |g.waiters|
  {
    w in g.flights[g.waiters[w].flight].waiters
  }

  lemma PointBackStep(g: GateState, fs: seq<nat>, outcome: Outcome)
    requires PointBack(g, fs) && Increasing(fs) && fs != []
    ensures
      var g1 := ClearTimer(g, fs[0]);
      PointBack(FinishFlight(g1, fs[0], outcome), fs[1..])
  {
    HeadNotInRest(fs);
    var rest := fs[1..];
    forall i | 0 <= i < |rest| ensures rest[i] == fs[i + 1] && rest[i] != fs[0] {
      assert rest[i] in rest;
    }
  }

  lemma {:induction false} FinishAllFlights(g: GateState, fs: seq<nat>, outcome: Outcome)
    requires PointBack(g, fs) && Increasing(fs)
    ensures |FinishAll(g, fs, outcome).flights| == |g.flights|
    ensures forall f :: 0 <= f < |g.flights| ==>
      FinishAll(g, fs, outcome).flights[f] == if f in fs then SettledAs(g.flights[f], outcome) else g.flights[f]
    decreases |fs|
  {
    if fs != [] {
      var g1 := ClearTimer(g, fs[0]);
      PointBackStep(g, fs, outcome);
      HeadNotInRest(fs);
      assert forall x :: x in fs <==> x == fs[0] || x in fs[1..];
      FinishAllFlights(FinishFlight(g1, fs[0], outcome), fs[1..], outcome);
    }
  }

  lemma {:induction false} FinishAllWaiter(g: GateState, fs: seq<nat>, outcome: Outcome, w: nat)
    requires PointBack(g, fs) && Increasing(fs) && w < |g.waiters|
    ensures |FinishAll(g, fs, outcome).waiters| == |g.waiters|
    ensures FinishAll(g, fs, outcome).waiters[w] ==
      if g.waiters[w].flight in fs && Waits(g, w) then Release(g.waiters[w], outcome) else g.waiters[w]
    decreases |fs|
  {
    if fs != [] {
      var f := fs[0];
      var g1 := ClearTimer(g, f);
      var h := FinishFlight(g1, f, outcome);
      PointBackStep(g, fs, outcome);
      HeadNotInRest(fs);
      assert g.waiters[w].flight in fs <==> g.waiters[w].flight == f || g.waiters[w].flight in fs[1..];
      assert w in g.flights[f].waiters ==> g.waiters[w].flight == f;
      FinishAllWaiter(h, fs[1..], outcome, w);
    }
  }

  /** Settling flights settles exactly their own waiters. */
  lemma FinishAllEffect(g: GateState, fs: seq<nat>, outcome: Outcome)
    requires PointBack(g, fs) && Increasing(fs)
    ensures
      var h := FinishAll(g, fs, outcome);
      && |h.flights| == |g.flights| && |h.waiters| == |g.waiters|
      && (forall f :: 0 <= f < |g.flights| ==>
            h.flights[f] == if f in fs then SettledAs(g.flights[f], outcome) else g.flights[f])
      && (forall w :: 0 <= w < |g.waiters| ==>
            h.waiters[w] ==
              if g.waiters[w].flight in fs && Waits(g, w) then Release(g.waiters[w], outcome) else g.waiters[w])
  {
    FinishAllFrame(g, fs, outcome);
    FinishAllFlights(g, fs, outcome);
    forall w | 0 <= w < |g.waiters|
      ensures FinishAll(g, fs, outcome).waiters[w] ==
        if g.waiters[w].flight in fs && Waits(g, w) then Release(g.waiters[w], outcome) else g.waiters[w]
    {
      FinishAllWaiter(g, fs, outcome, w);
    }
  }

  function SettledAs(fl: FlightData, outcome: Outcome): FlightData {
    fl.(timer := false, state := Settled, waiters := {}, outcome := Some(outcome))
  }

  lemma AbortQueuedEffect(g: GateState)
    requires Valid(g) && !g.shuttingDown
    ensures
      var h := AbortQueuedStep(g);
      && h.shuttingDown && h.queue == [] && h.started == g.started
      && |h.flights| == |g.flights| && |h.waiters| == |g.waiters|
      && (forall f :: 0 <= f < |g.flights| ==>
            h.flights[f] == if f in g.queue then SettledAs(g.flights[f], QueueFull(1)) else g.flights[f])
      && (forall w :: 0 <= w < |g.waiters| ==>
            h.waiters[w] ==
              if g.waiters[w].flight in g.queue && Waits(g, w)
              then Release(g.waiters[w], QueueFull(1)) else g.waiters[w])
  {
    IncreasingSuffix(g.started, g.queue);
    var g1 := g.(shuttingDown := true, queue := []);
    assert PointBack(g1, g.queue) by {
      forall i | 0 <= i < |g.queue|
        ensures g.flights[g.queue[i]].state == Queued
        ensures forall w :: w in g.flights[g.queue[i]].waiters ==> w < |g.waiters| && g.waiters[w].flight == g.queue[i]
      {
        assert FlightOk(g, g.queue[i], {});
      }
    }
    FinishAllEffect(g1, g.queue, QueueFull(1));
    FinishAllFrame(g1, g.queue, QueueFull(1));
  }

  // One lemma per callback: what it does to the promises and that nothing reverts.

  /** The caller's waiter is the last one; nobody else's promise changes. */
  ghost predicate Admits(g: GateState, h: GateState, hasSignal: bool) {
    && |h.waiters| == |g.waiters| + 1 && h.waiters[..|g.waiters|] == g.waiters
    && var wt := h.waiters[|g.waiters|];
       && wt.results != [CallerAborted] && wt.hasSignal == hasSignal
       && (wt.flight < |g.flights| ==> !g.flights[wt.flight].aborted)
  }

  function Saved(g: GateState): GateState {
    g.(metrics := g.metrics.(flightsSaved := g.metrics.flightsSaved + 1))
  }

  lemma JoinEvolves(g: GateState, key: string, hasSignal: bool)
    requires Valid(g) && Joinable(g, key)
    ensures
      var h := AttachWaiter(Saved(g), g.keyed[key], hasSignal);
      Evolves(g, h) && Admits(g, h, hasSignal)
  {
    var h := AttachWaiter(Saved(g), g.keyed[key], hasSignal);
    forall f | 0 <= f < |g.flights| ensures FlightEvolves(g.flights[f], h.flights[f]) {
    }
  }

  lemma NewFlightEvolves(g: GateState, g3: GateState, f: nat, hasSignal: bool)
    requires f == |g.flights| && |g3.flights| == f + 1 && |g3.waiters| == |g.waiters| + 1
    requires g3.flights[..f] == g.flights && g3.waiters[..|g.waiters|] == g.waiters
    requires g3.flights[f].state == Queued && g3.flights[f].waiters == {|g.waiters|}
    requires g3.waiters[|g.waiters|] == WaiterData(f, hasSignal, false, [])
    requires g3.started == g.started && g3.shuttingDown == g.shuttingDown
    ensures Evolves(g, Enqueue(g3, f)) && Admits(g, Enqueue(g3, f), hasSignal)
  {
    var h := Enqueue(g3, f);
    EnqueueEvolves(g3, f);
    var n := |g.waiters|;
    forall w | 0 <= w < n ensures h.waiters[w] == g.waiters[w] {
      assert g3.waiters[..n][w] == g3.waiters[w];
    }
    assert h.waiters[..n] == g.waiters;
    assert h.waiters[n].results != [CallerAborted] by {
      if h.waiters[n] != g3.waiters[n] {
        var k :| h.waiters[n] == Release(g3.waiters[n], QueueFull(k));
        assert h.waiters[n].results == [QueueFull(k)];
      }
    }
    forall x | 0 <= x < f ensures FlightEvolves(g.flights[x], h.flights[x]) {
      assert g3.flights[..f][x] == g3.flights[x];
    }
  }

  lemma CreateEvolves(g: GateState, key: string, hasSignal: bool)
    requires Valid(g) && !Joinable(g, key) && !g.shuttingDown
    ensures Evolves(g, RunStep(g, key, hasSignal, false)) && Admits(g, RunStep(g, key, hasSignal, false), hasSignal)
  {
    var f := |g.flights|;
    var g1 := CreateFlight(g, key);
    var g2 := if key != "" then g1.(keyed := g1.keyed[key := f]) else g1;
    var g3 := AttachWaiter(g2, f, hasSignal);
    assert g3.flights[..f] == g.flights && g3.waiters[..|g.waiters|] == g.waiters;
    NewFlightEvolves(g, g3, f, hasSignal);
  }

  lemma RunEvolves(g: GateState, key: string, hasSignal: bool, preAborted: bool)
    requires Valid(g)
    ensures
      var h := RunStep(g, key, hasSignal, preAborted);
      && Evolves(g, h)
      && if TurnedAway(g, hasSignal, preAborted) then h == g else Admits(g, h, hasSignal)
  {
    if !TurnedAway(g, hasSignal, preAborted) {
      if Joinable(g, key) {
        JoinEvolves(g, key, hasSignal);
      } else {
        CreateEvolves(g, key, hasSignal);
        assert RunStep(g, key, hasSignal, preAborted) == RunStep(g, key, hasSignal, false);
      }
    }
  }

  lemma EnqueueEvolves(g: GateState, f: nat)
    requires f < |g.flights| && g.flights[f].state == Queued
    ensures
      var h := Enqueue(g, f);
      && |h.flights| == |g.flights| && |h.waiters| == |g.waiters|
      && (forall x :: 0 <= x < |g.flights| && x != f ==> h.flights[x] == g.flights[x])
      && (forall w :: 0 <= w < |g.waiters| ==>
            h.waiters[w] == g.waiters[w]
              || (w in g.flights[f].waiters && exists n :: h.waiters[w] == Release(g.waiters[w], QueueFull(n))))
      && g.started <= h.started && h.shuttingDown == g.shuttingDown
  {
    var h := Enqueue(g, f);
    var n := if g.shuttingDown then 1 else RetryAfter(|g.queue|, g.options.activeLimit);
    forall w | 0 <= w < |g.waiters|
      ensures h.waiters[w] == g.waiters[w]
        || (w in g.flights[f].waiters && h.waiters[w] == Release(g.waiters[w], QueueFull(n)))
    {
    }
  }

  lemma CancelEvolves(g: GateState, v: nat)
    requires Valid(g) && v < |g.waiters|
    ensures Evolves(g, CancelWaiter(g, v))
    ensures |CancelWaiter(g, v).waiters| == |g.waiters|
    ensures forall w :: 0 <= w < |g.waiters| ==>
      CancelWaiter(g, v).waiters[w] ==
        if v == w && !g.waiters[v].cancelled
        then g.waiters[v].(cancelled := true, results := [CallerAborted]) else g.waiters[w]
  {
    var f := g.waiters[v].flight;
    assert WaiterOk(g, v) && FlightOk(g, f, {});
    var h := CancelWaiter(g, v);
    if !g.waiters[v].cancelled {
      var waiters := g.waiters[v := g.waiters[v].(cancelled := true, results := [CallerAborted])];
      assert g.flights[f].state != Settled;
      forall w | 0 <= w < |g.waiters| ensures h.waiters[w] == waiters[w] {
      }
      forall x | 0 <= x < |g.flights| ensures FlightEvolves(g.flights[x], h.flights[x]) {
      }
    }
  }

  lemma TimerEvolves(g: GateState, f: nat)
    requires Valid(g) && f < |g.flights| && g.flights[f].timer
    ensures Evolves(g, TimerStep(g, f))
    ensures |TimerStep(g, f).waiters| == |g.waiters|
    ensures forall w :: 0 <= w < |g.waiters| ==>
      TimerStep(g, f).waiters[w] ==
        if w in g.flights[f].waiters then Release(g.waiters[w], QueueTimeout) else g.waiters[w]
  {
    assert FlightOk(g, f, {});
  }

  /** The settlement itself, before the pump: the flight ends, and the queue still holds queued flights. */
  lemma FinishEvolves(g: GateState, f: nat, outcome: Outcome)
    requires Valid(g) && f < |g.flights| && g.flights[f].state == Active
    ensures var h := FinishFlight(g.(active := g.active - 1), f, outcome);
      && Evolves(g, h) && Increasing(h.queue)
      && forall i :: 0 <= i < |h.queue| ==> h.queue[i] < |h.flights| && h.flights[h.queue[i]].state == Queued
  {
    var h := FinishFlight(g.(active := g.active - 1), f, outcome);
    assert FlightOk(g, f, {});
    IncreasingSuffix(g.started, g.queue);
    forall i | 0 <= i < |g.queue| ensures h.flights[g.queue[i]].state == Queued {
      assert FlightOk(g, g.queue[i], {});
    }
  }

  lemma SettleEvolves(g: GateState, f: nat, outcome: Outcome)
    requires Valid(g) && f < |g.flights| && g.flights[f].state == Active
    ensures Evolves(g, SettleStep(g, f, outcome))
    ensures |SettleStep(g, f, outcome).waiters| == |g.waiters|
    ensures forall w :: 0 <= w < |g.waiters| ==>
      SettleStep(g, f, outcome).waiters[w] ==
        if w in g.flights[f].waiters then Release(g.waiters[w], outcome) else g.waiters[w]
    ensures SettleStep(g, f, outcome).keyed == FinishFlight(g, f, outcome).keyed
    ensures SettleStep(g, f, outcome).shuttingDown == g.shuttingDown
  {
    var h := FinishFlight(g.(active := g.active - 1), f, outcome);
    FinishEvolves(g, f, outcome);
    PumpEvolves(h);
    EvolvesTransitive(g, h, Pump(h));
  }

  lemma AbortQueuedEvolves(g: GateState)
    requires Valid(g)
    ensures Evolves(g, AbortQueuedStep(g))
    ensures |AbortQueuedStep(g).waiters| == |g.waiters|
    ensures forall w :: 0 <= w < |g.waiters| ==>
      AbortQueuedStep(g).waiters[w] == g.waiters[w]
        || AbortQueuedStep(g).waiters[w] == Release(g.waiters[w], QueueFull(1))
  {
    if !g.shuttingDown {
      AbortQueuedEffect(g);
      forall f | 0 <= f < |g.flights|
        ensures FlightEvolves(g.flights[f], AbortQueuedStep(g).flights[f])
      {
        assert FlightOk(g, f, {});
      }
    }
  }

  lemma StepEvolves(g: GateState, e: Event)
    requires Valid(g) && Enabled(g, e)
    ensures Evolves(g, Next(g, e))
    ensures |Next(g, e).waiters| == |g.waiters| + Bit(e.Run? && !TurnedAway(g, e.hasSignal, e.preAborted))
  {
    match e
    case Run(key, hasSignal, preAborted) => RunEvolves(g, key, hasSignal, preAborted);
    case CallerAbort(w) => CancelEvolves(g, w);
    case TimerFires(f) => TimerEvolves(g, f);
    case TaskSettles(f, o) => SettleEvolves(g, f, o);
    case AbortQueued => AbortQueuedEvolves(g);
    case Configure(o) =>
  }

  lemma {:induction false} ExecuteEvolves(g: GateState, es: seq<Event>)
    requires Valid(g) && Legal(g, es)
    ensures Evolves(g, Execute(g, es))
    decreases |es|
  {
    if es != [] {
      StepEvolves(g, es[0]);
      ExecuteEvolves(Next(g, es[0]), es[1..]);
      EvolvesTransitive(g, Next(g, es[0]), Execute(g, es));
    }
  }

  // ---------------------------------------------------------------------------
  // Single flight
  // ---------------------------------------------------------------------------

  ghost predicate Live(g: GateState, f: nat) {
    f < |g.flights| && g.flights[f].state != Settled && !g.flights[f].aborted
  }

  /** One live flight per key, and it is the one the key map holds. */
  lemma SingleFlight(g: GateState)
    requires Reachable(g)
    ensures forall f: nat, h: nat ::
      Live(g, f) && Live(g, h) && g.flights[f].key == g.flights[h].key && g.flights[f].key != "" ==> f == h
    ensures forall f: nat :: Live(g, f) && g.flights[f].key != "" ==>
      g.flights[f].key in g.keyed && g.keyed[g.flights[f].key] == f
    ensures forall k :: k in g.keyed ==> g.keyed[k] < |g.flights| && g.flights[g.keyed[k]].state != Settled
  {
    ReachableIsValid(g);
    assert KeysOk(g);
  }

  /** Settling one flight never removes the map entry of another one. */
  lemma FinalizerSparesReplacement(g: GateState, f: nat, outcome: Outcome, key: string)
    requires Valid(g) && Enabled(g, TaskSettles(f, outcome)) && key in g.keyed
    ensures
      var h := Next(g, TaskSettles(f, outcome));
      (key in h.keyed <==> g.keyed[key] != f) && (key in h.keyed ==> h.keyed[key] == g.keyed[key])
  {
    SettleEvolves(g, f, outcome);
    assert KeysOk(g);
  }

  // ---------------------------------------------------------------------------
  // Exactly-once settlement
  // ---------------------------------------------------------------------------

  ghost function PendingWaiters(g: GateState): set<nat> {
    set w | 0 <= w < |g.waiters| && !g.waiters[w].cancelled
  }

  function TotalResults(ws: seq<WaiterData>): nat {
    if ws == [] then 0 else TotalResults(ws[..|ws| - 1]) + |ws[|ws| - 1].results|
  }

  /** Callers of `run` that were given a waiter. */
  ghost function Admitted(g: GateState, es: seq<Event>): nat
    requires Valid(g) && Legal(g, es)
    decreases |es|
  {
    if es == [] then 0
    else Bit(es[0].Run? && !TurnedAway(g, es[0].hasSignal, es[0].preAborted)) + Admitted(Next(g, es[0]), es[1..])
  }

  lemma {:induction false} AdmittedCountsWaiters(g: GateState, es: seq<Event>)
    requires Valid(g) && Legal(g, es)
    ensures |Execute(g, es).waiters| == |g.waiters| + Admitted(g, es)
    decreases |es|
  {
    if es != [] {
      StepEvolves(g, es[0]);
      AdmittedCountsWaiters(Next(g, es[0]), es[1..]);
    }
  }

  lemma {:induction false} ResultsPartition(ws: seq<WaiterData>)
    requires forall w :: 0 <= w < |ws| ==> |ws[w].results| == Bit(ws[w].cancelled)
    ensures |ws| == |set w | 0 <= w < |ws| && !ws[w].cancelled| + TotalResults(ws)
  {
    if ws != [] {
      var n := |ws| - 1;
      var init := ws[..n];
      ResultsPartition(init);
      var a := set w | 0 <= w < |init| && !init[w].cancelled;
      var b := set w | 0 <= w < |ws| && !ws[w].cancelled;
      if ws[n].cancelled {
        assert a == b;
      } else {
        assert b == a + {n};
      }
    }
  }

  /**
   * Conservation over every run: each admitted caller is still waiting or has had
   * exactly one resolve/reject call, and nobody has had two.
   */
  lemma AdmittedIsPendingPlusSettled(options: Options, es: seq<Event>)
    requires Valid(NewGate(options)) && Legal(NewGate(options), es)
    ensures
      var g := Execute(NewGate(options), es);
      && Admitted(NewGate(options), es) == |PendingWaiters(g)| + TotalResults(g.waiters)
      && forall w :: 0 <= w < |g.waiters| ==> |g.waiters[w].results| == if w in PendingWaiters(g) then 0 else 1
  {
    var g := Execute(NewGate(options), es);
    AdmittedCountsWaiters(NewGate(options), es);
    forall w | 0 <= w < |g.waiters|
      ensures |g.waiters[w].results| == Bit(g.waiters[w].cancelled)
    {
      assert WaiterOk(g, w);
    }
    ResultsPartition(g.waiters);
  }

  /** Did the caller's own signal fire while it was still waiting? */
  ghost predicate AbortedWhileWaiting(g: GateState, es: seq<Event>, w: nat)
    requires Valid(g) && Legal(g, es)
    decreases |es|
  {
    && es != []
    && ((es[0] == CallerAbort(w) && !g.waiters[w].cancelled) || AbortedWhileWaiting(Next(g, es[0]), es[1..], w))
  }

  /** What one step may do to the promise of an existing caller. */
  ghost predicate PromiseStep(a: WaiterData, b: WaiterData, own: bool) {
    || b == a
    || (own && !a.cancelled && b == a.(cancelled := true, results := [CallerAborted]))
    || (!own && exists o :: o != CallerAborted && b == Release(a, o))
  }

  lemma StepPromise(g: GateState, e: Event, w: nat)
    requires Valid(g) && Enabled(g, e) && w < |g.waiters|
    ensures w < |Next(g, e).waiters| && PromiseStep(g.waiters[w], Next(g, e).waiters[w], e == CallerAbort(w))
  {
    var h := Next(g, e);
    match e
    case Run(key, hasSignal, preAborted) =>
      RunEvolves(g, key, hasSignal, preAborted);
      assert !TurnedAway(g, hasSignal, preAborted) ==> h.waiters[..|g.waiters|][w] == h.waiters[w];
    case CallerAbort(v) => CancelEvolves(g, v);
    case TimerFires(f) => TimerEvolves(g, f);
    case TaskSettles(f, o) =>
      SettleEvolves(g, f, o);
      assert h.waiters[w] == g.waiters[w] || h.waiters[w] == Release(g.waiters[w], o);
    case AbortQueued => AbortQueuedEvolves(g);
    case Configure(o) =>
  }

  lemma OthersDoNotAbort(a: WaiterData, b: WaiterData, own: bool)
    requires !a.cancelled && a.results == [] && PromiseStep(a, b, own) && !own
    ensures b.results != [CallerAborted]
  {
    if b != a {
      var o :| o != CallerAborted && b == Release(a, o);
      assert b.results == [o];
    }
  }

  lemma OwnAbort(g: GateState, w: nat)
    requires Valid(g) && Enabled(g, CallerAbort(w)) && !g.waiters[w].cancelled
    ensures w < |Next(g, CallerAbort(w)).waiters| && Next(g, CallerAbort(w)).waiters[w].results == [CallerAborted]
  {
    CancelEvolves(g, w);
  }

  /** Only an admitted `run` adds a waiter, and it adds one. */
  lemma Newcomer(g: GateState, e: Event, w: nat)
    requires Valid(g) && Enabled(g, e) && |g.waiters| <= w < |Next(g, e).waiters|
    ensures e.Run? && w == |g.waiters| && Admits(g, Next(g, e), e.hasSignal)
  {
    StepEvolves(g, e);
    RunEvolves(g, e.key, e.hasSignal, e.preAborted);
  }

  /** One step settles a waiter with AbortError just when it is that waiter's own abort. */
  lemma StepAborts(g: GateState, e: Event, w: nat)
    requires Valid(g) && Enabled(g, e) && w < |g.waiters| && !g.waiters[w].cancelled
    ensures w < |Next(g, e).waiters| && (Next(g, e).waiters[w].results == [CallerAborted] <==> e == CallerAbort(w))
  {
    StepPromise(g, e, w);
    var results := g.waiters[w].results;
    assert results == [] by { assert WaiterOk(g, w); }
    if e == CallerAbort(w) {
      OwnAbort(g, w);
    } else {
      OthersDoNotAbort(g.waiters[w], Next(g, e).waiters[w], false);
    }
  }

  /**
   * How a caller ends: with AbortError exactly when its own signal fired while it
   * waited, otherwise with the outcome of its flight.
   */
  lemma {:induction false} SettledBy(g: GateState, es: seq<Event>, w: nat)
    requires Valid(g) && Legal(g, es)
    requires w < |g.waiters| ==> !g.waiters[w].cancelled
    requires w < |Execute(g, es).waiters| && Execute(g, es).waiters[w].cancelled
    ensures
      var h := Execute(g, es);
      var wt := h.waiters[w];
      if AbortedWhileWaiting(g, es, w) then wt.results == [CallerAborted]
      else h.flights[wt.flight].outcome.Some? && wt.results == [h.flights[wt.flight].outcome.value] != [CallerAborted]
    decreases |es|
  {
    assert es != [];
    StepEvolves(g, es[0]);
    var h := Next(g, es[0]);
    if w < |h.waiters| && h.waiters[w].cancelled {
      if w < |g.waiters| { StepAborts(g, es[0], w); } else { Newcomer(g, es[0], w); }
      ExecuteEvolves(h, es[1..]);
      assert WaiterOk(h, w);
      var f := h.waiters[w].flight;
      assert FlightOk(h, f, {});
      assert FlightEvolves(h.flights[f], Execute(g, es).flights[f]);
      assert WaiterEvolves(h.waiters[w], Execute(h, es[1..]).waiters[w]);
      NoLateAbort(h, es[1..], w);
    } else {
      if w < |g.waiters| {
        StepAborts(g, es[0], w);
        if es[0] == CallerAbort(w) {
          CancelEvolves(g, w);
        }
      }
      SettledBy(h, es[1..], w);
    }
  }

  lemma {:induction false} NoLateAbort(g: GateState, es: seq<Event>, w: nat)
    requires Valid(g) && Legal(g, es) && w < |g.waiters| && g.waiters[w].cancelled
    ensures !AbortedWhileWaiting(g, es, w)
    decreases |es|
  {
    if es != [] {
      StepEvolves(g, es[0]);
      assert WaiterEvolves(g.waiters[w], Next(g, es[0]).waiters[w]);
      NoLateAbort(Next(g, es[0]), es[1..], w);
    }
  }

  // ---------------------------------------------------------------------------
  // Bounds and order
  // ---------------------------------------------------------------------------

  /**
   * `active` counts the started unsettled tasks and stays within its limit, the
   * queue stays within its own, starts happen in creation order, and nothing that
   * still waits was created before anything already started.
   */
  lemma FifoWithinBounds(g: GateState)
    requires Reachable(g)
    ensures
      && g.active == |ActiveSet(g.flights)| <= g.options.activeLimit
      && |g.queue| <= g.options.queueMax
      && (!g.shuttingDown && g.queue != [] ==> g.active == g.options.activeLimit)
      && (forall i, j :: 0 <= i < j < |g.started| ==> g.started[i] < g.started[j])
      && (forall i, j :: 0 <= i < |g.started| && 0 <= j < |g.queue| ==> g.started[i] < g.queue[j])
      && g.metrics.totalRuns == |g.started|
  {
    ReachableIsValid(g);
    SplitIncreasing(g.started, g.queue);
  }

  lemma SplitIncreasing(a: seq<nat>, b: seq<nat>)
    requires Increasing(a + b)
    ensures forall i, j :: 0 <= i < j < |a| ==> a[i] < a[j]
    ensures forall i, j :: 0 <= i < |a| && 0 <= j < |b| ==> a[i] < b[j]
  {
    forall i, j | 0 <= i < j < |a| ensures a[i] < a[j] {
      assert (a + b)[i] < (a + b)[j];
    }
    forall i, j | 0 <= i < |a| && 0 <= j < |b| ensures a[i] < b[j] {
      assert (a + b)[i] < (a + b)[|a| + j];
    }
  }

  /** While the gate is open, a settled task hands its slot to the queue head. */
  lemma SlotGoesToQueueHead(g: GateState, f: nat, outcome: Outcome)
    requires Valid(g) && Enabled(g, TaskSettles(f, outcome)) && !g.shuttingDown && g.queue != []
    ensures
      var h := Next(g, TaskSettles(f, outcome));
      && h.started == g.started + [g.queue[0]] && |h.flights| == |g.flights|
      && h.queue == g.queue[1..]
      && h.active == g.active
      && h.flights[g.queue[0]].state == Active && !h.flights[g.queue[0]].timer
  {
    FinishActive(g, f, outcome);
    assert FlightOk(g, g.queue[0], {}) && FlightOk(g, f, {});
    PumpOne(FinishFlight(g.(active := g.active - 1), f, outcome));
  }

  lemma PumpOne(k: GateState)
    requires forall i :: 0 <= i < |k.queue| ==> k.queue[i] < |k.flights|
    requires !k.shuttingDown && k.queue != [] && k.active + 1 == k.options.activeLimit
    ensures Pump(k) == StartFlight(k.(queue := k.queue[1..]), k.queue[0])
  {
  }

  // ---------------------------------------------------------------------------
  // Abandonment
  // ---------------------------------------------------------------------------

  /**
   * In every reachable state an active flight's controller is aborted iff it has
   * no waiters, a queued flight is un-aborted and has one, and a caller that still
   * waits holds a flight that nobody has aborted.
   */
  lemma AbandonmentIsExact(g: GateState)
    requires Reachable(g)
    ensures
      && (forall f :: 0 <= f < |g.flights| && g.flights[f].state == Active ==>
            (g.flights[f].aborted <==> forall w :: w in PendingWaiters(g) ==> g.waiters[w].flight != f))
      && (forall f :: 0 <= f < |g.flights| && g.flights[f].state == Queued ==>
            !g.flights[f].aborted && exists w :: w in PendingWaiters(g) && g.waiters[w].flight == f)
      && (forall w :: w in PendingWaiters(g) ==> Live(g, g.waiters[w].flight))
  {
    ReachableIsValid(g);
    forall w | w in PendingWaiters(g)
      ensures Live(g, g.waiters[w].flight)
    {
      assert WaiterOk(g, w) && FlightOk(g, g.waiters[w].flight, {});
    }
    forall f | 0 <= f < |g.flights| && g.flights[f].state != Settled
      ensures g.flights[f].waiters == set w | w in PendingWaiters(g) && g.waiters[w].flight == f
    {
      assert FlightOk(g, f, {});
      forall w | w in PendingWaiters(g) && g.waiters[w].flight == f ensures w in g.flights[f].waiters {
        assert WaiterOk(g, w);
      }
      forall w | w in g.flights[f].waiters ensures w in PendingWaiters(g) && g.waiters[w].flight == f {
      }
    }
    forall f | 0 <= f < |g.flights| && g.flights[f].state == Active
      ensures g.flights[f].aborted <==> forall w :: w in PendingWaiters(g) ==> g.waiters[w].flight != f
    {
      assert FlightOk(g, f, {});
      if w :| w in PendingWaiters(g) && g.waiters[w].flight == f {
        assert w in g.flights[f].waiters;
      } else {
        assert g.flights[f].waiters == {};
      }
    }
    forall f | 0 <= f < |g.flights| && g.flights[f].state == Queued
      ensures !g.flights[f].aborted && exists w :: w in PendingWaiters(g) && g.waiters[w].flight == f
    {
      assert FlightOk(g, f, {});
      var w :| w in g.flights[f].waiters;
      assert w in PendingWaiters(g);
    }
  }

  /** An aborted flight never gains a waiter, however the run continues. */
  lemma AbortedGainsNobody(g: GateState, es: seq<Event>, f: nat)
    requires Valid(g) && Legal(g, es) && f < |g.flights| && g.flights[f].aborted
    ensures f < |Execute(g, es).flights| && Execute(g, es).flights[f].waiters == {}
    ensures forall w :: |g.waiters| <= w < |Execute(g, es).waiters| ==> Execute(g, es).waiters[w].flight != f
    decreases |es|
  {
    var h := Execute(g, es);
    ExecuteEvolves(g, es);
    assert FlightEvolves(g.flights[f], h.flights[f]);
    assert FlightOk(h, f, {}) && FlightOk(g, f, {});
    if es != [] {
      StepEvolves(g, es[0]);
      var m := Next(g, es[0]);
      assert FlightEvolves(g.flights[f], m.flights[f]);
      AbortedGainsNobody(m, es[1..], f);
      forall w | |g.waiters| <= w < |h.waiters|
        ensures h.waiters[w].flight != f
      {
        if w < |m.waiters| {
          Newcomer(g, es[0], w);
          ExecuteEvolves(m, es[1..]);
          assert WaiterEvolves(m.waiters[w], h.waiters[w]);
        }
      }
    }
  }

  /** Cancelling one of several waiters changes that waiter and nothing else. */
  lemma CancellingOneOfSeveral(g: GateState, w: nat, other: nat)
    requires Valid(g) && Enabled(g, CallerAbort(w)) && w != other
    requires w in PendingWaiters(g) && other in PendingWaiters(g) && g.waiters[w].flight == g.waiters[other].flight
    ensures
      var f := g.waiters[w].flight;
      Next(g, CallerAbort(w)) ==
        g.(waiters := g.waiters[w := g.waiters[w].(cancelled := true, results := [CallerAborted])],
           flights := g.flights[f := g.flights[f].(waiters := g.flights[f].waiters - {w})])
  {
    var f := g.waiters[w].flight;
    assert WaiterOk(g, w) && WaiterOk(g, other) && FlightOk(g, f, {});
    assert other in g.flights[f].waiters - {w};
    assert g.waiters[w].results + [CallerAborted] == [CallerAborted];
  }

  // ---------------------------------------------------------------------------
  // Shutdown
  // ---------------------------------------------------------------------------

  function Settlements(es: seq<Event>): nat {
    if es == [] then 0 else Bit(es[0].TaskSettles?) + Settlements(es[1..])
  }

  /**
   * After shutdown the queue stays empty, nothing starts, no timer is armed, nobody
   * is admitted, and each task settlement frees one slot for good: the gate is idle
   * exactly when `active` more tasks have settled.
   */
  lemma {:induction false} ShutdownDrains(g: GateState, es: seq<Event>)
    requires Valid(g) && Legal(g, es) && g.shuttingDown
    ensures
      var h := Execute(g, es);
      && h.shuttingDown && h.queue == [] && h.started == g.started
      && h.metrics.totalRuns == g.metrics.totalRuns
      && |h.flights| == |g.flights| && |h.waiters| == |g.waiters|
      && (forall f :: 0 <= f < |h.flights| ==> !h.flights[f].timer)
      && h.active == g.active - Settlements(es)
    decreases |es|
  {
    forall f | 0 <= f < |g.flights| ensures !g.flights[f].timer { assert FlightOk(g, f, {}); }
    if es != [] {
      match es[0] {
        case Run(key, hasSignal, preAborted) =>
        case CallerAbort(w) => assert WaiterOk(g, w); assert FlightOk(g, g.waiters[w].flight, {});
        case TimerFires(f) =>
        case TaskSettles(f, o) => FinishActive(g, f, o);
        case AbortQueued =>
        case Configure(o) =>
      }
      ShutdownDrains(Next(g, es[0]), es[1..]);
    }
  }

  /** Shutdown rejects each waiter of each queued flight once and no other caller. */
  lemma ShutdownRejectsQueued(g: GateState)
    requires Valid(g) && !g.shuttingDown
    ensures
      var h := Next(g, AbortQueued);
      && |h.waiters| == |g.waiters|
      && forall w :: 0 <= w < |g.waiters| ==>
           h.waiters[w] ==
             if !g.waiters[w].cancelled && g.flights[g.waiters[w].flight].state == Queued
             then g.waiters[w].(cancelled := true, results := [QueueFull(1)])
             else g.waiters[w]
  {
    AbortQueuedEffect(g);
    forall w | 0 <= w < |g.waiters|
      ensures g.waiters[w].flight in g.queue && Waits(g, w) <==>
        !g.waiters[w].cancelled && g.flights[g.waiters[w].flight].state == Queued
      ensures !g.waiters[w].cancelled ==> g.waiters[w].results == []
    {
      assert WaiterOk(g, w) && FlightOk(g, g.waiters[w].flight, {});
    }
  }
}
