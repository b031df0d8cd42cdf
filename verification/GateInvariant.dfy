/** Every step of the gate keeps `Valid`. */
module GateInvariant {
  import opened GateModel

  function Bit(b: bool): nat { if b then 1 else 0 }

  lemma ActiveSetUpdate(fs: seq<FlightData>, f: nat, fl: FlightData)
    requires f < |fs|
    ensures |ActiveSet(fs[f := fl])| == |ActiveSet(fs)| - Bit(fs[f].state == Active) + Bit(fl.state == Active)
  {
    var was, now := ActiveSet(fs), ActiveSet(fs[f := fl]);
    var others := was - {f};
    assert others == now - {f};
    assert was == if fs[f].state == Active then others + {f} else others;
    assert now == if fl.state == Active then others + {f} else others;
  }

  lemma ActiveSetAppend(fs: seq<FlightData>, fl: FlightData)
    requires fl.state != Active
    ensures ActiveSet(fs + [fl]) == ActiveSet(fs)
  {
  }

  /** Removing one element of an increasing sequence. */
  lemma {:induction false} RemoveFirstOk(q: seq<nat>, f: nat)
    requires Increasing(q)
    ensures Increasing(RemoveFirst(q, f))
    ensures forall x :: x in RemoveFirst(q, f) <==> x in q && x != f
    ensures |RemoveFirst(q, f)| == |q| - Bit(f in q)
  {
    if q != [] {
      var t := q[1..];
      assert q == [q[0]] + t;
      assert Increasing(t);
      if q[0] == f {
        assert f !in t;
      } else {
        RemoveFirstOk(t, f);
        var r := RemoveFirst(t, f);
        forall i, j | 0 <= i < j < |[q[0]] + r|
          ensures ([q[0]] + r)[i] < ([q[0]] + r)[j]
        {
          assert ([q[0]] + r)[j] == r[j - 1] && r[j - 1] in r;
          assert r[j - 1] in t;
        }
      }
    }
  }

  lemma {:induction false} RemoveFirstAt(q: seq<nat>, i: nat, f: nat)
    requires i < |q| && q[i] == f && forall j :: 0 <= j < i ==> q[j] != f
    ensures RemoveFirst(q, f) == q[..i] + q[i + 1..]
  {
    if i > 0 {
      RemoveFirstAt(q[1..], i - 1, f);
    }
  }

  lemma {:induction false} RemoveFirstAbsent(q: seq<nat>, f: nat)
    requires forall j :: 0 <= j < |q| ==> q[j] != f
    ensures RemoveFirst(q, f) == q
  {
    if q != [] {
      RemoveFirstAbsent(q[1..], f);
    }
  }

  /** A flight's waiters are existing callers. */
  lemma FlightInRange(g: GateState, f: nat)
    requires Core(g, {}) && f < |g.flights|
    ensures forall w :: w in g.flights[f].waiters ==> w < |g.waiters|
  {
    assert FlightOk(g, f, {});
  }

  lemma AllInRange(g: GateState)
    requires Core(g, {})
    ensures InRange(g) && WaitersInRange(g)
  {
    forall f | 0 <= f < |g.flights| ensures forall w :: w in g.flights[f].waiters ==> w < |g.waiters| {
      assert FlightOk(g, f, {});
    }
  }

  lemma {:induction false} RemoveFirstSubset(q: seq<nat>, f: nat)
    ensures forall i :: 0 <= i < |RemoveFirst(q, f)| ==> RemoveFirst(q, f)[i] in q
  {
    if q != [] && q[0] != f {
      RemoveFirstSubset(q[1..], f);
    }
  }

  lemma RemoveFirstInRange(g: GateState, f: nat)
    requires InRange(g) && f < |g.flights|
    ensures InRange(RemoveQueued(g, f))
  {
    RemoveFirstSubset(g.queue, f);
  }

  lemma FinishInRange(g: GateState, f: nat, outcome: Outcome)
    requires InRange(g) && f < |g.flights|
    ensures InRange(FinishFlight(g.(active := g.active - 1), f, outcome))
  {
    var h := FinishFlight(g.(active := g.active - 1), f, outcome);
    forall k | k in h.keyed ensures h.keyed[k] < |h.flights| {
      assert k in g.keyed && h.keyed[k] == g.keyed[k];
    }
  }

  lemma FinishOneInRange(g: GateState, f: nat, outcome: Outcome)
    requires InRange(g) && WaitersInRange(g) && f < |g.flights|
    ensures
      var h := FinishFlight(ClearTimer(g, f), f, outcome);
      InRange(h) && WaitersInRange(h) && |h.flights| == |g.flights|
  {
    var h := FinishFlight(ClearTimer(g, f), f, outcome);
    forall k | k in h.keyed ensures h.keyed[k] < |h.flights| {
      assert k in g.keyed && h.keyed[k] == g.keyed[k];
    }
  }

  /** Dropping queue elements keeps the joint order of starts and queue. */
  lemma IncreasingPrefix(a: seq<nat>, b: seq<nat>, c: seq<nat>)
    requires Increasing(a + b) && Increasing(c) && forall x :: x in c ==> x in b
    ensures Increasing(a + c)
  {
    forall i, j | 0 <= i < j < |a + c|
      ensures (a + c)[i] < (a + c)[j]
    {
      if i < |a| {
        if j < |a| {
          assert (a + b)[i] < (a + b)[j];
        } else {
          assert c[j - |a|] in c;
          var k :| 0 <= k < |b| && b[k] == c[j - |a|];
          assert (a + b)[i] < (a + b)[|a| + k];
        }
      }
    }
  }

  lemma IncreasingSuffix(a: seq<nat>, b: seq<nat>)
    requires Increasing(a + b)
    ensures Increasing(b)
  {
    forall i, j | 0 <= i < j < |b|
      ensures b[i] < b[j]
    {
      assert (a + b)[|a| + i] < (a + b)[|a| + j];
    }
  }

  // ---------------------------------------------------------------------------
  // Private operations
  // ---------------------------------------------------------------------------

  lemma FinishFlightKeepsWaiters(g: GateState, f: nat, outcome: Outcome)
    requires InRange(g) && f < |g.flights|
    requires forall w :: 0 <= w < |g.waiters| ==> WaiterOk(g, w)
    requires g.flights[f].state != Settled && g.flights[f].outcome.None?
    requires forall w :: w in g.flights[f].waiters ==> w < |g.waiters| && g.waiters[w].flight == f
    ensures InRange(FinishFlight(g, f, outcome))
    ensures forall w :: 0 <= w < |g.waiters| ==> WaiterOk(FinishFlight(g, f, outcome), w)
  {
    var h := FinishFlight(g, f, outcome);
    forall w | 0 <= w < |g.waiters|
      ensures WaiterOk(h, w)
    {
      assert WaiterOk(g, w);
    }
  }

  lemma FinishFlightKeepsKeys(g: GateState, f: nat, outcome: Outcome)
    requires InRange(g) && f < |g.flights| && g.flights[f].state != Settled
    requires KeysOk(g)
    ensures InRange(FinishFlight(g, f, outcome))
    ensures KeysOk(FinishFlight(g, f, outcome))
  {
    var h := FinishFlight(g, f, outcome);
    forall k | k in h.keyed
      ensures k != "" && h.flights[h.keyed[k]].key == k && h.flights[h.keyed[k]].state != Settled
    {
      assert k in g.keyed && h.keyed[k] == g.keyed[k];
      assert h.keyed[k] != f;
    }
    forall x | 0 <= x < |h.flights| && h.flights[x].key != "" && h.flights[x].state != Settled && !h.flights[x].aborted
      ensures h.flights[x].key in h.keyed && h.keyed[h.flights[x].key] == x
    {
      assert x != f && h.flights[x] == g.flights[x];
    }
  }

  /** Settling a flight that is neither active nor queued. */
  lemma FinishPending(g: GateState, f: nat, outcome: Outcome)
    requires Core(g, {f}) && f < |g.flights| && outcome != CallerAborted
    ensures Core(FinishFlight(g, f, outcome), {})
  {
    var h := FinishFlight(g, f, outcome);
    assert FlightOk(g, f, {f});
    FinishFlightKeepsWaiters(g, f, outcome);
    FinishFlightKeepsKeys(g, f, outcome);
    ActiveSetUpdate(g.flights, f, h.flights[f]);
    forall x | 0 <= x < |h.flights|
      ensures FlightOk(h, x, {})
    {
      assert FlightOk(g, x, {f});
    }
  }

  /** Settling an active flight together with the release of its slot. */
  lemma FinishActive(g: GateState, f: nat, outcome: Outcome)
    requires Core(g, {}) && f < |g.flights| && g.flights[f].state == Active && outcome != CallerAborted
    ensures Core(FinishFlight(g.(active := g.active - 1), f, outcome), {})
    ensures FinishFlight(g.(active := g.active - 1), f, outcome).active == g.active - 1
  {
    var g1 := g.(active := g.active - 1);
    var h := FinishFlight(g1, f, outcome);
    assert FlightOk(g, f, {});
    forall w | 0 <= w < |g1.waiters|
      ensures WaiterOk(g1, w)
    {
      assert WaiterOk(g, w);
    }
    FinishFlightKeepsWaiters(g1, f, outcome);
    FinishFlightKeepsKeys(g1, f, outcome);
    ActiveSetUpdate(g.flights, f, h.flights[f]);
    forall x | 0 <= x < |h.flights|
      ensures FlightOk(h, x, {})
    {
      assert FlightOk(g, x, {});
    }
  }

  /** Taking a flight out of the queue leaves it pending. */
  lemma RemoveQueuedKeepsCore(g: GateState, f: nat)
    requires Core(g, {}) && f < |g.flights| && f in g.queue
    ensures Core(RemoveQueued(g, f), {f})
  {
    var h := RemoveQueued(g, f);
    IncreasingSuffix(g.started, g.queue);
    RemoveFirstOk(g.queue, f);
    IncreasingPrefix(g.started, g.queue, h.queue);
    ActiveSetUpdate(g.flights, f, h.flights[f]);
    assert FlightOk(g, f, {});
    forall i | 0 <= i < |h.queue|
      ensures h.queue[i] < |h.flights|
    {
      assert h.queue[i] in g.queue;
    }
    forall x | 0 <= x < |h.flights|
      ensures FlightOk(h, x, {f})
    {
      assert FlightOk(g, x, {});
    }
    forall w | 0 <= w < |h.waiters|
      ensures WaiterOk(h, w)
    {
      assert WaiterOk(g, w);
    }
    QueuedNotStarted(g, f);
  }

  lemma StartKeepsCore(g: GateState, f: nat)
    requires Core(g, {f}) && f < |g.flights|
    requires g.active < g.options.activeLimit
    requires Increasing(g.started + [f] + g.queue)
    ensures Core(StartFlight(g, f), {})
  {
    var h := StartFlight(g, f);
    assert FlightOk(g, f, {f});
    ActiveSetUpdate(g.flights, f, h.flights[f]);
    forall x | 0 <= x < |h.flights|
      ensures FlightOk(h, x, {})
    {
      assert FlightOk(g, x, {f});
    }
    forall w | 0 <= w < |h.waiters|
      ensures WaiterOk(h, w)
    {
      assert WaiterOk(g, w);
    }
  }

  /** Shifting the queue head makes it pending. */
  lemma ShiftKeepsCore(g: GateState)
    requires Core(g, {}) && g.queue != []
    ensures
      var g1 := g.(queue := g.queue[1..], flights := g.flights[g.queue[0] := g.flights[g.queue[0]].(timer := false)]);
      Core(g1, {g.queue[0]}) && Increasing(g.started + [g.queue[0]] + g1.queue)
  {
    var f := g.queue[0];
    IncreasingSuffix(g.started, g.queue);
    assert RemoveFirst(g.queue, f) == g.queue[1..];
    RemoveQueuedKeepsCore(g, f);
    assert g.started + [f] + g.queue[1..] == g.started + g.queue;
  }

  lemma {:induction false} PumpKeepsValid(g: GateState)
    requires Core(g, {})
    ensures Valid(Pump(g))
    decreases |g.queue|
  {
    if !g.shuttingDown && g.active < g.options.activeLimit && |g.queue| > 0 {
      var f := g.queue[0];
      var g0 := g.(queue := g.queue[1..]);
      var g1 := g0.(flights := g.flights[f := g.flights[f].(timer := false)]);
      ShiftKeepsCore(g);
      StartKeepsCore(g1, f);
      assert g.flights[f := g.flights[f].(timer := false)][f := g.flights[f].(state := Active, timer := false)]
          == g.flights[f := g.flights[f].(state := Active, timer := false)];
      assert StartFlight(g1, f) == StartFlight(g0, f);
      PumpKeepsValid(StartFlight(g0, f));
    }
  }

  lemma CreateAndAttachKeepsCore(g: GateState, key: string, hasSignal: bool)
    requires Core(g, {}) && !Joinable(g, key)
    ensures
      var f := |g.flights|;
      var g1 := CreateFlight(g, key);
      var g2 := if key != "" then g1.(keyed := g1.keyed[key := f]) else g1;
      Core(AttachWaiter(g2, f, hasSignal), {f})
  {
    var f := |g.flights|;
    var g1 := CreateFlight(g, key);
    var g2 := if key != "" then g1.(keyed := g1.keyed[key := f]) else g1;
    var h := AttachWaiter(g2, f, hasSignal);
    ActiveSetAppend(g.flights, h.flights[f]);
    assert h.flights == g.flights + [h.flights[f]];
    assert f !in g.queue && f !in g.started;
    forall w | 0 <= w < |h.waiters|
      ensures WaiterOk(h, w)
    {
      if w < |g.waiters| {
        assert WaiterOk(g, w);
      }
    }
    forall x | 0 <= x < |h.flights|
      ensures FlightOk(h, x, {f})
    {
      if x < f {
        assert FlightOk(g, x, {});
      }
    }
    forall x | 0 <= x < |h.flights| && h.flights[x].key != "" && h.flights[x].state != Settled && !h.flights[x].aborted
      ensures h.flights[x].key in h.keyed && h.keyed[h.flights[x].key] == x
    {
      if x < f {
        assert h.flights[x] == g.flights[x];
        assert g.keyed[g.flights[x].key] == x;
      }
    }
  }

  // ---------------------------------------------------------------------------
  // Steps
  // ---------------------------------------------------------------------------

  lemma JoinKeepsValid(g: GateState, key: string, hasSignal: bool)
    requires Valid(g) && Joinable(g, key)
    ensures Valid(RunStep(g, key, hasSignal, false)) || g.shuttingDown
  {
    var f := g.keyed[key];
    var g1 := g.(metrics := g.metrics.(flightsSaved := g.metrics.flightsSaved + 1));
    var h := AttachWaiter(g1, f, hasSignal);
    ActiveSetUpdate(g.flights, f, h.flights[f]);
    forall w | 0 <= w < |h.waiters|
      ensures WaiterOk(h, w)
    {
      if w < |g.waiters| {
        assert WaiterOk(g, w);
      }
    }
    forall x | 0 <= x < |h.flights|
      ensures FlightOk(h, x, {})
    {
      assert FlightOk(g, x, {});
    }
    assert KeysOk(h);
  }

  lemma RejectionCountIsFree(g: GateState, g1: GateState, f: nat)
    requires Core(g, {f}) && g1 == g.(metrics := g.metrics.(totalRejectedFull := g.metrics.totalRejectedFull + 1))
    ensures Core(g1, {f})
  {
    forall w | 0 <= w < |g.waiters| ensures WaiterOk(g1, w) { assert WaiterOk(g, w); }
    forall x | 0 <= x < |g.flights| ensures FlightOk(g1, x, {f}) { assert FlightOk(g, x, {f}); }
  }

  /** Rejecting for want of room. */
  lemma RejectedKeepsValid(g: GateState, g1: GateState, f: nat, outcome: Outcome)
    requires Core(g, {f}) && WorkConserving(g) && f == |g.flights| - 1
    requires g1 == g.(metrics := g.metrics.(totalRejectedFull := g.metrics.totalRejectedFull + 1))
    requires outcome != CallerAborted
    ensures Valid(FinishFlight(g1, f, outcome))
  {
    RejectionCountIsFree(g, g1, f);
    assert FlightOk(g1, f, {f});
    FinishPending(g1, f, outcome);
  }

  /** Joining the queue. */
  lemma EnqueueQueuesKeepsValid(g: GateState, f: nat)
    requires Core(g, {f}) && WorkConserving(g) && f == |g.flights| - 1
    requires !g.shuttingDown && g.active >= g.options.activeLimit && |g.queue| < g.options.queueMax
    requires forall x :: x in g.started + g.queue ==> x < f
    ensures Valid(Enqueue(g, f))
  {
    var h := Enqueue(g, f);
    assert FlightOk(g, f, {f});
    ActiveSetUpdate(g.flights, f, h.flights[f]);
    assert h.started + h.queue == (g.started + g.queue) + [f];
    forall x | 0 <= x < |h.flights| ensures FlightOk(h, x, {}) { assert FlightOk(g, x, {f}); }
    forall w | 0 <= w < |h.waiters| ensures WaiterOk(h, w) { assert WaiterOk(g, w); }
  }

  lemma EnqueueKeepsValid(g: GateState, f: nat)
    requires Core(g, {f}) && WorkConserving(g) && f == |g.flights| - 1
    ensures Valid(Enqueue(g, f))
  {
    assert FlightOk(g, f, {f});
    forall x | x in g.started + g.queue
      ensures x < f
    {
      assert x in g.started || x in g.queue;
    }
    if g.shuttingDown {
      FinishPending(g, f, QueueFull(1));
    } else if g.active < g.options.activeLimit {
      assert g.queue == [];
      assert g.started + [f] + g.queue == g.started + [f] && g.started + g.queue == g.started;
      forall i | 0 <= i < |g.started| ensures g.started[i] < f { assert g.started[i] in g.started + g.queue; }
      StartKeepsCore(g, f);
    } else if |g.queue| >= g.options.queueMax {
      var g1 := g.(metrics := g.metrics.(totalRejectedFull := g.metrics.totalRejectedFull + 1));
      RejectedKeepsValid(g, g1, f, QueueFull(RetryAfter(|g.queue|, g.options.activeLimit)));
    } else {
      EnqueueQueuesKeepsValid(g, f);
    }
  }

  lemma RunKeepsValid(g: GateState, key: string, hasSignal: bool, preAborted: bool)
    requires Valid(g)
    ensures Valid(RunStep(g, key, hasSignal, preAborted))
  {
    if !TurnedAway(g, hasSignal, preAborted) {
      if Joinable(g, key) {
        JoinKeepsValid(g, key, hasSignal);
      } else {
        CreateAndAttachKeepsCore(g, key, hasSignal);
        var f := |g.flights|;
        var g1 := CreateFlight(g, key);
        var g2 := if key != "" then g1.(keyed := g1.keyed[key := f]) else g1;
        EnqueueKeepsValid(AttachWaiter(g2, f, hasSignal), f);
      }
    }
  }

  /** A queued flight that loses its last waiter is settled and forgotten. */
  lemma FinishQueuedKeepsValid(g: GateState, f: nat, outcome: Outcome)
    requires Core(g, {}) && WorkConserving(g) && f < |g.flights| && f in g.queue && outcome != CallerAborted
    ensures Valid(FinishFlight(RemoveQueued(g, f), f, outcome))
  {
    RemoveQueuedKeepsCore(g, f);
    FinishPending(RemoveQueued(g, f), f, outcome);
  }

  /** Cancelling a waiter that is not the last one. */
  lemma LeaveKeepsValid(g: GateState, w: nat)
    requires Valid(g) && w < |g.waiters| && !g.waiters[w].cancelled && g.waiters[w].hasSignal
    requires g.flights[g.waiters[w].flight].waiters != {w}
    ensures Valid(CancelWaiter(g, w))
  {
    var f := g.waiters[w].flight;
    var h := CancelWaiter(g, w);
    assert FlightOk(g, f, {}) && WaiterOk(g, w);
    ActiveSetUpdate(g.flights, f, g.flights[f].(waiters := g.flights[f].waiters - {w}));
    assert w in g.flights[f].waiters;
    assert g.flights[f].waiters - {w} != {} by {
      var v :| v in g.flights[f].waiters && v != w;
      assert v in g.flights[f].waiters - {w};
    }
    forall x | 0 <= x < |h.flights|
      ensures FlightOk(h, x, {})
    {
      assert FlightOk(g, x, {});
    }
    forall v | 0 <= v < |h.waiters|
      ensures WaiterOk(h, v)
    {
      assert WaiterOk(g, v);
    }
    assert KeysOk(h);
  }

  /** Cancelling the last waiter of an active flight aborts its controller. */
  lemma AbortActiveKeepsValid(g: GateState, w: nat)
    requires Valid(g) && w < |g.waiters| && !g.waiters[w].cancelled && g.waiters[w].hasSignal
    requires g.flights[g.waiters[w].flight].waiters == {w} && g.flights[g.waiters[w].flight].state == Active
    ensures Valid(CancelWaiter(g, w))
  {
    var f := g.waiters[w].flight;
    var h := CancelWaiter(g, w);
    assert FlightOk(g, f, {}) && WaiterOk(g, w);
    assert g.flights[f].waiters - {w} == {};
    assert h.flights == g.flights[f := g.flights[f].(waiters := {}, aborted := true)];
    ActiveSetUpdate(g.flights, f, h.flights[f]);
    forall x | 0 <= x < |h.flights|
      ensures FlightOk(h, x, {})
    {
      assert FlightOk(g, x, {});
    }
    forall v | 0 <= v < |h.waiters|
      ensures WaiterOk(h, v)
    {
      assert WaiterOk(g, v);
    }
    assert KeysOk(h);
  }

  /** Cancelling the last waiter of a queued flight removes the flight. */
  lemma AbandonQueuedKeepsValid(g: GateState, w: nat)
    requires Valid(g) && w < |g.waiters| && !g.waiters[w].cancelled && g.waiters[w].hasSignal
    requires g.flights[g.waiters[w].flight].waiters == {w} && g.flights[g.waiters[w].flight].state == Queued
    ensures Valid(CancelWaiter(g, w))
  {
    var f := g.waiters[w].flight;
    var wt := g.waiters[w];
    assert FlightOk(g, f, {}) && WaiterOk(g, w);
    assert g.flights[f].waiters - {w} == {};
    // Settling first and cancelling after gives the same state.
    var g1 := g.(waiters := g.waiters[w := wt.(cancelled := true, results := wt.results + [CallerAborted])],
                 flights := g.flights[f := g.flights[f].(waiters := {})]);
    var r := RemoveQueued(g, f);
    var h := CancelWaiter(g, w);
    assert h == FinishFlight(RemoveQueued(g1, f), f, NoWaitersRemain);
    FinishQueuedKeepsValid(g, f, NoWaitersRemain);
    var s := FinishFlight(r, f, NoWaitersRemain);
    assert h.flights == s.flights;
    assert h.keyed == s.keyed && h.queue == s.queue;
    forall v | 0 <= v < |h.waiters|
      ensures WaiterOk(h, v)
      ensures v != w ==> h.waiters[v] == s.waiters[v]
    {
      assert WaiterOk(s, v);
    }
    forall x | 0 <= x < |h.flights|
      ensures FlightOk(h, x, {})
    {
      assert FlightOk(s, x, {});
    }
  }

  lemma CancelKeepsValid(g: GateState, w: nat)
    requires Valid(g) && w < |g.waiters| && g.waiters[w].hasSignal
    ensures Valid(CancelWaiter(g, w))
  {
    var f := g.waiters[w].flight;
    if !g.waiters[w].cancelled {
      assert WaiterOk(g, w) && FlightOk(g, f, {});
      if g.flights[f].waiters != {w} {
        LeaveKeepsValid(g, w);
      } else if g.flights[f].state == Active {
        AbortActiveKeepsValid(g, w);
      } else {
        AbandonQueuedKeepsValid(g, w);
      }
    }
  }

  lemma TimerKeepsValid(g: GateState, f: nat)
    requires Valid(g) && f < |g.flights| && g.flights[f].timer
    ensures Valid(TimerStep(g, f))
  {
    assert FlightOk(g, f, {});
    FinishQueuedKeepsValid(g, f, QueueTimeout);
    var s := FinishFlight(RemoveQueued(g, f), f, QueueTimeout);
    var h := TimerStep(g, f);
    assert h == s.(metrics := h.metrics);
    forall v | 0 <= v < |h.waiters| ensures WaiterOk(h, v) { assert WaiterOk(s, v); }
    forall x | 0 <= x < |h.flights| ensures FlightOk(h, x, {}) { assert FlightOk(s, x, {}); }
  }

  lemma SettleKeepsValid(g: GateState, f: nat, outcome: Outcome)
    requires Valid(g) && Enabled(g, TaskSettles(f, outcome))
    ensures Valid(SettleStep(g, f, outcome))
  {
    FinishActive(g, f, outcome);
    PumpKeepsValid(FinishFlight(g.(active := g.active - 1), f, outcome));
  }

  lemma HeadNotInRest(fs: seq<nat>)
    requires Increasing(fs) && fs != []
    ensures fs[0] !in fs[1..]
    ensures Increasing(fs[1..])
    ensures Elements(fs) == Elements(fs[1..]) + {fs[0]}
  {
    var rest := fs[1..];
    forall i | 0 <= i < |rest|
      ensures rest[i] != fs[0]
    {
      assert fs[0] < fs[i + 1];
    }
    assert fs == [fs[0]] + rest;
  }

  /** Settling one flight of the removed queue commutes with clearing the timers. */
  lemma CleanCommutes(g: GateState, fs: seq<nat>, outcome: Outcome)
    requires fs != [] && fs[0] < |g.flights| && fs[0] !in fs[1..]
    ensures
      var g1 := ClearTimer(g, fs[0]);
      Clean(FinishFlight(g1, fs[0], outcome), fs[1..]) == FinishFlight(Clean(g, fs), fs[0], outcome)
  {
    var f, rest := fs[0], fs[1..];
    assert fs == [f] + rest;
    var g1 := ClearTimer(g, f);
    var a, b := Clean(FinishFlight(g1, f, outcome), rest), FinishFlight(Clean(g, fs), f, outcome);
    forall x | 0 <= x < |g.flights|
      ensures a.flights[x] == b.flights[x]
    {
    }
    assert a.flights == b.flights;
    assert a.waiters == b.waiters;
  }

  /**
   * Settling the removed queue one flight at a time.  While it runs, the flights
   * still to be settled are pending, and each has its timer cleared on the way.
   */
  lemma {:induction false} FinishAllKeepsCore(g: GateState, fs: seq<nat>, outcome: Outcome)
    requires Increasing(fs) && outcome != CallerAborted
    requires forall i :: 0 <= i < |fs| ==> fs[i] < |g.flights|
    requires Drained(g, fs)
    ensures Drained(FinishAll(g, fs, outcome), [])
    decreases |fs|
  {
    if fs != [] {
      var f, rest := fs[0], fs[1..];
      HeadNotInRest(fs);
      var after := FinishFlight(ClearTimer(g, f), f, outcome);
      FinishOnePending(Clean(g, fs), f, Elements(rest), outcome);
      CleanCommutes(g, fs, outcome);
      FinishAllKeepsCore(after, rest, outcome);
    }
  }

  ghost function Elements(fs: seq<nat>): set<nat> {
    set x | x in fs
  }

  /** The state with the timers of all flights in `fs` cleared. */
  ghost function Clean(g: GateState, fs: seq<nat>): GateState {
    g.(flights := seq(|g.flights|, i requires 0 <= i < |g.flights| =>
         if i in fs then g.flights[i].(timer := false) else g.flights[i]))
  }

  ghost predicate Drained(g: GateState, fs: seq<nat>) {
    Core(Clean(g, fs), Elements(fs)) && g.queue == []
  }

  lemma FinishOnePending(g: GateState, f: nat, others: set<nat>, outcome: Outcome)
    requires Core(g, others + {f}) && f < |g.flights| && f !in others && outcome != CallerAborted
    ensures Core(FinishFlight(g, f, outcome), others)
  {
    var h := FinishFlight(g, f, outcome);
    assert FlightOk(g, f, others + {f});
    FinishFlightKeepsWaiters(g, f, outcome);
    FinishFlightKeepsKeys(g, f, outcome);
    ActiveSetUpdate(g.flights, f, h.flights[f]);
    forall x | 0 <= x < |h.flights|
      ensures FlightOk(h, x, others)
    {
      assert FlightOk(g, x, others + {f});
    }
  }

  /** Closing admission turns the whole queue into pending flights. */
  lemma CloseDrains(g: GateState)
    requires Core(g, {})
    ensures Drained(g.(shuttingDown := true, queue := []), g.queue)
  {
    var g1 := g.(shuttingDown := true, queue := []);
    var c := Clean(g1, g.queue);
    var q := Elements(g.queue);
    assert c.started + c.queue == g.started + [];
    IncreasingPrefix(g.started, g.queue, []);
    assert ActiveSet(c.flights) == ActiveSet(g.flights);
    forall x | 0 <= x < |c.flights| ensures FlightOk(c, x, q) { assert FlightOk(g, x, {}); }
    forall v | 0 <= v < |c.waiters| ensures WaiterOk(c, v) { assert WaiterOk(g, v); }
    forall p | p in q ensures p !in c.started { QueuedNotStarted(g, p); }
    assert KeysOk(c);
  }

  lemma QueuedNotStarted(g: GateState, p: nat)
    requires Increasing(g.started + g.queue) && p in g.queue
    ensures p !in g.started
  {
    var j :| 0 <= j < |g.queue| && g.queue[j] == p;
    forall i | 0 <= i < |g.started|
      ensures g.started[i] != p
    {
      assert (g.started + g.queue)[i] < (g.started + g.queue)[|g.started| + j];
    }
  }

  lemma AbortQueuedKeepsValid(g: GateState)
    requires Valid(g)
    ensures Valid(AbortQueuedStep(g))
  {
    if !g.shuttingDown {
      var g1 := g.(shuttingDown := true, queue := []);
      IncreasingSuffix(g.started, g.queue);
      CloseDrains(g);
      FinishAllKeepsCore(g1, g.queue, QueueFull(1));
      var h := FinishAll(g1, g.queue, QueueFull(1));
      assert Clean(h, []).flights == h.flights;
      assert Clean(h, []) == h;
      assert Elements([]) == {};
      FinishAllFrame(g1, g.queue, QueueFull(1));
    }
  }

  /** What settling many flights leaves alone. */
  lemma {:induction false} FinishAllFrame(g: GateState, fs: seq<nat>, outcome: Outcome)
    requires forall i :: 0 <= i < |fs| ==> fs[i] < |g.flights|
    ensures
      var h := FinishAll(g, fs, outcome);
      && h.shuttingDown == g.shuttingDown && h.queue == g.queue && h.active == g.active
      && h.metrics == g.metrics && h.started == g.started && h.options == g.options
      && |h.flights| == |g.flights| && |h.waiters| == |g.waiters|
    decreases |fs|
  {
    if fs != [] {
      var g1 := ClearTimer(g, fs[0]);
      FinishAllFrame(FinishFlight(g1, fs[0], outcome), fs[1..], outcome);
    }
  }

  lemma ConfigureKeepsValid(g: GateState, options: Options)
    requires Valid(g)
    ensures Valid(ConfigureStep(g, options))
  {
    var h := ConfigureStep(g, options);
    forall x | 0 <= x < |h.flights| ensures FlightOk(h, x, {}) { assert FlightOk(g, x, {}); }
    forall v | 0 <= v < |h.waiters| ensures WaiterOk(h, v) { assert WaiterOk(g, v); }
  }

  lemma NewGateValid(options: Options)
    ensures Valid(NewGate(options))
  {
  }

  /** Every callback keeps the gate valid. */
  lemma StepKeepsValid(g: GateState, e: Event)
    requires Valid(g) && Enabled(g, e)
    ensures Valid(Step(g, e))
  {
    match e
    case Run(key, hasSignal, preAborted) => RunKeepsValid(g, key, hasSignal, preAborted);
    case CallerAbort(w) => CancelKeepsValid(g, w);
    case TimerFires(f) => TimerKeepsValid(g, f);
    case TaskSettles(f, o) => SettleKeepsValid(g, f, o);
    case AbortQueued => AbortQueuedKeepsValid(g);
    case Configure(o) => ConfigureKeepsValid(g, o);
  }
}
