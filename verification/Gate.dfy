/**
 * The gate as the source has it: one `ConcurrencyGate` whose methods change flight
 * objects, the queue, the key map and the counters in place.  The ghost field `model`
 * holds the value-level state; every method moves it by the step of `GateModel` it
 * implements and keeps the objects mirroring it, so the theorems about runs of steps
 * are about these objects.  Callers' promises are numbered rows of the gate.
 */
module Gate {
  import opened Common
  import opened GateModel
  import GateInvariant

  class Flight {
    const id: nat
    const key: string
    var state: FlightState
    var waiters: set<nat>
    /** Has the flight's own AbortController been aborted? */
    var aborted: bool
    /** Is the queue timer armed? */
    var queueTimer: bool
    /** What the flight's core promise settled with. */
    var core: Option<Outcome>

    constructor (id: nat, key: string)
      ensures this.id == id && this.key == key
      ensures state == Queued && waiters == {} && !aborted && !queueTimer && core == None
    {
      this.id, this.key := id, key;
      state, waiters, aborted, queueTimer, core := Queued, {}, false, false, None;
    }

    ghost predicate Mirrors(v: FlightData)
      reads this
    {
      && key == v.key && state == v.state && waiters == v.waiters
      && aborted == v.aborted && queueTimer == v.timer && core == v.outcome
    }
  }

  class ConcurrencyGate {
    var options: Options
    var active: int
    var queue: seq<Flight>
    var flights: map<string, Flight>
    var shuttingDown: bool
    var metrics: Metrics
    /** Every flight and every caller ever created, each at its own number. */
    var created: seq<Flight>
    var callers: seq<WaiterData>
    ghost var model: GateState

    ghost predicate Owns(f: Flight)
      reads `created
    {
      f.id < |created| && created[f.id] == f
    }

    ghost predicate MirrorsQueue(q: seq<nat>)
      reads `created, `queue
    {
      |queue| == |q| && forall i :: 0 <= i < |q| ==> Owns(queue[i]) && queue[i].id == q[i]
    }

    ghost predicate MirrorsKeys(keyed: map<string, nat>)
      reads `created, `flights
    {
      && (forall k :: k in flights <==> k in keyed)
      && (forall k :: k in flights ==> Owns(flights[k]) && flights[k].id == keyed[k])
    }

    ghost predicate MirrorsFlights(fs: seq<FlightData>)
      reads `created, created
    {
      |created| == |fs| && forall i :: 0 <= i < |fs| ==> created[i].id == i && created[i].Mirrors(fs[i])
    }

    /** The fields and objects are exactly the model state. */
    ghost predicate Mirrors()
      reads this, created
    {
      && options == model.options && active == model.active
      && shuttingDown == model.shuttingDown && metrics == model.metrics
      && callers == model.waiters
      && MirrorsQueue(model.queue) && MirrorsKeys(model.keyed) && MirrorsFlights(model.flights)
    }

    ghost predicate Valid()
      reads this, created
    {
      Mirrors() && GateModel.Valid(model)
    }

    constructor (options: Options)
      ensures Valid() && model == NewGate(options)
    {
      this.options, active, queue, flights, shuttingDown := options, 0, [], map[], false;
      metrics := Metrics(0, 0, 0, 0);
      created, callers, model := [], [], NewGate(options);
      new;
      GateInvariant.NewGateValid(options);
    }

    // -------------------------------------------------------------------------
    // Private methods
    // -------------------------------------------------------------------------

    method CreateFlight(key: string) returns (flight: Flight)
      requires Mirrors()
      modifies this`created, this`model
      ensures Mirrors() && fresh(flight) && created == old(created) + [flight] && Owns(flight)
      ensures model == GateModel.CreateFlight(old(model), key)
    {
      flight := new Flight(|created|, key);
      created := created + [flight];
      model := GateModel.CreateFlight(model, key);
    }

    method AttachWaiter(flight: Flight, hasSignal: bool) returns (waiter: nat)
      requires Mirrors() && Owns(flight)
      modifies this`callers, this`model, flight`waiters
      ensures Mirrors() && waiter == |old(callers)|
      ensures model == GateModel.AttachWaiter(old(model), flight.id, hasSignal)
    {
      waiter := |callers|;
      callers := callers + [WaiterData(flight.id, hasSignal, false, [])];
      flight.waiters := flight.waiters + {waiter};
      model := GateModel.AttachWaiter(model, flight.id, hasSignal);
    }

    /** Settle one caller with what the flight's core promise settled with. */
    method ReleaseWaiter(flight: Flight, waiter: nat)
      requires flight.core.Some? && waiter < |callers|
      modifies this`callers, flight`waiters
      ensures callers == old(callers)[waiter := Release(old(callers)[waiter], flight.core.value)]
    {
      var wt := callers[waiter];
      if wt.cancelled {
        return;
      }
      callers := callers[waiter := wt.(cancelled := true, results := wt.results + [flight.core.value])];
      flight.waiters := flight.waiters - {waiter};
    }

    /** Release every remaining waiter of a flight whose core promise has settled. */
    method ReleaseWaiters(flight: Flight)
      requires flight.core.Some? && forall w :: w in flight.waiters ==> w < |callers|
      modifies this`callers, flight`waiters
      ensures flight.waiters == {}
      ensures callers == ReleaseAll(old(callers), old(flight.waiters), flight.core.value)
    {
      var todo := flight.waiters;
      ghost var done: set<nat> := {};
      while todo != {}
        invariant todo !! done && todo + done == old(flight.waiters)
        invariant |callers| == |old(callers)|
        invariant forall w :: 0 <= w < |callers| ==>
          callers[w] == if w in done then Release(old(callers)[w], flight.core.value) else old(callers)[w]
        decreases todo
      {
        var waiter :| waiter in todo;
        ReleaseWaiter(flight, waiter);
        todo, done := todo - {waiter}, done + {waiter};
      }
      flight.waiters := {};
      assert done == old(flight.waiters);
    }

    /** Drop a flight's key, but only while the map still leads to this very flight. */
    method ForgetKey(flight: Flight)
      requires MirrorsKeys(model.keyed) && Owns(flight)
      modifies this`flights
      ensures MirrorsKeys(Forget(model.keyed, flight.key, flight.id))
    {
      if flight.key != "" && flight.key in flights {
        var current := flights[flight.key];
        if current == flight {
          flights := flights - {flight.key};
        }
      }
    }

    /** The flight and its callers settle; the key map and the model are untouched. */
    method SettleObjects(flight: Flight, outcome: Outcome, ghost fl: FlightData)
      requires flight.Mirrors(fl) && forall w :: w in fl.waiters ==> w < |callers|
      modifies this`callers, flight
      ensures flight.Mirrors(fl.(state := Settled, waiters := {}, outcome := Some(outcome)))
      ensures callers == ReleaseAll(old(callers), fl.waiters, outcome)
    {
      flight.state := Settled;
      flight.core := Some(outcome);
      ReleaseWaiters(flight);
    }

    method FinishFlight(flight: Flight, outcome: Outcome)
      requires Mirrors() && Owns(flight) && InRange(model)
      requires forall w :: w in flight.waiters ==> w < |callers|
      modifies this`flights, this`callers, this`model, flight
      ensures Mirrors() && model == GateModel.FinishFlight(old(model), flight.id, outcome)
    {
      ghost var fl := model.flights[flight.id];
      assert flight.Mirrors(fl);
      if flight.state != Settled {
        FinishLive(flight, outcome, fl);
      }
    }

    method FinishLive(flight: Flight, outcome: Outcome, ghost fl: FlightData)
      requires Mirrors() && Owns(flight) && fl == model.flights[flight.id] && fl.state != Settled
      requires forall w :: w in fl.waiters ==> w < |callers|
      modifies this`flights, this`callers, this`model, flight
      ensures Mirrors() && model == GateModel.FinishFlight(old(model), flight.id, outcome)
    {
      ForgetKey(flight);
      SettleObjects(flight, outcome, fl);
      ghost var settled := fl.(state := Settled, waiters := {}, outcome := Some(outcome));
      model := GateModel.FinishFlight(model, flight.id, outcome);
      assert MirrorsQueue(model.queue) && MirrorsKeys(model.keyed);
      MirrorsUpdated(old(model).flights, flight, settled);
    }

    /** The objects still mirror the flights when one of both has changed. */
    lemma MirrorsUpdated(fs: seq<FlightData>, flight: Flight, fl: FlightData)
      requires |created| == |fs| && flight in created && flight.id < |fs| && flight.Mirrors(fl)
      requires forall i :: 0 <= i < |fs| ==> created[i].id == i
      requires forall i :: 0 <= i < |fs| && i != flight.id ==> created[i].Mirrors(fs[i])
      ensures MirrorsFlights(fs[flight.id := fl])
    {
    }

    method StartFlight(flight: Flight)
      requires Mirrors() && Owns(flight)
      modifies this`active, this`metrics, this`model, flight`state, flight`queueTimer
      ensures Mirrors() && model == GateModel.StartFlight(old(model), flight.id)
    {
      active := active + 1;
      metrics := metrics.(totalRuns := metrics.totalRuns + 1);
      if flight.queueTimer {
        flight.queueTimer := false;
      }
      flight.state := Active;
      model := GateModel.StartFlight(model, flight.id);
    }

    /** `queue.indexOf` and `splice`. */
    method Splice(flight: Flight)
      requires MirrorsQueue(model.queue) && Owns(flight)
      modifies this`queue
      ensures MirrorsQueue(RemoveFirst(model.queue, flight.id))
    {
      var idx := 0;
      while idx < |queue| && queue[idx] != flight
        invariant 0 <= idx <= |queue|
        invariant forall j :: 0 <= j < idx ==> queue[j] != flight
      {
        idx := idx + 1;
      }
      if idx < |queue| {
        GateInvariant.RemoveFirstAt(model.queue, idx, flight.id);
        queue := queue[..idx] + queue[idx + 1..];
      } else {
        GateInvariant.RemoveFirstAbsent(model.queue, flight.id);
      }
    }

    method RemoveQueued(flight: Flight)
      requires Mirrors() && Owns(flight)
      modifies this`queue, this`model, flight`queueTimer
      ensures Mirrors() && model == GateModel.RemoveQueued(old(model), flight.id)
    {
      Splice(flight);
      if flight.queueTimer {
        flight.queueTimer := false;
      }
      model := GateModel.RemoveQueued(model, flight.id);
      assert MirrorsFlights(model.flights);
    }

    method Enqueue(flight: Flight)
      requires Mirrors() && Owns(flight) && InRange(model)
      requires forall w :: w in flight.waiters ==> w < |callers|
      modifies this, flight
      ensures Mirrors() && model == GateModel.Enqueue(old(model), flight.id) && created == old(created)
    {
      if shuttingDown {
        FinishFlight(flight, QueueFull(1));
        return;
      }
      if active < options.activeLimit {
        StartFlight(flight);
        return;
      }
      if |queue| >= options.queueMax {
        metrics := metrics.(totalRejectedFull := metrics.totalRejectedFull + 1);
        model := model.(metrics := metrics);
        FinishFlight(flight, QueueFull(RetryAfter(|queue|, options.activeLimit)));
        return;
      }
      flight.state := Queued;
      flight.queueTimer := true;
      queue := queue + [flight];
      model := GateModel.Enqueue(model, flight.id);
      assert MirrorsFlights(model.flights);
    }

    method Pump()
      requires Mirrors() && InRange(model)
      modifies this, created
      ensures Mirrors() && model == GateModel.Pump(old(model)) && created == old(created)
    {
      if shuttingDown {
        return;
      }
      ghost var goal := GateModel.Pump(model);
      while active < options.activeLimit && |queue| > 0
        invariant Mirrors() && InRange(model) && GateModel.Pump(model) == goal && !shuttingDown
        invariant created == old(created)
        decreases |queue|
      {
        ShiftAndStart();
      }
    }

    method ShiftAndStart()
      requires Mirrors() && InRange(model) && |queue| > 0
      modifies this`queue, this`active, this`metrics, this`model, created
      ensures Mirrors() && InRange(model) && |queue| == |old(queue)| - 1
      ensures model == GateModel.StartFlight(old(model).(queue := old(model).queue[1..]), old(model).queue[0])
    {
      var flight := queue[0];
      queue := queue[1..];
      model := model.(queue := model.queue[1..]);
      StartFlight(flight);
    }

    /** When the last waiter leaves, drop queued work or abort the flight's controller. */
    method MaybeAbandon(flight: Flight)
      requires Mirrors() && Owns(flight) && InRange(model)
      modifies this, flight
      ensures Mirrors() && model == GateModel.MaybeAbandon(old(model), flight.id) && created == old(created)
    {
      if flight.state == Settled {
        return;
      }
      if |flight.waiters| > 0 {
        return;
      }
      if flight.state == Queued {
        RemoveQueued(flight);
        FinishFlight(flight, NoWaitersRemain);
      } else {
        flight.aborted := true;
        model := GateModel.MaybeAbandon(model, flight.id);
        assert MirrorsFlights(model.flights);
      }
    }

    // -------------------------------------------------------------------------
    // The callbacks
    // -------------------------------------------------------------------------

    /**
     * Admit a caller, joining a live flight with the same key if there is one.
     * `rejection` is the error of a caller that is turned away without a waiter.
     */
    method Run(key: string, hasSignal: bool, preAborted: bool) returns (waiter: Option<nat>, rejection: Option<Outcome>)
      requires Valid()
      modifies this, created
      ensures Valid() && model == Step(old(model), GateModel.Run(key, hasSignal, preAborted))
      ensures rejection.Some? <==> TurnedAway(old(model), hasSignal, preAborted)
      ensures rejection.Some? ==> rejection.value == if hasSignal && preAborted then CallerAborted else QueueFull(1)
      ensures waiter == if rejection.Some? then None else Some(|old(callers)|)
    {
      GateInvariant.StepKeepsValid(model, GateModel.Run(key, hasSignal, preAborted));
      if hasSignal && preAborted {
        return None, Some(CallerAborted);
      }
      if shuttingDown {
        return None, Some(QueueFull(1));
      }
      var w := Admit(key, hasSignal);
      return Some(w), None;
    }

    method Admit(key: string, hasSignal: bool) returns (waiter: nat)
      requires Mirrors() && InRange(model) && !shuttingDown
      modifies this, created
      ensures Mirrors() && model == RunStep(old(model), key, hasSignal, false) && waiter == |old(callers)|
    {
      if key != "" && key in flights {
        var existing := flights[key];
        assert existing.Mirrors(model.flights[existing.id]);
        if existing.state != Settled && !existing.aborted {
          metrics := metrics.(flightsSaved := metrics.flightsSaved + 1);
          model := model.(metrics := metrics);
          waiter := AttachWaiter(existing, hasSignal);
          return;
        }
      }
      waiter := RunFresh(key, hasSignal);
    }

    /** Admit a caller whose key no live flight serves. */
    method RunFresh(key: string, hasSignal: bool) returns (waiter: nat)
      requires Mirrors() && InRange(model) && !shuttingDown && !Joinable(model, key)
      modifies this, created
      ensures Mirrors() && model == RunStep(old(model), key, hasSignal, false) && waiter == |old(callers)|
    {
      var flight := Register(key);
      waiter := AttachWaiter(flight, hasSignal);
      Enqueue(flight);
    }

    /** Create a flight and, if it has a key, enter it in the key map. */
    method Register(key: string) returns (flight: Flight)
      requires Mirrors() && InRange(model)
      modifies this`flights, this`model, this`created
      ensures Mirrors() && InRange(model) && fresh(flight) && Owns(flight) && flight.waiters == {}
      ensures created == old(created) + [flight] && flight.id == |old(model).flights|
      ensures var g := GateModel.CreateFlight(old(model), key);
        model == if key != "" then g.(keyed := g.keyed[key := flight.id]) else g
    {
      flight := CreateFlight(key);
      if key != "" {
        flights := flights[key := flight];
        model := model.(keyed := model.keyed[key := flight.id]);
      }
    }

    /** The abort listener of one caller. */
    method CancelWaiter(waiter: nat)
      requires Valid() && Enabled(model, CallerAbort(waiter))
      modifies this, created
      ensures Valid() && model == Step(old(model), CallerAbort(waiter))
    {
      GateInvariant.StepKeepsValid(model, CallerAbort(waiter));
      Leave(waiter);
    }

    method Leave(waiter: nat)
      requires Mirrors() && InRange(model) && waiter < |callers|
      modifies this, created
      ensures Mirrors() && model == GateModel.CancelWaiter(old(model), waiter)
    {
      var wt := callers[waiter];
      if wt.cancelled {
        return;
      }
      var flight := created[wt.flight];
      callers := callers[waiter := wt.(cancelled := true, results := wt.results + [CallerAborted])];
      assert flight.Mirrors(model.flights[flight.id]);
      flight.waiters := flight.waiters - {waiter};
      model := model.(
        waiters := callers,
        flights := model.flights[flight.id := model.flights[flight.id].(waiters := flight.waiters)]);
      assert MirrorsFlights(model.flights);
      MaybeAbandon(flight);
    }

    /** The queue timer of one flight. */
    method TimerFires(flight: Flight)
      requires Valid() && Owns(flight) && flight.queueTimer
      modifies this, flight
      ensures Valid() && model == Step(old(model), GateModel.TimerFires(flight.id))
    {
      GateInvariant.StepKeepsValid(model, GateModel.TimerFires(flight.id));
      GateInvariant.FlightInRange(model, flight.id);
      TimeOut(flight);
    }

    method TimeOut(flight: Flight)
      requires Mirrors() && Owns(flight) && InRange(model)
      requires forall w :: w in flight.waiters ==> w < |callers|
      modifies this, flight
      ensures Mirrors() && model == TimerStep(old(model), flight.id)
    {
      GateInvariant.RemoveFirstInRange(model, flight.id);
      RemoveQueued(flight);
      metrics := metrics.(totalQueueTimeouts := metrics.totalQueueTimeouts + 1);
      model := model.(metrics := metrics);
      FinishFlight(flight, QueueTimeout);
    }

    /** The task of an active flight settles. */
    method TaskSettles(flight: Flight, outcome: Outcome)
      requires Valid() && Owns(flight) && Enabled(model, GateModel.TaskSettles(flight.id, outcome))
      modifies this, created
      ensures Valid() && model == Step(old(model), GateModel.TaskSettles(flight.id, outcome))
    {
      GateInvariant.StepKeepsValid(model, GateModel.TaskSettles(flight.id, outcome));
      GateInvariant.FlightInRange(model, flight.id);
      Settle(flight, outcome);
    }

    method Settle(flight: Flight, outcome: Outcome)
      requires Mirrors() && Owns(flight) && InRange(model)
      requires forall w :: w in flight.waiters ==> w < |callers|
      modifies this, created
      ensures Mirrors() && model == SettleStep(old(model), flight.id, outcome)
    {
      FreeSlot(flight, outcome);
      Pump();
    }

    /** The settlement up to the pump. */
    method FreeSlot(flight: Flight, outcome: Outcome)
      requires Mirrors() && Owns(flight) && InRange(model)
      requires forall w :: w in flight.waiters ==> w < |callers|
      modifies this`active, this`flights, this`callers, this`model, flight
      ensures Mirrors() && InRange(model)
      ensures model == GateModel.FinishFlight(old(model).(active := old(model).active - 1), flight.id, outcome)
    {
      GateInvariant.FinishInRange(model, flight.id, outcome);
      active := active - 1;
      model := model.(active := active);
      FinishFlight(flight, outcome);
    }

    method AbortQueued()
      requires Valid()
      modifies this, created
      ensures Valid() && model == Step(old(model), GateModel.AbortQueued)
    {
      GateInvariant.StepKeepsValid(model, GateModel.AbortQueued);
      if shuttingDown {
        return;
      }
      GateInvariant.AllInRange(model);
      Shutdown();
    }

    method Shutdown()
      requires Mirrors() && InRange(model) && WaitersInRange(model) && !shuttingDown
      modifies this, created
      ensures Mirrors() && model == AbortQueuedStep(old(model))
    {
      shuttingDown := true;
      var queued := queue;
      queue := [];
      ghost var ids := model.queue;
      model := model.(shuttingDown := true, queue := []);
      RejectAll(queued, ids);
    }

    method RejectAll(queued: seq<Flight>, ghost ids: seq<nat>)
      requires Mirrors() && InRange(model) && WaitersInRange(model)
      requires |ids| == |queued| && forall i :: 0 <= i < |ids| ==> Owns(queued[i]) && queued[i].id == ids[i]
      requires forall i :: 0 <= i < |ids| ==> ids[i] < |model.flights|
      modifies this`flights, this`callers, this`model, created
      ensures Mirrors() && model == FinishAll(old(model), ids, QueueFull(1))
    {
      var i := 0;
      ghost var rest, goal := ids, FinishAll(model, ids, QueueFull(1));
      while i < |queued|
        invariant 0 <= i <= |queued| && rest == ids[i..]
        invariant Mirrors() && InRange(model) && WaitersInRange(model)
        invariant |model.flights| == |old(model).flights|
        invariant FinishAll(model, rest, QueueFull(1)) == goal
      {
        GateInvariant.FinishOneInRange(model, ids[i], QueueFull(1));
        RejectOne(queued[i]);
        i, rest := i + 1, rest[1..];
      }
    }

    method RejectOne(flight: Flight)
      requires Mirrors() && Owns(flight) && InRange(model)
      requires forall w :: w in model.flights[flight.id].waiters ==> w < |callers|
      modifies this`flights, this`callers, this`model, flight
      ensures Mirrors() && model == GateModel.FinishFlight(ClearTimer(old(model), flight.id), flight.id, QueueFull(1))
    {
      assert flight.Mirrors(model.flights[flight.id]);
      if flight.queueTimer {
        flight.queueTimer := false;
      }
      model := ClearTimer(model, flight.id);
      assert MirrorsFlights(model.flights);
      FinishFlight(flight, QueueFull(1));
    }

    /** Returns false where the source throws. */
    method Configure(options: Options) returns (ok: bool)
      requires Valid()
      modifies this`options, this`model
      ensures Valid() && model == Step(old(model), GateModel.Configure(options))
      ensures ok <==> !shuttingDown && active == 0 && |queue| == 0
    {
      GateInvariant.StepKeepsValid(model, GateModel.Configure(options));
      if shuttingDown || active > 0 || |queue| > 0 {
        return false;
      }
      this.options := options;
      model := model.(options := options);
      return true;
    }
  }
}
