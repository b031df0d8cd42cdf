/**
 * The bounded single-flight gate of src/services/ytdlp/queue.ts as a state machine
 * over values.  Flights and waiters are named by the order in which they were
 * created, so a flight's number is also its place in the admission order.
 * Module `Gate` holds the objects that carry these values.
 */
module GateModel {
  import opened Common

  /** Every way a flight or a waiter can settle. */
  datatype Outcome =
    | Fulfilled(value: int)
    | TaskFailed(reason: int)
    | QueueFull(retryAfterSeconds: nat)
    | QueueTimeout
    | NoWaitersRemain
    | CallerAborted

  datatype FlightState = Queued | Active | Settled

  /** An empty key stands for "no key": the source tests keys for truthiness. */
  datatype FlightData = FlightData(
    key: string,
    state: FlightState,
    waiters: set<nat>,
    aborted: bool,
    timer: bool,
    outcome: Option<Outcome>)

  /** `results` lists every resolve/reject call made on the caller's promise. */
  datatype WaiterData = WaiterData(flight: nat, hasSignal: bool, cancelled: bool, results: seq<Outcome>)

  datatype Options = Options(activeLimit: nat, queueMax: nat)

  datatype Metrics = Metrics(totalRuns: nat, totalRejectedFull: nat, totalQueueTimeouts: nat, flightsSaved: nat)

  /** `started` is the history of `startFlight` calls. */
  datatype GateState = GateState(
    options: Options,
    active: int,
    queue: seq<nat>,
    keyed: map<string, nat>,
    shuttingDown: bool,
    metrics: Metrics,
    flights: seq<FlightData>,
    waiters: seq<WaiterData>,
    started: seq<nat>)

  function NewGate(options: Options): GateState {
    GateState(options, 0, [], map[], false, Metrics(0, 0, 0, 0), [], [], [])
  }

  // ---------------------------------------------------------------------------
  // The private methods of the gate
  // ---------------------------------------------------------------------------

  function CreateFlight(g: GateState, key: string): GateState {
    g.(flights := g.flights + [FlightData(key, Queued, {}, false, false, None)])
  }

  function AttachWaiter(g: GateState, f: nat, hasSignal: bool): GateState
    requires f < |g.flights|
  {
    var fl := g.flights[f];
    g.(flights := g.flights[f := fl.(waiters := fl.waiters + {|g.waiters|})],
       waiters := g.waiters + [WaiterData(f, hasSignal, false, [])])
  }

  function Release(w: WaiterData, outcome: Outcome): WaiterData {
    if w.cancelled then w else w.(cancelled := true, results := w.results + [outcome])
  }

  /** Release the waiters named by `which`. */
  function ReleaseAll(ws: seq<WaiterData>, which: set<nat>, outcome: Outcome): (r: seq<WaiterData>)
    ensures |r| == |ws|
    ensures forall w :: 0 <= w < |ws| ==> r[w] == if w in which then Release(ws[w], outcome) else ws[w]
  {
    seq(|ws|, i requires 0 <= i < |ws| => if i in which then Release(ws[i], outcome) else ws[i])
  }

  /** Drop a key that still leads to this flight. */
  function Forget(keyed: map<string, nat>, key: string, f: nat): map<string, nat> {
    if key != "" && key in keyed && keyed[key] == f then keyed - {key} else keyed
  }

  function FinishFlight(g: GateState, f: nat, outcome: Outcome): GateState
    requires f < |g.flights|
  {
    var fl := g.flights[f];
    if fl.state == Settled then g
    else
      g.(flights := g.flights[f := fl.(state := Settled, waiters := {}, outcome := Some(outcome))],
         keyed := Forget(g.keyed, fl.key, f),
         waiters := ReleaseAll(g.waiters, fl.waiters, outcome))
  }

  function StartFlight(g: GateState, f: nat): GateState
    requires f < |g.flights|
  {
    g.(active := g.active + 1,
       metrics := g.metrics.(totalRuns := g.metrics.totalRuns + 1),
       flights := g.flights[f := g.flights[f].(state := Active, timer := false)],
       started := g.started + [f])
  }

  function RemoveFirst(q: seq<nat>, f: nat): seq<nat> {
    if q == [] then [] else if q[0] == f then q[1..] else [q[0]] + RemoveFirst(q[1..], f)
  }

  /** Splice a flight out of the queue and clear its timer. */
  function RemoveQueued(g: GateState, f: nat): GateState
    requires f < |g.flights|
  {
    g.(queue := RemoveFirst(g.queue, f), flights := g.flights[f := g.flights[f].(timer := false)])
  }

  function Max(a: int, b: int): int { if a < b then b else a }

  function CeilDiv(a: nat, b: nat): nat
    requires b > 0
  {
    (a + b - 1) / b
  }

  function RetryAfter(queued: nat, activeLimit: nat): nat {
    Max(1, CeilDiv(queued, Max(1, activeLimit)))
  }

  function Enqueue(g: GateState, f: nat): GateState
    requires f < |g.flights|
  {
    if g.shuttingDown then FinishFlight(g, f, QueueFull(1))
    else if g.active < g.options.activeLimit then StartFlight(g, f)
    else if |g.queue| >= g.options.queueMax then
      FinishFlight(g.(metrics := g.metrics.(totalRejectedFull := g.metrics.totalRejectedFull + 1)),
                   f, QueueFull(RetryAfter(|g.queue|, g.options.activeLimit)))
    else
      g.(flights := g.flights[f := g.flights[f].(state := Queued, timer := true)], queue := g.queue + [f])
  }

  function Pump(g: GateState): GateState
    requires forall i :: 0 <= i < |g.queue| ==> g.queue[i] < |g.flights|
    decreases |g.queue|
  {
    if !g.shuttingDown && g.active < g.options.activeLimit && |g.queue| > 0 then
      Pump(StartFlight(g.(queue := g.queue[1..]), g.queue[0]))
    else g
  }

  function ClearTimer(g: GateState, f: nat): GateState
    requires f < |g.flights|
  {
    g.(flights := g.flights[f := g.flights[f].(timer := false)])
  }

  function FinishAll(g: GateState, fs: seq<nat>, outcome: Outcome): GateState
    requires forall i :: 0 <= i < |fs| ==> fs[i] < |g.flights|
    decreases |fs|
  {
    if fs == [] then g
    else
      FinishAll(FinishFlight(ClearTimer(g, fs[0]), fs[0], outcome), fs[1..], outcome)
  }

  // ---------------------------------------------------------------------------
  // The atomic steps: one per public method or callback
  // ---------------------------------------------------------------------------

  datatype Event =
    | Run(key: string, hasSignal: bool, preAborted: bool)
    | CallerAbort(waiter: nat)
    | TimerFires(flight: nat)
    | TaskSettles(flight: nat, outcome: Outcome)
    | AbortQueued
    | Configure(options: Options)

  /** The flight a keyed caller may join. */
  predicate Joinable(g: GateState, key: string) {
    && key != "" && key in g.keyed && g.keyed[key] < |g.flights|
    && g.flights[g.keyed[key]].state != Settled
    && !g.flights[g.keyed[key]].aborted
  }

  /** Is the caller turned away before any waiter exists? */
  predicate TurnedAway(g: GateState, hasSignal: bool, preAborted: bool) {
    (hasSignal && preAborted) || g.shuttingDown
  }

  function RunStep(g: GateState, key: string, hasSignal: bool, preAborted: bool): GateState {
    if TurnedAway(g, hasSignal, preAborted) then g
    else if Joinable(g, key) then
      AttachWaiter(g.(metrics := g.metrics.(flightsSaved := g.metrics.flightsSaved + 1)), g.keyed[key], hasSignal)
    else
      var f := |g.flights|;
      var g1 := CreateFlight(g, key);
      var g2 := if key != "" then g1.(keyed := g1.keyed[key := f]) else g1;
      Enqueue(AttachWaiter(g2, f, hasSignal), f)
  }

  function MaybeAbandon(g: GateState, f: nat): GateState
    requires f < |g.flights|
  {
    var fl := g.flights[f];
    if fl.state == Settled || fl.waiters != {} then g
    else if fl.state == Queued then FinishFlight(RemoveQueued(g, f), f, NoWaitersRemain)
    else g.(flights := g.flights[f := fl.(aborted := true)])
  }

  function CancelWaiter(g: GateState, w: nat): GateState
    requires w < |g.waiters| && g.waiters[w].flight < |g.flights|
  {
    var wt := g.waiters[w];
    if wt.cancelled then g
    else
      var fl := g.flights[wt.flight];
      MaybeAbandon(
        g.(waiters := g.waiters[w := wt.(cancelled := true, results := wt.results + [CallerAborted])],
           flights := g.flights[wt.flight := fl.(waiters := fl.waiters - {w})]),
        wt.flight)
  }

  function TimerStep(g: GateState, f: nat): GateState
    requires f < |g.flights|
  {
    FinishFlight(
      RemoveQueued(g, f).(metrics := g.metrics.(totalQueueTimeouts := g.metrics.totalQueueTimeouts + 1)),
      f, QueueTimeout)
  }

  function SettleStep(g: GateState, f: nat, outcome: Outcome): GateState
    requires f < |g.flights|
    requires forall i :: 0 <= i < |g.queue| ==> g.queue[i] < |g.flights|
  {
    Pump(FinishFlight(g.(active := g.active - 1), f, outcome))
  }

  function AbortQueuedStep(g: GateState): GateState
    requires forall i :: 0 <= i < |g.queue| ==> g.queue[i] < |g.flights|
  {
    if g.shuttingDown then g
    else FinishAll(g.(shuttingDown := true, queue := []), g.queue, QueueFull(1))
  }

  /** `configure` throws, changing nothing, unless the gate is open and idle. */
  function ConfigureStep(g: GateState, options: Options): GateState {
    if g.shuttingDown || g.active > 0 || |g.queue| > 0 then g else g.(options := options)
  }

  /** Which callbacks the runtime can fire in a state. */
  predicate Enabled(g: GateState, e: Event) {
    match e
    case Run(_, _, _) => true
    case CallerAbort(w) => w < |g.waiters| && g.waiters[w].hasSignal
    case TimerFires(f) => f < |g.flights| && g.flights[f].timer
    case TaskSettles(f, o) => f < |g.flights| && g.flights[f].state == Active && (o.Fulfilled? || o.TaskFailed?)
    case AbortQueued => true
    case Configure(_) => true
  }

  // ---------------------------------------------------------------------------
  // The validity predicate
  // ---------------------------------------------------------------------------

  ghost predicate Increasing(s: seq<nat>) {
    forall i, j :: 0 <= i < j < |s| ==> s[i] < s[j]
  }

  ghost function ActiveSet(fs: seq<FlightData>): set<nat> {
    set i | 0 <= i < |fs| && fs[i].state == Active
  }

  /** All numbers refer to existing flights and waiters. */
  ghost predicate InRange(g: GateState) {
    && (forall i :: 0 <= i < |g.queue| ==> g.queue[i] < |g.flights|)
    && (forall i :: 0 <= i < |g.started| ==> g.started[i] < |g.flights|)
    && (forall k :: k in g.keyed ==> g.keyed[k] < |g.flights|)
    && (forall w :: 0 <= w < |g.waiters| ==> g.waiters[w].flight < |g.flights|)
  }

  ghost predicate WaitersInRange(g: GateState) {
    forall f :: 0 <= f < |g.flights| ==> forall w :: w in g.flights[f].waiters ==> w < |g.waiters|
  }

  /**
   * A caller's promise: untouched while the caller waits in its flight's waiter
   * set, settled by exactly one call after that.
   */
  ghost predicate WaiterOk(g: GateState, w: nat)
    requires InRange(g) && w < |g.waiters|
  {
    var wt := g.waiters[w];
    var fl := g.flights[wt.flight];
    if !wt.cancelled then wt.results == [] && w in fl.waiters
    else
      || (wt.hasSignal && wt.results == [CallerAborted])
      || (fl.outcome.Some? && wt.results == [fl.outcome.value])
  }

  /** One flight's own fields; `pending` flights are created but not yet enqueued. */
  ghost predicate FlightOk(g: GateState, f: nat, pending: set<nat>)
    requires f < |g.flights|
  {
    var fl := g.flights[f];
    && (fl.state == Queued <==> f in g.queue || f in pending)
    && (fl.timer <==> f in g.queue)
    && (fl.state == Settled <==> fl.outcome.Some?)
    && (fl.state == Settled ==> fl.waiters == {})
    && (fl.state == Active ==> (fl.aborted <==> fl.waiters == {}))
    && (fl.state == Queued ==> fl.waiters != {} && !fl.aborted)
    && fl.outcome != Some(CallerAborted)
    && (forall w :: w in fl.waiters ==> w < |g.waiters| && g.waiters[w].flight == f && !g.waiters[w].cancelled)
  }

  /** The key map against the flights. */
  ghost predicate KeysOk(g: GateState)
    requires InRange(g)
  {
    && (forall k :: k in g.keyed ==>
          k != "" && g.flights[g.keyed[k]].key == k && g.flights[g.keyed[k]].state != Settled)
    && (forall f ::
          0 <= f < |g.flights| && g.flights[f].key != "" && g.flights[f].state != Settled && !g.flights[f].aborted ==>
          g.flights[f].key in g.keyed && g.keyed[g.flights[f].key] == f)
  }

  ghost predicate Core(g: GateState, pending: set<nat>) {
    && InRange(g)
    && (forall w :: 0 <= w < |g.waiters| ==> WaiterOk(g, w))
    && (forall f :: 0 <= f < |g.flights| ==> FlightOk(g, f, pending))
    && KeysOk(g)
    && Increasing(g.started + g.queue)
    && (forall p :: p in pending ==> p < |g.flights| && p !in g.queue && p !in g.started)
    && g.active == |ActiveSet(g.flights)| <= g.options.activeLimit
    && |g.queue| <= g.options.queueMax
    && g.metrics.totalRuns == |g.started|
    && (g.shuttingDown ==> g.queue == [])
  }

  /** No slot is idle while an admitted flight waits. */
  ghost predicate WorkConserving(g: GateState) {
    !g.shuttingDown && g.queue != [] ==> g.active == g.options.activeLimit
  }

  ghost predicate Valid(g: GateState) {
    Core(g, {}) && WorkConserving(g)
  }

  ghost function Step(g: GateState, e: Event): GateState
    requires InRange(g) && Enabled(g, e)
  {
    match e
    case Run(key, hasSignal, preAborted) => RunStep(g, key, hasSignal, preAborted)
    case CallerAbort(w) => CancelWaiter(g, w)
    case TimerFires(f) => TimerStep(g, f)
    case TaskSettles(f, o) => SettleStep(g, f, o)
    case AbortQueued => AbortQueuedStep(g)
    case Configure(o) => ConfigureStep(g, o)
  }
}
