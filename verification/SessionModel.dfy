/**
 * The session store as a state machine: one document on disk, one process with its
 * memory, its chain of pending operations and at most one write in flight.  A step is
 * one synchronous stretch of the code; a crash may come between any two steps.
 */
module SessionModel {
  import opened Common
  import opened SessionDocument

  const MAX_ACTIVE_SESSIONS := 5000

  datatype Op = Initialize | Add(sid: string, exp: int) | Remove(sid: string)

  /** The operation whose document is being written; `renamed` once it replaced the old one. */
  datatype Writing = Writing(op: Op, document: Json, renamed: bool)

  datatype Process = Process(
    epoch: Option<string>,
    sessions: Allowlist,
    initialized: bool,
    healthy: bool,
    pending: seq<Op>,
    writing: Option<Writing>)

  /**
   * An operation that took effect.  Normally its caller was told so; the one exception
   * is the operation in flight when the process died between its rename and its answer.
   */
  datatype Entry = Acknowledged(op: Op) | CutOff(op: Op)

  /** `log` is the history of adds and removes that took effect. */
  datatype System = System(disk: Option<Json>, process: Process, now: int, log: seq<Entry>)

  const Booted := Process(None, map[], false, false, [], None)

  predicate Usable(p: Process) {
    p.initialized && p.healthy
  }

  /** `has`: the synchronous membership check. */
  predicate Has(p: Process, sid: string, exp: int) {
    Usable(p) && sid in p.sessions && p.sessions[sid] == exp
  }

  function GetEpoch(p: Process): Option<string> {
    if Usable(p) then p.epoch else None
  }

  /** Drop the entries that have expired by `now`. */
  function Live(m: Allowlist, now: int): Allowlist {
    map sid | sid in m && m[sid] > now :: m[sid]
  }

  // ---------------------------------------------------------------------------
  // Calls
  // ---------------------------------------------------------------------------

  /** Is the call rejected before it enters the chain? */
  predicate RejectedAtCall(p: Process, op: Op) {
    match op
    case Initialize => false
    case Add(sid, exp) => !Usable(p) || !IsValidSid(sid) || !IsValidExpiry(exp)
    case Remove(sid) => !Usable(p)
  }

  function Call(p: Process, op: Op): Process {
    if RejectedAtCall(p, op) then p else p.(pending := p.pending + [op])
  }

  // ---------------------------------------------------------------------------
  // The next operation of the chain, up to its first write
  // ---------------------------------------------------------------------------

  /** What an operation comes to before any write: settle at once, or write a document. */
  datatype Plan = Rejected(sessions: Allowlist) | Done | Write(epoch: string, sessions: Allowlist)

  /** A document needs an epoch; without one the write is refused after memory has changed. */
  function PlanWrite(p: Process, sessions: Allowlist): Plan {
    if p.epoch.None? then Rejected(sessions) else Write(p.epoch.value, sessions)
  }

  function PlanAdd(p: Process, sid: string, exp: int, now: int): Plan {
    if !Usable(p) then Rejected(p.sessions)
    else
      var kept := Live(p.sessions, now);
      if sid !in kept && |kept| >= MAX_ACTIVE_SESSIONS then Rejected(kept)
      else PlanWrite(p, kept[sid := exp])
  }

  function PlanRemove(p: Process, sid: string): Plan {
    if !Usable(p) then Rejected(p.sessions)
    else if sid !in p.sessions then Done
    else PlanWrite(p, p.sessions - {sid})
  }

  /** Begin the head of the chain; `records` is the sorted snapshot if a document is written. */
  function Begin(p: Process, plan: Plan, records: seq<Record>): Process
    requires p.pending != []
  {
    var rest := p.pending[1..];
    match plan
    case Rejected(sessions) => p.(pending := rest, sessions := sessions)
    case Done => p.(pending := rest)
    case Write(epoch, sessions) =>
      p.(pending := rest, epoch := Some(epoch), sessions := sessions,
         writing := Some(Writing(p.pending[0], DocumentOf(epoch, records), false)))
  }

  /** `initialize` on a file that exists: load it, or fail and leave nothing loaded. */
  function BeginLoad(p: Process, document: Json): Process
    requires p.pending != []
  {
    var rest := p.pending[1..];
    match Load(document)
    case Ok(loaded) =>
      p.(pending := rest, epoch := Some(loaded.0), sessions := loaded.1, healthy := true, initialized := true)
    case Err(_) => p.(pending := rest, epoch := None, sessions := map[])
  }

  // ---------------------------------------------------------------------------
  // Steps
  // ---------------------------------------------------------------------------

  datatype Event =
    | Calls(op: Op)
    | Begins(drawn: string, records: seq<Record>)   // `drawn`: the random epoch, if one is drawn
    | ReadFails                                     // `lstat` or `readFile` of `initialize` fails
    | Renames                                       // the new document replaces the old one
    | Completes                                     // the operation's caller is told it succeeded
    | WriteFails                                    // anything before the rename fails
    | Ticks(now: int)
    | Crashes                                       // the process dies and a new one starts

  function PlanHead(s: System, drawn: string): Plan
    requires s.process.pending != []
  {
    match s.process.pending[0]
    case Initialize => Write(drawn, map[])
    case Add(sid, exp) => PlanAdd(s.process, sid, exp, s.now)
    case Remove(sid) => PlanRemove(s.process, sid)
  }

  /** Does the head of the chain load an existing document? */
  predicate HeadLoads(s: System) {
    s.process.pending != [] && s.process.pending[0] == Initialize && s.disk.Some?
  }

  ghost predicate Enabled(s: System, e: Event) {
    var p := s.process;
    match e
    case Calls(_) => true
    case Begins(drawn, records) =>
      && p.pending != [] && p.writing.None? && IsValidEpoch(drawn)
      && (!HeadLoads(s) && PlanHead(s, drawn).Write? ==> IsSnapshot(records, PlanHead(s, drawn).sessions))
    case ReadFails => p.pending != [] && p.writing.None? && p.pending[0] == Initialize
    case Renames => p.writing.Some? && !p.writing.value.renamed
    case Completes => p.writing.Some? && p.writing.value.renamed
    case WriteFails => p.writing.Some? && !p.writing.value.renamed
    case Ticks(now) => s.now <= now
    case Crashes => true
  }

  function Note(log: seq<Entry>, entry: Entry): seq<Entry> {
    if entry.op == Initialize then log else log + [entry]
  }

  function Step(s: System, e: Event): System
    requires e.Begins? || e.ReadFails? ==> s.process.pending != []
    requires e.Renames? || e.Completes? ==> s.process.writing.Some?
  {
    var p := s.process;
    match e
    case Calls(op) => s.(process := Call(p, op))
    case Begins(drawn, records) =>
      if HeadLoads(s) then s.(process := BeginLoad(p, s.disk.value))
      else
        var plan := PlanHead(s, drawn);
        s.(process := Begin(p, plan, records),
           log := if plan.Done? then Note(s.log, Acknowledged(p.pending[0])) else s.log)
    case ReadFails => s.(process := p.(pending := p.pending[1..]))
    case Renames =>
      s.(disk := Some(p.writing.value.document), process := p.(writing := Some(p.writing.value.(renamed := true))))
    case Completes =>
      var op := p.writing.value.op;
      var q := p.(writing := None);
      s.(process := if op == Initialize then q.(healthy := true, initialized := true) else q,
         log := Note(s.log, Acknowledged(op)))
    case WriteFails => s.(process := p.(writing := None, healthy := false, initialized := true))
    case Ticks(now) => s.(now := now)
    case Crashes =>
      s.(process := Booted,
         log := if p.writing.Some? && p.writing.value.renamed then Note(s.log, CutOff(p.writing.value.op)) else s.log)
  }

  // ---------------------------------------------------------------------------
  // The serial meaning of adds and removes
  // ---------------------------------------------------------------------------

  function Apply(m: Allowlist, op: Op): Allowlist {
    match op
    case Initialize => m
    case Add(sid, exp) => m[sid := exp]
    case Remove(sid) => m - {sid}
  }

  function Fold(log: seq<Entry>): Allowlist {
    if log == [] then map[] else Apply(Fold(log[..|log| - 1]), log[|log| - 1].op)
  }
}
