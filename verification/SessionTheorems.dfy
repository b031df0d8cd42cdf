/** Crash refinement of the session store. */
module SessionTheorems {
  import opened Common
  import opened SessionDocument
  import opened SessionModel

  // ---------------------------------------------------------------------------
  // Expiry and the serial fold
  // ---------------------------------------------------------------------------

  lemma LiveLater(a: Allowlist, b: Allowlist, now: int, later: int)
    requires Live(a, now) == Live(b, now) && now <= later
    ensures Live(a, later) == Live(b, later)
  {
    assert Live(a, later) == Live(Live(a, now), later);
    assert Live(b, later) == Live(Live(b, now), later);
  }

  lemma LiveApply(a: Allowlist, b: Allowlist, op: Op, now: int)
    requires Live(a, now) == Live(b, now)
    ensures Live(Apply(a, op), now) == Live(Apply(b, op), now)
  {
    forall sid ensures sid in Live(Apply(a, op), now) <==> sid in Live(Apply(b, op), now) {
      assert sid in Live(a, now) <==> sid in Live(b, now);
    }
    forall sid | sid in Live(Apply(a, op), now) ensures Live(Apply(a, op), now)[sid] == Live(Apply(b, op), now)[sid] {
      assert sid in a && a[sid] > now ==> Live(a, now)[sid] == Live(b, now)[sid];
    }
  }

  lemma LivePruned(a: Allowlist, now: int)
    ensures Live(Live(a, now), now) == Live(a, now)
  {
  }

  lemma FoldAppend(log: seq<Entry>, entry: Entry)
    ensures Fold(log + [entry]) == Apply(Fold(log), entry.op)
    ensures Fold(Note(log, entry)) == Apply(Fold(log), entry.op)
  {
    assert (log + [entry])[..|log|] == log;
  }

  // ---------------------------------------------------------------------------
  // The invariant
  // ---------------------------------------------------------------------------

  /** What the disk should mean: every acknowledged operation, and the renamed one. */
  ghost function Durable(s: System): Allowlist {
    if s.process.writing.Some? && s.process.writing.value.renamed
    then Apply(Fold(s.log), s.process.writing.value.op)
    else Fold(s.log)
  }

  ghost predicate DiskOk(s: System) {
    if s.disk.None? then s.log == [] && !Usable(s.process)
    else Load(s.disk.value).Ok? && Live(Load(s.disk.value).value.1, s.now) == Live(Durable(s), s.now)
  }

  ghost function DiskEpoch(s: System): Option<string> {
    if s.disk.Some? && Load(s.disk.value).Ok? then Some(Load(s.disk.value).value.0) else None
  }

  /** A write in flight carries exactly the memory it was made from. */
  ghost predicate WritingOk(s: System)
    requires s.process.writing.Some?
  {
    var p := s.process;
    var w := p.writing.value;
    && p.epoch.Some? && Load(w.document) == Ok((p.epoch.value, p.sessions))
    && Live(p.sessions, s.now) == Live(Apply(Fold(s.log), w.op), s.now)
    && (w.renamed ==> s.disk == Some(w.document))
    && if w.op == Initialize then s.log == [] && (s.disk.None? || w.renamed)
       else Usable(p) && p.epoch == DiskEpoch(s)
  }

  ghost predicate MemoryOk(s: System) {
    var p := s.process;
    && ValidAllowlist(p.sessions)
    && (Usable(p) && p.writing.None? ==>
          && p.epoch.Some? && p.epoch == DiskEpoch(s)
          && Live(p.sessions, s.now) == Live(Fold(s.log), s.now))
    && (forall i :: 0 <= i < |p.pending| && p.pending[i].Add? ==>
          IsValidSid(p.pending[i].sid) && IsValidExpiry(p.pending[i].exp))
  }

  ghost predicate Inv(s: System) {
    && DiskOk(s)
    && MemoryOk(s)
    && (s.process.writing.Some? ==> WritingOk(s))
  }

  /** A fresh installation: no document, and a process that has not started up. */
  ghost predicate Init(s: System) {
    s.disk.None? && s.process == Booted && s.log == []
  }

  lemma InitInv(s: System)
    requires Init(s)
    ensures Inv(s)
  {
  }

  lemma BeginKeepsInv(s: System, drawn: string, records: seq<Record>)
    requires Inv(s) && Enabled(s, Begins(drawn, records)) && !HeadLoads(s)
    ensures Inv(Step(s, Begins(drawn, records)))
  {
    var p, t := s.process, Step(s, Begins(drawn, records));
    var op := p.pending[0];
    var plan := PlanHead(s, drawn);
    match plan
    case Rejected(sessions) =>
      LivePruned(p.sessions, s.now);
    case Done =>
      FoldAppend(s.log, Acknowledged(op));
      AbsentRemove(s, op.sid);
    case Write(epoch, sessions) =>
      WriteMeansApply(s, op, plan);
      PersistThenLoad(epoch, sessions, records);
  }

  /** Removing an id that memory lacks changes nothing that is live. */
  lemma AbsentRemove(s: System, sid: string)
    requires Inv(s) && s.process.writing.None? && Usable(s.process) && sid !in s.process.sessions
    ensures Live(Apply(Fold(s.log), Remove(sid)), s.now) == Live(Fold(s.log), s.now)
  {
    assert sid !in Live(s.process.sessions, s.now);
    assert sid !in Live(Fold(s.log), s.now);
  }

  lemma WriteMeansApply(s: System, op: Op, plan: Plan)
    requires Inv(s) && s.process.writing.None? && s.process.pending != [] && op == s.process.pending[0]
    requires exists drawn :: IsValidEpoch(drawn) && plan == PlanHead(s, drawn)
    requires plan.Write? && !HeadLoads(s)
    ensures IsValidEpoch(plan.epoch) && ValidAllowlist(plan.sessions)
    ensures Live(plan.sessions, s.now) == Live(Apply(Fold(s.log), op), s.now)
    ensures op != Initialize ==> Usable(s.process) && s.process.epoch == Some(plan.epoch)
  {
    var p := s.process;
    if op == Initialize {
      assert Fold([]) == map[];
    } else {
      LiveApply(p.sessions, Fold(s.log), op, s.now);
      if op.Add? {
        var kept := Live(p.sessions, s.now);
        LivePruned(p.sessions, s.now);
        LiveApply(kept, p.sessions, op, s.now);
      }
      LoadIsValid(s.disk.value);
    }
  }

  lemma LoadKeepsInv(s: System, drawn: string, records: seq<Record>)
    requires Inv(s) && Enabled(s, Begins(drawn, records)) && HeadLoads(s)
    ensures Inv(Step(s, Begins(drawn, records)))
    ensures Usable(Step(s, Begins(drawn, records)).process)
  {
    LoadIsValid(s.disk.value);
  }

  lemma RenameKeepsInv(s: System)
    requires Inv(s) && Enabled(s, Renames)
    ensures Inv(Step(s, Renames))
  {
    var w := s.process.writing.value;
    if w.op == Initialize {
      assert Fold([]) == map[];
    }
  }

  lemma CompleteKeepsInv(s: System)
    requires Inv(s) && Enabled(s, Completes)
    ensures Inv(Step(s, Completes))
  {
    FoldAppend(s.log, Acknowledged(s.process.writing.value.op));
  }

  lemma TickKeepsInv(s: System, now: int)
    requires Inv(s) && s.now <= now
    ensures Inv(Step(s, Ticks(now)))
  {
    if s.disk.Some? {
      LiveLater(Load(s.disk.value).value.1, Durable(s), s.now, now);
    }
    if s.process.writing.Some? {
      LiveLater(s.process.sessions, Apply(Fold(s.log), s.process.writing.value.op), s.now, now);
    } else if Usable(s.process) {
      LiveLater(s.process.sessions, Fold(s.log), s.now, now);
    }
  }

  lemma CrashKeepsInv(s: System)
    requires Inv(s)
    ensures Inv(Step(s, Crashes))
  {
    if s.process.writing.Some? && s.process.writing.value.renamed {
      FoldAppend(s.log, CutOff(s.process.writing.value.op));
    }
  }

  /** Every step keeps the invariant. */
  lemma StepKeepsInv(s: System, e: Event)
    requires Inv(s) && Enabled(s, e)
    ensures Inv(Step(s, e))
  {
    match e
    case Calls(op) =>
    case Begins(drawn, records) =>
      if HeadLoads(s) {
        LoadKeepsInv(s, drawn, records);
      } else {
        BeginKeepsInv(s, drawn, records);
      }
    case ReadFails =>
    case Renames => RenameKeepsInv(s);
    case Completes => CompleteKeepsInv(s);
    case WriteFails =>
    case Ticks(now) => TickKeepsInv(s, now);
    case Crashes => CrashKeepsInv(s);
  }

  // ---------------------------------------------------------------------------
  // Whole runs
  // ---------------------------------------------------------------------------

  ghost predicate Legal(s: System, es: seq<Event>)
    decreases |es|
  {
    es == [] || (Enabled(s, es[0]) && Legal(Step(s, es[0]), es[1..]))
  }

  ghost function Execute(s: System, es: seq<Event>): (t: System)
    requires Legal(s, es) && Inv(s)
    ensures Inv(t)
    decreases |es|
  {
    if es == [] then s else
      StepKeepsInv(s, es[0]);
      Execute(Step(s, es[0]), es[1..])
  }

  /** The add or remove that this step answers with success, if any. */
  function Answered(s: System, e: Event): seq<Op>
    requires e.Completes? ==> s.process.writing.Some?
    requires e.Begins? ==> s.process.pending != []
  {
    var p := s.process;
    if e.Completes? then (if p.writing.value.op == Initialize then [] else [p.writing.value.op])
    else if e.Begins? && p.pending[0].Remove? && Usable(p) && p.pending[0].sid !in p.sessions then [p.pending[0]]
    else []
  }

  /** The adds and removes answered with success, in the order of their answers. */
  ghost function Answers(s: System, es: seq<Event>): seq<Op>
    requires Legal(s, es)
    decreases |es|
  {
    if es == [] then [] else Answered(s, es[0]) + Answers(Step(s, es[0]), es[1..])
  }

  function AcknowledgedOps(log: seq<Entry>): seq<Op> {
    if log == [] then []
    else
      var e := log[|log| - 1];
      AcknowledgedOps(log[..|log| - 1]) + if e.Acknowledged? then [e.op] else []
  }

  function CutOffCount(log: seq<Entry>): nat {
    if log == [] then 0 else CutOffCount(log[..|log| - 1]) + if log[|log| - 1].CutOff? then 1 else 0
  }

  function Crashed(es: seq<Event>): nat {
    if es == [] then 0 else (if es[0].Crashes? then 1 else 0) + Crashed(es[1..])
  }

  lemma NoteCounts(log: seq<Entry>, entry: Entry)
    ensures AcknowledgedOps(Note(log, entry)) ==
      AcknowledgedOps(log) + if entry.Acknowledged? && entry.op != Initialize then [entry.op] else []
    ensures CutOffCount(Note(log, entry)) <= CutOffCount(log) + if entry.CutOff? then 1 else 0
  {
    assert (log + [entry])[..|log|] == log;
  }

  lemma StepLog(s: System, e: Event)
    requires Enabled(s, e)
    ensures AcknowledgedOps(Step(s, e).log) == AcknowledgedOps(s.log) + Answered(s, e)
    ensures CutOffCount(Step(s, e).log) <= CutOffCount(s.log) + if e.Crashes? then 1 else 0
  {
    var p := s.process;
    if p.writing.Some? {
      NoteCounts(s.log, Acknowledged(p.writing.value.op));
      NoteCounts(s.log, CutOff(p.writing.value.op));
    }
    if p.pending != [] {
      NoteCounts(s.log, Acknowledged(p.pending[0]));
    }
  }

  /**
   * The log is exactly the answered operations in order, plus at most one operation
   * for each crash: the one whose document had just replaced the old one.
   */
  lemma {:induction false} LogIsAnswers(s: System, es: seq<Event>)
    requires Legal(s, es) && Inv(s)
    ensures AcknowledgedOps(Execute(s, es).log) == AcknowledgedOps(s.log) + Answers(s, es)
    ensures CutOffCount(Execute(s, es).log) <= CutOffCount(s.log) + Crashed(es)
    decreases |es|
  {
    if es != [] {
      StepKeepsInv(s, es[0]);
      StepLog(s, es[0]);
      var t := Step(s, es[0]);
      LogIsAnswers(t, es[1..]);
      AppendAssociates(AcknowledgedOps(s.log), Answered(s, es[0]), Answers(t, es[1..]));
    }
  }

  lemma AppendAssociates<T>(a: seq<T>, b: seq<T>, c: seq<T>)
    ensures (a + b) + c == a + (b + c)
  {
  }

  // ---------------------------------------------------------------------------
  // Crash refinement
  // ---------------------------------------------------------------------------

  ghost predicate Reachable(s: System) {
    exists s0, es :: Init(s0) && Legal(s0, es) && (InitInv(s0); s == Execute(s0, es))
  }

  /** The log after a crash now: the operation past its rename is cut off, others vanish. */
  function LogAfterCrash(s: System): seq<Entry> {
    var w := s.process.writing;
    if w.Some? && w.value.renamed then Note(s.log, CutOff(w.value.op)) else s.log
  }

  ghost function Restart(s: System, drawn: string): System
    requires s.disk.Some? && IsValidEpoch(drawn)
  {
    Step(Step(Step(s, Crashes), Calls(Initialize)), Begins(drawn, []))
  }

  /**
   * Kill the process anywhere in any run and start it again on the same storage: it
   * comes up usable, under the epoch it had, and its unexpired allowlist is the serial
   * fold of everything acknowledged plus, if a document had just been renamed, the one
   * operation that was in flight.
   */
  lemma CrashRefinement(s: System, drawn: string)
    requires Reachable(s) && s.disk.Some? && IsValidEpoch(drawn)
    ensures
      var t := Restart(s, drawn);
      && Usable(t.process) && t.process.writing.None?
      && GetEpoch(t.process) == DiskEpoch(s)
      && Live(t.process.sessions, t.now) == Live(Fold(LogAfterCrash(s)), t.now)
      && t.log == LogAfterCrash(s)
  {
    StepKeepsInv(s, Crashes);
    var c := Step(s, Crashes);
    StepKeepsInv(c, Calls(Initialize));
    var i := Step(c, Calls(Initialize));
    assert i.process.pending == [Initialize];
    LoadKeepsInv(i, drawn, []);
  }

  /** Between writes a usable store holds, in memory and on disk, exactly what was acknowledged. */
  lemma IdleAgreement(s: System)
    requires Reachable(s) && Usable(s.process) && s.process.writing.None?
    ensures s.disk.Some? && Load(s.disk.value).Ok?
    ensures Live(s.process.sessions, s.now) == Live(Fold(s.log), s.now)
    ensures Live(Load(s.disk.value).value.1, s.now) == Live(Fold(s.log), s.now)
    ensures GetEpoch(s.process) == DiskEpoch(s) && DiskEpoch(s).Some?
  {
  }

  /** Between writes the membership check answers for exactly the acknowledged operations. */
  lemma IdleMembership(s: System, sid: string, exp: int)
    requires Reachable(s) && Usable(s.process) && s.process.writing.None? && exp > s.now
    ensures Has(s.process, sid, exp) <==> sid in Fold(s.log) && Fold(s.log)[sid] == exp
  {
    IdleAgreement(s);
    LiveLookup(s.process.sessions, sid, exp, s.now);
    LiveLookup(Fold(s.log), sid, exp, s.now);
  }

  /** The store is closed: nothing is being written, and no recovery is queued. */
  ghost predicate Closed(s: System) {
    !Usable(s.process) && s.process.writing.None? && Initialize !in s.process.pending
  }

  /** Anything may go on but a recovery and a crash. */
  predicate Quiet(es: seq<Event>) {
    forall i :: 0 <= i < |es| ==> es[i] != Calls(Initialize) && es[i] != Crashes
  }

  lemma {:induction false} StaysClosed(s: System, es: seq<Event>)
    requires Legal(s, es) && Inv(s) && Closed(s) && Quiet(es)
    ensures Answers(s, es) == []
    ensures var t := Execute(s, es); Closed(t) && t.disk == s.disk && t.log == s.log
    decreases |es|
  {
    if es != [] {
      StepKeepsInv(s, es[0]);
      StaysClosed(Step(s, es[0]), es[1..]);
    }
  }

  /**
   * A write that fails never takes effect, nor does anything queued behind it or asked for
   * later: nothing is answered with success, log and disk stay as they were and the store stays
   * closed.  Once the queue is drained, initializing again gives the fold of the log.
   */
  lemma FailedWriteNeverTakesEffect(s: System, es: seq<Event>, drawn: string)
    requires Reachable(s) && Enabled(s, WriteFails) && Initialize !in s.process.pending
    requires Legal(Step(s, WriteFails), es) && Quiet(es) && IsValidEpoch(drawn)
    ensures Inv(Step(s, WriteFails)) && Answers(Step(s, WriteFails), es) == []
    ensures
      var t := Execute(Step(s, WriteFails), es);
      && t.disk == s.disk && t.log == s.log
      && (forall sid, exp :: !Has(t.process, sid, exp)) && GetEpoch(t.process) == None
      && (forall op :: op != Initialize ==> RejectedAtCall(t.process, op))
      && (s.disk.Some? && t.process.pending == [] ==>
            var u := Step(Step(t, Calls(Initialize)), Begins(drawn, []));
            Usable(u.process) && u.log == s.log && Live(u.process.sessions, u.now) == Live(Fold(s.log), u.now))
  {
    StepKeepsInv(s, WriteFails);
    StaysClosed(Step(s, WriteFails), es);
    var t := Execute(Step(s, WriteFails), es);
    if s.disk.Some? && t.process.pending == [] {
      Reinitializes(t, drawn);
    }
  }

  /** A closed, drained store that is initialized again holds the fold of its log. */
  lemma Reinitializes(t: System, drawn: string)
    requires Inv(t) && t.process.writing.None? && t.process.pending == [] && t.disk.Some? && IsValidEpoch(drawn)
    ensures var u := Step(Step(t, Calls(Initialize)), Begins(drawn, []));
      Usable(u.process) && u.log == t.log && Live(u.process.sessions, u.now) == Live(Fold(t.log), u.now)
  {
    StepKeepsInv(t, Calls(Initialize));
    var i := Step(t, Calls(Initialize));
    assert i.process.pending == [Initialize];
    LoadKeepsInv(i, drawn, []);
  }

  /**
   * However the run goes on after a failed write, with any queue, recoveries and crashes: what
   * counts is what was acknowledged before, what is answered later and what a crash cuts off.
   */
  lemma AfterFailureOnlyAnswersCount(s: System, es: seq<Event>)
    requires Reachable(s) && Enabled(s, WriteFails) && Legal(Step(s, WriteFails), es)
    ensures Inv(Step(s, WriteFails))
    ensures
      var t := Execute(Step(s, WriteFails), es);
      && AcknowledgedOps(t.log) == AcknowledgedOps(s.log) + Answers(Step(s, WriteFails), es)
      && CutOffCount(t.log) <= CutOffCount(s.log) + Crashed(es)
      && (Usable(t.process) && t.process.writing.None? ==>
            Live(t.process.sessions, t.now) == Live(Fold(t.log), t.now))
  {
    StepKeepsInv(s, WriteFails);
    LogIsAnswers(Step(s, WriteFails), es);
  }

  /** On retained storage the epoch never changes, whatever happens to the process. */
  lemma {:induction false} EpochIsStable(s: System, es: seq<Event>)
    requires Legal(s, es) && Inv(s) && s.disk.Some?
    ensures DiskEpoch(Execute(s, es)) == DiskEpoch(s) && DiskEpoch(s).Some?
    decreases |es|
  {
    if es != [] {
      StepKeepsInv(s, es[0]);
      EpochIsStable(Step(s, es[0]), es[1..]);
    }
  }

  // ---------------------------------------------------------------------------
  // Capacity and membership
  // ---------------------------------------------------------------------------

  /**
   * `add` at the head of a usable store: refused exactly when the id is not live and
   * the live allowlist is full; otherwise nothing live is dropped, the id gets its
   * expiry, and the allowlist does not grow past the cap.
   */
  lemma AddNeverEvicts(s: System, sid: string, exp: int)
    requires Reachable(s) && Usable(s.process) && s.process.writing.None?
    ensures
      var live := Live(s.process.sessions, s.now);
      var plan := PlanAdd(s.process, sid, exp, s.now);
      && (plan.Rejected? <==> sid !in live && |live| >= MAX_ACTIVE_SESSIONS)
      && (plan.Rejected? ==> plan.sessions == live)
      && (plan.Write? ==>
            && sid in plan.sessions && plan.sessions[sid] == exp
            && (forall x :: x in live && x != sid ==> x in plan.sessions && plan.sessions[x] == live[x])
            && plan.sessions.Keys == live.Keys + {sid}
            && (|plan.sessions| <= MAX_ACTIVE_SESSIONS || |plan.sessions| == |live|))
  {
    var live := Live(s.process.sessions, s.now);
    if sid in live {
      assert live[sid := exp].Keys == live.Keys;
    } else {
      assert live[sid := exp].Keys == live.Keys + {sid};
    }
    assert |live[sid := exp]| == |live[sid := exp].Keys| && |live| == |live.Keys|;
  }

  ghost predicate DiskHas(s: System, sid: string, exp: int) {
    && s.disk.Some? && Load(s.disk.value).Ok?
    && sid in Load(s.disk.value).value.1 && Load(s.disk.value).value.1[sid] == exp
  }

  /** Is the answer for this record about to be changed by a write that is not on disk yet? */
  ghost predicate Unpublished(s: System, sid: string, exp: int) {
    var p := s.process;
    && p.writing.Some? && !p.writing.value.renamed && p.writing.value.op != Initialize
    && p.writing.value.op.sid == sid
    && ((p.writing.value.op == Add(sid, exp)) != (sid in Fold(s.log) && Fold(s.log)[sid] == exp))
  }

  /**
   * Memory is changed before the write, so for an unexpired record the membership
   * check agrees with the disk exactly when no unrenamed write is changing that record.
   */
  lemma HasAgreesWithDisk(s: System, sid: string, exp: int)
    requires Reachable(s) && Usable(s.process) && exp > s.now
    ensures Has(s.process, sid, exp) == DiskHas(s, sid, exp) <==> !Unpublished(s, sid, exp)
  {
    var p := s.process;
    var fold := Fold(s.log);
    var disk := Load(s.disk.value).value.1;
    var before := sid in fold && fold[sid] == exp;
    LiveLookup(fold, sid, exp, s.now);
    LiveLookup(disk, sid, exp, s.now);
    LiveLookup(p.sessions, sid, exp, s.now);
    LiveLookup(Durable(s), sid, exp, s.now);
    if p.writing.Some? {
      var op := p.writing.value.op;
      LiveLookup(Apply(fold, op), sid, exp, s.now);
    }
  }

  lemma LiveLookup(m: Allowlist, sid: string, exp: int, now: int)
    requires exp > now
    ensures sid in m && m[sid] == exp <==> sid in Live(m, now) && Live(m, now)[sid] == exp
  {
  }

  /**
   * And such writes happen: as soon as the add of a new record has begun, memory answers
   * for a record that the disk lacks, and a crash before the rename takes it back.
   */
  lemma AddShowsBeforeItIsDurable(s: System, sid: string, exp: int, drawn: string, records: seq<Record>)
    requires Reachable(s) && Usable(s.process) && s.process.writing.None? && s.process.pending == []
    requires IsValidSid(sid) && IsValidExpiry(exp) && exp > s.now && IsValidEpoch(drawn)
    requires sid !in Live(s.process.sessions, s.now) && |Live(s.process.sessions, s.now)| < MAX_ACTIVE_SESSIONS
    requires IsSnapshot(records, Live(s.process.sessions, s.now)[sid := exp])
    ensures
      var t := Step(Step(s, Calls(Add(sid, exp))), Begins(drawn, records));
      && Has(t.process, sid, exp) && !DiskHas(t, sid, exp)
      && t.disk.Some? && !Has(Restart(t, drawn).process, sid, exp)
  {
    var c := Step(s, Calls(Add(sid, exp)));
    var t := Step(c, Begins(drawn, records));
    assert c.process.pending == [Add(sid, exp)];
    NotLiveNotOnDisk(s, sid, exp);
    assert t.process.sessions == Live(s.process.sessions, s.now)[sid := exp] && t.process.writing.Some?;
    RestartLoads(t, drawn);
  }

  lemma NotLiveNotOnDisk(s: System, sid: string, exp: int)
    requires Inv(s) && Usable(s.process) && s.process.writing.None?
    requires exp > s.now && sid !in Live(s.process.sessions, s.now)
    ensures s.disk.Some? && Load(s.disk.value).Ok? && !DiskHas(s, sid, exp)
  {
    LiveLookup(Load(s.disk.value).value.1, sid, exp, s.now);
  }

  lemma RestartLoads(s: System, drawn: string)
    requires s.disk.Some? && Load(s.disk.value).Ok? && IsValidEpoch(drawn)
    ensures Restart(s, drawn).process.sessions == Load(s.disk.value).value.1
  {
    assert Step(Step(s, Crashes), Calls(Initialize)).process.pending == [Initialize];
  }
}
