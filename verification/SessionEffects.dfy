/**
 * What each operation of the session store does to memory and disk, and that a document which
 * fails a check keeps the store closed.
 */
module SessionEffects {
  import opened Common
  import opened Text
  import opened SessionDocument
  import opened SessionModel
  import opened SessionTheorems

  // ---------------------------------------------------------------------------
  // Which documents load
  // ---------------------------------------------------------------------------

  /** A record of the document: an object with an id of 8 to 128 URL-safe characters and a positive safe expiry. */
  predicate RecordEntry(entry: Json, sid: string, exp: int) {
    && entry.JObject?
    && "sid" in entry.fields && entry.fields["sid"] == JString(sid)
    && "exp" in entry.fields && entry.fields["exp"] == JInteger(exp)
    && 8 <= |sid| <= 128 && 0 < exp <= MAX_SAFE_INTEGER
    && forall i :: 0 <= i < |sid| ==>
         'A' <= sid[i] <= 'Z' || 'a' <= sid[i] <= 'z' || '0' <= sid[i] <= '9' || sid[i] == '_' || sid[i] == '-'
  }

  ghost predicate AllEntries(items: seq<Json>, records: seq<Record>) {
    |items| == |records| && forall i :: 0 <= i < |items| ==> RecordEntry(items[i], records[i].sid, records[i].exp)
  }

  predicate DistinctSids(records: seq<Record>) {
    forall i, j :: 0 <= i < j < |records| ==> records[i].sid != records[j].sid
  }

  /** The document holds this epoch and these records. */
  ghost predicate Documents(j: Json, epoch: string, records: seq<Record>) {
    && j.JObject?
    && "version" in j.fields && j.fields["version"] == JInteger(1)
    && "epoch" in j.fields && j.fields["epoch"] == JString(epoch)
    && |epoch| == 64 && (forall i :: 0 <= i < |epoch| ==> '0' <= epoch[i] <= '9' || 'a' <= epoch[i] <= 'f')
    && "sessions" in j.fields && j.fields["sessions"].JArray?
    && AllEntries(j.fields["sessions"].items, records) && DistinctSids(records)
  }

  ghost predicate SameRecords(m: Allowlist, records: seq<Record>) {
    && (forall i :: 0 <= i < |records| ==> records[i].sid in m && m[records[i].sid] == records[i].exp)
    && forall sid :: sid in m ==> exists i :: 0 <= i < |records| && records[i].sid == sid
  }

  lemma EntryLoads(entry: Json, r: Record)
    ensures LoadRecord(entry) == Ok(r) <==> RecordEntry(entry, r.sid, r.exp)
  {
    if LoadRecord(entry) == Ok(r) {
      assert entry.JObject?;
    }
  }

  ghost predicate Fresh(records: seq<Record>, loaded: Allowlist) {
    forall i :: 0 <= i < |records| ==> records[i].sid !in loaded
  }

  lemma {:induction false} EntriesLoad(items: seq<Json>, records: seq<Record>, loaded: Allowlist)
    requires AllEntries(items, records) && DistinctSids(records) && Fresh(records, loaded)
    ensures LoadRecords(items, loaded).Ok? && Gathered(LoadRecords(items, loaded).value, records, loaded)
  {
    if items != [] {
      var r, rest := records[0], records[1..];
      EntryLoads(items[0], r);
      EntriesLoad(items[1..], rest, loaded[r.sid := r.exp]);
      GatheredOneMore(LoadRecords(items[1..], loaded[r.sid := r.exp]).value, records, loaded);
    }
  }

  lemma {:induction false} LoadedEntries(items: seq<Json>, loaded: Allowlist) returns (records: seq<Record>)
    requires LoadRecords(items, loaded).Ok?
    ensures AllEntries(items, records) && DistinctSids(records) && Fresh(records, loaded)
  {
    records := [];
    if items != [] {
      var r := LoadRecord(items[0]).value;
      EntryLoads(items[0], r);
      var rest := LoadedEntries(items[1..], loaded[r.sid := r.exp]);
      records := [r] + rest;
      forall i | 0 <= i < |items| ensures RecordEntry(items[i], records[i].sid, records[i].exp) {
        assert i > 0 ==> items[i] == items[1..][i - 1];
      }
    }
  }

  lemma GatheredIsSame(m: Allowlist, records: seq<Record>)
    requires Gathered(m, records, map[])
    ensures SameRecords(m, records)
  {
  }

  /**
   * A document loads exactly when it is an object of version 1 with a well-formed epoch and a
   * list of well-formed records of distinct ids; what is loaded is that epoch and those records.
   */
  lemma LoadIff(j: Json)
    ensures Load(j).Ok? <==> exists epoch, records :: Documents(j, epoch, records)
    ensures forall epoch, records :: Documents(j, epoch, records) ==>
      Load(j).Ok? && Load(j).value.0 == epoch && SameRecords(Load(j).value.1, records)
  {
    if Load(j).Ok? {
      var items := j.fields["sessions"].items;
      var records := LoadedEntries(items, map[]);
      assert Documents(j, Load(j).value.0, records);
    }
    forall epoch, records | Documents(j, epoch, records)
      ensures Load(j).Ok? && Load(j).value.0 == epoch && SameRecords(Load(j).value.1, records)
    {
      EntriesLoad(j.fields["sessions"].items, records, map[]);
      GatheredIsSame(LoadRecords(j.fields["sessions"].items, map[]).value, records);
    }
  }

  // ---------------------------------------------------------------------------
  // A document that fails a check
  // ---------------------------------------------------------------------------

  /** The state after a run, whatever the disk holds. */
  ghost function After(s: System, es: seq<Event>): System
    requires Legal(s, es)
    decreases |es|
  {
    if es == [] then s else After(Step(s, es[0]), es[1..])
  }

  /**
   * Over a document that fails a check, a store that is not open and has no write under way never
   * opens: whatever is called, read, retried or killed, nothing is answered with success, nothing
   * is written and the log stays as it is.
   */
  lemma {:induction false} CorruptStaysClosed(s: System, d: Json, es: seq<Event>)
    requires s.disk == Some(d) && Load(d).Err? && !Usable(s.process) && s.process.writing.None? && Legal(s, es)
    ensures Answers(s, es) == []
    ensures var t := After(s, es);
      && !Usable(t.process) && GetEpoch(t.process).None? && (forall sid, exp :: !Has(t.process, sid, exp))
      && t.disk == Some(d) && t.log == s.log
    decreases |es|
  {
    if es != [] {
      CorruptStaysClosed(Step(s, es[0]), d, es[1..]);
    }
  }

  /** At startup. */
  lemma CorruptionFailsStartup(s: System, d: Json, es: seq<Event>)
    requires s.process == Booted && s.disk == Some(d) && Load(d).Err? && Legal(s, es)
    ensures Answers(s, es) == []
    ensures var t := After(s, es); !Usable(t.process) && t.disk == Some(d) && t.log == s.log
  {
    CorruptStaysClosed(s, d, es);
  }

  /** After a failed write, when the document has been damaged meanwhile. */
  lemma CorruptionFailsRecovery(s: System, d: Json, es: seq<Event>)
    requires Enabled(s, WriteFails) && Load(d).Err? && Legal(Step(s, WriteFails).(disk := Some(d)), es)
    ensures var f := Step(s, WriteFails).(disk := Some(d));
      Answers(f, es) == [] && !Usable(After(f, es).process) && After(f, es).disk == Some(d) && After(f, es).log == s.log
  {
    CorruptStaysClosed(Step(s, WriteFails).(disk := Some(d)), d, es);
  }

  /**
   * Initializing over a document that fails a check leaves nothing loaded.  The store is open
   * afterwards exactly when it was before: an open one stays open, without epoch or records.
   */
  lemma CorruptLoadOpensIff(s: System, d: Json, drawn: string)
    requires s.disk == Some(d) && Load(d).Err? && s.process.writing.None? && s.process.pending == []
    ensures var t := Step(Step(s, Calls(Initialize)), Begins(drawn, []));
      && (Usable(t.process) <==> Usable(s.process))
      && t.process.sessions == map[] && t.process.epoch.None? && t.disk == s.disk && t.log == s.log
  {
    assert Step(s, Calls(Initialize)).process.pending == [Initialize];
  }

  // ---------------------------------------------------------------------------
  // What each operation does
  // ---------------------------------------------------------------------------

  /** Which calls enter the chain. */
  lemma AcceptedAtCall(s: System, op: Op)
    ensures var p, t := s.process, Step(s, Calls(op));
      var open := p.initialized && p.healthy;
      var goes := match op
        case Initialize => true
        case Add(sid, exp) => open && RecordEntry(RecordJson(Record(sid, exp)), sid, exp)
        case Remove(_) => open;
      t == if goes then s.(process := p.(pending := p.pending + [op])) else s
  {
  }

  /** The operation is called on an idle store and begun. */
  ghost function Begun(s: System, op: Op, drawn: string, records: seq<Record>): System
    requires s.process.pending == [] && Enabled(s, Calls(op)) && !RejectedAtCall(s.process, op)
  {
    Step(Step(s, Calls(op)), Begins(drawn, records))
  }

  /** Its document replaces the old one, and its caller is told. */
  ghost function Finished(b: System): System
    requires b.process.writing.Some?
  {
    Step(Step(b, Renames), Completes)
  }

  /** What the store may choose of `records`: the sorted entries of `m`. */
  lemma BegunIsLegal(s: System, op: Op, drawn: string, records: seq<Record>)
    requires s.process.pending == [] && s.process.writing.None? && !RejectedAtCall(s.process, op) && IsValidEpoch(drawn)
    requires op != Initialize || s.disk.None?
    requires var plan := PlanHead(Step(s, Calls(op)), drawn); plan.Write? ==> IsSnapshot(records, plan.sessions)
    ensures Step(s, Calls(op)).process.pending == [op] && Enabled(Step(s, Calls(op)), Begins(drawn, records))
  {
    assert Step(s, Calls(op)).process.pending == [op];
  }

  /** On a fresh installation initializing draws an epoch, stores it with no records and opens the store. */
  lemma FreshInstallOpens(s: System, drawn: string)
    requires Init(s) && IsValidEpoch(drawn)
    ensures Enabled(Step(s, Calls(Initialize)), Begins(drawn, []))
    ensures var b := Begun(s, Initialize, drawn, []);
      && !Usable(b.process) && Enabled(b, Renames) && Enabled(Step(b, Renames), Completes)
      && var t := Finished(b);
         && Usable(t.process) && GetEpoch(t.process) == Some(drawn) && t.process.sessions == map[] && t.log == []
         && t.process.writing.None? && t.process.pending == []
         && t.disk.Some? && Load(t.disk.value) == Ok((drawn, map[]))
  {
    BegunIsLegal(s, Initialize, drawn, []);
    PersistThenLoad(drawn, map[], []);
  }

  /** `kept` are the records of `m` that expire after `now`. */
  ghost predicate Unexpired(kept: Allowlist, m: Allowlist, now: int) {
    && (forall sid :: sid in kept <==> sid in m && m[sid] > now)
    && forall sid :: sid in kept ==> kept[sid] == m[sid]
  }

  lemma UnexpiredIsLive(kept: Allowlist, m: Allowlist, now: int)
    requires Unexpired(kept, m, now)
    ensures Live(m, now) == kept
  {
  }

  /**
   * An add to an idle open store.  Where the id is not among the unexpired records and those are
   * at the cap, it is refused, and nothing is written.  Otherwise memory and disk come to hold
   * exactly the unexpired records and the new one, and the caller is told.
   */
  lemma AddTakesEffect(s: System, sid: string, exp: int, kept: Allowlist, drawn: string, records: seq<Record>)
    requires Reachable(s) && Usable(s.process) && s.process.writing.None? && s.process.pending == []
    requires IsValidSid(sid) && IsValidExpiry(exp) && IsValidEpoch(drawn)
    requires Unexpired(kept, s.process.sessions, s.now) && IsSnapshot(records, kept[sid := exp])
    ensures Enabled(Step(s, Calls(Add(sid, exp))), Begins(drawn, records))
    ensures var b := Begun(s, Add(sid, exp), drawn, records);
      if sid !in kept && |kept| >= 5000 then
        b.process == s.process.(sessions := kept) && b.disk == s.disk && b.log == s.log
      else
        && Enabled(b, Renames) && Enabled(Step(b, Renames), Completes)
        && var t := Finished(b);
           && Usable(t.process) && t.process.sessions == kept[sid := exp] && GetEpoch(t.process) == GetEpoch(s.process)
           && t.process.writing.None? && t.process.pending == []
           && t.disk.Some? && Load(t.disk.value) == Ok((s.process.epoch.value, kept[sid := exp]))
           && t.log == s.log + [Acknowledged(Add(sid, exp))]
  {
    UnexpiredIsLive(kept, s.process.sessions, s.now);
    BegunIsLegal(s, Add(sid, exp), drawn, records);
    IdleAgreement(s);
    LoadIsValid(s.disk.value);
    PersistThenLoad(s.process.epoch.value, kept[sid := exp], records);
  }

  /**
   * A remove on an idle open store.  Where the id is in memory, memory and disk come to hold
   * exactly the other records, and the caller is told; otherwise the caller is told at once and
   * nothing is written.
   */
  lemma RemoveTakesEffect(s: System, sid: string, drawn: string, records: seq<Record>)
    requires Reachable(s) && Usable(s.process) && s.process.writing.None? && s.process.pending == []
    requires IsValidEpoch(drawn) && IsSnapshot(records, s.process.sessions - {sid})
    ensures Enabled(Step(s, Calls(Remove(sid))), Begins(drawn, records))
    ensures var b := Begun(s, Remove(sid), drawn, records);
      if sid !in s.process.sessions then
        b.process == s.process && b.disk == s.disk && b.log == s.log + [Acknowledged(Remove(sid))]
      else
        && Enabled(b, Renames) && Enabled(Step(b, Renames), Completes)
        && var t := Finished(b);
           && Usable(t.process) && t.process.sessions == s.process.sessions - {sid}
           && GetEpoch(t.process) == GetEpoch(s.process) && t.process.writing.None? && t.process.pending == []
           && t.disk.Some? && Load(t.disk.value) == Ok((s.process.epoch.value, s.process.sessions - {sid}))
           && t.log == s.log + [Acknowledged(Remove(sid))]
  {
    BegunIsLegal(s, Remove(sid), drawn, records);
    IdleAgreement(s);
    LoadIsValid(s.disk.value);
    PersistThenLoad(s.process.epoch.value, s.process.sessions - {sid}, records);
  }

  // ---------------------------------------------------------------------------
  // One after another
  // ---------------------------------------------------------------------------

  function AcceptedNow(s: System, e: Event): seq<Op> {
    if e.Calls? && !RejectedAtCall(s.process, e.op) then [e.op] else []
  }

  /** The operation this step takes from the chain: the oldest. */
  function TakenNow(s: System, e: Event): seq<Op>
    requires e.Begins? || e.ReadFails? ==> s.process.pending != []
  {
    if e.Begins? || e.ReadFails? then [s.process.pending[0]] else []
  }

  /** The operations that enter the chain, in the order of their calls. */
  ghost function Accepted(s: System, es: seq<Event>): seq<Op>
    requires Legal(s, es)
    decreases |es|
  {
    if es == [] then [] else AcceptedNow(s, es[0]) + Accepted(Step(s, es[0]), es[1..])
  }

  /** The operations taken from the chain, in the order they are begun. */
  ghost function Taken(s: System, es: seq<Event>): seq<Op>
    requires Legal(s, es)
    decreases |es|
  {
    if es == [] then [] else TakenNow(s, es[0]) + Taken(Step(s, es[0]), es[1..])
  }

  lemma OneStepServes(s: System, e: Event)
    requires Enabled(s, e) && e != Crashes
    ensures TakenNow(s, e) + Step(s, e).process.pending == s.process.pending + AcceptedNow(s, e)
  {
    if e.Begins? || e.ReadFails? {
      assert [s.process.pending[0]] + s.process.pending[1..] == s.process.pending;
    }
  }

  /**
   * Until the process dies, operations are begun one after another in the order of their calls,
   * and none is lost: those begun and those still waiting are those that waited and those accepted.
   */
  lemma {:induction false} ServedInCallOrder(s: System, es: seq<Event>)
    requires Legal(s, es) && Crashes !in es
    ensures Taken(s, es) + After(s, es).process.pending == s.process.pending + Accepted(s, es)
    decreases |es|
  {
    if es != [] {
      assert es == [es[0]] + es[1..];
      var t := Step(s, es[0]);
      OneStepServes(s, es[0]);
      ServedInCallOrder(t, es[1..]);
      AppendAssociates(TakenNow(s, es[0]), Taken(t, es[1..]), After(t, es[1..]).process.pending);
      AppendAssociates(TakenNow(s, es[0]), t.process.pending, Accepted(t, es[1..]));
      AppendAssociates(s.process.pending, AcceptedNow(s, es[0]), Accepted(t, es[1..]));
    }
  }

  /** Only one write is under way, that of the operation begun last, and nothing is begun beside it. */
  lemma OneWriteAtATime(s: System, e: Event)
    requires Enabled(s, e)
    ensures e.Begins? ==> s.process.writing.None?
    ensures e.Begins? && Step(s, e).process.writing.Some? ==>
      Step(s, e).process.writing.value.op == s.process.pending[0] && !Step(s, e).process.writing.value.renamed
    ensures !e.Begins? && Step(s, e).process.writing.Some? ==>
      s.process.writing.Some? && Step(s, e).process.writing.value.op == s.process.writing.value.op
  {
  }
}
