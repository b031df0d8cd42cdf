/**
 * The download session as the source writes it, over a database it updates in place
 * (src/frontend/js/services/offlineService.js).  Each method goes through exactly the
 * states that DownloadModel states for it.
 */
module Downloader {
  import opened Common
  import opened ChunkRequest
  import opened OfflineStore
  import opened ChunkLoader
  import opened DownloadModel

  /** Repair if the counters claim more than is trusted, then decide where to resume. */
  method PrepareRun(env: Env, db: Database) returns (meta: Option<Meta>, end: End)
    requires db.Valid()
    modifies db`store, db`commits, db`history
    ensures old(db.history) <= db.history
    ensures db.Valid()
    ensures Prepare(env, old(db.history)) ==
      if meta.Some? then Resume(db.history, meta.value) else Stop(Run(db.history, end))
  {
    var existing := if env.metaRead then db.store.video else None;
    var m := DefaultMeta(existing);
    if !env.chunksRead {
      return None, Threw(Storage);
    }
    var chunks, validThrough := LoadValidatedChunks(db.store.rows);
    if existing.Some? {
      var e := existing.value;
      m := m.(completedBytes := validThrough + 1, chunkCount := |chunks|);
      CoveredNothing(db.store.rows);
      var ok := RepairRun(env, db, e, chunks, validThrough);
      if !ok {
        return None, Threw(Storage);
      }
      var total := PositiveTotal(e.totalBytes);
      if e.status == Ready && total == Some(m.completedBytes) && m.chunkCount > 0 {
        return None, Completed;
      }
      if m.completedBytes > 0 && m.etag.None? && m.lastModified.None? {
        m := m.(completedBytes := 0, chunkCount := 0, totalBytes := 0);
        ok := db.Transact(Some(RepairTrailing(db.store, 0)), env.commits(db.commits));
        if !ok {
          return None, Threw(Storage);
        }
      }
    }
    return Some(m), Completed;
  }

  /** Drop trailing records when the counters claim more than is trusted. */
  method RepairRun(env: Env, db: Database, e: Meta, chunks: seq<Row>, validThrough: int) returns (ok: bool)
    requires db.Valid() && chunks == Load(db.store.rows) && validThrough == Covered(db.store.rows) - 1
    modifies db`store, db`commits, db`history
    ensures old(db.history) <= db.history
    ensures db.Valid()
    ensures var h1 := Repair(env, old(db.history), RepairCut(e, old(db.store.rows)));
      ok == h1.Some? && db.history == if ok then h1.value else old(db.history)
  {
    ok := true;
    var committed := validThrough + 1;
    if validThrough >= 0 && (e.completedBytes > committed || (|chunks| > 0 && e.chunkCount > |chunks|)) {
      ok := db.Transact(Some(RepairTrailing(db.store, committed)), env.commits(db.commits));
    } else if validThrough < 0 && e.chunkCount > 0 {
      ok := db.Transact(Some(RepairTrailing(db.store, 0)), env.commits(db.commits));
    }
  }

  /** The clean restart: the stored chunks go, the new validators stay. */
  method RestartForNewRepresentation(env: Env, db: Database, k: Known, reset: Meta) returns (ok: bool, next: Known)
    requires db.Valid()
    modifies db`store, db`commits, db`history
    ensures old(db.history) <= db.history
    ensures db.Valid() && next == AfterRestart(k, reset)
    ensures var h1 := Commit(env, old(db.history), ResetForNewRepresentation(old(db.store), env.me, reset));
      ok == h1.Some? && db.history == if ok then h1.value else old(db.history)
  {
    ok := db.Transact(ResetForNewRepresentation(db.store, env.me, reset), env.commits(db.commits));
    next := k.(offset := 0, next := 0, restarts := k.restarts + 1, meta := reset,
               total := if reset.totalBytes > 0 then Some(reset.totalBytes) else None,
               etag := reset.etag, etagStrong := reset.etagStrong, lastModified := reset.lastModified);
  }

  /** Adopt what the chunk says, and persist chunk and metadata as one transaction. */
  method StoreChunk(env: Env, db: Database, k: Known, c: Fetched) returns (ok: bool, next: Known)
    requires db.Valid() && c.Chunk?
    modifies db`store, db`commits, db`history
    ensures old(db.history) <= db.history
    ensures db.Valid() && next == Adopt(k, c)
    ensures var h1 := Commit(env, old(db.history), WriteOwnedChunk(old(db.store), env.me, next.meta, RowOf(k, c)));
      ok == h1.Some? && db.history == if ok then h1.value else old(db.history)
  {
    next := k.(total := Some(c.total));
    if c.etag.Some? {
      next := next.(etag := c.etag, etagStrong := IsStrongEtag(c.etag));
    }
    if c.lastModified.Some? {
      next := next.(lastModified := c.lastModified);
    }
    next := next.(meta := Meta(Downloading, c.total, c.end + 1, k.next + 1,
                               next.etag, next.etagStrong, next.lastModified));
    ok := db.Transact(WriteOwnedChunk(db.store, env.me, next.meta, RowOf(k, c)), env.commits(db.commits));
    next := next.(next := next.meta.chunkCount, offset := c.end + 1);
  }

  /** One pass of the loop; `over` when it ends the run, `last` when only the final check is left. */
  method RunPass(env: Env, db: Database, k: Known, i: nat) returns (next: Known, over: Option<End>, last: bool)
    requires db.Valid()
    modifies db`store, db`commits, db`history
    ensures old(db.history) <= db.history
    ensures db.Valid()
    ensures OnePass(env, old(db.history), k, i) ==
      if over.Some? then Halt(Run(db.history, over.value))
      else if last then Last(db.history, next)
      else More(db.history, next)
  {
    next, over, last := k, None, false;
    if env.abortedBefore(i) {
      return next, Some(Cancelled), false;
    }
    if k.total.Some? {
      if k.offset > k.total.value {
        return next, Some(RangeTrouble(RangeInvalid)), false;
      }
      if k.offset == k.total.value {
        return next, None, true;
      }
    }
    var result := Ask(env, k, i);
    if !result.Errored? && env.abortedAfter(i) {
      return next, Some(Cancelled), false;
    }
    match Judge(k, result)
    case Ended(e) => return next, Some(e), false;
    case Confirmed(total) => return k.(total := Some(total)), None, true;
    case Learned(total) => return k.(total := Some(total)), None, false;
    case Restart(reset) =>
      var ok;
      ok, next := RestartForNewRepresentation(env, db, k, reset);
      if !ok {
        return next, Some(Threw(Storage)), false;
      }
    case Keep(_) =>
      var ok;
      ok, next := StoreChunk(env, db, k, result);
      if !ok {
        return next, Some(Threw(Storage)), false;
      }
      last := next.total == Some(next.offset);
  }

  /** The chunk loop; it ends against any server, after at most one restart. */
  method RunLoop(env: Env, db: Database, initial: Known) returns (end: End, ghost restarts: nat)
    requires db.Valid() && initial.restarts == 0
    modifies db`store, db`commits, db`history
    ensures old(db.history) <= db.history
    ensures db.Valid()
    ensures Loop(env, old(db.history), initial, 0) == Run(db.history, end)
    ensures restarts <= MAX_SOURCE_RESTARTS
  {
    var k := initial;
    var i: nat := 0;
    while true
      invariant db.Valid() && k.restarts <= MAX_SOURCE_RESTARTS && old(db.history) <= db.history
      invariant Loop(env, db.history, k, i) == Loop(env, old(db.history), initial, 0)
      decreases MAX_SOURCE_RESTARTS - k.restarts, k.total.None?, Left(k)
    {
      var next, over, last := RunPass(env, db, k, i);
      restarts := k.restarts;
      if over.Some? {
        return over.value, restarts;
      }
      if last {
        end := ConcludeRun(env, db, next);
        return;
      }
      k, i := next, i + 1;
    }
  }

  method ResumeDownload(env: Env, db: Database) returns (end: End)
    requires db.Valid()
    modifies db`store, db`commits, db`history
    ensures old(db.history) <= db.history
    ensures db.Valid()
    ensures RunDownload(env, old(db.history)) == Run(db.history, end)
  {
    var prepared, stop := PrepareRun(env, db);
    if prepared.None? {
      return stop;
    }
    var ok := db.Transact(Some(PutVideo(db.store, prepared.value)), env.commits(db.commits));
    if !ok {
      return Threw(Storage);
    }
    ghost var restarts;
    end, restarts := RunLoop(env, db, InitialKnown(prepared.value));
  }

  /** The final check and the ready row. */
  method ConcludeRun(env: Env, db: Database, k: Known) returns (end: End)
    requires db.Valid() && k.total.Some?
    modifies db`store, db`commits, db`history
    ensures old(db.history) <= db.history
    ensures db.Valid()
    ensures Conclude(env, old(db.history), k) == Run(db.history, end)
  {
    var knownTotal := k.total.value;
    var committed := if env.finalMetaRead then db.store.video else None;
    var chunks, validThrough := [], -1;
    if committed.Some? && env.finalChunksRead {
      chunks, validThrough := LoadValidatedChunks(db.store.rows);
    }
    var coveredFully := |chunks| > 0 && |chunks| == committed.value.chunkCount && validThrough == knownTotal - 1;
    if knownTotal != 0 && !coveredFully {
      return RangeTrouble(RangeTotalUnknown);
    }
    var last := if committed.Some? then committed.value else k.meta;
    var final := last.(
      status := Ready, completedBytes := knownTotal, totalBytes := knownTotal,
      chunkCount := if knownTotal == 0 then 0 else |chunks|);
    var ok := db.Transact(Some(PutVideo(db.store, final)), env.commits(db.commits));
    return if ok then Completed else Threw(Storage);
  }

  /** Keep partial data and say paused; without a readable row a bare one replaces it. */
  method PauseRun(env: Env, db: Database)
    requires db.Valid()
    modifies db`store, db`commits, db`history
    ensures old(db.history) <= db.history
    ensures db.Valid() && db.history == PauseWithError(env, old(db.history))
  {
    var latest := if env.pauseRead && db.store.video.Some? then db.store.video.value else BareRow;
    var ok := db.Transact(Some(PutVideo(db.store, latest.(status := Paused))), env.pauseCommits);
  }

  method ReleaseRun(env: Env, db: Database)
    requires db.Valid()
    modifies db`store, db`commits, db`history
    ensures old(db.history) <= db.history
    ensures db.Valid() && db.history == Release(env, old(db.history))
  {
    var ok := db.Transact(Some(ReleaseClaim(db.store, env.me)), env.releaseCommits);
  }

  /** Run, and on a failure that no abort explains pause. */
  method SettleRun(env: Env, db: Database) returns (settlement: Settlement)
    requires db.Valid()
    modifies db`store, db`commits, db`history
    ensures old(db.history) <= db.history
    ensures db.Valid()
    ensures Settle(env, RunDownload(env, old(db.history))) == Session(db.history, settlement)
  {
    var end := ResumeDownload(env, db);
    settlement := if end.Completed? then SettledReady else SettledCancelled;
    if end.Threw? && !env.abortedAtEnd {
      PauseRun(env, db);
      settlement := SettledPaused;
    }
    ReleaseRun(env, db);
  }

  /** The whole call: claim, run, keep partial data on failure, release. */
  method Start(env: Env, db: Database) returns (settlement: Settlement)
    requires db.Valid()
    modifies db
    ensures db.Valid()
    ensures StartDownload(env, old(db.store)) == Session(db.history, settlement)
    ensures old(db.earlier + db.history) <= db.earlier + db.history
  {
    db.Begin();
    ghost var found := db.history;
    settlement := Proceed(env, db);
    LongerHistory(db.earlier, found, db.history);
  }

  lemma LongerHistory(earlier: seq<Store>, found: seq<Store>, history: seq<Store>)
    requires found <= history
    ensures earlier + found <= earlier + history
  {
  }

  /** The call, from the state the database was found in. */
  method Proceed(env: Env, db: Database) returns (settlement: Settlement)
    requires db.Valid() && db.history == [db.store]
    modifies db`store, db`commits, db`history
    ensures old(db.history) <= db.history
    ensures db.Valid()
    ensures StartDownload(env, old(db.store)) == Session(db.history, settlement)
  {
    if ClaimRefused(env, db.store) {
      return OwnedElsewhere;
    }
    var ok := db.Transact(Some(PutClaim(db.store, env.me, env.now)), env.commits(db.commits));
    if !ok {
      return OwnedElsewhere;
    }
    if env.abortedAfterClaim {
      ReleaseRun(env, db);
      return SettledCancelled;
    }
    settlement := SettleRun(env, db);
  }
}
