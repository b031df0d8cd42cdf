/** What a session resumes from, when it completes, and what it keeps when it does not. */
module DownloadTheorems {
  import opened Common
  import opened Text
  import opened RangeBody
  import opened ChunkRequest
  import opened OfflineStore
  import opened ChunkLoader
  import opened DownloadModel
  import opened DownloadExact

  // ---------------------------------------------------------------------------
  // Validated resume, over any stored records
  // ---------------------------------------------------------------------------

  predicate HasValidator(m: Meta) {
    OrNull(m.etag).Some? || OrNull(m.lastModified).Some?
  }

  /** The start of the loop: the offset and next key, and the trusted chunks, which are untouched. */
  ghost predicate ResumesAt(p: Prepared, offset: int, chunks: seq<Row>) {
    p.Resume? ==>
      var k := InitialKnown(p.meta);
      k.offset == offset && k.next == |chunks| && Load(Now(p.history).rows) == chunks
  }

  /**
   * Whatever is stored and whatever the counters say: with a metadata row and a validator the
   * run continues at exactly the end of the trusted chunks, which repair has not touched;
   * with a row but no validator it starts from nothing.
   */
  lemma ResumesAtCoverage(env: Env, h: History)
    requires env.metaRead && Now(h).video.Some?
    ensures HasValidator(Now(h).video.value) ==> ResumesAt(Prepare(env, h), Covered(Now(h).rows), Load(Now(h).rows))
    ensures !HasValidator(Now(h).video.value) ==> ResumesAt(Prepare(env, h), 0, [])
    ensures Prepare(env, h).Stop? && Prepare(env, h).run.end.Completed? ==>
      && Covered(Now(h).rows) == Now(h).video.value.totalBytes
      && Load(Now(Prepare(env, h).run.history).rows) == Load(Now(h).rows)
  {
    var s := Now(h);
    RepairKeepsCoverage(s.rows);
    CoveredNothing(s.rows);
    NothingAtZero(s.rows);
    var h1 := Repair(env, h, RepairCut(s.video.value, s.rows));
    if h1.Some? {
      assert Load(Now(h1.value).rows) == Load(s.rows);
      NothingAtZero(Now(h1.value).rows);
    }
  }

  lemma {:induction false} DropSurvives(rows: seq<Row>, cut: int)
    ensures forall r :: r in DropFrom(rows, cut) ==> Survives(r, cut)
  {
    if rows != [] {
      DropSurvives(rows[1..], cut);
    }
  }

  /**
   * Where the counters claim more chunks than are trusted, or more bytes than the trusted ones
   * cover, no record that starts at or past the coverage is left when the run goes on.
   */
  lemma OverclaimIsRepaired(env: Env, h: History)
    requires env.metaRead && Now(h).video.Some?
    requires var e, rows := Now(h).video.value, Now(h).rows;
      e.chunkCount > |Load(rows)| || (e.completedBytes > Covered(rows) && Load(rows) != [])
    ensures Prepare(env, h).Resume? ==>
      forall r :: r in Now(Prepare(env, h).history).rows ==> Survives(r, Covered(Now(h).rows))
  {
    var e, rows := Now(h).video.value, Now(h).rows;
    CoveredNothing(rows);
    DropSurvives(rows, Covered(rows));
    var h1 := Repair(env, h, RepairCut(e, rows));
    if h1.Some? {
      assert Now(h1.value).rows == DropFrom(rows, Covered(rows));
      DropSurvives(Now(h1.value).rows, 0);
    }
  }

  lemma NothingAtZero(rows: seq<Row>)
    ensures Load(DropFrom(rows, 0)) == []
  {
    DropSorted(rows, 0);
    NothingFits(SortByStart(rows), 0);
  }

  // ---------------------------------------------------------------------------
  // Completion
  // ---------------------------------------------------------------------------

  /** Storage works, nobody else is in the way and the user does not abort. */
  ghost predicate Healthy(env: Env, s: Store) {
    && !ClaimRefused(env, s) && !env.abortedAfterClaim && !env.abortedAtEnd
    && env.metaRead && env.chunksRead && env.finalMetaRead && env.finalChunksRead
    && (forall n: nat :: env.commits(n))
    && (forall i: nat :: !env.abortedBefore(i) && !env.abortedAfter(i))
  }

  ghost predicate ServesAnswer(w: World, etag: string, c: Fetched, start: int) {
    if start < |w.library(etag)| then TrueChunk(w.library, c) && c.start == start && c.etag == Some(etag)
    else c.Unsatisfied? && c.total == |w.library(etag)| && c.etag == Some(etag)
  }

  /** Within the retries a response arrives that brings the range out of what `etag` names. */
  ghost predicate BringsPart(w: World, etag: string, attempts: nat -> Attempt, start: nat, end: nat) {
    exists r :: Brings(attempts, r, start, end) && r.etag == Some(etag) && PartOf(w.library(etag), r, start, end)
  }

  /** Every range asked for is answered from the representation named `etag`. */
  ghost predicate Serves(w: World, env: Env, etag: string) {
    forall i: nat, start: nat, end: nat :: start <= end ==>
      BringsPart(w, etag, env.attempts(i, start, end), start, end)
  }

  lemma ServesAsked(w: World, env: Env, etag: string, i: nat, start: nat, end: nat)
    requires Serves(w, env, etag) && IsStrongEtag(Some(etag)) && start <= end
    ensures ServesAnswer(w, etag, RequestChunk(env.attempts(i, start, end), start, end), start)
  {
    var attempts := env.attempts(i, start, end);
    assert BringsPart(w, etag, attempts, start, end);
    var r :| Brings(attempts, r, start, end) && r.etag == Some(etag) && PartOf(w.library(etag), r, start, end);
    PartIsYielded(attempts, w.library(etag), r, start, end);
  }

  /** The loop owns the store, has counted its chunks and, after a restart, knows what is served. */
  ghost predicate OnTrack(w: World, env: Env, etag: string, k: Known, s: Store) {
    && Owns(s, env.me) && InStep(w, k, s)
    && s.video.value.chunkCount == k.next
    && (k.total.Some? ==> 0 < k.total.value)
    && (k.restarts > 0 ==> k.etag == Some(etag) && k.etagStrong && k.total == Some(|w.library(etag)|))
  }

  predicate HoldsSome(video: Option<Meta>, etag: string) {
    video.Some? && video.value.etag == Some(etag) && video.value.totalBytes > 0
  }

  ghost predicate Completes(run: Run, etag: string, already: bool) {
    && run.end == Completed
    && (already || HoldsSome(Now(run.history).video, etag))
  }

  lemma ConcludeCompletes(w: World, env: Env, s0: Store, h: History, k: Known, etag: string)
    requires Healthy(env, s0) && AllSound(w, h) && OnTrack(w, env, etag, k, Now(h)) && k.total == Some(k.offset)
    ensures Completes(Conclude(env, h, k), etag, k.etag != Some(etag))
  {
    CoveredNothing(Now(h).rows);
    CoveredZero(Now(h).rows);
  }

  lemma StaysOnTrack(w: World, env: Env, h: History, k: Known, c: Fetched, etag: string)
    requires AllSound(w, h) && OnTrack(w, env, etag, k, Now(h))
    requires TrueChunk(w.library, c) && c.start == k.offset && c.total <= MAX_SAFE_INTEGER && c.etag == Some(etag)
    requires !RepresentationChanged(k, c.etag, c.lastModified, c.total)
    requires Commit(env, h, WriteOwnedChunk(Now(h), env.me, Adopt(k, c).meta, RowOf(k, c))).Some?
    ensures var h1 := Commit(env, h, WriteOwnedChunk(Now(h), env.me, Adopt(k, c).meta, RowOf(k, c))).value;
      AllSound(w, h1) && OnTrack(w, env, etag, Adopt(k, c), Now(h1))
  {
    KeepStep(w, env, h, k, c);
  }

  /** The next request starts within the known total, or at 0. */
  lemma AsksInOrder(w: World, env: Env, etag: string, k: Known, s: Store)
    requires Sound(w, s) && OnTrack(w, env, etag, k, s)
    ensures 0 <= k.offset && (k.total.Some? ==> k.offset <= k.total.value)
    ensures k.total != Some(k.offset) ==> k.offset <= RangeEnd(k)
  {
    CoveredZero(s.rows);
  }

  lemma ServedAnswer(w: World, env: Env, etag: string, k: Known, s: Store, i: nat)
    requires Sound(w, s) && OnTrack(w, env, etag, k, s) && k.total != Some(k.offset)
    requires Serves(w, env, etag) && IsStrongEtag(Some(etag))
    ensures ServesAnswer(w, etag, Ask(env, k, i), k.offset)
  {
    AsksInOrder(w, env, etag, k, s);
    ServesAsked(w, env, etag, i, k.offset, RangeEnd(k));
  }

  /** What is served is kept, or asks for the one restart. */
  lemma ServedTurn(w: World, env: Env, etag: string, k: Known, s: Store, c: Fetched)
    requires Sound(w, s) && OnTrack(w, env, etag, k, s) && k.total != Some(k.offset)
    requires ServesAnswer(w, etag, c, k.offset) && w.library(etag) != []
    ensures var turn := Judge(k, c);
      || (turn.Keep? && c.Chunk?)
      || (turn.Restart? && k.restarts == 0 && turn.meta == ResetMeta(c.total, c.etag, c.lastModified))
  {
    AsksInOrder(w, env, etag, k, s);
    CoveredZero(s.rows);
  }

  lemma AskedTurn(w: World, env: Env, etag: string, k: Known, s: Store, i: nat)
    requires Sound(w, s) && OnTrack(w, env, etag, k, s) && k.total != Some(k.offset) && w.library(etag) != []
    requires Serves(w, env, etag) && IsStrongEtag(Some(etag))
    ensures var c, turn := Ask(env, k, i), Judge(k, Ask(env, k, i));
      && (k.total.Some? ==> k.offset <= k.total.value)
      && (c.Unsatisfied? ==> c.total == |w.library(etag)| && c.etag == Some(etag))
      && (c.Chunk? ==> TrueChunk(w.library, c) && c.start == k.offset && c.etag == Some(etag))
      && ((turn.Keep? && c.Chunk?) ||
          (turn.Restart? && !c.Errored? && !c.Aborted? && k.restarts == 0 &&
           turn.meta == ResetMeta(c.total, c.etag, c.lastModified)))
  {
    AsksInOrder(w, env, etag, k, s);
    ServedAnswer(w, env, etag, k, s, i);
    ServedTurn(w, env, etag, k, s, Ask(env, k, i));
  }

  /** A pass over working storage whose chunk is kept commits the chunk, and is the last at the end. */
  lemma KeptPassIs(env: Env, s0: Store, h: History, k: Known, i: nat)
    requires Healthy(env, s0) && Owns(Now(h), env.me) && k.total != Some(k.offset)
    requires (k.total.Some? ==> k.offset <= k.total.value) && Ask(env, k, i).Chunk?
    requires Judge(k, Ask(env, k, i)) == Keep(Ask(env, k, i))
    ensures var c := Ask(env, k, i);
      var k1 := Adopt(k, c);
      var h1 := h + [WriteOwnedChunk(Now(h), env.me, k1.meta, RowOf(k, c)).value];
      OnePass(env, h, k, i) == if k1.total == Some(k1.offset) then Last(h1, k1) else More(h1, k1)
  {
  }

  /** A pass over working storage that meets another representation starts anew. */
  lemma RestartPassIs(env: Env, s0: Store, h: History, k: Known, i: nat)
    requires Healthy(env, s0) && Owns(Now(h), env.me) && k.total != Some(k.offset)
    requires (k.total.Some? ==> k.offset <= k.total.value) && !Ask(env, k, i).Errored?
    requires Judge(k, Ask(env, k, i)).Restart?
    ensures var meta := Judge(k, Ask(env, k, i)).meta;
      OnePass(env, h, k, i) == More(h + [Store(Some(meta), [], Now(h).owner)], AfterRestart(k, meta))
  {
  }

  lemma PassCompletes(w: World, env: Env, s0: Store, h: History, k: Known, i: nat, etag: string)
    requires Healthy(env, s0) && Serves(w, env, etag)
    requires IsStrongEtag(Some(etag)) && 0 < |w.library(etag)| <= MAX_SAFE_INTEGER
    requires AllSound(w, h) && OnTrack(w, env, etag, k, Now(h)) && k.total != Some(k.offset)
    ensures var p := OnePass(env, h, k, i);
      !p.Halt? && AllSound(w, p.history) && OnTrack(w, env, etag, p.known, Now(p.history))
      && (p.known.total == Some(p.known.offset) ==> p.known.etag == Some(etag))
  {
    var c := Ask(env, k, i);
    AskedTurn(w, env, etag, k, Now(h), i);
    var turn := Judge(k, c);
    if turn.Keep? {
      KeptPassIs(env, s0, h, k, i);
      StaysOnTrack(w, env, h, k, c, etag);
    } else {
      RestartPassIs(env, s0, h, k, i);
      RestartStep(w, env, h, k, turn.meta, c.total, c.etag, c.lastModified);
    }
  }

  lemma {:induction false} LoopCompletes(w: World, env: Env, s0: Store, h: History, k: Known, i: nat, etag: string)
    requires Healthy(env, s0) && Serves(w, env, etag)
    requires IsStrongEtag(Some(etag)) && 0 < |w.library(etag)| <= MAX_SAFE_INTEGER
    requires AllSound(w, h) && OnTrack(w, env, etag, k, Now(h))
    ensures Completes(Loop(env, h, k, i), etag, k.total == Some(k.offset) && k.etag != Some(etag))
    decreases RestartsLeft(k), k.total.None?, Left(k)
  {
    if k.total == Some(k.offset) {
      ConcludeCompletes(w, env, s0, h, k, etag);
    } else {
      PassCompletes(w, env, s0, h, k, i, etag);
      var p := OnePass(env, h, k, i);
      if p.Last? {
        ConcludeCompletes(w, env, s0, p.history, p.known, etag);
      } else {
        LoopCompletes(w, env, s0, p.history, p.known, i + 1, etag);
      }
    }
  }

  /** Every byte of what the row describes is already stored. */
  predicate Whole(s: Store) {
    s.rows != [] && s.video.Some? && Covered(s.rows) == s.video.value.totalBytes
  }

  lemma RunCompletes(w: World, env: Env, s0: Store, h: History, etag: string)
    requires Healthy(env, s0) && Serves(w, env, etag)
    requires IsStrongEtag(Some(etag)) && 0 < |w.library(etag)| <= MAX_SAFE_INTEGER
    requires AllSound(w, h) && Owns(Now(h), env.me)
    ensures Completes(RunDownload(env, h), etag, Whole(Now(h)))
  {
    var s := Now(h);
    PrepareSound(w, env, h);
    CoveredZero(s.rows);
    match Prepare(env, h)
    case Stop(run) =>
    case Resume(h1, meta) =>
      var h2 := Commit(env, h1, Some(PutVideo(Now(h1), meta))).value;
      PutSound(w, Now(h1), meta);
      SoundExtended(w, h1, Now(h2));
      CoveredZero(Now(h1).rows);
      LoopCompletes(w, env, s0, h2, InitialKnown(meta), 0, etag);
  }

  /**
   * Progress: from every sound store, however stale its chunks and counters, a session that
   * meets working storage and a server of one representation ends ready, and plays exactly
   * that representation unless it already held a whole one.
   */
  lemma SessionCompletes(w: World, env: Env, s: Store, etag: string)
    requires Sound(w, s) && TruthfulEnv(w, env) && Healthy(env, s)
    requires Serves(w, env, etag) && IsStrongEtag(Some(etag)) && 0 < |w.library(etag)| <= MAX_SAFE_INTEGER
    ensures var session := StartDownload(env, s);
      && session.settlement == SettledReady
      && (Whole(s) || PlayBytes(Now(session.history)) == Some(w.library(etag)))
  {
    var h := Commit(env, [s], Some(PutClaim(s, env.me, env.now))).value;
    OwnerIsFree(w, s, Some(Owner(env.me, env.now)));
    SoundExtended(w, [s], Now(h));
    RunCompletes(w, env, s, h, etag);
    RunSound(w, env, h);
    var run := RunDownload(env, h);
    ReleaseSound(w, env, run.history);
    assert StartDownload(env, s) == Session(Release(env, run.history), SettledReady);
    if !Whole(s) {
      ReadyPlays(w, Now(Release(env, run.history)), etag);
    }
  }

  lemma ReadyPlays(w: World, s: Store, etag: string)
    requires Sound(w, s) && s.video.Some? && s.video.value.status == Ready && s.video.value.etag == Some(etag)
    requires 0 < s.video.value.totalBytes && |w.library(etag)| <= MAX_SAFE_INTEGER
    ensures PlayBytes(s) == Some(w.library(etag))
  {
    CoveredNothing(s.rows);
  }

  // ---------------------------------------------------------------------------
  // A flaky network loses nothing
  // ---------------------------------------------------------------------------

  /** Every answer that arrives is about the representation named `etag`; many may not arrive. */
  ghost predicate OnlyAbout(w: World, env: Env, etag: string) {
    forall i: nat, start: nat, end: nat ::
      AboutOnly(w, etag, RequestChunk(env.attempts(i, start, end), start, end))
  }

  predicate AboutOnly(w: World, etag: string, c: Fetched) {
    (c.Chunk? ==> c.etag == Some(etag)) && (c.Unsatisfied? ==> c.total == |w.library(etag)|)
  }

  /** Every state still holds `have`. */
  ghost predicate StillHolds(have: Bytes, h: seq<Store>) {
    forall i :: 0 <= i < |h| ==> have <= Content(Load(h[i].rows))
  }

  ghost predicate Resuming(w: World, k: Known, s: Store, etag: string) {
    InStep(w, k, s) && s.rows != [] && k.etag == Some(etag)
  }

  lemma PassLosesNothing(w: World, env: Env, h: History, k: Known, i: nat, etag: string, have: Bytes)
    requires TruthfulEnv(w, env) && OnlyAbout(w, env, etag)
    requires AllSound(w, h) && Resuming(w, k, Now(h), etag) && StillHolds(have, h)
    ensures match OnePass(env, h, k, i)
      case Halt(run) => StillHolds(have, run.history)
      case Last(h1, k1) => StillHolds(have, h1)
      case More(h1, k1) => StillHolds(have, h1) && AllSound(w, h1) && Resuming(w, k1, Now(h1), etag)
  {
    if k.total != Some(k.offset) {
      var c := Ask(env, k, i);
      AskIsTrue(w, env, k, i);
      assert AboutOnly(w, etag, c);
      if c.Chunk? {
        KeptGrows(w, env, h, k, c, have);
      }
    }
  }

  lemma KeptGrows(w: World, env: Env, h: History, k: Known, c: Fetched, have: Bytes)
    requires AllSound(w, h) && InStep(w, k, Now(h)) && StillHolds(have, h)
    requires TrueChunk(w.library, c) && c.start == k.offset && c.total <= MAX_SAFE_INTEGER
    ensures var h1 := Commit(env, h, WriteOwnedChunk(Now(h), env.me, Adopt(k, c).meta, RowOf(k, c)));
      h1.Some? && !RepresentationChanged(k, c.etag, c.lastModified, c.total) ==>
        && StillHolds(have, h1.value) && AllSound(w, h1.value)
        && InStep(w, Adopt(k, c), Now(h1.value)) && Now(h1.value).rows != []
  {
    var h1 := Commit(env, h, WriteOwnedChunk(Now(h), env.me, Adopt(k, c).meta, RowOf(k, c)));
    if h1.Some? && !RepresentationChanged(k, c.etag, c.lastModified, c.total) {
      KeepStep(w, env, h, k, c);
      RowFits(k, c, Now(h).rows);
      AppendChunk(Now(h).rows, RowOf(k, c));
      assert have <= Content(Load(Now(h).rows));
    }
  }

  lemma {:induction false} LoopLosesNothing(w: World, env: Env, h: History, k: Known, i: nat, etag: string, have: Bytes)
    requires TruthfulEnv(w, env) && OnlyAbout(w, env, etag)
    requires AllSound(w, h) && Resuming(w, k, Now(h), etag) && StillHolds(have, h)
    ensures StillHolds(have, Loop(env, h, k, i).history)
    decreases RestartsLeft(k), k.total.None?, Left(k)
  {
    PassLosesNothing(w, env, h, k, i, etag, have);
    match OnePass(env, h, k, i)
    case Halt(run) =>
    case Last(h1, k1) =>
    case More(h1, k1) => LoopLosesNothing(w, env, h1, k1, i + 1, etag, have);
  }

  lemma RunLosesNothing(w: World, env: Env, h: History, etag: string, have: Bytes)
    requires TruthfulEnv(w, env) && OnlyAbout(w, env, etag) && env.metaRead
    requires AllSound(w, h) && StillHolds(have, h) && Now(h).rows != [] && Now(h).video.value.etag == Some(etag)
    ensures StillHolds(have, RunDownload(env, h).history)
  {
    var s := Now(h);
    PrepareSound(w, env, h);
    RepairSound(w, env, h);
    assert Sound(w, s);
    match Prepare(env, h)
    case Stop(run) =>
    case Resume(h1, meta) =>
      assert Now(h1) == s && meta.etag == Some(etag);
      var h2 := Commit(env, h1, Some(PutVideo(s, meta)));
      if h2.Some? {
        PutSound(w, s, meta);
        SoundExtended(w, h1, Now(h2.value));
        LoopLosesNothing(w, env, h2.value, InitialKnown(meta), 0, etag, have);
      }
  }

  lemma SettlingKeepsRows(env: Env, run: Run, have: Bytes)
    requires StillHolds(have, run.history)
    ensures StillHolds(have, Settle(env, run).history)
  {
    var paused := PauseWithError(env, run.history);
    assert have <= Content(Load(Now(run.history).rows));
    assert Now(paused).rows == Now(run.history).rows && StillHolds(have, paused);
    assert StillHolds(have, Release(env, paused)) && StillHolds(have, Release(env, run.history));
  }

  /**
   * However a session fails, stops or is cut short, as long as the answers that do arrive are
   * about the stored representation, no state it leaves has lost a stored byte.
   */
  lemma NothingIsLost(w: World, env: Env, s: Store, etag: string)
    requires Sound(w, s) && s.rows != [] && s.video.value.etag == Some(etag) && env.metaRead
    requires TruthfulEnv(w, env) && OnlyAbout(w, env, etag)
    ensures StillHolds(Content(Load(s.rows)), StartDownload(env, s).history)
  {
    if !ClaimRefused(env, s) {
      var h := Commit(env, [s], Some(PutClaim(s, env.me, env.now)));
      if h.Some? && !env.abortedAfterClaim {
        OwnerIsFree(w, s, Some(Owner(env.me, env.now)));
        SoundExtended(w, [s], Now(h.value));
        RunLosesNothing(w, env, h.value, etag, Content(Load(s.rows)));
        SettlingKeepsRows(env, RunDownload(env, h.value), Content(Load(s.rows)));
      }
    }
  }

  /** A session that settles as paused has said so in the stored row, if it could write, and kept every chunk. */
  lemma PausedIsMarked(env: Env, s: Store, h: History)
    requires h == [s] + [PutClaim(s, env.me, env.now)] && StartDownload(env, s).settlement == SettledPaused
    ensures var final, last := Now(StartDownload(env, s).history), Now(RunDownload(env, h).history);
      && RunDownload(env, h).end.Threw? && final.rows == last.rows
      && (env.pauseCommits && env.pauseRead ==>
            && final.video.Some? && final.video.value.status == Paused
            && (last.video.Some? ==> final.video.value.etag == last.video.value.etag))
      && (env.pauseCommits && !env.pauseRead ==> final.video == Some(BareRow))
      && (!env.pauseCommits ==> final.video == last.video)
  {
  }

  /** Stored chunks have an ETag to resume them under. */
  predicate Tagged(s: Store) {
    s.rows != [] ==> s.video.Some? && s.video.value.etag.Some?
  }

  lemma {:induction false} LoopStaysTagged(w: World, env: Env, h: History, k: Known, i: nat)
    requires TruthfulEnv(w, env) && AllSound(w, h) && InStep(w, k, Now(h))
    ensures var run := Loop(env, h, k, i); run.end.Threw? ==> Tagged(Now(run.history))
    decreases RestartsLeft(k), k.total.None?, Left(k)
  {
    PassSound(w, env, h, k, i);
    if !OnePass(env, h, k, i).Halt? {
      PassStaysInStep(w, env, h, k, i);
    }
    match OnePass(env, h, k, i)
    case Halt(run) => assert Now(run.history) == Now(h);
    case Last(h1, k1) =>
    case More(h1, k1) => LoopStaysTagged(w, env, h1, k1, i + 1);
  }

  lemma PrepareStaysTagged(w: World, env: Env, h: History)
    requires AllSound(w, h) && Tagged(Now(h))
    ensures match Prepare(env, h)
      case Stop(run) => Tagged(Now(run.history))
      case Resume(h1, _) => Tagged(Now(h1))
  {
    if Now(h).video.Some? {
      RepairSound(w, env, h);
      assert Sound(w, Now(h));
      RepairedSound(w, Now(h));
    }
  }

  lemma RunStaysTagged(w: World, env: Env, h: History)
    requires TruthfulEnv(w, env) && AllSound(w, h) && SeesMetadata(env, Now(h)) && Tagged(Now(h))
    ensures var run := RunDownload(env, h); run.end.Threw? ==> Tagged(Now(run.history))
  {
    PrepareSound(w, env, h);
    PrepareStaysTagged(w, env, h);
    match Prepare(env, h)
    case Stop(run) =>
    case Resume(h1, meta) =>
      var h2 := Commit(env, h1, Some(PutVideo(Now(h1), meta)));
      if h2.Some? {
        PutSound(w, Now(h1), meta);
        SoundExtended(w, h1, Now(h2.value));
        LoopStaysTagged(w, env, h2.value, InitialKnown(meta), 0);
      }
  }

  /** A paused session of a truthful server leaves a sound store, resumable unless the mark replaced an unread row. */
  lemma PauseKeepsTag(w: World, env: Env, s: Store)
    requires TruthfulEnv(w, env) && Sound(w, s) && SeesMetadata(env, s) && Tagged(s)
    requires StartDownload(env, s).settlement == SettledPaused
    ensures var final := Now(StartDownload(env, s).history);
      && Sound(w, final)
      && (env.pauseRead || !env.pauseCommits ==> Tagged(final))
      && (env.pauseCommits && !env.pauseRead ==> final.video == Some(BareRow))
      && (env.pauseCommits ==> final.video.Some? && final.video.value.status == Paused)
  {
    var before := [s] + [PutClaim(s, env.me, env.now)];
    SessionSound(w, env, s);
    PausedIsMarked(env, s, before);
    assert Sound(w, Now(StartDownload(env, s).history));
    OwnerIsFree(w, s, Some(Owner(env.me, env.now)));
    SoundExtended(w, [s], PutClaim(s, env.me, env.now));
    RunSound(w, env, before);
    RunStaysTagged(w, env, before);
  }

  /** The next session goes on from `offset` with `chunks`, or at least leaves them as they are. */
  ghost predicate GoesOnFrom(p: Prepared, offset: int, chunks: seq<Row>) {
    match p
    case Resume(_, _) => ResumesAt(p, offset, chunks)
    case Stop(run) => Load(Now(run.history).rows) == chunks
  }

  lemma TaggedGoesOn(w: World, next: Env, h: History)
    requires Sound(w, Now(h)) && Tagged(Now(h)) && next.metaRead
    ensures GoesOnFrom(Prepare(next, h), Covered(Now(h).rows), Load(Now(h).rows))
    ensures Load(Now(h).rows) == SortByStart(Now(h).rows)
  {
    WholeStarts(Now(h).rows);
    CoveredZero(Now(h).rows);
    RepairWhole(Now(h).rows);
    if Now(h).video.Some? {
      ResumesAtCoverage(next, h);
    }
  }

  lemma BareRowIsWiped(w: World, next: Env, h: History)
    requires Sound(w, Now(h)) && Now(h).video == Some(BareRow) && Now(h).rows != []
    requires next.metaRead && next.chunksRead && forall n: nat :: next.commits(n)
    ensures var p := Prepare(next, h); p.Resume? && Now(p.history).rows == [] && InitialKnown(p.meta).offset == 0
  {
    CoveredZero(Now(h).rows);
    RepairWhole(Now(h).rows);
  }

  /**
   * Pause, then resume: however a session of a truthful server fails, the next session that reads
   * and commits goes on from exactly the end of all that is stored, except when the pause could
   * not read the row and marked it all the same.  Then the next session deletes every chunk.
   */
  lemma PauseThenResumeIff(w: World, env: Env, s: Store, next: Env, h: History)
    requires TruthfulEnv(w, env) && Sound(w, s) && SeesMetadata(env, s) && Tagged(s)
    requires StartDownload(env, s).settlement == SettledPaused
    requires Now(h) == PutClaim(Now(StartDownload(env, s).history), next.me, next.now)
    requires next.metaRead && next.chunksRead && forall n: nat :: next.commits(n)
    ensures var rows := Now(h).rows;
      GoesOnFrom(Prepare(next, h), Covered(rows), Load(rows)) <==> env.pauseRead || !env.pauseCommits || rows == []
    ensures Load(Now(h).rows) == SortByStart(Now(h).rows)
    ensures !env.pauseRead && env.pauseCommits ==>
      Prepare(next, h).Resume? && Now(Prepare(next, h).history).rows == []
  {
    var final := Now(StartDownload(env, s).history);
    PauseKeepsTag(w, env, s);
    OwnerIsFree(w, final, Some(Owner(next.me, next.now)));
    WholeStarts(final.rows);
    CoveredZero(final.rows);
    if env.pauseRead || !env.pauseCommits || final.rows == [] {
      TaggedGoesOn(w, next, h);
    } else {
      BareRowIsWiped(w, next, h);
    }
  }

  // ---------------------------------------------------------------------------
  // Which answers count as the same representation
  // ---------------------------------------------------------------------------

  predicate TotalAgrees(k: Known, total: int) {
    k.total.Some? ==> k.total.value == total
  }

  predicate Differ(a: Option<string>, b: Option<string>) {
    a.Some? && b.Some? && a != b
  }

  /**
   * Under an established strong ETag an answer is accepted exactly when it repeats the ETag and
   * the total, whatever its Last-Modified.  Where one is only now established, the known one must
   * be absent.  With no strong ETag at all a changed Last-Modified is noticed, except when both
   * sides carry ETags and these differ too: a weak ETag that changes hides the change.
   */
  lemma AcceptedIff(k: Known, etag: Option<string>, lastModified: Option<string>, total: int)
    requires k.etagStrong <==> IsStrongEtag(k.etag)
    ensures k.etagStrong ==>
      (!RepresentationChanged(k, etag, lastModified, total) <==> etag == k.etag && TotalAgrees(k, total))
    ensures !k.etagStrong && IsStrongEtag(etag) ==>
      (!RepresentationChanged(k, etag, lastModified, total) <==>
        k.etag.None? && TotalAgrees(k, total) && !Differ(k.lastModified, lastModified))
    ensures !k.etagStrong && !IsStrongEtag(etag) ==>
      (!RepresentationChanged(k, etag, lastModified, total) <==>
        TotalAgrees(k, total) && (Differ(k.lastModified, lastModified) ==> Differ(k.etag, etag)))
  {
  }
}
