/**
 * A download that is ever marked ready is, byte for byte, the representation its ETag names,
 * over every run of sessions, crashes and deletions.
 */
module DownloadExact {
  import opened Common
  import opened Text
  import opened RangeBody
  import opened ChunkRequest
  import opened OfflineStore
  import opened ChunkLoader
  import opened DownloadModel

  /**
   * The bytes behind each ETag; whether a 416 that names an ETag tells its length; and whether a
   * session may miss the metadata row over a single stored chunk.
   */
  datatype World = World(library: Library, told: bool, lenient: bool)

  // ---------------------------------------------------------------------------
  // The invariant of the store
  // ---------------------------------------------------------------------------

  /** The chunks on disk are the start of what the ETag names, and the total is its length. */
  ghost predicate StartOf(w: World, etag: Option<string>, strong: bool, total: int, rows: seq<Row>) {
    && IsStrongEtag(etag) && strong
    && total == |w.library(etag.value)| <= MAX_SAFE_INTEGER
    && Content(Load(rows)) <= w.library(etag.value)
  }

  /** Stored chunks either match the row's ETag, or the row has no validator to resume them under. */
  ghost predicate Faithful(w: World, m: Meta, rows: seq<Row>) {
    && (rows != [] ==>
         if m.etag.None? then m.lastModified.None? else StartOf(w, m.etag, m.etagStrong, m.totalBytes, rows))
    && (w.told && m.etag.Some? ==> m.totalBytes == |w.library(m.etag.value)| <= MAX_SAFE_INTEGER)
  }

  /**
   * A ready row is exact: its total is what is stored, and that is what its ETag names.  In a
   * lenient world a row of length 0, which is not played, may leave a chunk behind.
   */
  ghost predicate Exact(w: World, s: Store) {
    s.video.Some? && s.video.value.status == Ready && !(w.lenient && s.video.value.totalBytes == 0) ==>
      var m := s.video.value;
      && |Load(s.rows)| == |s.rows|
      && m.totalBytes == |Content(Load(s.rows))|
      && (m.totalBytes > 0 ==> IsStrongEtag(m.etag))
      && (m.totalBytes > 0 || (w.told && m.etag.Some?) ==> Content(Load(s.rows)) == w.library(m.etag.value))
  }

  ghost predicate Sound(w: World, s: Store) {
    && WholeTiling(s.rows)
    && (s.rows != [] ==> s.video.Some?)
    && (s.video.Some? ==> Faithful(w, s.video.value, s.rows))
    && Exact(w, s)
  }

  ghost predicate AllSound(w: World, h: seq<Store>) {
    forall i :: 0 <= i < |h| ==> Sound(w, h[i])
  }

  ghost predicate TruthfulEnv(w: World, env: Env) {
    forall i: nat, start: int, end: int ::
      && TruthfulAttempts(w.library, env.attempts(i, start, end))
      && (w.told ==> TellingAttempts(w.library, env.attempts(i, start, end)))
  }

  /** The metadata read works whenever it matters: when chunks are stored. */
  predicate SeesMetadata(env: Env, s: Store) {
    env.metaRead || s.rows == []
  }

  /** A session may start here: it sees the row, or nothing much is lost if it does not. */
  predicate MayStart(w: World, env: Env, s: Store) {
    SeesMetadata(env, s) || (w.lenient && |s.rows| <= 1)
  }

  lemma SoundExtended(w: World, h: seq<Store>, s: Store)
    requires AllSound(w, h) && Sound(w, s)
    ensures AllSound(w, h + [s])
  {
  }

  lemma CoveredZero(rows: seq<Row>)
    requires WholeTiling(rows)
    ensures Covered(rows) == 0 <==> rows == []
  {
    LoadIsLongestTiling(rows);
    TilesSize(Load(rows), 0, Covered(rows));
  }

  lemma EmptyIsSound(w: World)
    ensures Sound(w, EmptyStore)
  {
  }

  /** A row that is not ready, put over sound chunks. */
  lemma PutSound(w: World, s: Store, m: Meta)
    requires Sound(w, s) && m.status != Ready && Faithful(w, m, s.rows)
    ensures Sound(w, PutVideo(s, m))
  {
  }

  lemma ClearedSound(w: World, m: Meta, owner: Option<Owner>)
    requires m.status != Ready && Faithful(w, m, [])
    ensures Sound(w, Store(Some(m), [], owner))
  {
  }

  // ---------------------------------------------------------------------------
  // The loop
  // ---------------------------------------------------------------------------

  /** What the loop knows agrees with the store: the next byte is the first one missing. */
  ghost predicate InStep(w: World, k: Known, s: Store) {
    && s.video.Some?
    && k.offset == Covered(s.rows) && k.next == |s.rows|
    && (s.rows != [] ==>
         && s.video.value.etag == k.etag && k.total.Some?
         && StartOf(w, k.etag, k.etagStrong, k.total.value, s.rows))
    && (w.told ==> EtagKept(w, k, s))
  }

  /** The loop starts from nothing over one chunk that it does not know, and will replace. */
  ghost predicate Leftover(w: World, k: Known, s: Store) {
    && w.lenient && s.video.Some? && |s.rows| == 1
    && k.offset == 0 && k.next == 0 && k.etag.None? && k.meta.etag.None? && k.meta.lastModified.None?
    && s.video.value.etag.None?
  }

  ghost predicate Agrees(w: World, k: Known, s: Store) {
    InStep(w, k, s) || Leftover(w, k, s)
  }

  ghost predicate EtagKept(w: World, k: Known, s: Store) {
    && s.video.Some? && s.video.value.etag == k.etag == k.meta.etag
    && (k.etag.Some? && (k.total.None? || k.total == Some(0)) ==> w.library(k.etag.value) == [])
  }

  /** The row a chunk becomes fits the end of the coverage. */
  lemma RowFits(k: Known, c: Fetched, rows: seq<Row>)
    requires k.offset == Covered(rows) && k.next == |rows|
    requires c.Chunk? && c.start == k.offset && c.start <= c.end && |c.bytes| == c.end - c.start + 1
    ensures RowOf(k, c).index == |rows| && Fits(RowOf(k, c), Covered(rows))
  {
  }

  lemma PrefixGrows(whole: Bytes, have: Bytes, more: Bytes, end: nat)
    requires have <= whole && |have| <= end < |whole| && more == whole[|have|..end + 1]
    ensures have + more <= whole && |have + more| == end + 1
  {
  }

  /** A chunk that passes the change check belongs to the representation already on disk. */
  lemma SameRepresentation(w: World, k: Known, s: Store, c: Fetched)
    requires InStep(w, k, s) && TrueChunk(w.library, c)
    requires !RepresentationChanged(k, c.etag, c.lastModified, c.total)
    ensures s.rows != [] ==> c.etag == k.etag
  {
  }

  lemma KeepSound(w: World, env: Env, k: Known, s: Store, c: Fetched)
    requires Sound(w, s) && Agrees(w, k, s) && Owns(s, env.me)
    requires TrueChunk(w.library, c) && c.start == k.offset && c.total <= MAX_SAFE_INTEGER
    requires !RepresentationChanged(k, c.etag, c.lastModified, c.total)
    ensures var k1 := Adopt(k, c);
      var s1 := WriteOwnedChunk(s, env.me, k1.meta, RowOf(k, c)).value;
      Sound(w, s1) && InStep(w, k1, s1)
  {
    if Leftover(w, k, s) {
      ReplaceSound(w, env, k, s, c);
    } else {
      AppendSound(w, env, k, s, c);
    }
  }

  lemma AppendSound(w: World, env: Env, k: Known, s: Store, c: Fetched)
    requires Sound(w, s) && InStep(w, k, s) && Owns(s, env.me)
    requires TrueChunk(w.library, c) && c.start == k.offset && c.total <= MAX_SAFE_INTEGER
    requires !RepresentationChanged(k, c.etag, c.lastModified, c.total)
    ensures var k1 := Adopt(k, c);
      var s1 := WriteOwnedChunk(s, env.me, k1.meta, RowOf(k, c)).value;
      Sound(w, s1) && InStep(w, k1, s1)
  {
    var whole := w.library(c.etag.value);
    var have := Content(Load(s.rows));
    SameRepresentation(w, k, s, c);
    RowFits(k, c, s.rows);
    AppendChunk(s.rows, RowOf(k, c));
    if s.rows == [] {
      CoveredZero(s.rows);
    }
    PrefixGrows(whole, have, c.bytes, c.end);
  }

  lemma OneRow(row: Row)
    requires row.index == 0 && Fits(row, 0)
    ensures Load([row]) == [row] && Content([row]) == row.blob.value && WholeTiling([row])
  {
    assert [row][1..] == [];
    assert SortByStart([row]) == [row];
    assert Validated([row][1..], row.end.value + 1) == [];
  }

  /** The first chunk takes the place of the one that was left over. */
  lemma ReplaceSound(w: World, env: Env, k: Known, s: Store, c: Fetched)
    requires Sound(w, s) && Leftover(w, k, s) && Owns(s, env.me)
    requires TrueChunk(w.library, c) && c.start == k.offset && c.total <= MAX_SAFE_INTEGER
    ensures var k1 := Adopt(k, c);
      var s1 := WriteOwnedChunk(s, env.me, k1.meta, RowOf(k, c)).value;
      Sound(w, s1) && InStep(w, k1, s1)
  {
    var row := RowOf(k, c);
    WholeStarts(s.rows);
    assert s.rows == [s.rows[0]] && s.rows[0].index == 0;
    assert PutRow(s.rows, row) == [row];
    OneRow(row);
    assert c.bytes <= w.library(c.etag.value);
  }

  /** Every state is sound, and a run that completes leaves a ready row. */
  ghost predicate GoodRun(w: World, run: Run) {
    && AllSound(w, run.history)
    && (run.end == Completed ==> Now(run.history).video.Some? && Now(run.history).video.value.status == Ready)
  }

  lemma AskIsTrue(w: World, env: Env, k: Known, i: nat)
    requires TruthfulEnv(w, env)
    ensures Ask(env, k, i).Chunk? ==> TrueChunk(w.library, Ask(env, k, i))
    ensures w.told ==> TrueLength(w.library, Ask(env, k, i))
  {
    var start, end := k.offset, RangeEnd(k);
    if start >= 0 && end >= 0 {
      ChunkIsExact(w.library, env.attempts(i, start, end), start, end);
      if w.told {
        LengthIsTold(w.library, env.attempts(i, start, end), start, end);
      }
    }
  }

  lemma ConcludeSound(w: World, env: Env, h: History, k: Known)
    requires AllSound(w, h) && Agrees(w, k, Now(h)) && k.total == Some(k.offset)
    ensures GoodRun(w, Conclude(env, h, k))
  {
    var run, s := Conclude(env, h, k), Now(h);
    if run.end == Completed {
      CoveredZero(s.rows);
      assert Sound(w, s);
      assert Sound(w, Now(run.history));
      SoundExtended(w, h, Now(run.history));
    }
  }

  /** A total that may be stored with an ETag. */
  ghost predicate TrueTotal(w: World, total: int, etag: Option<string>) {
    0 <= total <= MAX_SAFE_INTEGER && (w.told && OrNull(etag).Some? ==> total == |w.library(etag.value)|)
  }

  lemma RestartStep(w: World, env: Env, h: History, k: Known, meta: Meta,
                    total: int, etag: Option<string>, lastModified: Option<string>)
    requires AllSound(w, h) && meta == ResetMeta(total, etag, lastModified) && TrueTotal(w, total, etag)
    requires Commit(env, h, ResetForNewRepresentation(Now(h), env.me, meta)).Some?
    ensures var h1 := Commit(env, h, ResetForNewRepresentation(Now(h), env.me, meta)).value;
      AllSound(w, h1) && InStep(w, AfterRestart(k, meta), Now(h1))
  {
    ClearedSound(w, meta, Now(h).owner);
    SoundExtended(w, h, Store(Some(meta), [], Now(h).owner));
  }

  lemma KeepStep(w: World, env: Env, h: History, k: Known, c: Fetched)
    requires AllSound(w, h) && Agrees(w, k, Now(h))
    requires TrueChunk(w.library, c) && c.start == k.offset && c.total <= MAX_SAFE_INTEGER
    requires !RepresentationChanged(k, c.etag, c.lastModified, c.total)
    requires Commit(env, h, WriteOwnedChunk(Now(h), env.me, Adopt(k, c).meta, RowOf(k, c))).Some?
    ensures var h1 := Commit(env, h, WriteOwnedChunk(Now(h), env.me, Adopt(k, c).meta, RowOf(k, c))).value;
      AllSound(w, h1) && InStep(w, Adopt(k, c), Now(h1))
  {
    KeepSound(w, env, k, Now(h), c);
    SoundExtended(w, h, WriteOwnedChunk(Now(h), env.me, Adopt(k, c).meta, RowOf(k, c)).value);
  }

  ghost predicate GoodPass(w: World, p: DownloadModel.Pass) {
    match p
    case Halt(run) => GoodRun(w, run)
    case Last(h, k) => AllSound(w, h) && Agrees(w, k, Now(h))
    case More(h, k) => AllSound(w, h) && Agrees(w, k, Now(h))
  }

  /** What the commit of a turn leaves, if it goes through. */
  lemma TurnSound(w: World, env: Env, h: History, k: Known, c: Fetched)
    requires AllSound(w, h) && Agrees(w, k, Now(h))
    requires c.Chunk? ==> TrueChunk(w.library, c) && c.start == k.offset && c.total <= MAX_SAFE_INTEGER
    requires c.Unsatisfied? ==> c.total <= MAX_SAFE_INTEGER && (w.told ==> TrueLength(w.library, c))
    ensures Judge(k, c).Restart? ==>
      var meta := Judge(k, c).meta;
      var h1 := Commit(env, h, ResetForNewRepresentation(Now(h), env.me, meta));
      h1.Some? ==> AllSound(w, h1.value) && InStep(w, AfterRestart(k, meta), Now(h1.value))
    ensures Judge(k, c).Keep? ==>
      var h1 := Commit(env, h, WriteOwnedChunk(Now(h), env.me, Adopt(k, c).meta, RowOf(k, c)));
      h1.Some? ==> AllSound(w, h1.value) && InStep(w, Adopt(k, c), Now(h1.value))
  {
    var turn := Judge(k, c);
    if turn.Restart? {
      if Commit(env, h, ResetForNewRepresentation(Now(h), env.me, turn.meta)).Some? {
        RestartStep(w, env, h, k, turn.meta, c.total, c.etag, c.lastModified);
      }
    } else if turn.Keep? {
      if Commit(env, h, WriteOwnedChunk(Now(h), env.me, Adopt(k, c).meta, RowOf(k, c))).Some? {
        KeepStep(w, env, h, k, c);
      }
    }
  }

  /** A length learned from a 416 fits what is stored. */
  lemma LearningSound(w: World, k: Known, s: Store, c: Fetched)
    requires Agrees(w, k, s) && (Judge(k, c).Confirmed? || Judge(k, c).Learned?)
    requires c.Unsatisfied? && c.total <= MAX_SAFE_INTEGER && (w.told ==> TrueLength(w.library, c))
    ensures Agrees(w, k.(total := Some(c.total)), s)
    ensures InStep(w, k, s) ==> InStep(w, k.(total := Some(c.total)), s)
  {
  }

  lemma AskedSound(w: World, env: Env, h: History, k: Known, i: nat)
    requires TruthfulEnv(w, env) && AllSound(w, h) && Agrees(w, k, Now(h))
    ensures var turn, c := Judge(k, Ask(env, k, i)), Ask(env, k, i);
      && (turn.Restart? ==>
        var h1 := Commit(env, h, ResetForNewRepresentation(Now(h), env.me, turn.meta));
        h1.Some? ==> AllSound(w, h1.value) && InStep(w, AfterRestart(k, turn.meta), Now(h1.value)))
      && (turn.Keep? ==>
        var h1 := Commit(env, h, WriteOwnedChunk(Now(h), env.me, Adopt(k, c).meta, RowOf(k, c)));
        h1.Some? ==> AllSound(w, h1.value) && InStep(w, Adopt(k, c), Now(h1.value)))
      && (turn.Confirmed? || turn.Learned? ==> Agrees(w, k.(total := Some(turn.total)), Now(h)))
      && (InStep(w, k, Now(h)) && (turn.Confirmed? || turn.Learned?) ==>
        InStep(w, k.(total := Some(turn.total)), Now(h)))
  {
    AskIsTrue(w, env, k, i);
    if Judge(k, Ask(env, k, i)).Confirmed? || Judge(k, Ask(env, k, i)).Learned? {
      LearningSound(w, k, Now(h), Ask(env, k, i));
    }
    TurnSound(w, env, h, k, Ask(env, k, i));
  }

  lemma PassSound(w: World, env: Env, h: History, k: Known, i: nat)
    requires TruthfulEnv(w, env)
    requires AllSound(w, h) && Agrees(w, k, Now(h))
    ensures GoodPass(w, OnePass(env, h, k, i))
  {
    if !env.abortedBefore(i) && k.total != Some(k.offset) {
      AskedSound(w, env, h, k, i);
    }
  }

  lemma PassStaysInStep(w: World, env: Env, h: History, k: Known, i: nat)
    requires TruthfulEnv(w, env)
    requires AllSound(w, h) && InStep(w, k, Now(h)) && !OnePass(env, h, k, i).Halt?
    ensures InStep(w, OnePass(env, h, k, i).known, Now(OnePass(env, h, k, i).history))
  {
    if k.total != Some(k.offset) {
      AskedSound(w, env, h, k, i);
    }
  }

  lemma {:induction false} LoopSound(w: World, env: Env, h: History, k: Known, i: nat)
    requires TruthfulEnv(w, env)
    requires AllSound(w, h) && Agrees(w, k, Now(h))
    ensures GoodRun(w, Loop(env, h, k, i))
    decreases RestartsLeft(k), k.total.None?, Left(k)
  {
    PassSound(w, env, h, k, i);
    match OnePass(env, h, k, i)
    case Halt(run) =>
    case Last(h1, k1) => ConcludeSound(w, env, h1, k1);
    case More(h1, k1) => LoopSound(w, env, h1, k1, i + 1);
  }

  // ---------------------------------------------------------------------------
  // A session
  // ---------------------------------------------------------------------------

  lemma RepairedSound(w: World, s: Store)
    requires Sound(w, s)
    ensures Sound(w, RepairTrailing(s, Covered(s.rows))) && RepairTrailing(s, Covered(s.rows)) == s
    ensures RepairTrailing(s, 0).rows == []
    ensures
      (s.video.Some? && s.video.value.status == Ready && s.rows != [] ==>
        s.video.value.totalBytes == 0 && s.video.value.etag.None?) ==>
      Sound(w, RepairTrailing(s, 0))
  {
    RepairWhole(s.rows);
  }

  /** What the loop starts from agrees with the store it starts on. */
  ghost predicate Prepares(w: World, p: Prepared) {
    match p
    case Stop(run) => GoodRun(w, run)
    case Resume(h, meta) =>
      && AllSound(w, h) && meta.status != Ready
      && Faithful(w, meta, Now(h).rows)
      && Agrees(w, InitialKnown(meta), PutVideo(Now(h), meta))
  }

  /** A session that sees the row, or finds nothing stored, starts in step. */
  ghost predicate StartsInStep(w: World, p: Prepared) {
    p.Resume? ==> InStep(w, InitialKnown(p.meta), PutVideo(Now(p.history), p.meta))
  }

  lemma RepairSound(w: World, env: Env, h: History)
    requires AllSound(w, h) && Now(h).video.Some?
    ensures var h1 := Repair(env, h, RepairCut(Now(h).video.value, Now(h).rows));
      h1.Some? ==> AllSound(w, h1.value) && Now(h1.value) == Now(h)
  {
    var s := Now(h);
    RepairedSound(w, s);
    CoveredZero(s.rows);
    SoundExtended(w, h, s);
  }

  /** With nothing to prove the stored chunks by, they are wiped and the run starts from nothing. */
  lemma WipeSound(w: World, env: Env, h: History, meta: Meta)
    requires AllSound(w, h) && Now(h).rows != [] && Now(h).video.Some? && Now(h).video.value.etag.None?
    requires meta == Meta(Downloading, 0, 0, 0, None, meta.etagStrong, None)
    ensures var h1 := Repair(env, h, Some(0));
      h1.Some? ==> Prepares(w, Resume(h1.value, meta)) && StartsInStep(w, Resume(h1.value, meta))
  {
    var s := Now(h);
    assert Sound(w, s);
    RepairedSound(w, s);
    CoveredZero([]);
    CoveredZero(s.rows);
    SoundExtended(w, h, RepairTrailing(s, 0));
  }

  /** With a validator, or nothing stored, the run goes on from the whole coverage. */
  lemma ResumeSound(w: World, h: History, meta: Meta)
    requires AllSound(w, h) && Now(h).video.Some?
    requires
      var s := Now(h);
      meta == DefaultMeta(s.video).(completedBytes := Covered(s.rows), chunkCount := |Load(s.rows)|)
    requires Now(h).rows != [] ==> Now(h).video.value.etag.Some?
    ensures Prepares(w, Resume(h, meta)) && StartsInStep(w, Resume(h, meta))
  {
    assert Sound(w, Now(h));
    CoveredZero(Now(h).rows);
  }

  lemma PrepareSound(w: World, env: Env, h: History)
    requires AllSound(w, h) && MayStart(w, env, Now(h))
    ensures Prepares(w, Prepare(env, h)) && (SeesMetadata(env, Now(h)) ==> StartsInStep(w, Prepare(env, h)))
  {
    var s := Now(h);
    CoveredZero(s.rows);
    if env.chunksRead && env.metaRead && s.video.Some? {
      var e := s.video.value;
      RepairSound(w, env, h);
      var h1 := Repair(env, h, RepairCut(e, s.rows));
      var meta := DefaultMeta(Some(e)).(completedBytes := Covered(s.rows), chunkCount := |Load(s.rows)|);
      assert Sound(w, s);
      if h1.Some? && !AlreadyReady(e, s.rows) {
        if s.rows != [] && e.etag.None? {
          WipeSound(w, env, h1.value, meta.(completedBytes := 0, chunkCount := 0, totalBytes := 0));
        } else {
          ResumeSound(w, h1.value, meta);
        }
      }
    }
  }

  lemma RunSound(w: World, env: Env, h: History)
    requires TruthfulEnv(w, env) && AllSound(w, h) && MayStart(w, env, Now(h))
    ensures GoodRun(w, RunDownload(env, h))
  {
    PrepareSound(w, env, h);
    match Prepare(env, h)
    case Stop(run) =>
    case Resume(h1, meta) =>
      var h2 := Commit(env, h1, Some(PutVideo(Now(h1), meta)));
      if h2.Some? {
        PutSound(w, Now(h1), meta);
        SoundExtended(w, h1, Now(h2.value));
        LoopSound(w, env, h2.value, InitialKnown(meta), 0);
      }
  }

  lemma OwnerIsFree(w: World, s: Store, owner: Option<Owner>)
    requires Sound(w, s)
    ensures Sound(w, s.(owner := owner))
  {
  }

  lemma ReleaseSound(w: World, env: Env, h: History)
    requires AllSound(w, h)
    ensures AllSound(w, Release(env, h)) && Now(Release(env, h)).video == Now(h).video
  {
    OwnerIsFree(w, Now(h), None);
    SoundExtended(w, h, ReleaseClaim(Now(h), env.me));
  }

  lemma PauseSound(w: World, env: Env, h: History)
    requires AllSound(w, h)
    ensures AllSound(w, PauseWithError(env, h))
  {
    var s := Now(h);
    var latest := if env.pauseRead && s.video.Some? then s.video.value else BareRow;
    PutSound(w, s, latest.(status := Paused));
    SoundExtended(w, h, PutVideo(s, latest.(status := Paused)));
  }

  lemma SettleSound(w: World, env: Env, run: Run)
    requires GoodRun(w, run)
    ensures GoodSession(w, Settle(env, run))
  {
    PauseSound(w, env, run.history);
    ReleaseSound(w, env, run.history);
    ReleaseSound(w, env, PauseWithError(env, run.history));
  }

  /** Every state is sound, and a session that settles as ready leaves a ready row. */
  ghost predicate GoodSession(w: World, session: Session) {
    && AllSound(w, session.history)
    && (session.settlement == SettledReady ==>
          Now(session.history).video.Some? && Now(session.history).video.value.status == Ready)
  }

  /** One session of a truthful server: every state it passes is sound, and ready means a ready row. */
  lemma SessionSound(w: World, env: Env, s: Store)
    requires TruthfulEnv(w, env) && Sound(w, s) && MayStart(w, env, s)
    ensures GoodSession(w, StartDownload(env, s))
  {
    if !ClaimRefused(env, s) {
      var h := Commit(env, [s], Some(PutClaim(s, env.me, env.now)));
      if h.Some? {
        OwnerIsFree(w, s, Some(Owner(env.me, env.now)));
        SoundExtended(w, [s], Now(h.value));
        if env.abortedAfterClaim {
          ReleaseSound(w, env, h.value);
        } else {
          RunSound(w, env, h.value);
          SettleSound(w, env, RunDownload(env, h.value));
        }
      }
    }
  }

  // ---------------------------------------------------------------------------
  // Every run
  // ---------------------------------------------------------------------------

  /**
   * A session, cut short after `survives` of its transactions when the page goes away; an
   * explicit deletion; or any change of the ownership record, which other pages make.
   */
  datatype Event =
    | Download(env: Env, survives: nat)
    | Delete(me: Context, now: int, commits: bool)
    | OwnerChange(owner: Option<Owner>)

  /** The states one event goes through, from the one before it. */
  function States(s: Store, e: Event): History {
    match e
    case Download(env, survives) =>
      var h := StartDownload(env, s).history;
      if survives + 1 < |h| then h[..survives + 1] else h
    case Delete(me, now, commits) =>
      var deleted := DeleteVideoData(s, me, now);
      if commits && deleted.Some? then [s, deleted.value] else [s]
    case OwnerChange(owner) => [s, s.(owner := owner)]
  }

  /** All states a run goes through. */
  function Trace(s: Store, events: seq<Event>): History
    decreases |events|
  {
    if events == [] then [s]
    else States(s, events[0]) + Trace(Now(States(s, events[0])), events[1..])
  }

  /** Every server answer is truthful, and every session that meets stored chunks can read their metadata. */
  ghost predicate Honest(w: World, s: Store, events: seq<Event>)
    decreases |events|
  {
    events != [] ==>
      && (events[0].Download? ==> TruthfulEnv(w, events[0].env) && MayStart(w, events[0].env, s))
      && Honest(w, Now(States(s, events[0])), events[1..])
  }

  lemma {:induction false} TraceSound(w: World, s: Store, events: seq<Event>)
    requires Sound(w, s) && Honest(w, s, events)
    ensures AllSound(w, Trace(s, events))
    decreases |events|
  {
    if events != [] {
      var e := events[0];
      match e {
        case Download(env, _) => SessionSound(w, env, s);
        case Delete(_, _, _) => EmptyIsSound(w);
        case OwnerChange(owner) => OwnerIsFree(w, s, owner);
      }
      assert AllSound(w, States(s, e));
      TraceSound(w, Now(States(s, e)), events[1..]);
    }
  }

  /**
   * Over every run from an empty store: whenever the row says ready, the stored chunks are
   * `totalBytes` long and are what the stored ETag names; what is played is exactly that.
   */
  lemma ReadyIsExact(w: World, events: seq<Event>)
    requires Honest(w, EmptyStore, events)
    ensures forall s :: s in Trace(EmptyStore, events) ==>
      && Exact(w, s)
      && (PlayBytes(s).Some? ==>
        IsStrongEtag(s.video.value.etag) && PlayBytes(s).value == w.library(s.video.value.etag.value))
  {
    EmptyIsSound(w);
    TraceSound(w, EmptyStore, events);
    forall s | s in Trace(EmptyStore, events)
      ensures Exact(w, s)
      ensures PlayBytes(s).Some? ==>
        IsStrongEtag(s.video.value.etag) && PlayBytes(s).value == w.library(s.video.value.etag.value)
    {
      assert Sound(w, s);
      PlaysWholeTilingOnly(s);
    }
  }
}
