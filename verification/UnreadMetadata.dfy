/**
 * `runDownload` treats a failed read of the metadata row as an absent row.  A session is safe
 * to run for every server and every failure exactly when that read works or nothing is stored.
 */
module UnreadMetadata {
  import opened Common
  import opened Ranges
  import opened RangeBody
  import opened ChunkRequest
  import opened OfflineStore
  import opened ChunkLoader
  import opened DownloadModel
  import opened DownloadExact
  import opened ScriptedSessions

  ghost predicate AllExact(w: World, h: seq<Store>) {
    forall i :: 0 <= i < |h| ==> Exact(w, h[i])
  }

  /** Whatever else happens in a session whose metadata read ends so, every state it leaves is exact. */
  ghost predicate SafeSession(w: World, s: Store, metaRead: bool) {
    forall env: Env :: env.metaRead == metaRead && TruthfulEnv(w, env) ==> AllExact(w, StartDownload(env, s).history)
  }

  const NothingThere :=
    Response(416, None, None, Some(ContentRangeForUnsatisfiable(Some(0))), None, 0, false, false, None)

  lemma NothingIsThere(start: nat, end: nat)
    ensures RequestChunk(Always(NothingThere), start, end) == Unsatisfied(0, None, None)
  {
    UnsatisfiedRoundTrip(0);
    var p := Passes(Always(NothingThere), start, end)(0);
    assert p.fetched == Unsatisfied(0, None, None);
  }

  function NothingEver(): Env {
    SessionWith(0, false, (i: nat, start: int, end: int) => Always(NothingThere))
  }

  /** An unread row is replaced, the old chunks stay, and an answer of length 0 marks them ready. */
  lemma UnreadRun(h: History)
    ensures var run := RunDownload(NothingEver(), h);
      && run.end == Completed && |run.history| == |h| + 2 && run.history[..|h|] == h
      && Now(run.history) == Now(h).(video := Some(Meta(Ready, 0, 0, 0, None, false, None)))
  {
    var env := NothingEver();
    var meta := DefaultMeta(None);
    assert Prepare(env, h) == Resume(h, meta);
    var h1 := h + [PutVideo(Now(h), meta)];
    var k := InitialKnown(meta);
    NothingIsThere(0, RangeEnd(k));
    assert Ask(env, k, 0) == Unsatisfied(0, None, None);
    assert Loop(env, h1, k, 0) == Conclude(env, h1, k.(total := Some(0)));
  }

  lemma NothingIsTruthful(w: World)
    ensures TruthfulEnv(w, NothingEver())
  {
  }

  lemma NotExact(w: World, s: Store, bad: Store)
    requires !w.lenient && Sound(w, s) && s.rows != [] && bad.rows == s.rows
    requires bad.video == Some(Meta(Ready, 0, 0, 0, None, false, None))
    ensures !Exact(w, bad)
  {
    CoveredZero(s.rows);
  }

  lemma ReleaseKeepsLast(env: Env, h: History, i: nat)
    requires i == |h| - 1
    ensures i < |Release(env, h)| && Release(env, h)[i] == Now(h)
  {
  }

  lemma LeavesInexactState(w: World, s: Store)
    requires !w.lenient && Sound(w, s) && s.rows != []
    ensures !AllExact(w, StartDownload(NothingEver(), s).history)
  {
    var h := [s] + [PutClaim(s, 0, 0)];
    UnreadRun(h);
    var run := RunDownload(NothingEver(), h);
    NotExact(w, s, Now(run.history));
    SettlesReady(NothingEver(), s, h);
    ReleaseKeepsLast(NothingEver(), run.history, 3);
  }

  lemma UnreadRowGoesWrong(w: World, s: Store)
    requires !w.lenient && Sound(w, s) && s.rows != []
    ensures !SafeSession(w, s, false)
  {
    NothingIsTruthful(w);
    LeavesInexactState(w, s);
  }

  /** For every sound store: a session is safe exactly when the row can be read or nothing is stored. */
  lemma SafeIff(w: World, s: Store, metaRead: bool)
    requires !w.lenient && Sound(w, s)
    ensures SafeSession(w, s, metaRead) <==> metaRead || s.rows == []
  {
    if metaRead || s.rows == [] {
      forall env: Env | env.metaRead == metaRead && TruthfulEnv(w, env)
        ensures AllExact(w, StartDownload(env, s).history)
      {
        SessionSound(w, env, s);
      }
    } else {
      UnreadRowGoesWrong(w, s);
    }
  }

  // ---------------------------------------------------------------------------
  // Mixed bytes, from a server that only ever tells the truth
  // ---------------------------------------------------------------------------

  /** Two representations of two bytes each. */
  const Two := World((etag: string) => if etag == "b" then [3, 4] else [1, 2], true, false)

  const HoldsA := Store(Some(Meta(Ready, 2, 2, 2, Some("a"), true, None)),
                        [Row(0, Some(0), Some(0), Some([1])), Row(1, Some(1), Some(1), Some([2]))], None)

  const FirstOfB := Part("b", None, 0, 2, [3])

  function ServeFirst(i: nat, start: int, end: int): nat -> Attempt {
    Always(if i == 0 then FirstOfB else Gone)
  }

  function Interrupted(): Env {
    SessionWith(0, false, ServeFirst)
  }

  function Resumed(): Env {
    SessionWith(0, true, ServeFirst)
  }

  lemma TwoRowsLoad(a: Bytes, b: Bytes)
    requires |a| == 1 && |b| == 1
    ensures var rows := [Row(0, Some(0), Some(0), Some(a)), Row(1, Some(1), Some(1), Some(b))];
      Load(rows) == rows && Content(rows) == a + b && Covered(rows) == 2
  {
    var first, second := Row(0, Some(0), Some(0), Some(a)), Row(1, Some(1), Some(1), Some(b));
    assert [first, second][1..] == [second] && [second][1..] == [];
    assert SortByStart([second]) == [second];
    assert SortByStart([first, second]) == [first, second];
    assert Validated([second], 1) == [second];
    assert Content([second]) == b;
  }

  lemma FirstOfBArrives(end: nat)
    ensures RequestChunk(Always(FirstOfB), 0, end) == Chunk(0, 0, 2, [3], Some("b"), None)
  {
    PartArrives("b", None, 0, 2, [3], end);
  }

  function Rows(first: Bytes): seq<Row> {
    [Row(0, Some(0), Some(0), Some(first)), Row(1, Some(1), Some(1), Some([2]))]
  }

  /** The unread row costs the first chunk: it is now another representation's. */
  lemma InterruptedRun(h: History)
    requires Now(h).rows == Rows([1]) && Owns(Now(h), 0)
    ensures var run := RunDownload(Interrupted(), h);
      && run.end.Threw?
      && Now(run.history) == Store(Some(Meta(Downloading, 2, 1, 1, Some("b"), true, None)), Rows([3]), Now(h).owner)
  {
    var env, meta := Interrupted(), DefaultMeta(None);
    assert Prepare(env, h) == Resume(h, meta);
    var h1 := h + [PutVideo(Now(h), meta)];
    var k := InitialKnown(meta);
    FirstOfBArrives(RangeEnd(k));
    var c := Ask(env, k, 0);
    assert c == Chunk(0, 0, 2, [3], Some("b"), None) && Judge(k, c) == Keep(c);
    var k1 := Adopt(k, c);
    assert PutRow(Rows([1]), RowOf(k, c)) == Rows([3]);
    var h2 := h1 + [WriteOwnedChunk(Now(h1), 0, k1.meta, RowOf(k, c)).value];
    assert Loop(env, h1, k, 0) == Loop(env, h2, k1, 1);
    GoneAnswers(1, RangeEnd(k1));
    assert Judge(k1, Ask(env, k1, 1)) == Ended(Threw(Api(ApiError(NotFound, 404, 0))));
    assert Loop(env, h2, k1, 1) == Run(h2, Threw(Api(ApiError(NotFound, 404, 0))));
  }

  /** The next session finds a whole tiling under the new ETag and asks for nothing more. */
  lemma ResumedRun(h: History)
    requires Now(h).rows == Rows([3]) && Now(h).video == Some(Meta(Paused, 2, 1, 1, Some("b"), true, None))
    ensures var run := RunDownload(Resumed(), h);
      && run.end == Completed
      && Now(run.history) == Store(Some(Meta(Ready, 2, 2, 2, Some("b"), true, None)), Rows([3]), Now(h).owner)
  {
    var env := Resumed();
    TwoRowsLoad([3], [2]);
    var meta := Meta(Downloading, 2, 2, 2, Some("b"), true, None);
    assert Prepare(env, h) == Resume(h, meta);
    var h1 := h + [PutVideo(Now(h), meta)];
    assert Loop(env, h1, InitialKnown(meta), 0) == Conclude(env, h1, InitialKnown(meta));
  }

  lemma TruthfulAbout(r: Response)
    requires r == FirstOfB || r == Gone
    ensures TruthfulResponse(Two.library, r) && TellsLength(Two.library, r)
  {
    PartIsTruthful(Two.library, "b", None, 0, [3]);
  }

  lemma BothTruthful()
    ensures TruthfulEnv(Two, Interrupted()) && TruthfulEnv(Two, Resumed())
  {
    TruthfulAbout(FirstOfB);
    TruthfulAbout(Gone);
    forall i: nat, start: int, end: int
      ensures TruthfulAttempts(Two.library, ServeFirst(i, start, end))
        && TellingAttempts(Two.library, ServeFirst(i, start, end))
    {
    }
  }

  lemma HoldsAIsSound()
    ensures Sound(Two, HoldsA)
  {
    TwoRowsLoad([1], [2]);
    assert [1 as byte] + [2] == [1, 2];
  }

  lemma AfterInterruption()
    ensures Now(StartDownload(Interrupted(), HoldsA).history) ==
      Store(Some(Meta(Paused, 2, 1, 1, Some("b"), true, None)), Rows([3]), None)
  {
    var h := [HoldsA] + [PutClaim(HoldsA, 0, 0)];
    InterruptedRun(h);
    SettlesPaused(Interrupted(), HoldsA, h);
  }

  lemma AfterResuming(s: Store)
    requires s == Store(Some(Meta(Paused, 2, 1, 1, Some("b"), true, None)), Rows([3]), None)
    ensures Now(StartDownload(Resumed(), s).history) ==
      Store(Some(Meta(Ready, 2, 2, 2, Some("b"), true, None)), Rows([3]), None)
  {
    var h := [s] + [PutClaim(s, 0, 0)];
    ResumedRun(h);
    SettlesReady(Resumed(), s, h);
  }

  /**
   * Two sessions of a truthful server, of which the first cannot read the row of a finished
   * download, leave a ready row whose playback is neither representation.
   */
  lemma MixesBytes()
    ensures Sound(Two, HoldsA) && TruthfulEnv(Two, Interrupted()) && TruthfulEnv(Two, Resumed())
    ensures var paused := Now(StartDownload(Interrupted(), HoldsA).history);
      var final := Now(StartDownload(Resumed(), paused).history);
      && PlayBytes(final) == Some([3, 2]) && final.video.value.etag == Some("b")
      && Two.library("a") == [1, 2] && Two.library("b") == [3, 4]
  {
    BothTruthful();
    HoldsAIsSound();
    AfterInterruption();
    AfterResuming(Now(StartDownload(Interrupted(), HoldsA).history));
    TwoRowsLoad([3], [2]);
    assert [3 as byte] + [2] == [3, 2];
  }
}
