/**
 * Downloads that several pages take turns at: exact as long as rows are put and repaired only by
 * the page that holds the claim, and what a late row put of another page can do.
 */
module SharedDownload {
  import opened Common
  import opened RangeBody
  import opened ChunkRequest
  import opened OfflineStore
  import opened ChunkLoader
  import opened DownloadModel
  import opened DownloadExact
  import opened UnreadPlayback
  import opened ScriptedSessions
  import Ownership

  // ---------------------------------------------------------------------------
  // Exact while only the holder puts rows
  // ---------------------------------------------------------------------------

  function StoreAt(es: seq<Ownership.Event>, n: nat): Store
    requires n <= |es|
  {
    Ownership.After(es[..n]).store
  }

  predicate SameContent(a: Store, b: Store) {
    a.video == b.video && a.rows == b.rows
  }

  /** Metadata rows are put, and records repaired, only under the claim; chunks and resets are fenced anyway. */
  ghost predicate HoldersOnly(es: seq<Ownership.Event>) {
    forall i :: 0 <= i < |es| && Ownership.Took(es, i) && (es[i].action.VideoRow? || es[i].action.Repair?) ==>
      Ownership.HoldsClaim(es, i, es[i].who)
  }

  /** The store is in one of the states of the session that the page began with its claim `j`. */
  ghost predicate InSession(es: seq<Ownership.Event>, pages: nat -> Env, j: nat, n: nat)
    requires j <= n <= |es|
  {
    var states := StartDownload(pages(j), StoreAt(es, j)).history;
    exists x :: 0 <= x < |states| && SameContent(StoreAt(es, n), states[x])
  }

  /**
   * Each page that holds the claim is running a session of a truthful server, from the store it
   * found when it claimed, and can read the row where chunks are stored.
   */
  ghost predicate Paged(w: World, es: seq<Ownership.Event>, pages: nat -> Env) {
    forall j: nat, n: nat :: j < n <= |es| && Ownership.HoldsSince(es, j, n, es[j].who) ==>
      && TruthfulEnv(w, pages(j)) && SeesMetadata(pages(j), StoreAt(es, j))
      && InSession(es, pages, j, n)
  }

  lemma SoundByContent(w: World, a: Store, b: Store)
    requires Sound(w, b) && SameContent(a, b)
    ensures Sound(w, a)
  {
    OwnerIsFree(w, b, a.owner);
    assert a == b.(owner := a.owner);
  }

  ghost predicate Unheld(es: seq<Ownership.Event>, m: nat)
    requires m <= |es|
  {
    forall c :: !Ownership.HoldsClaim(es, m, c)
  }

  /** Nobody holds the claim after event `n`: it has deleted everything, or left the content as it was. */
  lemma UnheldStep(es: seq<Ownership.Event>, n: nat)
    requires n < |es| && HoldersOnly(es) && Unheld(es, n + 1)
    ensures StoreAt(es, n + 1) == EmptyStore || SameContent(StoreAt(es, n + 1), StoreAt(es, n))
  {
    Ownership.AfterNext(es, n);
    var e := es[n];
    if Ownership.Took(es, n) && (e.action.VideoRow? || e.action.Repair? || e.action.Chunk? || e.action.Reset?) {
      Ownership.OwnerIsClaimHolder(es, n, e.who);
      Ownership.OwnerIsClaimHolder(es, n + 1, e.who);
    }
  }

  lemma HeldIsSound(w: World, es: seq<Ownership.Event>, pages: nat -> Env, j: nat, n: nat)
    requires n <= |es| && Paged(w, es, pages) && j < n && Ownership.HoldsSince(es, j, n, es[j].who)
    requires Sound(w, StoreAt(es, j))
    ensures Sound(w, StoreAt(es, n))
  {
    SessionSound(w, pages(j), StoreAt(es, j));
    var states := StartDownload(pages(j), StoreAt(es, j)).history;
    var x :| 0 <= x < |states| && SameContent(StoreAt(es, n), states[x]);
    SoundByContent(w, StoreAt(es, n), states[x]);
  }

  /**
   * Over any interleaving of pages in which rows are put only under the claim: every state is
   * sound, so a ready row is exact and what is played is what its ETag names.
   */
  lemma {:induction false} SharedIsExact(w: World, es: seq<Ownership.Event>, pages: nat -> Env, n: nat)
    requires n <= |es| && HoldersOnly(es) && Paged(w, es, pages)
    ensures Sound(w, StoreAt(es, n)) && Exact(w, StoreAt(es, n)) && PlaysTruly(w, StoreAt(es, n))
    decreases n
  {
    if c :| Ownership.HoldsClaim(es, n, c) {
      var j: nat :| Ownership.HoldsSince(es, j, n, c);
      SharedIsExact(w, es, pages, j);
      HeldIsSound(w, es, pages, j, n);
    } else if n > 0 {
      SharedIsExact(w, es, pages, n - 1);
      UnheldStep(es, n - 1);
      EmptyIsSound(w);
      if SameContent(StoreAt(es, n), StoreAt(es, n - 1)) {
        SoundByContent(w, StoreAt(es, n), StoreAt(es, n - 1));
      }
    } else {
      EmptyIsSound(w);
    }
    SoundPlaysTruly(w, StoreAt(es, n));
  }

  // ---------------------------------------------------------------------------
  // A late row
  // ---------------------------------------------------------------------------

  const TwoBytes := World((etag: string) => if etag == "b" then [3, 4] else [1, 2], true, false)

  const FirstOfA := Row(0, Some(0), Some(0), Some([1]))
  const FirstOfB := Row(0, Some(0), Some(0), Some([3]))

  function HalfOf(etag: string, status: Status): Meta {
    Meta(status, 2, 1, 1, Some(etag), true, None)
  }

  const HalfA := Store(Some(HalfOf("a", Paused)), [FirstOfA], None)

  /** Page 1 meets a dead line. */
  function Page1(): Env {
    SessionWith(1, true, (i: nat, start: int, end: int) => Always(Gone))
  }

  /** Page 2, a liveness window later, meets the other representation, and after its first byte a dead line. */
  function Page2(): Env {
    SessionWith(2, true, ServeB).(now := OWNER_LIVENESS_MS, ownerReadFirst := true, ownerReadAgain := true)
  }

  function ServeB(i: nat, start: int, end: int): nat -> Attempt {
    Always(if i == 0 then Part("b", None, 1, 2, [4]) else if i == 1 then Part("b", None, 0, 2, [3]) else Gone)
  }

  /** Page 3 meets the first representation again. */
  function Page3(): Env {
    SessionWith(3, true, (i: nat, start: int, end: int) => Always(Part("a", None, 1, 2, [2])))
  }

  lemma OneChunk(row: Row, b: byte)
    requires row == Row(0, Some(0), Some(0), Some([b]))
    ensures Load([row]) == [row] && Content([row]) == [b] && Covered([row]) == 1 && WholeTiling([row])
  {
    OneRow(row);
  }

  /** Page 1 fails; it has read its row and not yet marked it. */
  lemma Page1Fails()
    ensures var run := RunDownload(Page1(), [HalfA] + [PutClaim(HalfA, 1, 0)]);
      run.end.Threw? && Now(run.history) == Store(Some(HalfOf("a", Downloading)), [FirstOfA], Some(Owner(1, 0)))
  {
    var env, h, meta := Page1(), [HalfA] + [PutClaim(HalfA, 1, 0)], HalfOf("a", Downloading);
    OneChunk(FirstOfA, 1);
    assert Prepare(env, h) == Resume(h, meta);
    RunsLoop(env, h, h, meta);
    GoneNext(env, h + [PutVideo(Now(h), meta)], InitialKnown(meta), 0);
  }

  function Frozen(): Store {
    Store(Some(HalfOf("a", Downloading)), [FirstOfA], Some(Owner(1, 0)))
  }

  lemma Page2Restarts(h: History)
    requires Owns(Now(h), 2) && Now(h).rows == [FirstOfA]
    ensures var reset := ResetMeta(2, Some("b"), None);
      OnePass(Page2(), h, InitialKnown(HalfOf("a", Downloading)), 0) ==
        More(h + [Store(Some(reset), [], Now(h).owner)], AfterRestart(InitialKnown(HalfOf("a", Downloading)), reset))
  {
    var env, k := Page2(), InitialKnown(HalfOf("a", Downloading));
    PartIsAsked(env, k, 0, "b", None, 2, [4]);
    assert Judge(k, Ask(env, k, 0)) == Restart(ResetMeta(2, Some("b"), None));
  }

  lemma Page2Stores(h: History, k: Known)
    requires Owns(Now(h), 2) && Now(h).rows == []
    requires k == AfterRestart(InitialKnown(HalfOf("a", Downloading)), ResetMeta(2, Some("b"), None))
    ensures var run := Loop(Page2(), h, k, 1);
      run.end.Threw? && Now(run.history) == Store(Some(HalfOf("b", Downloading)), [FirstOfB], Now(h).owner)
  {
    var env := Page2();
    PartIsAsked(env, k, 1, "b", None, 2, [3]);
    var c := Ask(env, k, 1);
    assert Judge(k, c) == Keep(c) && RowOf(k, c) == FirstOfB && PutRow([], FirstOfB) == [FirstOfB];
    var h1 := h + [Store(Some(HalfOf("b", Downloading)), [FirstOfB], Now(h).owner)];
    assert OnePass(env, h, k, 1) == More(h1, Adopt(k, c));
    GoneNext(env, h1, Adopt(k, c), 2);
  }

  /** Page 2 takes over, restarts for the other representation, stores its first byte and pauses. */
  lemma Page2TakesOver()
    ensures Now(StartDownload(Page2(), Frozen()).history) == Store(Some(HalfOf("b", Paused)), [FirstOfB], None)
  {
    var env, h, meta := Page2(), [Frozen()] + [PutClaim(Frozen(), 2, OWNER_LIVENESS_MS)], HalfOf("a", Downloading);
    OneChunk(FirstOfA, 1);
    assert Prepare(env, h) == Resume(h, meta);
    RunsLoop(env, h, h, meta);
    var h1 := h + [PutVideo(Now(h), meta)];
    Page2Restarts(h1);
    var p := OnePass(env, h1, InitialKnown(meta), 0);
    Page2Stores(p.history, p.known);
    PausesAs(env, Frozen(), h);
  }

  lemma PausesAs(env: Env, s: Store, h: History)
    requires !ClaimRefused(env, s) && !env.abortedAfterClaim && !env.abortedAtEnd && env.commits(1)
    requires h == [s] + [PutClaim(s, env.me, env.now)] && RunDownload(env, h).end.Threw?
    ensures StartDownload(env, s).history == Release(env, PauseWithError(env, RunDownload(env, h).history))
  {
  }

  /** The row that page 1 read before, marked paused after: the old ETag over the new chunk. */
  function Late(): Store {
    Store(Some(HalfOf("a", Paused)), [FirstOfB], None)
  }

  lemma Page3Joins(h: History)
    requires Owns(Now(h), 3) && Now(h).rows == [FirstOfB]
    ensures var k := InitialKnown(HalfOf("a", Downloading));
      var meta := Meta(Downloading, 2, 2, 2, Some("a"), true, None);
      OnePass(Page3(), h, k, 0) ==
        Last(h + [Store(Some(meta), PutRow([FirstOfB], SecondOfA()), Now(h).owner)],
          Known(2, 2, Some(2), Some("a"), true, None, 0, meta))
  {
    var env, k := Page3(), InitialKnown(HalfOf("a", Downloading));
    PartIsAsked(env, k, 0, "a", None, 2, [2]);
    var c := Ask(env, k, 0);
    assert Judge(k, c) == Keep(c) && RowOf(k, c) == SecondOfA();
  }

  function SecondOfA(): Row {
    Row(1, Some(1), Some(1), Some([2]))
  }

  lemma JoinedLoads()
    ensures var rows := PutRow([FirstOfB], SecondOfA());
      |Load(rows)| == 2 && Content(Load(rows)) == [3, 2] && Covered(rows) == 2
  {
    OneChunk(FirstOfB, 3);
    AppendChunk([FirstOfB], SecondOfA());
    assert [3 as byte] + [2] == [3, 2];
  }

  lemma Page3Finishes()
    ensures var session := StartDownload(Page3(), Late());
      PlayBytes(Now(session.history)) == Some([3, 2]) && Now(session.history).video.value.etag == Some("a")
  {
    var env, h, meta := Page3(), [Late()] + [PutClaim(Late(), 3, 0)], HalfOf("a", Downloading);
    OneChunk(FirstOfB, 3);
    assert Prepare(env, h) == Resume(h, meta);
    RunsLoop(env, h, h, meta);
    var h1 := h + [PutVideo(Now(h), meta)];
    Page3Joins(h1);
    var p := OnePass(env, h1, InitialKnown(meta), 0);
    JoinedLoads();
    assert Loop(env, h1, InitialKnown(meta), 0) == Conclude(env, p.history, p.known);
    SettlesReady(env, Late(), h);
  }

  lemma Page2IsTruthful()
    ensures TruthfulEnv(TwoBytes, Page2())
  {
    PartIsTruthful(TwoBytes.library, "b", None, 1, [4]);
    PartIsTruthful(TwoBytes.library, "b", None, 0, [3]);
    AlwaysTruthful(TwoBytes.library, Part("b", None, 1, 2, [4]));
    AlwaysTruthful(TwoBytes.library, Part("b", None, 0, 2, [3]));
    AlwaysTruthful(TwoBytes.library, Gone);
  }

  lemma Page3IsTruthful()
    ensures TruthfulEnv(TwoBytes, Page3())
  {
    PartIsTruthful(TwoBytes.library, "a", None, 1, [2]);
    AlwaysTruthful(TwoBytes.library, Part("a", None, 1, 2, [2]));
  }

  /**
   * Page 1 fails and reads its row to mark it; page 2 takes over, restarts for another
   * representation and pauses; page 1 puts the row it read; page 3 resumes.  All servers are
   * truthful, and what is played is one byte of each representation.
   */
  lemma LateRowMixesBytes()
    ensures Sound(TwoBytes, HalfA)
    ensures TruthfulEnv(TwoBytes, Page1()) && TruthfulEnv(TwoBytes, Page2()) && TruthfulEnv(TwoBytes, Page3())
    ensures
      var frozen := Now(RunDownload(Page1(), [HalfA] + [PutClaim(HalfA, 1, 0)]).history);
      var taken := Now(StartDownload(Page2(), frozen).history);
      frozen.video.Some? &&
      var late := PutVideo(taken, frozen.video.value.(status := Paused));
      var final := Now(StartDownload(Page3(), late).history);
      PlayBytes(final) == Some([3, 2]) && final.video.value.etag == Some("a") && TwoBytes.library("a") == [1, 2]
  {
    AlwaysTruthful(TwoBytes.library, Gone);
    Page2IsTruthful();
    Page3IsTruthful();
    OneChunk(FirstOfA, 1);
    Page1Fails();
    Page2TakesOver();
    Page3Finishes();
  }
}
