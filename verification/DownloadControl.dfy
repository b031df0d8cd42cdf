/**
 * Who may start a download session, what a cancelled one leaves, what a finished one does not
 * fetch again, and which ranges a whole download asks for.
 */
module DownloadControl {
  import opened Common
  import opened Text
  import opened ChunkRequest
  import opened OfflineStore
  import opened ChunkLoader
  import opened DownloadModel
  import opened DownloadExact
  import opened DownloadTheorems

  // ---------------------------------------------------------------------------
  // Every state goes on from the one before
  // ---------------------------------------------------------------------------

  lemma PassGoesOn(env: Env, h: History, k: Known, i: nat)
    ensures match OnePass(env, h, k, i)
      case Halt(run) => run.history == h && run.end != Completed
      case Last(h1, k1) => h <= h1 && |h1| <= |h| + 1
      case More(h1, k1) => h <= h1 && |h1| <= |h| + 1
  {
  }

  lemma {:induction false} LoopGoesOn(env: Env, h: History, k: Known, i: nat)
    ensures h <= Loop(env, h, k, i).history
    decreases RestartsLeft(k), k.total.None?, Left(k)
  {
    PassGoesOn(env, h, k, i);
    match OnePass(env, h, k, i)
    case Halt(run) =>
    case Last(h1, k1) =>
    case More(h1, k1) => LoopGoesOn(env, h1, k1, i + 1);
  }

  lemma RunGoesOn(env: Env, h: History)
    ensures h <= RunDownload(env, h).history
  {
    match Prepare(env, h)
    case Stop(run) =>
    case Resume(h1, meta) =>
      var h2 := Commit(env, h1, Some(PutVideo(Now(h1), meta)));
      if h2.Some? {
        LoopGoesOn(env, h2.value, InitialKnown(meta), 0);
      }
  }

  // ---------------------------------------------------------------------------
  // The ownership check
  // ---------------------------------------------------------------------------

  /** Another context owns the video and has shown itself within the last fifteen seconds. */
  predicate LiveElsewhere(env: Env, s: Store) {
    s.owner.Some? && s.owner.value.context != env.me && env.now - s.owner.value.heartbeatAt < 15000
  }

  /**
   * A session reports the download as owned elsewhere, and writes nothing, exactly when one of its
   * two looks can be read and shows a live owner in another context, or when its claim cannot be
   * written.  Otherwise the claim is the first thing it writes.
   */
  lemma ClaimedIff(env: Env, s: Store)
    ensures var session := StartDownload(env, s);
      var elsewhere := (env.ownerReadFirst || env.ownerReadAgain) && LiveElsewhere(env, s);
      && (session.settlement == OwnedElsewhere <==> elsewhere || !env.commits(1))
      && (session.settlement == OwnedElsewhere ==> session.history == [s])
      && (session.settlement != OwnedElsewhere ==>
            |session.history| >= 2 && session.history[0] == s &&
            session.history[1] == s.(owner := Some(Owner(env.me, env.now))))
  {
    var h := [s] + [PutClaim(s, env.me, env.now)];
    RunGoesOn(env, h);
    var run := RunDownload(env, h).history;
    assert |run| >= 2 && run[0] == h[0] && run[1] == h[1];
  }

  // ---------------------------------------------------------------------------
  // Cancellation
  // ---------------------------------------------------------------------------

  /** A pass before which the abort is seen ends the run and commits nothing. */
  lemma AbortEndsPass(env: Env, h: History, k: Known, i: nat)
    requires env.abortedBefore(i)
    ensures Loop(env, h, k, i) == Run(h, Cancelled)
  {
  }

  lemma ConcludeAdds(env: Env, h: History, k: Known)
    requires k.total.Some?
    ensures var run := Conclude(env, h, k); |run.history| <= |h| + (if run.end == Completed then 1 else 0)
  {
  }

  /**
   * From the pass at which the user's abort is seen, nothing is committed: a loop that is aborted
   * before pass `i` commits at most one transaction for each pass before, and the final one if it
   * had come to its end by then.
   */
  lemma {:induction false} AbortStopsLoop(env: Env, h: History, k: Known, j: nat, i: nat)
    requires j <= i && env.abortedBefore(i)
    ensures var run := Loop(env, h, k, j);
      |run.history| <= |h| + (i - j) + (if run.end == Completed then 1 else 0)
    decreases i - j
  {
    if j == i {
      AbortEndsPass(env, h, k, i);
    } else {
      PassGoesOn(env, h, k, j);
      match OnePass(env, h, k, j)
      case Halt(run) =>
      case Last(h1, k1) => ConcludeAdds(env, h1, k1);
      case More(h1, k1) => AbortStopsLoop(env, h1, k1, j + 1, i);
    }
  }

  /** An abort that is seen when an answer has come discards the answer. */
  lemma AbortDiscardsAnswer(env: Env, h: History, k: Known, i: nat)
    requires !env.abortedBefore(i) && env.abortedAfter(i) && k.total != Some(k.offset)
    requires k.total.Some? ==> k.offset <= k.total.value
    ensures !Ask(env, k, i).Errored? ==> Loop(env, h, k, i) == Run(h, Cancelled)
  {
  }

  /** The states after `h`, of which the last two may differ in the claim only. */
  predicate OnlyReleases(h: History, last: History) {
    last == h || (|last| == |h| + 1 && h <= last && Now(last) == Now(h).(owner := Now(last).owner))
  }

  /**
   * A cancelled session leaves the row and the chunks as its last commit left them, and does not
   * mark the download as paused; it is cancelled when the abort comes with the claim, when it ends
   * the run, or when it has come by the time that the run fails.
   */
  lemma CancelledIff(env: Env, s: Store)
    requires StartDownload(env, s).settlement != OwnedElsewhere
    ensures var h := [s] + [s.(owner := Some(Owner(env.me, env.now)))];
      var session, run := StartDownload(env, s), RunDownload(env, h);
      && (session.settlement == SettledCancelled <==>
            env.abortedAfterClaim || run.end == Cancelled || (run.end.Threw? && env.abortedAtEnd))
      && (session.settlement == SettledCancelled ==>
            OnlyReleases(if env.abortedAfterClaim then h else run.history, session.history))
      && (session.settlement == SettledReady <==> !env.abortedAfterClaim && run.end == Completed)
  {
    var h := [s] + [PutClaim(s, env.me, env.now)];
    assert h == [s] + [s.(owner := Some(Owner(env.me, env.now)))];
  }

  // ---------------------------------------------------------------------------
  // A download that is ready
  // ---------------------------------------------------------------------------

  ghost predicate KeepsRow(video: Option<Meta>, chunks: seq<Row>, h: seq<Store>) {
    forall i :: 0 <= i < |h| ==> h[i].video == video && Load(h[i].rows) == chunks
  }

  /**
   * A ready download all of whose bytes are stored is ready at once, whatever the server would
   * answer: no state changes its row or its trusted chunks.
   */
  lemma ReadyIsNotFetchedAgain(env: Env, s: Store)
    requires StartDownload(env, s).settlement != OwnedElsewhere && !env.abortedAfterClaim
    requires env.metaRead && env.chunksRead && forall n: nat :: env.commits(n)
    requires s.video.Some? && s.video.value.status == Ready
    requires 0 < s.video.value.totalBytes <= MAX_SAFE_INTEGER && Covered(s.rows) == s.video.value.totalBytes
    ensures var session := StartDownload(env, s);
      session.settlement == SettledReady && KeepsRow(s.video, Load(s.rows), session.history)
  {
    var h := [s] + [PutClaim(s, env.me, env.now)];
    RepairKeepsCoverage(s.rows);
    CoveredNothing(s.rows);
    var h1 := Repair(env, h, RepairCut(s.video.value, s.rows)).value;
    assert KeepsRow(s.video, Load(s.rows), h1);
    assert RunDownload(env, h) == Run(h1, Completed);
  }

  // ---------------------------------------------------------------------------
  // Lengths told by a 416, and changes of the source
  // ---------------------------------------------------------------------------

  /** The pass asks, and no abort is seen. */
  predicate Asks(env: Env, k: Known, i: nat) {
    !env.abortedBefore(i) && !env.abortedAfter(i) && k.total != Some(k.offset) &&
    (k.total.Some? ==> k.offset < k.total.value)
  }

  /**
   * A 416 tells the length before anything is stored, and the loop goes on with it; one that tells
   * the known length while bytes are missing ends the run, and nothing is committed.
   */
  lemma LengthIsLearned(env: Env, h: History, k: Known, i: nat)
    requires Asks(env, k, i) && Ask(env, k, i).Unsatisfied?
    ensures var total, run := Ask(env, k, i).total, Loop(env, h, k, i);
      && (k.total.None? && k.offset == 0 && total > 0 ==> run == Loop(env, h, k.(total := Some(total)), i + 1))
      && (k.total == Some(total) ==> run == Run(h, RangeTrouble(RangeInvalid)))
  {
  }

  /** A 416 tells another length, or a chunk comes with other validators or another total. */
  predicate Changed(k: Known, c: Fetched) {
    || (c.Unsatisfied? && k.total.Some? && k.total != Some(c.total))
    || (c.Chunk? && RepresentationChanged(k, c.etag, c.lastModified, c.total))
  }

  /** The first change commits an empty store under the new validators and starts anew; a second one ends the run. */
  lemma OneChangeIsFollowed(env: Env, h: History, k: Known, i: nat)
    requires Asks(env, k, i) && Changed(k, Ask(env, k, i)) && Owns(Now(h), env.me) && env.commits(|h|)
    ensures k.restarts == 0 ==>
      exists meta: Meta, k1: Known ::
        && Loop(env, h, k, i) == Loop(env, h + [Store(Some(meta), [], Now(h).owner)], k1, i + 1)
        && k1.offset == 0 && k1.next == 0 && k1.restarts == 1 && k1.etag == OrNull(Ask(env, k, i).etag)
    ensures k.restarts >= 1 ==> Loop(env, h, k, i) == Run(h, RangeTrouble(SourceChanged))
  {
    var c := Ask(env, k, i);
    if k.restarts == 0 {
      var meta := ResetMeta(c.total, c.etag, c.lastModified);
      assert OnePass(env, h, k, i) == More(h + [Store(Some(meta), [], Now(h).owner)], AfterRestart(k, meta));
    }
  }

  /** A source of length 0 makes a ready download of length 0, which plays nothing. */
  lemma EmptySourceIsReady(w: World, env: Env, etag: string)
    requires Healthy(env, EmptyStore) && Serves(w, env, etag) && IsStrongEtag(Some(etag)) && w.library(etag) == []
    ensures var session := StartDownload(env, EmptyStore);
      var s := Now(session.history);
      && session.settlement == SettledReady && s.rows == [] && PlayBytes(s).None?
      && s.video.Some? && s.video.value.status == Ready && s.video.value.totalBytes == 0
  {
    var h := [EmptyStore] + [PutClaim(EmptyStore, env.me, env.now)];
    var meta := DefaultMeta(None);
    assert Prepare(env, h) == Resume(h, meta);
    var h1, k := h + [PutVideo(Now(h), meta)], InitialKnown(meta);
    ServesAsked(w, env, etag, 0, 0, RangeEnd(k));
    assert OnePass(env, h1, k, 0) == Last(h1, k.(total := Some(0)));
    ConcludesEmpty(env, h1, k.(total := Some(0)));
  }

  lemma ConcludesEmpty(env: Env, h: History, k: Known)
    requires Healthy(env, EmptyStore) && k.total == Some(0) && Now(h).rows == []
    ensures var run, s := Conclude(env, h, k), Now(Conclude(env, h, k).history);
      && run.end == Completed && s.rows == [] && PlayBytes(s).None?
      && s.video.Some? && s.video.value.status == Ready && s.video.value.totalBytes == 0
  {
    assert Load([]) == [];
  }
}
