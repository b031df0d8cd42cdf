/**
 * Downloads over records that overlap the trusted chunks: which of them can never finish, over
 * every run of sessions, and when a session does finish one.
 */
module OverlappedStore {
  import opened Common
  import opened Text
  import opened ChunkRequest
  import opened OfflineStore
  import opened ChunkLoader
  import opened FirstPut
  import opened DownloadModel
  import opened DownloadExact
  import opened DownloadTheorems

  // ---------------------------------------------------------------------------
  // An overlapping record decides what is trusted
  // ---------------------------------------------------------------------------

  /** An untrusted record that starts before the end of the trusted ones. */
  ghost predicate Overlaps(rows: seq<Row>, r: Row) {
    r in Others(rows) && r.start.Some? && r.start.value < Covered(rows)
  }

  lemma {:induction false} DroppedFrom(rows: seq<Row>, cut: int, r: Row)
    ensures r in DropFrom(rows, cut) <==> r in rows && Survives(r, cut)
  {
    if rows != [] {
      DroppedFrom(rows[1..], cut, r);
      assert rows == [rows[0]] + rows[1..];
    }
  }

  /** In start order the records before the cut come first, whatever stands behind it. */
  lemma {:induction false} HeadSurvives(all: seq<Row>, kept: seq<Row>, cut: int, m: nat)
    requires Sorted(all) && kept == DropFrom(all, cut) && m <= |kept|
    requires forall i :: 0 <= i < m ==> kept[i].start.Some? && kept[i].start.value < cut
    ensures m <= |all| && all[..m] == kept[..m]
  {
    if m > 0 {
      DroppedFrom(all, cut, kept[0]);
      var j :| 0 <= j < |all| && all[j] == kept[0];
      assert Survives(all[0], cut) by {
        assert j > 0 ==> NoLater(all[0], all[j]);
      }
      HeadSurvives(all[1..], kept[1..], cut, m - 1);
      assert all[..m] == [all[0]] + all[1..][..m - 1];
      assert kept[..m] == [kept[0]] + kept[1..][..m - 1];
    }
  }

  lemma NextStartsFirst(sorted: seq<Row>, chunks: seq<Row>, r: Row, cut: int)
    requires Sorted(sorted) && chunks <= sorted && r in multiset(sorted) - multiset(chunks)
    requires r.start.Some? && r.start.value < cut
    ensures |chunks| < |sorted|
    ensures sorted[|chunks|].start.Some? && sorted[|chunks|].start.value < cut
  {
    var n, rest := |chunks|, sorted[|chunks|..];
    assert sorted == chunks + rest;
    assert multiset(sorted) - multiset(chunks) == multiset(rest);
    assert r in multiset(rest) <==> r in rest;
    var j :| 0 <= j < |rest| && rest[j] == r;
    assert sorted[n + j] == r;
    assert j > 0 ==> NoLater(sorted[n], sorted[n + j]);
  }

  /** The first record behind the trusted ones starts before their end. */
  lemma OverlapIsNext(rows: seq<Row>, r: Row)
    requires Overlaps(rows, r)
    ensures var sorted, n := SortByStart(rows), |Load(rows)|;
      n < |sorted| && sorted[n].start.Some? && sorted[n].start.value < Covered(rows)
  {
    LoadIsLongestTiling(rows);
    SortSorts(rows);
    NextStartsFirst(SortByStart(rows), Load(rows), r, Covered(rows));
  }

  lemma LoadsJust(sorted: seq<Row>, chunks: seq<Row>, c: int)
    requires chunks <= sorted && Tiles(chunks, 0, c)
    requires |chunks| < |sorted| ==> !Fits(sorted[|chunks|], c)
    ensures Validated(sorted, 0) == chunks
  {
    assert sorted == chunks + sorted[|chunks|..];
    StopsThere(chunks, sorted[|chunks|..], 0, c);
  }

  lemma SameHead(all: seq<Row>, sorted: seq<Row>, chunks: seq<Row>, c: int)
    requires Sorted(all) && sorted == DropFrom(all, c) && chunks <= sorted && Tiles(chunks, 0, c)
    requires |chunks| < |sorted| && sorted[|chunks|].start.Some? && sorted[|chunks|].start.value < c
    ensures Validated(all, 0) == chunks
  {
    var n := |chunks|;
    TilesStarts(chunks, 0, c);
    assert forall i :: 0 <= i < n ==> sorted[i] == chunks[i];
    HeadSurvives(all, sorted, c, n + 1);
    assert all[n] == all[..n + 1][n] == sorted[n];
    assert all[..n] == all[..n + 1][..n] == sorted[..n];
    LoadsJust(all, chunks, c);
  }

  /** Whatever is stored behind the cut, an overlapping record keeps it all from being trusted. */
  lemma OverlapStays(all: seq<Row>, rows: seq<Row>, r: Row)
    requires DropFrom(all, Covered(rows)) == rows && Overlaps(rows, r)
    ensures Load(all) == Load(rows)
  {
    OverlapIsNext(rows, r);
    LoadIsLongestTiling(rows);
    SortSorts(all);
    DropSorted(all, Covered(rows));
    SameHead(SortByStart(all), SortByStart(rows), Load(rows), Covered(rows));
  }

  // ---------------------------------------------------------------------------
  // Stores that can never finish
  // ---------------------------------------------------------------------------

  /**
   * Repaired records of which one overlaps the trusted ones, with none under the keys that the
   * missing bytes could be put under: at most one key a byte.
   */
  ghost predicate Spoiled(rows: seq<Row>, total: int) {
    var n, c := |Load(rows)|, Covered(rows);
    && n > 0 && c < total <= MAX_SAFE_INTEGER
    && DropFrom(rows, c) == rows
    && (exists r :: Overlaps(rows, r))
    && forall r :: r in rows ==> !(n <= r.index < n + (total - c))
  }

  /** A row that is not ready, for the representation named `etag`, over records that repair to `rows`. */
  ghost predicate Unfinished(w: World, etag: string, rows: seq<Row>, s: Store) {
    && s.video.Some? && s.video.value.status != Ready
    && s.video.value.etag == Some(etag) && s.video.value.etagStrong
    && s.video.value.totalBytes == |w.library(etag)|
    && DropFrom(s.rows, Covered(rows)) == rows
  }

  ghost predicate AllUnfinished(w: World, etag: string, rows: seq<Row>, h: seq<Store>) {
    forall i :: 0 <= i < |h| ==> Unfinished(w, etag, rows, h[i])
  }

  lemma UnfinishedExtended(w: World, etag: string, rows: seq<Row>, h: seq<Store>, s: Store)
    requires AllUnfinished(w, etag, rows, h) && Unfinished(w, etag, rows, s)
    ensures AllUnfinished(w, etag, rows, h + [s])
  {
  }

  lemma SameTrust(w: World, etag: string, rows: seq<Row>, s: Store)
    requires Unfinished(w, etag, rows, s) && Spoiled(rows, |w.library(etag)|)
    ensures Load(s.rows) == Load(rows)
  {
    var r :| Overlaps(rows, r);
    OverlapStays(s.rows, rows, r);
  }

  lemma {:induction false} DropUpdated(rows: seq<Row>, i: nat, row: Row, cut: int)
    requires i < |rows| && !Survives(rows[i], cut) && !Survives(row, cut)
    ensures DropFrom(rows[i := row], cut) == DropFrom(rows, cut)
  {
    if i == 0 {
      assert rows[0 := row][1..] == rows[1..];
    } else {
      DropUpdated(rows[1..], i - 1, row, cut);
      assert rows[i := row][1..] == rows[1..][i - 1 := row];
    }
  }

  lemma {:induction false} DropInserted(rows: seq<Row>, row: Row, cut: int)
    requires !Survives(row, cut)
    ensures DropFrom(InsertRow(rows, row), cut) == DropFrom(rows, cut)
  {
    if rows == [] || StringLess(ChunkKey(row.index), ChunkKey(rows[0].index)) {
      assert ([row] + rows)[1..] == rows;
    } else {
      DropInserted(rows[1..], row, cut);
    }
  }

  lemma {:induction false} AllSurviveDrop(rows: seq<Row>, cut: int)
    requires forall r :: r in rows ==> Survives(r, cut)
    ensures DropFrom(rows, cut) == rows
  {
    if rows != [] {
      assert rows[0] in rows;
      AllSurviveDrop(rows[1..], cut);
    }
  }

  /** A chunk put behind the cut, under a key that no record before it has, repairs away. */
  lemma PutRepairsAway(all: seq<Row>, row: Row, cut: int)
    requires !Survives(row, cut) && !HasKey(DropFrom(all, cut), row.index)
    ensures DropFrom(PutRow(all, row), cut) == DropFrom(all, cut)
  {
    var i := Position(all, row.index);
    if i < |all| {
      DroppedFrom(all, cut, all[i]);
      DropUpdated(all, i, row, cut);
    } else {
      DropInserted(all, row, cut);
    }
  }

  // ---------------------------------------------------------------------------
  // One session
  // ---------------------------------------------------------------------------

  /** Truthful answers about this representation only, and a metadata row that is read at the start. */
  ghost predicate Answers(w: World, env: Env, etag: string) {
    TruthfulEnv(w, env) && OnlyAbout(w, env, etag) && env.metaRead
  }

  /** And a pause that does not put a bare row over one it could not read. */
  ghost predicate Steady(w: World, env: Env, etag: string) {
    Answers(w, env, etag) && (env.pauseRead || !env.pauseCommits)
  }

  /** The loop is past the trusted chunks, by at least one byte a key. */
  ghost predicate Beyond(w: World, etag: string, rows: seq<Row>, k: Known) {
    var n, c, total := |Load(rows)|, Covered(rows), |w.library(etag)|;
    && k.etag == Some(etag) && k.etagStrong && k.total == Some(total)
    && c <= k.offset <= total && n <= k.next && k.next - n <= k.offset - c
  }

  ghost predicate Fails(w: World, etag: string, rows: seq<Row>, run: Run) {
    AllUnfinished(w, etag, rows, run.history) && run.end != Completed
  }

  lemma KeepStaysSpoiled(w: World, env: Env, etag: string, rows: seq<Row>, h: History, k: Known, c: Fetched)
    requires Spoiled(rows, |w.library(etag)|) && IsStrongEtag(Some(etag))
    requires AllUnfinished(w, etag, rows, h) && Beyond(w, etag, rows, k)
    requires TrueChunk(w.library, c) && c.etag == Some(etag) && c.start == k.offset
    ensures Beyond(w, etag, rows, Adopt(k, c))
    ensures var h1 := Commit(env, h, WriteOwnedChunk(Now(h), env.me, Adopt(k, c).meta, RowOf(k, c)));
      h1.Some? ==> AllUnfinished(w, etag, rows, h1.value)
  {
    PutRepairsAway(Now(h).rows, RowOf(k, c), Covered(rows));
  }

  lemma PassStaysSpoiled(w: World, env: Env, etag: string, rows: seq<Row>, h: History, k: Known, i: nat)
    requires Spoiled(rows, |w.library(etag)|) && IsStrongEtag(Some(etag)) && Answers(w, env, etag)
    requires AllUnfinished(w, etag, rows, h) && Beyond(w, etag, rows, k)
    ensures match OnePass(env, h, k, i)
      case Halt(run) => Fails(w, etag, rows, run)
      case Last(h1, k1) => AllUnfinished(w, etag, rows, h1) && Beyond(w, etag, rows, k1)
      case More(h1, k1) => AllUnfinished(w, etag, rows, h1) && Beyond(w, etag, rows, k1)
  {
    if k.total != Some(k.offset) {
      var c := Ask(env, k, i);
      AskIsTrue(w, env, k, i);
      assert AboutOnly(w, etag, c);
      if c.Chunk? {
        KeepStaysSpoiled(w, env, etag, rows, h, k, c);
      }
    }
  }

  lemma FinalCheckFails(w: World, env: Env, etag: string, rows: seq<Row>, h: History, k: Known)
    requires Spoiled(rows, |w.library(etag)|) && AllUnfinished(w, etag, rows, h) && Beyond(w, etag, rows, k)
    ensures Conclude(env, h, k) == Run(h, RangeTrouble(RangeTotalUnknown))
  {
    SameTrust(w, etag, rows, Now(h));
  }

  lemma {:induction false} LoopFails(w: World, env: Env, etag: string, rows: seq<Row>, h: History, k: Known, i: nat)
    requires Spoiled(rows, |w.library(etag)|) && IsStrongEtag(Some(etag)) && Answers(w, env, etag)
    requires AllUnfinished(w, etag, rows, h) && Beyond(w, etag, rows, k)
    ensures Fails(w, etag, rows, Loop(env, h, k, i))
    decreases RestartsLeft(k), k.total.None?, Left(k)
  {
    PassStaysSpoiled(w, env, etag, rows, h, k, i);
    match OnePass(env, h, k, i)
    case Halt(run) =>
    case Last(h1, k1) => FinalCheckFails(w, env, etag, rows, h1, k1);
    case More(h1, k1) => LoopFails(w, env, etag, rows, h1, k1, i + 1);
  }

  lemma PrepareStaysSpoiled(w: World, env: Env, etag: string, rows: seq<Row>, h: History)
    requires Spoiled(rows, |w.library(etag)|) && IsStrongEtag(Some(etag)) && Answers(w, env, etag)
    requires AllUnfinished(w, etag, rows, h)
    ensures match Prepare(env, h)
      case Stop(run) => Fails(w, etag, rows, run)
      case Resume(h1, meta) =>
        && AllUnfinished(w, etag, rows, h1) && Beyond(w, etag, rows, InitialKnown(meta))
        && Unfinished(w, etag, rows, PutVideo(Now(h1), meta))
  {
    var s := Now(h);
    SameTrust(w, etag, rows, s);
    CoveredNothing(rows);
    UnfinishedExtended(w, etag, rows, h, s.(rows := rows));
  }

  lemma RunFails(w: World, env: Env, etag: string, rows: seq<Row>, h: History)
    requires Spoiled(rows, |w.library(etag)|) && IsStrongEtag(Some(etag)) && Answers(w, env, etag)
    requires AllUnfinished(w, etag, rows, h)
    ensures Fails(w, etag, rows, RunDownload(env, h))
  {
    PrepareStaysSpoiled(w, env, etag, rows, h);
    match Prepare(env, h)
    case Stop(run) =>
    case Resume(h1, meta) =>
      var h2 := Commit(env, h1, Some(PutVideo(Now(h1), meta)));
      if h2.Some? {
        LoopFails(w, env, etag, rows, h2.value, InitialKnown(meta), 0);
      }
  }

  lemma SettlingStaysSpoiled(w: World, env: Env, etag: string, rows: seq<Row>, run: Run)
    requires Fails(w, etag, rows, run)
    ensures Settle(env, run).settlement != SettledReady
    ensures env.pauseRead || !env.pauseCommits ==> AllUnfinished(w, etag, rows, Settle(env, run).history)
  {
    var s := Now(run.history);
    UnfinishedExtended(w, etag, rows, run.history, PutVideo(s, s.video.value.(status := Paused)));
    ReleaseStaysSpoiled(w, env, etag, rows, run.history);
    if env.pauseRead || !env.pauseCommits {
      ReleaseStaysSpoiled(w, env, etag, rows, PauseWithError(env, run.history));
    }
  }

  lemma ReleaseStaysSpoiled(w: World, env: Env, etag: string, rows: seq<Row>, h: History)
    requires AllUnfinished(w, etag, rows, h)
    ensures AllUnfinished(w, etag, rows, Release(env, h))
  {
    UnfinishedExtended(w, etag, rows, h, ReleaseClaim(Now(h), env.me));
  }

  /**
   * Whatever other reads, commits and answers fail, the session does not finish; and unless its
   * pause replaces a row that it could not read, it leaves only stores of the same kind.
   */
  lemma SessionCannotFinish(w: World, env: Env, etag: string, rows: seq<Row>, s: Store)
    requires Spoiled(rows, |w.library(etag)|) && IsStrongEtag(Some(etag)) && Answers(w, env, etag)
    requires Unfinished(w, etag, rows, s)
    ensures var session := StartDownload(env, s);
      && session.settlement != SettledReady
      && (env.pauseRead || !env.pauseCommits ==> AllUnfinished(w, etag, rows, session.history))
  {
    if !ClaimRefused(env, s) {
      var h := Commit(env, [s], Some(PutClaim(s, env.me, env.now)));
      if h.Some? {
        UnfinishedExtended(w, etag, rows, [s], Now(h.value));
        ReleaseStaysSpoiled(w, env, etag, rows, h.value);
        RunFails(w, env, etag, rows, h.value);
        SettlingStaysSpoiled(w, env, etag, rows, RunDownload(env, h.value));
      }
    }
  }

  // ---------------------------------------------------------------------------
  // Every run
  // ---------------------------------------------------------------------------

  /** Sessions of a steady server, cut short anywhere, and changes of the ownership record; no deletion. */
  ghost predicate SteadyRun(w: World, etag: string, events: seq<Event>) {
    forall i :: 0 <= i < |events| ==>
      !events[i].Delete? && (events[i].Download? ==> Steady(w, events[i].env, etag))
  }

  lemma {:induction false} StaysUnfinished(w: World, etag: string, rows: seq<Row>, s: Store, events: seq<Event>)
    requires Spoiled(rows, |w.library(etag)|) && IsStrongEtag(Some(etag))
    requires Unfinished(w, etag, rows, s) && SteadyRun(w, etag, events)
    ensures AllUnfinished(w, etag, rows, Trace(s, events))
    decreases |events|
  {
    if events != [] {
      var e := events[0];
      if e.Download? {
        SessionCannotFinish(w, e.env, etag, rows, s);
      }
      assert AllUnfinished(w, etag, rows, States(s, e));
      StaysUnfinished(w, etag, rows, Now(States(s, e)), events[1..]);
    }
  }

  /**
   * A download whose stored records, once repaired, keep an overlapping record whose key no put
   * can reach, never finishes: over every run of sessions that are answered truthfully for its
   * representation and can read its row, whatever else fails, no state is ready, nothing is ever
   * played, and no chunk more is trusted.
   */
  lemma NeverFinishes(w: World, etag: string, s: Store, events: seq<Event>)
    requires IsStrongEtag(Some(etag)) && Unfinished(w, etag, DropFrom(s.rows, Covered(s.rows)), s)
    requires Spoiled(DropFrom(s.rows, Covered(s.rows)), |w.library(etag)|) && SteadyRun(w, etag, events)
    ensures forall t :: t in Trace(s, events) ==>
      t.video.Some? && t.video.value.status != Ready && PlayBytes(t).None? && Load(t.rows) == Load(s.rows)
  {
    var rows := DropFrom(s.rows, Covered(s.rows));
    RepairKeepsCoverage(s.rows);
    StaysUnfinished(w, etag, rows, s, events);
    forall t | t in Trace(s, events)
      ensures t.video.Some? && t.video.value.status != Ready && PlayBytes(t).None? && Load(t.rows) == Load(s.rows)
    {
      assert Unfinished(w, etag, rows, t);
      SameTrust(w, etag, rows, t);
    }
  }
}
