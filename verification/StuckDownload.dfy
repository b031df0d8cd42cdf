/** The smallest download that an overlapping record keeps from finishing: one byte is missing. */
module StuckDownload {
  import opened Common
  import opened Text
  import opened RangeBody
  import opened ChunkRequest
  import opened OfflineStore
  import opened ChunkLoader
  import opened FirstPut
  import opened OverlappedStore
  import opened DownloadModel
  import opened DownloadExact
  import opened ScriptedSessions

  // ---------------------------------------------------------------------------
  // Any blocked store
  // ---------------------------------------------------------------------------

  /**
   * In a repaired store with an overlapping record, the next chunk put under a free key leaves
   * the coverage as it was, the final check cannot pass, and repair takes the chunk away again.
   */
  lemma BlockedNeverFinishes(env: Env, h: History, k: Known, rows: seq<Row>, row: Row)
    requires UniqueKeys(rows) && Fits(row, Covered(rows)) && !HasKey(rows, row.index)
    requires (forall r :: r in rows ==> Survives(r, Covered(rows))) && Blocked(rows, row.index)
    requires Now(h).rows == PutRow(rows, row) && k.total == Some(row.end.value + 1)
    ensures Load(PutRow(rows, row)) == Load(rows)
    ensures Conclude(env, h, k) == Run(h, RangeTrouble(RangeTotalUnknown))
    ensures DropFrom(PutRow(rows, row), Covered(rows)) == rows
  {
    forall r | r in Load(rows) ensures r in rows {
      LoadedIsStored(rows, r);
    }
    NextChunkTrustedIff(rows, row);
    assert Position(rows, row.index) == |rows|;
    DropInserted(rows, row, Covered(rows));
    AllSurviveDrop(rows, Covered(rows));
  }

  // ---------------------------------------------------------------------------
  // Every session goes round in a circle
  // ---------------------------------------------------------------------------

  /** Repaired records, one of them overlapping the trusted ones, and the next key free. */
  ghost predicate Overlapped(rows: seq<Row>) {
    && UniqueKeys(rows) && Load(rows) != [] && Covered(rows) < MAX_SAFE_INTEGER
    && !HasKey(rows, |Load(rows)|) && Blocked(rows, |Load(rows)|)
    && forall r :: r in rows ==> Survives(r, Covered(rows))
  }

  // In what follows `n` chunks are trusted and cover `c` bytes; byte `b` at `c` is the last one.

  function Missing(n: nat, c: nat, b: byte): Row {
    Row(n, Some(c), Some(c), Some([b]))
  }

  /** The row while the missing byte is asked for. */
  function Asking(n: nat, c: nat, etag: string): Meta {
    Meta(Downloading, c + 1, c, n, Some(etag), true, None)
  }

  /** The row after the missing byte is stored. */
  function Stored(n: nat, c: nat, etag: string): Meta {
    Meta(Downloading, c + 1, c + 1, n + 1, Some(etag), true, None)
  }

  function Stuck(rows: seq<Row>, etag: string, b: byte): Store {
    var n, c := |Load(rows)|, Covered(rows);
    Store(Some(Stored(n, c, etag).(status := Paused)), PutRow(rows, Missing(n, c, b)), None)
  }

  function ServeMissing(c: nat, etag: string, b: byte): (nat, int, int) -> (nat -> Attempt) {
    (i: nat, start: int, end: int) => Always(Part(etag, None, c, c + 1, [b]))
  }

  function Retry(c: nat, etag: string, b: byte): Env {
    SessionWith(0, true, ServeMissing(c, etag, b))
  }

  function Arrives(c: nat, etag: string, b: byte): Fetched {
    Fetched.Chunk(c, c, c + 1, [b], Some(etag), None)
  }

  /** Repair drops the chunk that the last session stored. */
  lemma RetryPrepares(env: Env, h: History, rows: seq<Row>, n: nat, c: nat, etag: string)
    requires env.metaRead && env.chunksRead && env.commits(|h|) && etag != "" && n > 0 && 0 < c < MAX_SAFE_INTEGER
    requires |Load(Now(h).rows)| == n && Covered(Now(h).rows) == c && DropFrom(Now(h).rows, c) == rows
    requires Now(h).video == Some(Stored(n, c, etag).(status := Paused))
    ensures Prepare(env, h) == Resume(h + [Now(h).(rows := rows)], Asking(n, c, etag))
  {
    assert RepairCut(Now(h).video.value, Now(h).rows) == Some(c);
  }

  lemma RetryAsks(h: History, n: nat, c: nat, etag: string, b: byte)
    requires IsStrongEtag(Some(etag)) && c < MAX_SAFE_INTEGER
    ensures var k := InitialKnown(Asking(n, c, etag));
      Ask(Retry(c, etag, b), k, 0) == Arrives(c, etag, b) && Judge(k, Arrives(c, etag, b)) == Keep(Arrives(c, etag, b))
  {
    PartIsAsked(Retry(c, etag, b), InitialKnown(Asking(n, c, etag)), 0, etag, None, c + 1, [b]);
  }

  lemma RetryPass(h: History, n: nat, c: nat, etag: string, b: byte)
    requires IsStrongEtag(Some(etag)) && c < MAX_SAFE_INTEGER && Owns(Now(h), 0)
    ensures OnePass(Retry(c, etag, b), h, InitialKnown(Asking(n, c, etag)), 0) ==
      Last(h + [Store(Some(Stored(n, c, etag)), PutRow(Now(h).rows, Missing(n, c, b)), Now(h).owner)],
           Adopt(InitialKnown(Asking(n, c, etag)), Arrives(c, etag, b)))
  {
    var k := InitialKnown(Asking(n, c, etag));
    RetryAsks(h, n, c, etag, b);
    assert RowOf(k, Arrives(c, etag, b)) == Missing(n, c, b);
    assert Adopt(k, Arrives(c, etag, b)).meta == Stored(n, c, etag);
  }

  lemma RetryLoop(h: History, rows: seq<Row>, n: nat, c: nat, etag: string, b: byte)
    requires Overlapped(rows) && n == |Load(rows)| && c == Covered(rows)
    requires IsStrongEtag(Some(etag)) && Now(h).rows == rows && Owns(Now(h), 0)
    ensures Loop(Retry(c, etag, b), h, InitialKnown(Asking(n, c, etag)), 0) ==
      Run(h + [Store(Some(Stored(n, c, etag)), PutRow(rows, Missing(n, c, b)), Now(h).owner)],
        RangeTrouble(RangeTotalUnknown))
  {
    RetryPass(h, n, c, etag, b);
    var h1 := h + [Store(Some(Stored(n, c, etag)), PutRow(rows, Missing(n, c, b)), Now(h).owner)];
    var k1 := Adopt(InitialKnown(Asking(n, c, etag)), Arrives(c, etag, b));
    BlockedNeverFinishes(Retry(c, etag, b), h1, k1, rows, Missing(n, c, b));
  }

  /** The trusted chunks and what repair leaves, once the missing chunk is stored behind an overlapping record. */
  lemma StuckIsBlocked(h: History, rows: seq<Row>, n: nat, c: nat, b: byte)
    requires Overlapped(rows) && n == |Load(rows)| && c == Covered(rows)
      && Now(h).rows == PutRow(rows, Missing(n, c, b))
    ensures n > 0 && 0 < c < MAX_SAFE_INTEGER
    ensures |Load(Now(h).rows)| == n && Covered(Now(h).rows) == c && DropFrom(Now(h).rows, c) == rows
  {
    var k := InitialKnown(Asking(n, c, "")).(total := Some(c + 1));
    CoveredNothing(rows);
    BlockedNeverFinishes(Retry(c, "", b), h, k, rows, Missing(n, c, b));
  }

  lemma RetryRun(h: History, rows: seq<Row>, n: nat, c: nat, etag: string, b: byte)
    requires Overlapped(rows) && n == |Load(rows)| && c == Covered(rows) && IsStrongEtag(Some(etag)) && Owns(Now(h), 0)
    requires Now(h).rows == PutRow(rows, Missing(n, c, b))
      && Now(h).video == Some(Stored(n, c, etag).(status := Paused))
    ensures var run := RunDownload(Retry(c, etag, b), h);
      && run.end.Threw?
      && Now(run.history) == Store(Some(Stored(n, c, etag)), PutRow(rows, Missing(n, c, b)), Now(h).owner)
  {
    StuckIsBlocked(h, rows, n, c, b);
    RetryPrepares(Retry(c, etag, b), h, rows, n, c, etag);
    var h1 := h + [Now(h).(rows := rows)];
    RunsLoop(Retry(c, etag, b), h, h1, Asking(n, c, etag));
    RetryLoop(h1 + [PutVideo(Now(h1), Asking(n, c, etag))], rows, n, c, etag, b);
  }

  lemma RetryIsTruthful(w: World, c: nat, etag: string, b: byte)
    requires IsStrongEtag(Some(etag)) && |w.library(etag)| == c + 1 <= MAX_SAFE_INTEGER
    requires w.library(etag)[c] == b
    ensures TruthfulEnv(w, Retry(c, etag, b))
  {
    PartIsTruthful(w.library, etag, None, c, [b]);
  }

  lemma PausesStuck(env: Env, s: Store, h: History, stored: Meta)
    requires Scripted(env) && s.owner.None? && h == [s] + [PutClaim(s, env.me, env.now)]
    requires var run := RunDownload(env, h);
      run.end.Threw? && Now(run.history) == s.(video := Some(stored), owner := Now(h).owner)
    ensures var session := StartDownload(env, s);
      session.settlement == SettledPaused && Now(session.history) == s.(video := Some(stored.(status := Paused)))
  {
    SettlesPaused(env, s, h);
  }

  /** With only the last byte missing, no session that is answered truthfully and reads the row finishes. */
  lemma StuckNeverFinishes(w: World, env: Env, rows: seq<Row>, etag: string, b: byte)
    requires Overlapped(rows) && IsStrongEtag(Some(etag)) && |w.library(etag)| == Covered(rows) + 1
    requires Answers(w, env, etag)
    ensures Spoiled(rows, Covered(rows) + 1) && Unfinished(w, etag, rows, Stuck(rows, etag, b))
    ensures StartDownload(env, Stuck(rows, etag, b)).settlement != SettledReady
  {
    StuckIsBlocked([Stuck(rows, etag, b)], rows, |Load(rows)|, Covered(rows), b);
    AllSurviveDrop(rows, Covered(rows));
    var r :| r in Others(rows) && r.index != |Load(rows)| && r.start.Some? && r.start.value < Covered(rows);
    assert Overlaps(rows, r);
    SessionCannotFinish(w, env, etag, rows, Stuck(rows, etag, b));
  }

  /**
   * An instance, with only the last byte missing: this session fetches it, pauses and leaves
   * exactly the store it found.
   */
  lemma RetryLeavesSameStore(w: World, rows: seq<Row>, etag: string, b: byte)
    requires Overlapped(rows) && IsStrongEtag(Some(etag))
    requires |w.library(etag)| == Covered(rows) + 1 && w.library(etag)[Covered(rows)] == b
    ensures TruthfulEnv(w, Retry(Covered(rows), etag, b))
    ensures var session := StartDownload(Retry(Covered(rows), etag, b), Stuck(rows, etag, b));
      session.settlement == SettledPaused && Now(session.history) == Stuck(rows, etag, b)
  {
    var n, c := |Load(rows)|, Covered(rows);
    var env, s := Retry(c, etag, b), Stuck(rows, etag, b);
    RetryIsTruthful(w, c, etag, b);
    var h := [s] + [PutClaim(s, 0, 0)];
    RetryRun(h, rows, n, c, etag, b);
    PausesStuck(env, s, h, Stored(n, c, etag));
  }

  /** A store of that kind: bytes 0 and 1 are trusted, and byte 1 is stored a second time under another key. */
  lemma OverlappedExample()
    ensures Overlapped([Row(0, Some(0), Some(1), Some([1, 2])), Row(9, Some(1), Some(1), Some([2]))])
  {
    var trusted, overlap := Row(0, Some(0), Some(1), Some([1, 2])), Row(9, Some(1), Some(1), Some([2]));
    var rows := [trusted, overlap];
    ExampleLoads(trusted, overlap);
    assert rows[1] == overlap && overlap != trusted;
    assert overlap in Others(rows);
  }

  lemma ExampleLoads(trusted: Row, overlap: Row)
    requires trusted == Row(0, Some(0), Some(1), Some([1, 2])) && overlap.start == Some(1)
    ensures Load([trusted, overlap]) == [trusted] && Covered([trusted, overlap]) == 2
  {
    assert [trusted, overlap][1..] == [overlap] && [overlap][1..] == [] && [trusted][1..] == [];
    assert SortByStart([overlap]) == [overlap];
    assert SortByStart([trusted, overlap]) == [trusted, overlap];
    assert Validated([overlap], 2) == [];
    assert Content([trusted]) == [1, 2];
  }
}
