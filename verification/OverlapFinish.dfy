/** When a session that meets no trouble finishes a download over overlapping records. */
module OverlapFinish {
  import opened Common
  import opened Text
  import opened ChunkRequest
  import opened OfflineStore
  import opened ChunkLoader
  import opened FirstPut
  import opened OverlappedStore
  import opened DownloadModel
  import opened DownloadExact
  import opened DownloadTheorems

  // ---------------------------------------------------------------------------
  // What puts leave
  // ---------------------------------------------------------------------------

  /** A put replaces the record with its key and touches no other. */
  lemma PutMembers(rows: seq<Row>, row: Row)
    requires UniqueKeys(rows)
    ensures UniqueKeys(PutRow(rows, row))
    ensures forall r :: r in PutRow(rows, row) <==> r == row || (r in rows && r.index != row.index)
  {
    var before, replaced, after := PutSplits(rows, row);
    var put := PutRow(rows, row);
    assert forall r :: r in put <==> r == row || r in before + after;
    assert forall r :: r in rows <==> r in before + after || r in replaced;
    forall i, j | 0 <= i < j < |put| ensures put[i].index != put[j].index {
      UniqueApart(rows, before, replaced, after, row, i, j);
    }
  }

  lemma UniqueApart(rows: seq<Row>, before: seq<Row>, replaced: seq<Row>, after: seq<Row>, row: Row, i: nat, j: nat)
    requires UniqueKeys(rows) && rows == before + replaced + after && !HasKey(before + after, row.index)
    requires i < j < |before| + 1 + |after|
    ensures (before + [row] + after)[i].index != (before + [row] + after)[j].index
  {
    var put, b := before + [row] + after, |before|;
    assert i < b ==> put[i] == rows[i] && put[i] in before + after;
    assert i > b ==> put[i] == rows[i - 1 + |replaced|] && put[i] in before + after;
    assert j < b ==> put[j] == rows[j] && put[j] in before + after;
    assert j > b ==> put[j] == rows[j - 1 + |replaced|] && put[j] in before + after;
  }

  /** What is in front without one record was in front with it. */
  lemma FrontWithout(before: seq<Row>, replaced: seq<Row>, after: seq<Row>, front: seq<Row>)
    requires |replaced| <= 1 && front <= SortByStart(before + replaced + after)
    requires forall i :: 0 <= i < |replaced| ==> replaced[i] !in front
    ensures front <= SortByStart(before + after)
  {
    if replaced == [] {
      assert before + replaced + after == before + after;
    } else {
      assert replaced == [replaced[0]];
      SortExtends(before, replaced[0], after);
      var sorted := SortByStart(before + replaced + after);
      var p := ExtraPlace(sorted, SortByStart(before + after), replaced[0]);
      assert sorted[p] == replaced[0];
      assert p >= |front|;
    }
  }

  /** Records that start before the put one and are in front in start order stay there. */
  lemma FrontStays(rows: seq<Row>, row: Row, front: seq<Row>)
    requires UniqueKeys(rows) && front <= SortByStart(rows) && row.start.Some?
    requires forall i :: 0 <= i < |front| ==>
      front[i].index != row.index && front[i].start.Some? && front[i].start.value < row.start.value
    ensures front <= SortByStart(PutRow(rows, row))
  {
    var before, replaced, after := PutSplits(rows, row);
    FrontWithout(before, replaced, after, front);
    SortExtends(before, row, after);
    SortSorts(PutRow(rows, row));
    FrontBefore(SortByStart(PutRow(rows, row)), SortByStart(before + after), row, front);
  }

  lemma FrontBefore(longer: seq<Row>, t: seq<Row>, row: Row, front: seq<Row>)
    requires Extends(longer, t, row) && Sorted(longer) && front <= t && row.start.Some?
    requires forall i :: 0 <= i < |front| ==> front[i].start.Some? && front[i].start.value < row.start.value
    ensures front <= longer
  {
    var q := ExtraPlace(longer, t, row);
    assert forall i :: 0 <= i < |front| ==> t[i] == front[i];
    PlacedAfter(t, q, row, |front|);
  }

  lemma {:induction false} InsertUnique(row: Row, rows: seq<Row>)
    requires UniqueKeys(rows) && !HasKey(rows, row.index)
    ensures UniqueKeys(Insert(row, rows))
    ensures forall r :: r in Insert(row, rows) <==> r == row || r in rows
  {
    if rows != [] && !NoLater(row, rows[0]) {
      assert rows == [rows[0]] + rows[1..];
      assert forall r :: r in rows[1..] ==> r in rows;
      InsertUnique(row, rows[1..]);
      assert rows[0] in rows;
      forall r | r in rows[1..] ensures r.index != rows[0].index {
        var j :| 0 <= j < |rows[1..]| && rows[1..][j] == r;
        assert rows[j + 1] == r;
      }
      var rest := Insert(row, rows[1..]);
      forall j | 0 <= j < |rest| ensures rest[j].index != rows[0].index {
        assert rest[j] in rest;
      }
    } else {
      assert forall j :: 0 <= j < |rows| ==> rows[j] in rows;
    }
  }

  lemma {:induction false} SortUnique(rows: seq<Row>)
    requires UniqueKeys(rows)
    ensures UniqueKeys(SortByStart(rows))
    ensures forall r :: r in SortByStart(rows) <==> r in rows
  {
    if rows != [] {
      SortUnique(rows[1..]);
      assert rows == [rows[0]] + rows[1..];
      forall r | r in SortByStart(rows[1..]) ensures r.index != rows[0].index {
        var j :| 0 <= j < |rows[1..]| && rows[1..][j] == r;
        assert rows[j + 1] == r;
      }
      InsertUnique(rows[0], SortByStart(rows[1..]));
    }
  }

  // ---------------------------------------------------------------------------
  // A tiling among records without a start
  // ---------------------------------------------------------------------------

  /** In start order, the chunks of a tiling that are all the records with a start come first. */
  lemma {:induction false} TilingFirst(sorted: seq<Row>, chunks: seq<Row>, from: int, to: int)
    requires Sorted(sorted) && UniqueKeys(sorted) && Tiles(chunks, from, to)
    requires forall r :: r in chunks ==> r in sorted
    requires forall r :: r in sorted && r.start.Some? ==> r in chunks
    ensures chunks <= sorted
  {
    if chunks != [] {
      TilesStarts(chunks, from, to);
      TilesStarts(chunks[1..], chunks[0].end.value + 1, to);
      assert chunks[0] in chunks;
      var j :| 0 <= j < |sorted| && sorted[j] == chunks[0];
      assert j > 0 ==> NoLater(sorted[0], sorted[j]);
      assert sorted[0] in sorted;
      forall i | 1 <= i < |chunks| ensures chunks[i].start.value > chunks[0].start.value {
        assert chunks[1..][i - 1] == chunks[i];
      }
      TailMembers(sorted, chunks, from, to);
      TilingFirst(sorted[1..], chunks[1..], chunks[0].end.value + 1, to);
    }
  }

  lemma TailMembers(sorted: seq<Row>, chunks: seq<Row>, from: int, to: int)
    requires UniqueKeys(sorted) && Tiles(chunks, from, to) && chunks != [] && sorted != [] && sorted[0] == chunks[0]
    requires forall r :: r in chunks ==> r in sorted
    requires forall r :: r in sorted && r.start.Some? ==> r in chunks
    ensures forall r :: r in chunks[1..] ==> r in sorted[1..]
    ensures forall r :: r in sorted[1..] && r.start.Some? ==> r in chunks[1..]
  {
    TilesStarts(chunks[1..], chunks[0].end.value + 1, to);
    forall r | r in chunks[1..] ensures r in sorted[1..] {
      assert r in chunks && r != chunks[0];
      var j :| 0 <= j < |sorted| && sorted[j] == r;
      assert sorted[1..][j - 1] == r;
    }
    forall r | r in sorted[1..] && r.start.Some? ensures r in chunks[1..] {
      assert r in sorted && r in chunks;
      var j :| 0 <= j < |sorted[1..]| && sorted[1..][j] == r;
      assert sorted[j + 1] == r;
      assert r != sorted[0];
    }
  }

  // ---------------------------------------------------------------------------
  // The session
  // ---------------------------------------------------------------------------

  /** Repaired records under distinct keys; the trusted ones are under the keys before the next. */
  ghost predicate Repaired(rows: seq<Row>, total: int) {
    && Load(rows) != [] && Covered(rows) < total <= MAX_SAFE_INTEGER && UniqueKeys(rows)
    && (forall r :: r in rows ==> Survives(r, Covered(rows)))
    && forall r :: r in Load(rows) ==> r.index < |Load(rows)|
  }

  /** How many chunks the session goes on to put. */
  function Pieces(env: Env, k: Known, i: nat): nat
    decreases Left(k)
  {
    if k.total.None? || k.total == Some(k.offset) then 0
    else
      var c := Ask(env, k, i);
      if c.Chunk? && k.total == Some(c.total) then 1 + Pieces(env, Adopt(k, c), i + 1) else 0
  }

  /** Every overlapping record is under one of the next `p` keys. */
  ghost predicate AllReached(rows: seq<Row>, p: nat) {
    forall r :: Overlaps(rows, r) ==> |Load(rows)| <= r.index < |Load(rows)| + p
  }

  /** `puts` have been put behind the trusted chunks, and replaced what had their keys. */
  ghost predicate Putting(rows: seq<Row>, puts: seq<Row>, k: Known, s: Store) {
    var n := |Load(rows)|;
    && s.video.Some? && s.video.value.chunkCount == k.next == n + |puts|
    && Tiles(puts, Covered(rows), k.offset)
    && (forall i :: 0 <= i < |puts| ==> puts[i].index == n + i)
    && UniqueKeys(s.rows)
    && (forall r :: r in s.rows <==> (r in rows && !(n <= r.index < n + |puts|)) || r in puts)
    && Load(rows) <= SortByStart(s.rows)
  }

  ghost predicate Tracks(w: World, env: Env, etag: string, k: Known, s: Store) {
    && Owns(s, env.me) && k.etag == Some(etag) && k.etagStrong && k.total == Some(|w.library(etag)|)
    && s.video.Some? && s.video.value.status != Ready
  }

  /** The trusted chunks stay in front when a chunk is put behind them. */
  lemma TrustedStayInFront(rows: seq<Row>, all: seq<Row>, row: Row, total: int)
    requires Repaired(rows, total) && UniqueKeys(all) && Load(rows) <= SortByStart(all)
    requires row.index >= |Load(rows)| && row.start.Some? && row.start.value >= Covered(rows)
    ensures Load(rows) <= SortByStart(PutRow(all, row))
  {
    LoadIsLongestTiling(rows);
    TilesStarts(Load(rows), 0, Covered(rows));
    forall i | 0 <= i < |Load(rows)|
      ensures Load(rows)[i].index != row.index
      ensures Load(rows)[i].start.Some? && Load(rows)[i].start.value < row.start.value
    {
      assert Load(rows)[i] in Load(rows);
    }
    FrontStays(all, row, Load(rows));
  }

  lemma PutGoesOn(rows: seq<Row>, puts: seq<Row>, k: Known, s: Store, c: Fetched, me: Context, total: int)
    requires Repaired(rows, total) && Putting(rows, puts, k, s) && Owns(s, me)
    requires c.Chunk? && c.start == k.offset <= c.end && |c.bytes| == c.end - c.start + 1
    ensures var k1 := Adopt(k, c);
      Putting(rows, puts + [RowOf(k, c)], k1, WriteOwnedChunk(s, me, k1.meta, RowOf(k, c)).value)
  {
    RowsGoOn(rows, puts, k, s, RowOf(k, c), total);
  }

  lemma RowsGoOn(rows: seq<Row>, puts: seq<Row>, k: Known, s: Store, row: Row, total: int)
    requires Repaired(rows, total) && Putting(rows, puts, k, s) && Fits(row, k.offset) && row.index == k.next
    ensures var n, more, after := |Load(rows)|, puts + [row], PutRow(s.rows, row);
      && Tiles(more, Covered(rows), row.end.value + 1)
      && (forall i :: 0 <= i < |more| ==> more[i].index == n + i)
      && UniqueKeys(after)
      && (forall r :: r in after <==> (r in rows && !(n <= r.index < n + |more|)) || r in more)
      && Load(rows) <= SortByStart(after)
  {
    TilesSize(puts, Covered(rows), k.offset);
    TilesMore(puts, row, Covered(rows), k.offset);
    PutMembers(s.rows, row);
    TrustedStayInFront(rows, s.rows, row, total);
    MembersGoOn(rows, puts, row, s.rows, PutRow(s.rows, row));
  }

  lemma MembersGoOn(rows: seq<Row>, puts: seq<Row>, row: Row, before: seq<Row>, after: seq<Row>)
    requires var n := |Load(rows)|;
      && row.index == n + |puts| && (forall i :: 0 <= i < |puts| ==> puts[i].index == n + i)
      && (forall r :: r in before <==> (r in rows && !(n <= r.index < n + |puts|)) || r in puts)
      && (forall r :: r in after <==> r == row || (r in before && r.index != row.index))
    ensures var n, more := |Load(rows)|, puts + [row];
      forall r :: r in after <==> (r in rows && !(n <= r.index < n + |more|)) || r in more
  {
    forall r | r in puts ensures r.index < row.index {
      var i :| 0 <= i < |puts| && puts[i] == r;
    }
  }

  /** A record out of reach keeps every put chunk from being trusted. */
  lemma OutOfReach(rows: seq<Row>, puts: seq<Row>, k: Known, s: Store, total: int, r: Row)
    requires Repaired(rows, total) && Putting(rows, puts, k, s)
    requires Overlaps(rows, r) && !(|Load(rows)| <= r.index < |Load(rows)| + |puts|)
    ensures Load(s.rows) == Load(rows)
  {
    var sorted, chunks := SortByStart(s.rows), Load(rows);
    NotTrusted(rows, r);
    assert r in s.rows;
    SortSorts(s.rows);
    assert r in multiset(s.rows);
    NextStartsFirst(sorted, chunks, r, Covered(rows));
    LoadIsLongestTiling(rows);
    LoadsJust(sorted, chunks, Covered(rows));
  }

  lemma NotTrusted(rows: seq<Row>, r: Row)
    requires UniqueKeys(rows) && r in Others(rows)
    ensures r in rows && r !in Load(rows)
  {
    LoadIsLongestTiling(rows);
    SortUnique(rows);
    SortSorts(rows);
    NotInFront(SortByStart(rows), Load(rows), r);
  }

  lemma NotInFront(sorted: seq<Row>, front: seq<Row>, r: Row)
    requires UniqueKeys(sorted) && front <= sorted && r in multiset(sorted) - multiset(front)
    ensures r in sorted && r !in front
  {
    var j := Behind(sorted, front, r);
    forall i | 0 <= i < |front| ensures front[i] != r {
      assert sorted[i] == front[i];
    }
  }

  lemma Behind(sorted: seq<Row>, front: seq<Row>, r: Row) returns (j: nat)
    requires front <= sorted && r in multiset(sorted) - multiset(front)
    ensures |front| <= j < |sorted| && sorted[j] == r
  {
    var rest := sorted[|front|..];
    assert sorted == front + rest;
    assert multiset(sorted) - multiset(front) == multiset(rest);
    assert r in rest;
    var i :| 0 <= i < |rest| && rest[i] == r;
    j := |front| + i;
  }

  /** With every overlapping record replaced, the trusted and the put chunks are all that has a start. */
  lemma AllInReach(rows: seq<Row>, puts: seq<Row>, k: Known, s: Store, total: int)
    requires Repaired(rows, total) && Putting(rows, puts, k, s) && AllReached(rows, |puts|)
    ensures Load(s.rows) == Load(rows) + puts
  {
    var sorted, chunks := SortByStart(s.rows), Load(rows) + puts;
    LoadIsLongestTiling(rows);
    TilesOn(Load(rows), puts, 0, Covered(rows), k.offset);
    SortUnique(s.rows);
    SortSorts(s.rows);
    forall r | r in chunks ensures r in sorted {
      if r in Load(rows) {
        LoadedIsStored(rows, r);
      }
    }
    forall r | r in rows && r !in Load(rows) && r.start.Some? ensures Overlaps(rows, r) {
      assert r in multiset(rows);
    }
    TilingFirst(sorted, chunks, 0, k.offset);
    forall i | |chunks| <= i < |sorted| ensures sorted[i].start.None? {
      BehindTheTiling(sorted, chunks, i);
    }
    LoadsJust(sorted, chunks, k.offset);
  }

  lemma BehindTheTiling(sorted: seq<Row>, chunks: seq<Row>, i: nat)
    requires UniqueKeys(sorted) && chunks <= sorted && |chunks| <= i < |sorted|
    requires forall r :: r in sorted && r.start.Some? ==> r in chunks
    ensures sorted[i].start.None?
  {
    assert sorted[i] in sorted;
    forall j | 0 <= j < |chunks| ensures chunks[j] != sorted[i] {
      assert sorted[j] == chunks[j];
    }
  }

  lemma {:induction false} TilesOn(first: seq<Row>, second: seq<Row>, from: int, mid: int, to: int)
    requires Tiles(first, from, mid) && Tiles(second, mid, to)
    ensures Tiles(first + second, from, to)
  {
    if first == [] {
      assert first + second == second;
    } else {
      TilesOn(first[1..], second, first[0].end.value + 1, mid, to);
      assert (first + second)[1..] == first[1..] + second;
    }
  }

  ghost predicate Finishes(run: Run) {
    run.end == Completed
  }

  /** What is trusted when the last byte has been put. */
  lemma TrustedAtTheEnd(rows: seq<Row>, puts: seq<Row>, k: Known, s: Store, total: int, reach: nat)
    requires Repaired(rows, total) && Putting(rows, puts, k, s) && k.offset == total && reach == |puts|
    ensures if AllReached(rows, reach) then |Load(s.rows)| == k.next && Covered(s.rows) == total
            else Covered(s.rows) < total
  {
    if AllReached(rows, reach) {
      AllInReach(rows, puts, k, s, total);
      LoadIsLongestTiling(rows);
      TilesOn(Load(rows), puts, 0, Covered(rows), k.offset);
      TilesSize(Load(s.rows), 0, k.offset);
    } else {
      var r :| Overlaps(rows, r) && !(|Load(rows)| <= r.index < |Load(rows)| + |puts|);
      OutOfReach(rows, puts, k, s, total, r);
    }
  }

  lemma ConcludeIff(w: World, env: Env, s0: Store, etag: string, h: History, k: Known)
    requires Healthy(env, s0) && Tracks(w, env, etag, k, Now(h)) && k.total == Some(k.offset) && k.offset > 0
    requires Now(h).video.value.chunkCount == k.next
    ensures Finishes(Conclude(env, h, k)) <==>
      Load(Now(h).rows) != [] && |Load(Now(h).rows)| == k.next && Covered(Now(h).rows) == k.offset
  {
  }

  lemma LastIff(w: World, env: Env, s0: Store, etag: string, rows: seq<Row>, puts: seq<Row>,
                h: History, k: Known, reach: nat)
    requires Healthy(env, s0) && Underway(w, env, etag, rows, puts, h, k) && k.total == Some(k.offset)
    requires reach == |puts|
    ensures Finishes(Conclude(env, h, k)) <==> AllReached(rows, reach)
  {
    TrustedAtTheEnd(rows, puts, k, Now(h), |w.library(etag)|, reach);
    ConcludeIff(w, env, s0, etag, h, k);
    CoveredNothing(Now(h).rows);
  }

  lemma PassPuts(w: World, env: Env, s0: Store, etag: string, rows: seq<Row>, puts: seq<Row>,
                 h: History, k: Known, i: nat)
    requires Healthy(env, s0) && Serves(w, env, etag) && IsStrongEtag(Some(etag)) && Repaired(rows, |w.library(etag)|)
    requires Putting(rows, puts, k, Now(h)) && Tracks(w, env, etag, k, Now(h)) && k.offset < |w.library(etag)|
    ensures var p, c := OnePass(env, h, k, i), Ask(env, k, i);
      && c.Chunk? && !p.Halt? && p.known == Adopt(k, c) && Tracks(w, env, etag, p.known, Now(p.history))
      && Putting(rows, puts + [RowOf(k, c)], p.known, Now(p.history)) && k.offset < p.known.offset <= |w.library(etag)|
      && Pieces(env, k, i) == 1 + Pieces(env, p.known, i + 1)
  {
    TilesSize(puts, Covered(rows), k.offset);
    var c := Ask(env, k, i);
    ServesAsked(w, env, etag, i, k.offset, RangeEnd(k));
    assert Judge(k, c) == Keep(c);
    KeptPassIs(env, s0, h, k, i);
    PutGoesOn(rows, puts, k, Now(h), c, env.me, |w.library(etag)|);
  }

  lemma LoopTurns(env: Env, h: History, k: Known, i: nat)
    requires !OnePass(env, h, k, i).Halt?
    ensures var p := OnePass(env, h, k, i);
      Loop(env, h, k, i) == if p.Last? then Conclude(env, p.history, p.known) else Loop(env, p.history, p.known, i + 1)
  {
  }

  ghost predicate Underway(w: World, env: Env, etag: string, rows: seq<Row>, puts: seq<Row>, h: History, k: Known) {
    && Repaired(rows, |w.library(etag)|) && Putting(rows, puts, k, Now(h)) && Tracks(w, env, etag, k, Now(h))
    && k.offset <= |w.library(etag)|
  }

  lemma NextTurn(w: World, env: Env, s0: Store, etag: string, rows: seq<Row>, puts: seq<Row>,
                 h: History, k: Known, i: nat)
    returns (more: seq<Row>, p: DownloadModel.Pass)
    requires Healthy(env, s0) && Serves(w, env, etag) && IsStrongEtag(Some(etag))
    requires Underway(w, env, etag, rows, puts, h, k) && k.total != Some(k.offset)
    ensures p == OnePass(env, h, k, i) && !p.Halt? && Underway(w, env, etag, rows, more, p.history, p.known)
    ensures |puts| + Pieces(env, k, i) == |more| + Pieces(env, p.known, i + 1)
    ensures k.offset < p.known.offset <= |w.library(etag)|
  {
    PassPuts(w, env, s0, etag, rows, puts, h, k, i);
    p := OnePass(env, h, k, i);
    more := puts + [RowOf(k, Ask(env, k, i))];
  }

  lemma EndsAtOnce(env: Env, s0: Store, h: History, k: Known, i: nat)
    requires Healthy(env, s0) && k.total == Some(k.offset)
    ensures Loop(env, h, k, i) == Conclude(env, h, k)
  {
  }

  lemma {:induction false} LoopIff(w: World, env: Env, s0: Store, etag: string, rows: seq<Row>, puts: seq<Row>,
                                   h: History, k: Known, i: nat, reach: nat)
    requires Healthy(env, s0) && Serves(w, env, etag) && IsStrongEtag(Some(etag))
    requires Underway(w, env, etag, rows, puts, h, k) && k.offset <= |w.library(etag)|
    requires reach == |puts| + Pieces(env, k, i)
    ensures Finishes(Loop(env, h, k, i)) <==> AllReached(rows, reach)
    decreases |w.library(etag)| - k.offset
  {
    if k.total == Some(k.offset) {
      EndsAtOnce(env, s0, h, k, i);
      LastIff(w, env, s0, etag, rows, puts, h, k, reach);
    } else {
      var more, p := NextTurn(w, env, s0, etag, rows, puts, h, k, i);
      LoopTurns(env, h, k, i);
      if p.Last? {
        LastIff(w, env, s0, etag, rows, more, p.history, p.known, reach);
      } else {
        LoopIff(w, env, s0, etag, rows, more, p.history, p.known, i + 1, reach);
      }
    }
  }

  /** What the loop starts from over a row of the representation named `etag`. */
  function Resumed(rows: seq<Row>, m: Meta): Known {
    InitialKnown(DefaultMeta(Some(m)).(completedBytes := Covered(rows), chunkCount := |Load(rows)|))
  }

  /** A row that is not ready, for the representation named `etag`. */
  ghost predicate Open(w: World, etag: string, s: Store) {
    && s.video.Some? && s.video.value.status != Ready && s.video.value.etag == Some(etag)
    && s.video.value.etagStrong && s.video.value.totalBytes == |w.library(etag)|
  }

  /**
   * A session that meets working storage and a server of the stored representation finishes the
   * download over repaired records exactly when every overlapping record is under one of the
   * keys of the chunks it puts.
   */
  lemma FinishesIff(w: World, env: Env, etag: string, s: Store, reach: nat)
    requires Healthy(env, s) && Serves(w, env, etag) && IsStrongEtag(Some(etag))
    requires Repaired(s.rows, |w.library(etag)|) && Open(w, etag, s)
    requires reach == Pieces(env, Resumed(s.rows, s.video.value), 0)
    ensures StartDownload(env, s).settlement == SettledReady <==> AllReached(s.rows, reach)
  {
    var h := [s] + [PutClaim(s, env.me, env.now)];
    FinishesAfterClaim(w, env, s, etag, h, reach);
    SettlesByRun(env, s, h);
  }

  lemma SettlesByRun(env: Env, s: Store, h: History)
    requires Healthy(env, s) && h == [s] + [PutClaim(s, env.me, env.now)]
    ensures StartDownload(env, s).settlement == SettledReady <==> Finishes(RunDownload(env, h))
  {
  }

  lemma Resumes(w: World, env: Env, s0: Store, etag: string, h: History)
    requires Healthy(env, s0) && IsStrongEtag(Some(etag))
    requires Repaired(Now(h).rows, |w.library(etag)|) && Open(w, etag, Now(h))
    ensures var p := Prepare(env, h);
      && p.Resume? && Now(p.history) == Now(h) && InitialKnown(p.meta) == Resumed(Now(h).rows, Now(h).video.value)
      && p.meta == DefaultMeta(Now(h).video).(completedBytes := Covered(Now(h).rows), chunkCount := |Load(Now(h).rows)|)
  {
    CoveredNothing(Now(h).rows);
    AllSurviveDrop(Now(h).rows, Covered(Now(h).rows));
  }

  lemma RunsOn(env: Env, h: History, h1: History, meta: Meta)
    requires Prepare(env, h) == Resume(h1, meta) && env.commits(|h1|)
    ensures RunDownload(env, h) == Loop(env, h1 + [PutVideo(Now(h1), meta)], InitialKnown(meta), 0)
  {
  }

  lemma BeginsUnderway(w: World, env: Env, etag: string, rows: seq<Row>, h: History, m: Meta)
    requires Repaired(rows, |w.library(etag)|) && Owns(Now(h), env.me) && Now(h).rows == rows
    requires IsStrongEtag(Some(etag)) && m.etag == Some(etag) && m.etagStrong && m.totalBytes == |w.library(etag)|
    requires Now(h).video == Some(DefaultMeta(Some(m)).(completedBytes := Covered(rows), chunkCount := |Load(rows)|))
    ensures Underway(w, env, etag, rows, [], h, Resumed(rows, m))
  {
    LoadIsLongestTiling(rows);
  }

  lemma FinishesAfterClaim(w: World, env: Env, s0: Store, etag: string, h: History, reach: nat)
    requires Healthy(env, s0) && Serves(w, env, etag) && IsStrongEtag(Some(etag))
    requires Repaired(Now(h).rows, |w.library(etag)|) && Open(w, etag, Now(h)) && Owns(Now(h), env.me)
    requires reach == Pieces(env, Resumed(Now(h).rows, Now(h).video.value), 0)
    ensures Finishes(RunDownload(env, h)) <==> AllReached(Now(h).rows, reach)
  {
    var rows, m := Now(h).rows, Now(h).video.value;
    Resumes(w, env, s0, etag, h);
    var p := Prepare(env, h);
    var h2 := p.history + [PutVideo(Now(p.history), p.meta)];
    RunsOn(env, h, p.history, p.meta);
    BeginsUnderway(w, env, etag, rows, h2, m);
    LoopIff(w, env, s0, etag, rows, [], h2, Resumed(rows, m), 0, reach);
  }
}
