/**
 * Which stored chunks are trusted (`loadValidatedChunks`, `repairTrailingChunks` and
 * `offlinePlayUrl` in src/frontend/js/services/offlineService.js).
 */
module ChunkLoader {
  import opened Common
  import opened Text
  import opened RangeBody
  import opened OfflineStore

  // ---------------------------------------------------------------------------
  // Start order
  // ---------------------------------------------------------------------------

  /** No later in start order; a start that is no safe integer counts as infinite. */
  predicate NoLater(a: Row, b: Row) {
    b.start.None? || (a.start.Some? && a.start.value <= b.start.value)
  }

  /** Put `row`, which stood before all of `rows`, where a stable sort puts it. */
  function Insert(row: Row, rows: seq<Row>): (r: seq<Row>)
    ensures |r| == |rows| + 1
  {
    if rows == [] || NoLater(row, rows[0]) then [row] + rows else [rows[0]] + Insert(row, rows[1..])
  }

  /** The array's built-in stable sort by start. */
  function SortByStart(rows: seq<Row>): (r: seq<Row>)
    ensures |r| == |rows|
  {
    if rows == [] then [] else Insert(rows[0], SortByStart(rows[1..]))
  }

  ghost predicate Sorted(rows: seq<Row>) {
    forall i, j :: 0 <= i < j < |rows| ==> NoLater(rows[i], rows[j])
  }

  /** The rows that start at `start`, in order. */
  function StartingAt(rows: seq<Row>, start: Option<int>): seq<Row> {
    if rows == [] then []
    else if rows[0].start == start then [rows[0]] + StartingAt(rows[1..], start)
    else StartingAt(rows[1..], start)
  }

  lemma {:induction false} InsertSorts(row: Row, rows: seq<Row>)
    requires Sorted(rows)
    ensures Sorted(Insert(row, rows)) && multiset(Insert(row, rows)) == multiset{row} + multiset(rows)
  {
    if rows != [] && !NoLater(row, rows[0]) {
      var tail := rows[1..];
      InsertSorts(row, tail);
      assert rows == [rows[0]] + tail;
      forall r | r in Insert(row, tail) ensures NoLater(rows[0], r) {
        assert r in multiset(Insert(row, tail));
        assert r == row || r in tail;
      }
    }
  }

  lemma {:induction false} InsertKeepsTies(row: Row, rows: seq<Row>, start: Option<int>)
    ensures StartingAt(Insert(row, rows), start) == StartingAt([row] + rows, start)
  {
    assert ([row] + rows)[1..] == rows;
    if rows != [] && !NoLater(row, rows[0]) {
      InsertKeepsTies(row, rows[1..], start);
      assert ([row] + rows[1..])[1..] == rows[1..];
    }
  }

  lemma {:induction false} SortKeepsTies(rows: seq<Row>, start: Option<int>)
    ensures StartingAt(SortByStart(rows), start) == StartingAt(rows, start)
  {
    if rows != [] {
      var sorted := SortByStart(rows[1..]);
      SortKeepsTies(rows[1..], start);
      InsertKeepsTies(rows[0], sorted, start);
      assert ([rows[0]] + sorted)[1..] == sorted;
    }
  }

  /** `SortByStart` is a sort: ordered, and the same rows. */
  lemma {:induction false} SortSorts(rows: seq<Row>)
    ensures Sorted(SortByStart(rows)) && multiset(SortByStart(rows)) == multiset(rows)
  {
    if rows != [] {
      SortSorts(rows[1..]);
      InsertSorts(rows[0], SortByStart(rows[1..]));
      assert rows == [rows[0]] + rows[1..];
    }
  }

  /** `SortByStart` is the stable sort: ordered, the same rows, ties left in key order. */
  lemma SortIsStable(rows: seq<Row>)
    ensures Sorted(SortByStart(rows)) && multiset(SortByStart(rows)) == multiset(rows)
    ensures forall start :: StartingAt(SortByStart(rows), start) == StartingAt(rows, start)
  {
    SortSorts(rows);
    forall start ensures StartingAt(SortByStart(rows), start) == StartingAt(rows, start) {
      SortKeepsTies(rows, start);
    }
  }

  // ---------------------------------------------------------------------------
  // The loader
  // ---------------------------------------------------------------------------

  /** A record that continues a tiling at `expected` and whose blob has the size it states. */
  predicate Fits(row: Row, expected: int) {
    && row.start == Some(expected) && row.end.Some? && row.end.value >= expected
    && row.blob.Some? && |row.blob.value| == row.end.value - expected + 1
  }

  function Validated(sorted: seq<Row>, expected: int): seq<Row> {
    if sorted != [] && Fits(sorted[0], expected)
    then [sorted[0]] + Validated(sorted[1..], sorted[0].end.value + 1)
    else []
  }

  function Load(rows: seq<Row>): seq<Row> {
    Validated(SortByStart(rows), 0)
  }

  /** The chunks tile `[from, to)`. */
  predicate Tiles(chunks: seq<Row>, from: int, to: int) {
    if chunks == [] then from == to
    else Fits(chunks[0], from) && Tiles(chunks[1..], chunks[0].end.value + 1, to)
  }

  function Content(chunks: seq<Row>): Bytes {
    if chunks == [] then []
    else (if chunks[0].blob.Some? then chunks[0].blob.value else []) + Content(chunks[1..])
  }

  /** One past the last byte covered, the source's `validThrough + 1`. */
  function Covered(rows: seq<Row>): nat {
    |Content(Load(rows))|
  }

  lemma {:induction false} ValidatedTiles(sorted: seq<Row>, from: int)
    ensures var chunks := Validated(sorted, from);
      chunks <= sorted && Tiles(chunks, from, from + |Content(chunks)|)
    ensures var chunks := Validated(sorted, from);
      |chunks| < |sorted| ==> !Fits(sorted[|chunks|], from + |Content(chunks)|)
  {
    if sorted != [] && Fits(sorted[0], from) {
      ValidatedTiles(sorted[1..], sorted[0].end.value + 1);
      assert sorted == [sorted[0]] + sorted[1..];
    }
  }

  lemma {:induction false} TilesPrefix(sorted: seq<Row>, from: int, m: nat, to: int)
    requires m <= |sorted| && Tiles(sorted[..m], from, to)
    ensures sorted[..m] <= Validated(sorted, from)
  {
    if m > 0 {
      assert sorted[..m][1..] == sorted[1..][..m - 1];
      TilesPrefix(sorted[1..], sorted[0].end.value + 1, m - 1, to);
      assert sorted[..m] == [sorted[0]] + sorted[1..][..m - 1];
    }
  }

  /** What is loaded tiles `[0, Covered)` and is the longest prefix in start order that tiles anything. */
  lemma LoadIsLongestTiling(rows: seq<Row>)
    ensures Load(rows) <= SortByStart(rows) && Tiles(Load(rows), 0, Covered(rows))
    ensures forall m: nat, to: int ::
      m <= |rows| && Tiles(SortByStart(rows)[..m], 0, to) ==> m <= |Load(rows)|
  {
    ValidatedTiles(SortByStart(rows), 0);
    forall m: nat, to: int | m <= |rows| && Tiles(SortByStart(rows)[..m], 0, to)
      ensures m <= |Load(rows)|
    {
      TilesPrefix(SortByStart(rows), 0, m, to);
    }
  }

  lemma {:induction false} TilesSize(chunks: seq<Row>, from: int, to: int)
    requires Tiles(chunks, from, to)
    ensures to == from + |Content(chunks)| && (chunks != [] ==> chunks[|chunks| - 1].end == Some(to - 1) && from < to)
  {
    if chunks != [] {
      TilesSize(chunks[1..], chunks[0].end.value + 1, to);
    }
  }

  lemma CoveredNothing(rows: seq<Row>)
    ensures Covered(rows) == 0 <==> Load(rows) == []
  {
    LoadIsLongestTiling(rows);
    TilesSize(Load(rows), 0, Covered(rows));
  }

  /** The loader's loop; `validThrough` is the last byte covered, -1 when there is none. */
  method LoadValidatedChunks(rows: seq<Row>) returns (chunks: seq<Row>, validThrough: int)
    ensures chunks == Load(rows) && validThrough == Covered(rows) - 1
  {
    var sorted := SortByStart(rows);
    chunks := [];
    var expectedStart := 0;
    var i := 0;
    assert sorted[0..] == sorted;
    while i < |sorted|
      invariant 0 <= i <= |sorted|
      invariant Load(rows) == chunks + Validated(sorted[i..], expectedStart)
    {
      var chunk := sorted[i];
      assert sorted[i..][1..] == sorted[i + 1..];
      if !Fits(chunk, expectedStart) {
        break;
      }
      assert Load(rows) == (chunks + [chunk]) + Validated(sorted[i + 1..], chunk.end.value + 1);
      chunks := chunks + [chunk];
      expectedStart := chunk.end.value + 1;
      i := i + 1;
    }
    assert chunks == Load(rows);
    LoadIsLongestTiling(rows);
    TilesSize(chunks, 0, Covered(rows));
    validThrough := if |chunks| > 0 then chunks[|chunks| - 1].end.value else -1;
  }

  // ---------------------------------------------------------------------------
  // Repair
  // ---------------------------------------------------------------------------

  predicate Survives(row: Row, cut: int) {
    row.start.None? || row.start.value < cut
  }

  lemma {:induction false} DropInsert(row: Row, rows: seq<Row>, cut: int)
    requires Sorted(rows)
    ensures DropFrom(Insert(row, rows), cut) ==
      if Survives(row, cut) then Insert(row, DropFrom(rows, cut)) else DropFrom(rows, cut)
  {
    if rows == [] {
    } else if NoLater(row, rows[0]) {
      assert Insert(row, rows)[1..] == rows;
      if Survives(row, cut) {
        DropKeepsBound(row, rows, cut);
      }
    } else {
      DropInsert(row, rows[1..], cut);
    }
  }

  lemma {:induction false} DropKeepsBound(row: Row, rows: seq<Row>, cut: int)
    requires Sorted(rows) && (rows != [] ==> NoLater(row, rows[0]))
    ensures Insert(row, DropFrom(rows, cut)) == [row] + DropFrom(rows, cut)
  {
    if rows != [] && !Survives(rows[0], cut) {
      DropKeepsBound(row, rows[1..], cut);
    }
  }

  /** Dropping rows and sorting commute. */
  lemma {:induction false} DropSorted(rows: seq<Row>, cut: int)
    ensures SortByStart(DropFrom(rows, cut)) == DropFrom(SortByStart(rows), cut)
  {
    if rows != [] {
      DropSorted(rows[1..], cut);
      SortSorts(rows[1..]);
      DropInsert(rows[0], SortByStart(rows[1..]), cut);
    }
  }

  lemma {:induction false} ValidatedAfterDrop(sorted: seq<Row>, from: int, cut: int)
    requires cut == from + |Content(Validated(sorted, from))|
    ensures Validated(DropFrom(sorted, cut), from) == Validated(sorted, from)
  {
    if sorted == [] {
    } else if Fits(sorted[0], from) {
      ValidatedAfterDrop(sorted[1..], sorted[0].end.value + 1, cut);
    } else {
      NothingFits(sorted, from);
    }
  }

  lemma {:induction false} NothingFits(rows: seq<Row>, cut: int)
    ensures Validated(DropFrom(rows, cut), cut) == []
  {
    if rows != [] && !Survives(rows[0], cut) {
      NothingFits(rows[1..], cut);
    }
  }

  /** Repair at the end of the coverage keeps every trusted chunk, whatever else is stored. */
  lemma RepairKeepsCoverage(rows: seq<Row>)
    ensures Load(DropFrom(rows, Covered(rows))) == Load(rows)
  {
    DropSorted(rows, Covered(rows));
    ValidatedAfterDrop(SortByStart(rows), 0, Covered(rows));
  }

  lemma {:induction false} DropAll(rows: seq<Row>, cut: int)
    ensures DropFrom(rows, cut) == [] <==> forall i :: 0 <= i < |rows| ==> !Survives(rows[i], cut)
  {
    if rows != [] {
      DropAll(rows[1..], cut);
      if forall i :: 0 <= i < |rows[1..]| ==> !Survives(rows[1..][i], cut) {
        forall i | 0 < i < |rows| ensures !Survives(rows[i], cut) {
          assert rows[i] == rows[1..][i - 1];
        }
      } else {
        var i :| 0 <= i < |rows[1..]| && Survives(rows[1..][i], cut);
        assert Survives(rows[i + 1], cut);
      }
    }
  }

  lemma {:induction false} DropAfter(chunks: seq<Row>, rest: seq<Row>, from: int, cut: int)
    requires Tiles(chunks, from, cut)
    ensures DropFrom(chunks + rest, cut) == chunks + DropFrom(rest, cut)
  {
    if chunks == [] {
      assert chunks + rest == rest;
    } else {
      TilesSize(chunks, from, cut);
      DropAfter(chunks[1..], rest, chunks[0].end.value + 1, cut);
      assert (chunks + rest)[1..] == chunks[1..] + rest;
    }
  }

  lemma DropOthersIff(sorted: seq<Row>, chunks: seq<Row>, cut: int)
    requires chunks <= sorted && Tiles(chunks, 0, cut)
    ensures DropFrom(sorted, cut) == chunks <==> forall i :: |chunks| <= i < |sorted| ==> !Survives(sorted[i], cut)
  {
    var rest := sorted[|chunks|..];
    assert sorted == chunks + rest;
    DropAfter(chunks, rest, 0, cut);
    DropAll(rest, cut);
    assert forall i :: |chunks| <= i < |sorted| ==> sorted[i] == rest[i - |chunks|];
    assert forall i :: 0 <= i < |rest| ==> rest[i] == sorted[i + |chunks|];
  }

  /**
   * Repair leaves nothing but the trusted chunks exactly when no other record starts before
   * the cut: a record that overlaps the trusted ones survives it.
   */
  lemma RepairIsCleanIff(rows: seq<Row>)
    ensures var n := |Load(rows)|;
      n <= |SortByStart(rows)| && (
      SortByStart(DropFrom(rows, Covered(rows))) == Load(rows) <==>
      forall i :: n <= i < |SortByStart(rows)| ==> !Survives(SortByStart(rows)[i], Covered(rows)))
  {
    LoadIsLongestTiling(rows);
    DropSorted(rows, Covered(rows));
    DropOthersIff(SortByStart(rows), Load(rows), Covered(rows));
  }

  // ---------------------------------------------------------------------------
  // A store that is one whole tiling
  // ---------------------------------------------------------------------------

  /** Every stored row is trusted, under the key that is its place. */
  ghost predicate WholeTiling(rows: seq<Row>) {
    |Load(rows)| == |rows| && forall i :: 0 <= i < |rows| ==> Load(rows)[i].index == i
  }

  ghost predicate StartsIn(rows: seq<Row>, from: int, to: int) {
    forall i :: 0 <= i < |rows| ==> rows[i].start.Some? && from <= rows[i].start.value < to
  }

  lemma {:induction false} TilesStarts(chunks: seq<Row>, from: int, to: int)
    requires Tiles(chunks, from, to)
    ensures StartsIn(chunks, from, to)
  {
    TilesSize(chunks, from, to);
    if chunks != [] {
      TilesStarts(chunks[1..], chunks[0].end.value + 1, to);
      forall i | 1 <= i < |chunks| ensures chunks[i].start.Some? && from <= chunks[i].start.value < to {
        assert chunks[i] == chunks[1..][i - 1];
      }
    }
  }

  lemma StartsOfSame(a: seq<Row>, b: seq<Row>, from: int, to: int)
    requires multiset(a) == multiset(b) && StartsIn(a, from, to)
    ensures StartsIn(b, from, to)
  {
    forall i | 0 <= i < |b| ensures b[i].start.Some? && from <= b[i].start.value < to {
      assert b[i] in multiset(a);
    }
  }

  lemma PrefixOfSameSize(a: seq<Row>, b: seq<Row>)
    requires a <= b && |a| == |b|
    ensures a == b
  {
  }

  lemma WholeStarts(rows: seq<Row>)
    requires WholeTiling(rows)
    ensures Load(rows) == SortByStart(rows) && StartsIn(rows, 0, Covered(rows))
    ensures forall i :: 0 <= i < |rows| ==> rows[i].index < |rows|
  {
    LoadIsLongestTiling(rows);
    SortSorts(rows);
    PrefixOfSameSize(Load(rows), SortByStart(rows));
    TilesStarts(Load(rows), 0, Covered(rows));
    StartsOfSame(Load(rows), rows, 0, Covered(rows));
    forall i | 0 <= i < |rows| ensures rows[i].index < |rows| {
      assert rows[i] in multiset(rows);
      assert rows[i] in Load(rows);
    }
  }

  lemma {:induction false} InsertLast(row: Row, rows: seq<Row>, from: int, to: int)
    requires StartsIn(rows, from, to) && row.start == Some(to)
    ensures Insert(row, rows) == rows + [row]
  {
    if rows != [] {
      InsertLast(row, rows[1..], from, to);
    }
  }

  lemma {:induction false} InsertBefore(row: Row, rows: seq<Row>, last: Row)
    requires NoLater(row, last)
    ensures Insert(row, rows + [last]) == Insert(row, rows) + [last]
  {
    if rows != [] {
      InsertBefore(row, rows[1..], last);
      assert (rows + [last])[1..] == rows[1..] + [last];
    }
  }

  lemma {:induction false} SortAppend(rows: seq<Row>, row: Row, from: int, to: int)
    requires StartsIn(rows, from, to) && row.start == Some(to)
    ensures SortByStart(InsertRow(rows, row)) == SortByStart(rows) + [row]
  {
    SortSorts(rows);
    if rows == [] || StringLess(ChunkKey(row.index), ChunkKey(rows[0].index)) {
      StartsOfSame(rows, SortByStart(rows), from, to);
      InsertLast(row, SortByStart(rows), from, to);
      assert ([row] + rows)[1..] == rows;
    } else {
      SortAppend(rows[1..], row, from, to);
      InsertBefore(rows[0], SortByStart(rows[1..]), row);
    }
  }

  lemma {:induction false} ValidatedAppend(chunks: seq<Row>, row: Row, from: int, to: int)
    requires Tiles(chunks, from, to) && Fits(row, to)
    ensures Validated(chunks + [row], from) == chunks + [row]
    ensures Content(chunks + [row]) == Content(chunks) + row.blob.value
  {
    if chunks == [] {
      assert chunks + [row] == [row];
      assert [row][1..] == [];
    } else {
      ValidatedAppend(chunks[1..], row, chunks[0].end.value + 1, to);
      assert (chunks + [row])[1..] == chunks[1..] + [row];
    }
  }

  lemma {:induction false} InsertedRows(rows: seq<Row>, row: Row)
    ensures |InsertRow(rows, row)| == |rows| + 1
  {
    if rows != [] && !StringLess(ChunkKey(row.index), ChunkKey(rows[0].index)) {
      InsertedRows(rows[1..], row);
    }
  }

  /** A chunk put at the end of the coverage, under the next key, extends the tiling by itself. */
  lemma AppendChunk(rows: seq<Row>, row: Row)
    requires WholeTiling(rows) && row.index == |rows| && Fits(row, Covered(rows))
    ensures WholeTiling(PutRow(rows, row)) && |PutRow(rows, row)| == |rows| + 1
    ensures Load(PutRow(rows, row)) == Load(rows) + [row]
    ensures Content(Load(PutRow(rows, row))) == Content(Load(rows)) + row.blob.value
  {
    WholeStarts(rows);
    LoadIsLongestTiling(rows);
    assert Position(rows, row.index) == |rows|;
    SortAppend(rows, row, 0, Covered(rows));
    ValidatedAppend(Load(rows), row, 0, Covered(rows));
    InsertedRows(rows, row);
  }

  /** Repair at or past the end of the coverage changes nothing, repair at 0 removes everything. */
  lemma RepairWhole(rows: seq<Row>)
    requires WholeTiling(rows)
    ensures DropFrom(rows, Covered(rows)) == rows && DropFrom(rows, 0) == []
  {
    WholeStarts(rows);
    DropNone(rows, Covered(rows));
    DropAll(rows, 0);
  }

  lemma {:induction false} DropNone(rows: seq<Row>, cut: int)
    requires StartsIn(rows, 0, cut)
    ensures DropFrom(rows, cut) == rows
  {
    if rows != [] {
      DropNone(rows[1..], cut);
    }
  }

  // ---------------------------------------------------------------------------
  // Playback
  // ---------------------------------------------------------------------------

  predicate IsSafeInteger(n: int) {
    -MAX_SAFE_INTEGER <= n <= MAX_SAFE_INTEGER
  }

  /** The bytes a playback URL is built from, if one is. */
  function PlayBytes(s: Store): Option<Bytes> {
    if s.video.Some? && s.video.value.status == Ready then
      var total := s.video.value.totalBytes;
      var chunks := Load(s.rows);
      if IsSafeInteger(total) && total > 0 && Covered(s.rows) == total && |chunks| > 0 && |Content(chunks)| == total
      then Some(Content(chunks)) else None
    else None
  }

  /** A URL exists exactly when the trusted chunks tile the whole of `[0, totalBytes)`, and then plays their bytes. */
  lemma PlaysWholeTilingOnly(s: Store)
    ensures PlayBytes(s).Some? <==>
      && s.video.Some? && s.video.value.status == Ready
      && 0 < s.video.value.totalBytes <= MAX_SAFE_INTEGER
      && Tiles(Load(s.rows), 0, s.video.value.totalBytes)
    ensures PlayBytes(s).Some? ==>
      PlayBytes(s).value == Content(Load(s.rows)) && |PlayBytes(s).value| == s.video.value.totalBytes
  {
    LoadIsLongestTiling(s.rows);
    if s.video.Some? && Tiles(Load(s.rows), 0, s.video.value.totalBytes) {
      TilesSize(Load(s.rows), 0, s.video.value.totalBytes);
    }
  }
}
