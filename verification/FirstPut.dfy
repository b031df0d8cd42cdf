/**
 * What the first chunk put after a resume does to the records it finds, whatever they are
 * (`loadValidatedChunks` and `writeOwnedChunkTransaction` in
 * src/frontend/js/services/offlineService.js).
 */
module FirstPut {
  import opened Common
  import opened Text
  import opened OfflineStore
  import opened ChunkLoader

  // ---------------------------------------------------------------------------
  // Sorting with one record more
  // ---------------------------------------------------------------------------

  /** `longer` is `rows` with `row` at one more place. */
  predicate Extends(longer: seq<Row>, rows: seq<Row>, row: Row) {
    longer != [] &&
    ((longer[0] == row && longer[1..] == rows) ||
     (rows != [] && longer[0] == rows[0] && Extends(longer[1..], rows[1..], row)))
  }

  lemma {:induction false} InsertExtends(row: Row, rows: seq<Row>)
    ensures Extends(Insert(row, rows), rows, row)
  {
    if rows != [] && !NoLater(row, rows[0]) {
      InsertExtends(row, rows[1..]);
    }
  }

  lemma {:induction false} InsertBeside(x: Row, longer: seq<Row>, rows: seq<Row>, row: Row)
    requires Extends(longer, rows, row) && Sorted(longer)
    ensures Extends(Insert(x, longer), Insert(x, rows), row)
  {
    if longer[0] == row && longer[1..] == rows {
      if NoLater(x, row) {
        InsertFront(x, longer, rows);
      }
    } else if !NoLater(x, rows[0]) {
      InsertBeside(x, longer[1..], rows[1..], row);
    }
  }

  lemma InsertFront(x: Row, longer: seq<Row>, rows: seq<Row>)
    requires longer != [] && longer[1..] == rows && Sorted(longer) && NoLater(x, longer[0])
    ensures Insert(x, rows) == [x] + rows && Insert(x, longer) == [x] + longer
  {
    if rows != [] {
      assert rows[0] == longer[1] && NoLater(longer[0], longer[1]);
    }
  }

  /** One more record takes one place in start order and moves no other. */
  lemma {:induction false} SortExtends(before: seq<Row>, row: Row, after: seq<Row>)
    ensures Extends(SortByStart(before + [row] + after), SortByStart(before + after), row)
  {
    if before == [] {
      assert before + [row] + after == [row] + after && before + after == after;
      assert ([row] + after)[1..] == after;
      InsertExtends(row, SortByStart(after));
    } else {
      var tail := before[1..];
      SortExtends(tail, row, after);
      assert (before + after)[1..] == tail + after;
      assert (before + [row] + after)[1..] == tail + [row] + after;
      SortSorts(tail + [row] + after);
      InsertBeside(before[0], SortByStart(tail + [row] + after), SortByStart(tail + after), row);
    }
  }

  lemma {:induction false} ExtraPlace(longer: seq<Row>, rows: seq<Row>, row: Row) returns (q: nat)
    requires Extends(longer, rows, row)
    ensures q <= |rows| && longer == rows[..q] + [row] + rows[q..]
  {
    if longer[0] == row && longer[1..] == rows {
      q := 0;
      assert longer == [row] + rows;
    } else {
      q := ExtraPlace(longer[1..], rows[1..], row);
      assert longer == [rows[0]] + longer[1..];
      assert rows[..q + 1] == [rows[0]] + rows[1..][..q];
      q := q + 1;
    }
  }

  // ---------------------------------------------------------------------------
  // The records a put leaves in place
  // ---------------------------------------------------------------------------

  predicate UniqueKeys(rows: seq<Row>) {
    forall i, j :: 0 <= i < j < |rows| ==> rows[i].index != rows[j].index
  }

  predicate HasKey(rows: seq<Row>, index: nat) {
    exists r :: r in rows && r.index == index
  }

  lemma {:induction false} InsertSplits(rows: seq<Row>, row: Row) returns (i: nat)
    ensures i <= |rows| && InsertRow(rows, row) == rows[..i] + [row] + rows[i..]
  {
    if rows == [] || StringLess(ChunkKey(row.index), ChunkKey(rows[0].index)) {
      i := 0;
    } else {
      i := InsertSplits(rows[1..], row);
      assert rows == [rows[0]] + rows[1..];
      assert rows[..i + 1] == [rows[0]] + rows[1..][..i];
      i := i + 1;
    }
  }

  /** A put takes the place of the record with its key, or a place of its own among the others. */
  lemma PutSplits(rows: seq<Row>, row: Row) returns (before: seq<Row>, replaced: seq<Row>, after: seq<Row>)
    requires UniqueKeys(rows)
    ensures rows == before + replaced + after && PutRow(rows, row) == before + [row] + after
    ensures !HasKey(before + after, row.index)
    ensures |replaced| <= 1 && forall i :: 0 <= i < |replaced| ==> replaced[i].index == row.index
  {
    var i := Position(rows, row.index);
    if i < |rows| {
      before, replaced, after := rows[..i], [rows[i]], rows[i + 1..];
    } else {
      i := InsertSplits(rows, row);
      before, replaced, after := rows[..i], [], rows[i..];
    }
  }

  /** The trusted chunks come first among the records that stay, in start order. */
  lemma TrustedFirst(rows: seq<Row>, before: seq<Row>, replaced: seq<Row>, after: seq<Row>)
    requires rows == before + replaced + after && |replaced| <= 1
    requires forall i :: 0 <= i < |replaced| ==> replaced[i] !in Load(rows)
    ensures Load(rows) <= SortByStart(before + after)
  {
    LoadIsLongestTiling(rows);
    if replaced == [] {
      assert rows == before + after;
    } else {
      assert rows == before + [replaced[0]] + after;
      SortExtends(before, replaced[0], after);
      var q := ExtraPlace(SortByStart(rows), SortByStart(before + after), replaced[0]);
      assert SortByStart(rows)[q] == replaced[0];
      assert q >= |Load(rows)|;
    }
  }

  /** `rows` is in start order, and `row` is not placed before `n` of them that start before it. */
  lemma PlacedAfter(rows: seq<Row>, q: nat, row: Row, n: nat)
    requires n <= |rows| && q <= |rows| && Sorted(rows[..q] + [row] + rows[q..])
    requires row.start.Some? && forall i :: 0 <= i < n ==> rows[i].start.Some? && rows[i].start.value < row.start.value
    ensures n <= q
  {
    var longer := rows[..q] + [row] + rows[q..];
    assert longer[q] == row;
    assert q < n ==> longer[q + 1] == rows[q];
  }

  /** Where the put chunk stands in start order: behind the trusted chunks, which are still in front. */
  lemma Placement(rows: seq<Row>, row: Row, before: seq<Row>, replaced: seq<Row>, after: seq<Row>) returns (q: nat)
    requires rows == before + replaced + after && PutRow(rows, row) == before + [row] + after
    requires |replaced| <= 1 && forall i :: 0 <= i < |replaced| ==> replaced[i] !in Load(rows)
    requires row.start == Some(Covered(rows))
    ensures var t := SortByStart(before + after);
      && |Load(rows)| <= q <= |t| && t[..|Load(rows)|] == Load(rows)
      && SortByStart(PutRow(rows, row)) == t[..q] + [row] + t[q..]
      && Sorted(SortByStart(PutRow(rows, row)))
  {
    var t, n := SortByStart(before + after), |Load(rows)|;
    TrustedFirst(rows, before, replaced, after);
    SortExtends(before, row, after);
    q := ExtraPlace(SortByStart(PutRow(rows, row)), t, row);
    SortSorts(PutRow(rows, row));
    LoadIsLongestTiling(rows);
    TilesStarts(Load(rows), 0, Covered(rows));
    assert forall i :: 0 <= i < n ==> t[i] == Load(rows)[i];
    PlacedAfter(t, q, row, n);
  }

  // ---------------------------------------------------------------------------
  // The trusted prefix
  // ---------------------------------------------------------------------------

  lemma LoadedIsStored(rows: seq<Row>, r: Row)
    requires r in Load(rows)
    ensures r in rows
  {
    LoadIsLongestTiling(rows);
    SortSorts(rows);
    assert r in SortByStart(rows);
    assert r in multiset(SortByStart(rows));
  }

  lemma StaysInFront(rows: seq<Row>, row: Row)
    requires UniqueKeys(rows) && Fits(row, Covered(rows)) && !HasKey(Load(rows), row.index)
    ensures Load(rows) <= Load(PutRow(rows, row))
  {
    var before, replaced, after := PutSplits(rows, row);
    var q := Placement(rows, row, before, replaced, after);
    var sorted := SortByStart(PutRow(rows, row));
    LoadIsLongestTiling(rows);
    assert sorted[..|Load(rows)|] == Load(rows);
    TilesPrefix(sorted, 0, |Load(rows)|, Covered(rows));
  }

  lemma LosesItsKey(rows: seq<Row>, row: Row, c: Row)
    requires UniqueKeys(rows) && Fits(row, Covered(rows)) && c in Load(rows) && c.index == row.index
    ensures !(Load(rows) <= Load(PutRow(rows, row)))
  {
    var before, replaced, after := PutSplits(rows, row);
    LoadIsLongestTiling(rows);
    TilesStarts(Load(rows), 0, Covered(rows));
    assert c.start.Some? && c.start.value < Covered(rows);
    assert c !in before + after && c != row;
    if c in Load(PutRow(rows, row)) {
      LoadedIsStored(PutRow(rows, row), c);
    }
  }

  /**
   * The run resumes at the end of the trusted chunks under the key that counts them.  The first
   * put keeps these chunks exactly when none of them already has that key.
   */
  lemma FirstPutKeepsPrefixIff(rows: seq<Row>, row: Row)
    requires UniqueKeys(rows) && Fits(row, Covered(rows)) && row.index == |Load(rows)|
    ensures Load(rows) <= Load(PutRow(rows, row)) <==> !HasKey(Load(rows), |Load(rows)|)
  {
    if HasKey(Load(rows), row.index) {
      var c :| c in Load(rows) && c.index == row.index;
      LosesItsKey(rows, row, c);
    } else {
      StaysInFront(rows, row);
    }
  }

  // ---------------------------------------------------------------------------
  // Overlapping records
  // ---------------------------------------------------------------------------

  /** The records that are stored but not trusted. */
  function Others(rows: seq<Row>): multiset<Row> {
    multiset(rows) - multiset(Load(rows))
  }

  /** An untrusted record under another key that starts before the end of the trusted ones. */
  ghost predicate Blocked(rows: seq<Row>, index: nat) {
    exists r :: r in Others(rows) && r.index != index && r.start.Some? && r.start.value < Covered(rows)
  }

  lemma OthersThatStay(rows: seq<Row>, before: seq<Row>, replaced: seq<Row>, after: seq<Row>,
                       t: seq<Row>, r: Row, index: nat)
    requires rows == before + replaced + after && Load(rows) <= t && multiset(t) == multiset(before + after)
    requires |replaced| <= 1
    requires forall i :: 0 <= i < |replaced| ==> replaced[i] !in Load(rows) && replaced[i].index == index
    requires !HasKey(before + after, index)
    ensures r in Others(rows) && r.index != index <==> r in t[|Load(rows)|..]
  {
    var chunks, rest := Load(rows), t[|Load(rows)|..];
    assert t == chunks + rest;
    assert multiset(rows) == multiset(before + after) + multiset(replaced);
    assert multiset(t) == multiset(chunks) + multiset(rest);
    assert Others(rows) == multiset(rest) + multiset(replaced);
    assert r in multiset(rest) <==> r in rest;
    assert r in multiset(replaced) <==> r in replaced;
    assert r in rest ==> r in multiset(before + after);
    assert r in multiset(before + after) <==> r in before + after;
  }

  lemma FollowsAtOnce(rows: seq<Row>, row: Row, t: seq<Row>, q: nat)
    requires Fits(row, Covered(rows)) && Load(rows) <= t && q == |Load(rows)|
    requires SortByStart(PutRow(rows, row)) == t[..q] + [row] + t[q..]
    ensures Load(rows) + [row] <= Load(PutRow(rows, row))
  {
    var sorted := SortByStart(PutRow(rows, row));
    LoadIsLongestTiling(rows);
    TilesMore(Load(rows), row, 0, Covered(rows));
    assert sorted[..q + 1] == Load(rows) + [row];
    TilesPrefix(sorted, 0, q + 1, row.end.value + 1);
  }

  lemma {:induction false} TilesMore(chunks: seq<Row>, row: Row, from: int, to: int)
    requires Tiles(chunks, from, to) && Fits(row, to)
    ensures Tiles(chunks + [row], from, row.end.value + 1)
  {
    if chunks == [] {
      assert chunks + [row] == [row];
    } else {
      TilesMore(chunks[1..], row, chunks[0].end.value + 1, to);
      assert (chunks + [row])[1..] == chunks[1..] + [row];
    }
  }

  lemma {:induction false} StopsThere(chunks: seq<Row>, rest: seq<Row>, from: int, to: int)
    requires Tiles(chunks, from, to) && (rest != [] ==> !Fits(rest[0], to))
    ensures Validated(chunks + rest, from) == chunks
  {
    if chunks == [] {
      assert chunks + rest == rest;
    } else {
      StopsThere(chunks[1..], rest, chunks[0].end.value + 1, to);
      assert (chunks + rest)[1..] == chunks[1..] + rest;
    }
  }

  lemma FollowsAnother(rows: seq<Row>, row: Row, t: seq<Row>, q: nat)
    requires Load(rows) <= t && |Load(rows)| < q <= |t| && !Fits(t[|Load(rows)|], Covered(rows))
    requires SortByStart(PutRow(rows, row)) == t[..q] + [row] + t[q..]
    ensures Load(PutRow(rows, row)) == Load(rows)
  {
    var sorted, n := SortByStart(PutRow(rows, row)), |Load(rows)|;
    LoadIsLongestTiling(rows);
    assert sorted == Load(rows) + sorted[n..] && sorted[n] == t[n];
    StopsThere(Load(rows), sorted[n..], 0, Covered(rows));
  }

  /**
   * After repair, the chunk that is put next becomes trusted exactly when no untrusted record
   * under another key starts before it.  Otherwise the trusted chunks are those of before.
   */
  lemma NextChunkTrustedIff(rows: seq<Row>, row: Row)
    requires UniqueKeys(rows) && Fits(row, Covered(rows)) && !HasKey(Load(rows), row.index)
    requires forall r :: r in rows ==> Survives(r, Covered(rows))
    ensures Load(rows) + [row] <= Load(PutRow(rows, row)) <==> !Blocked(rows, row.index)
    ensures Blocked(rows, row.index) ==> Load(PutRow(rows, row)) == Load(rows)
  {
    var before, replaced, after := PutSplits(rows, row);
    var q := Placement(rows, row, before, replaced, after);
    var t, n, cut := SortByStart(before + after), |Load(rows)|, Covered(rows);
    SortSorts(before + after);
    if q == n {
      FollowsAtOnce(rows, row, t, q);
      forall r | r in Others(rows) && r.index != row.index ensures !(r.start.Some? && r.start.value < cut) {
        OthersThatStay(rows, before, replaced, after, t, r, row.index);
        BehindStartsLater(t, q, row, r);
      }
    } else {
      AheadStartsEarlier(rows, row, t, q);
      OthersThatStay(rows, before, replaced, after, t, t[n], row.index);
      assert t[n] == t[n..][0];
      FollowsAnother(rows, row, t, q);
    }
  }

  lemma BehindStartsLater(t: seq<Row>, q: nat, row: Row, r: Row)
    requires q <= |t| && Sorted(t[..q] + [row] + t[q..]) && row.start.Some? && r in t[q..]
    ensures r.start.Some? ==> row.start.value <= r.start.value
  {
    var longer := t[..q] + [row] + t[q..];
    var j :| 0 <= j < |t[q..]| && t[q..][j] == r;
    assert longer[q] == row && longer[q + 1 + j] == r;
  }

  lemma AheadStartsEarlier(rows: seq<Row>, row: Row, t: seq<Row>, q: nat)
    requires |Load(rows)| < q <= |t| && Sorted(t[..q] + [row] + t[q..]) && row.start == Some(Covered(rows))
    requires multiset(t) <= multiset(rows)
    requires forall r :: r in rows ==> Survives(r, Covered(rows))
    ensures t[|Load(rows)|].start.Some? && t[|Load(rows)|].start.value < Covered(rows)
  {
    var longer, n := t[..q] + [row] + t[q..], |Load(rows)|;
    assert longer[n] == t[n] && longer[q] == row;
    assert t[n] in multiset(t);
    assert t[n] in rows;
  }
}
