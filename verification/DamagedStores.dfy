/**
 * Stores that sessions leave behind when one of them cannot read the metadata row: records that
 * overlap, so that the download never finishes, and trusted chunks that the next put overwrites.
 */
module DamagedStores {
  import opened Common
  import opened ChunkRequest
  import opened OfflineStore
  import opened ChunkLoader
  import opened FirstPut
  import opened DownloadModel
  import opened DownloadExact
  import opened OverlappedStore
  import opened ScriptedSessions

  // ---------------------------------------------------------------------------
  // Seven bytes
  // ---------------------------------------------------------------------------

  const Seven := World((etag: string) => [1, 2, 3, 4, 5, 6, 7], true, false)

  const A := Row(0, Some(0), Some(0), Some([1]))
  const B := Row(1, Some(1), Some(2), Some([2, 3]))
  const C := Row(2, Some(3), Some(3), Some([4]))
  const Long := Row(0, Some(0), Some(5), Some([1, 2, 3, 4, 5, 6]))
  const Short := Row(0, Some(0), Some(2), Some([1, 2, 3]))
  const Last7 := Row(1, Some(6), Some(6), Some([7]))

  function Stands(completed: int, count: int, rows: seq<Row>): Store {
    Store(Some(Meta(Paused, 7, completed, count, Some("a"), true, None)), rows, None)
  }

  /** The row is not read, and six bytes arrive before the line goes dead. */
  function SixBytes(): Env {
    OneAnswerEnv(false, "a", 0, 7, [1, 2, 3, 4, 5, 6])
  }

  /** The row is read, and the last byte arrives. */
  function LastByte(): Env {
    OneAnswerEnv(true, "a", 6, 7, [7])
  }

  /** The row is not read, and three bytes arrive before the line goes dead. */
  function ThreeBytes(): Env {
    OneAnswerEnv(false, "a", 0, 7, [1, 2, 3])
  }

  /** Three records whose first ones fit: how they stand in start order, and what is loaded. */
  lemma LoadsOf(first: Row, second: Row, third: Row, chunks: seq<Row>)
    requires NoLater(first, second) && NoLater(second, third) && NoLater(first, third)
    requires chunks == Validated([first, second, third], 0)
    ensures Load([first, second, third]) == chunks
  {
    assert [first, second, third][1..] == [second, third] && [second, third][1..] == [third] && [third][1..] == [];
    assert SortByStart([third]) == [third];
    assert SortByStart([second, third]) == [second, third];
    assert SortByStart([first, second, third]) == [first, second, third];
  }

  lemma LoadsSwapped(first: Row, second: Row, third: Row, chunks: seq<Row>)
    requires NoLater(first, third) && NoLater(third, second) && !NoLater(second, third)
    requires chunks == Validated([first, third, second], 0)
    ensures Load([first, second, third]) == chunks
  {
    assert [first, second, third][1..] == [second, third] && [second, third][1..] == [third] && [third][1..] == [];
    assert SortByStart([third]) == [third];
    assert [third][1..] == [];
    assert Insert(second, [third]) == [third] + [second];
    assert SortByStart([second, third]) == [third, second];
    assert SortByStart([first, second, third]) == [first, third, second];
  }

  lemma StartsSound()
    ensures Sound(Seven, Stands(4, 3, [A, B, C]))
  {
    assert [A, B, C][1..] == [B, C] && [B, C][1..] == [C] && [C][1..] == [];
    assert Validated([C], 3) == [C];
    assert Validated([B, C], 1) == [B, C];
    assert Validated([A, B, C], 0) == [A, B, C];
    LoadsOf(A, B, C, [A, B, C]);
    assert Content([C]) == [4];
    assert Content([B, C]) == [2, 3] + [4];
    assert Content([A, B, C]) == [1, 2, 3, 4];
  }

  lemma LongLoads(rest: seq<Row>)
    requires |rest| == 2 && rest[0].start.Some? && rest[0].start.value != 6
    ensures Validated([Long] + rest, 0) == [Long] && Content([Long]) == [1, 2, 3, 4, 5, 6]
  {
    assert ([Long] + rest)[1..] == rest && [Long][1..] == [];
    assert Validated(rest, 6) == [];
  }

  // ---------------------------------------------------------------------------
  // An overlap
  // ---------------------------------------------------------------------------

  /** The unread session puts a longer first chunk over the first one. */
  lemma AfterUnread()
    ensures Now(StartDownload(SixBytes(), Stands(4, 3, [A, B, C])).history) ==
      Stands(6, 1, [Long, B, C])
  {
    UnreadSession(Stands(4, 3, [A, B, C]), "a", 7, [1, 2, 3, 4, 5, 6]);
    assert PutRow([A, B, C], Long) == [Long, B, C];
  }

  lemma ReadPass(h: History)
    requires Owns(Now(h), 0) && Now(h).rows == [Long, B, C]
    ensures var meta := Meta(Downloading, 7, 7, 2, Some("a"), true, None);
      OnePass(LastByte(), h, InitialKnown(Meta(Downloading, 7, 6, 1, Some("a"), true, None)), 0) ==
        Last(h + [Store(Some(meta), [Long, Last7, C], Now(h).owner)],
             Known(7, 2, Some(7), Some("a"), true, None, 0, meta))
  {
    var env, k := LastByte(), InitialKnown(Meta(Downloading, 7, 6, 1, Some("a"), true, None));
    PartIsAsked(env, k, 0, "a", None, 7, [7]);
    var c := Ask(env, k, 0);
    assert Judge(k, c) == Keep(c) && RowOf(k, c) == Last7;
    assert Position([Long, B, C], 1) == 1 by {
      assert [Long, B, C][1..] == [B, C];
    }
    assert PutRow([Long, B, C], Last7) == [Long, Last7, C];
  }

  lemma ReadRun(h: History)
    requires Owns(Now(h), 0) && Now(h).rows == [Long, B, C] && Now(h).video == Stands(6, 1, []).video
    ensures var run := RunDownload(LastByte(), h);
      && run.end.Threw?
      && Now(run.history) ==
        Store(Some(Meta(Downloading, 7, 7, 2, Some("a"), true, None)), [Long, Last7, C], Now(h).owner)
  {
    var env, meta := LastByte(), Meta(Downloading, 7, 6, 1, Some("a"), true, None);
    LongLoads([B, C]);
    assert [Long] + [B, C] == [Long, B, C] && [Long] + [C, Last7] == [Long, C, Last7];
    LoadsOf(Long, B, C, [Long]);
    assert Prepare(env, h) == Resume(h, meta);
    RunsLoop(env, h, h, meta);
    var h1 := h + [PutVideo(Now(h), meta)];
    ReadPass(h1);
    var p := OnePass(env, h1, InitialKnown(meta), 0);
    LongLoads([C, Last7]);
    LoadsSwapped(Long, Last7, C, [Long]);
    assert Conclude(env, p.history, p.known) == Run(p.history, RangeTrouble(RangeTotalUnknown));
  }

  /** The next session stores the last byte, does not trust it, and pauses. */
  lemma AfterRead()
    ensures Now(StartDownload(LastByte(), Stands(6, 1, [Long, B, C])).history) ==
      Stands(7, 2, [Long, Last7, C])
  {
    var s := Stands(6, 1, [Long, B, C]);
    var h := [s] + [PutClaim(s, 0, 0)];
    ReadRun(h);
    SettlesPaused(LastByte(), s, h);
  }

  lemma LeftoverOverlaps()
    ensures var rows := [Long, C];
      Load(rows) == [Long] && Covered(rows) == 6 && Overlaps(rows, C) && DropFrom(rows, 6) == rows
  {
    var rows := [Long, C];
    assert rows[1..] == [C] && [C][1..] == [] && [Long][1..] == [];
    assert SortByStart([C]) == [C];
    assert SortByStart(rows) == rows;
    assert Validated([C], 6) == [];
    assert Content([Long]) == [1, 2, 3, 4, 5, 6];
    assert rows[1] == C && C != Long;
    assert DropFrom([C], 6) == [C];
    assert DropFrom(rows, 6) == [Long] + [C];
  }

  lemma DamagedIsSpoiled()
    ensures var s := Stands(7, 2, [Long, Last7, C]);
      var rows := DropFrom(s.rows, Covered(s.rows));
      Unfinished(Seven, "a", rows, s) && Spoiled(rows, 7)
  {
    LongLoads([C, Last7]);
    assert [Long] + [C, Last7] == [Long, C, Last7];
    LoadsSwapped(Long, Last7, C, [Long]);
    LeftoverOverlaps();
    assert [Long, Last7, C][1..] == [Last7, C] && [Last7, C][1..] == [C];
    assert DropFrom([C], 6) == [C];
    assert DropFrom([Last7, C], 6) == [C];
    assert DropFrom([Long, Last7, C], 6) == [Long] + [C];
  }

  /**
   * Three chunks of a sound download; one session that cannot read the row and is cut off after
   * its first chunk; one that can.  No run of truthful sessions finishes the download after that.
   */
  lemma InterruptedNeverFinishes(events: seq<Event>)
    requires SteadyRun(Seven, "a", events)
    ensures Sound(Seven, Stands(4, 3, [A, B, C]))
    ensures TruthfulEnv(Seven, SixBytes()) && TruthfulEnv(Seven, LastByte())
    ensures
      var interrupted := Now(StartDownload(SixBytes(), Stands(4, 3, [A, B, C])).history);
      var damaged := Now(StartDownload(LastByte(), interrupted).history);
      forall t :: t in Trace(damaged, events) ==> t.video.Some? && t.video.value.status != Ready && PlayBytes(t).None?
  {
    StartsSound();
    OneAnswerIsTruthful(Seven, false, "a", 0, [1, 2, 3, 4, 5, 6]);
    OneAnswerIsTruthful(Seven, true, "a", 6, [7]);
    AfterUnread();
    AfterRead();
    DamagedIsSpoiled();
    NeverFinishes(Seven, "a", Stands(7, 2, [Long, Last7, C]), events);
  }

  // ---------------------------------------------------------------------------
  // A trusted chunk under the next key
  // ---------------------------------------------------------------------------

  lemma ShorterLoads()
    ensures Load([Short, Last7, C]) == [Short, C] && HasKey([Short, C], 2)
  {
    assert [Short, C, Last7][1..] == [C, Last7] && [C, Last7][1..] == [Last7];
    assert Validated([Last7], 4) == [];
    assert Validated([C, Last7], 3) == [C];
    assert Validated([Short, C, Last7], 0) == [Short, C];
    LoadsSwapped(Short, Last7, C, [Short, C]);
    assert [Short, C][1] == C;
  }

  /**
   * One more session that cannot read the row, and stops after a shorter first chunk: the trusted
   * chunks are now those with keys 0 and 2, so the next put overwrites the second of them.
   */
  lemma TrustedUnderNextKey()
    ensures var s := Now(StartDownload(ThreeBytes(), Stands(7, 2, [Long, Last7, C])).history);
      && UniqueKeys(s.rows) && Load(s.rows) == [Short, C] && HasKey(Load(s.rows), |Load(s.rows)|)
      && forall row :: Fits(row, Covered(s.rows)) && row.index == |Load(s.rows)| ==>
        !(Load(s.rows) <= Load(PutRow(s.rows, row)))
  {
    UnreadSession(Stands(7, 2, [Long, Last7, C]), "a", 7, [1, 2, 3]);
    assert PutRow([Long, Last7, C], Short) == [Short, Last7, C];
    ShorterLoads();
    var rows := [Short, Last7, C];
    forall row | Fits(row, Covered(rows)) && row.index == |Load(rows)|
      ensures !(Load(rows) <= Load(PutRow(rows, row)))
    {
      FirstPutKeepsPrefixIff(rows, row);
    }
  }
}
