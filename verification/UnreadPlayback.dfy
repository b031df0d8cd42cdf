/**
 * What a session that cannot read the metadata row puts at risk: the bytes that this and all
 * later sessions may come to play.
 */
module UnreadPlayback {
  import opened Common
  import opened Text
  import opened RangeBody
  import opened ChunkRequest
  import opened OfflineStore
  import opened ChunkLoader
  import opened FirstPut
  import opened DownloadModel
  import opened DownloadExact
  import opened ScriptedSessions

  /** What the store plays, if anything, is what its ETag names. */
  ghost predicate PlaysTruly(w: World, s: Store) {
    PlayBytes(s).Some? ==>
      IsStrongEtag(s.video.value.etag) && PlayBytes(s).value == w.library(s.video.value.etag.value)
  }

  ghost predicate AllPlayTruly(w: World, h: seq<Store>) {
    forall i :: 0 <= i < |h| ==> PlaysTruly(w, h[i])
  }

  /** The states of a session cut short after `survives` transactions, and of the run after it. */
  function FirstThen(s: Store, env: Env, survives: nat, later: seq<Event>): History {
    Trace(s, [Download(env, survives)] + later)
  }

  /** The servers tell the truth, and the sessions after the first see their metadata. */
  ghost predicate HonestAfter(w: World, s: Store, env: Env, survives: nat, later: seq<Event>) {
    !w.lenient && TruthfulEnv(w, env) && Honest(w, Now(States(s, Download(env, survives))), later)
  }

  /**
   * Whatever the representations are that the store is sound for, whatever a first session with
   * this metadata read meets, and whatever honest run follows: nothing but the truth is played.
   */
  ghost predicate SafeToRun(s: Store, metaRead: bool) {
    forall w: World, env: Env, survives: nat, later: seq<Event> ::
      Sound(w, s) && env.metaRead == metaRead && HonestAfter(w, s, env, survives, later) ==>
        AllPlayTruly(w, FirstThen(s, env, survives, later))
  }

  // ---------------------------------------------------------------------------
  // Safe
  // ---------------------------------------------------------------------------

  function Lenient(w: World): World {
    w.(lenient := true)
  }

  lemma SoundPlaysTruly(w: World, s: Store)
    requires Sound(w, s)
    ensures PlaysTruly(w, s)
  {
  }

  lemma SoundLeniently(w: World, s: Store)
    requires Sound(w, s)
    ensures Sound(Lenient(w), s)
  {
  }

  lemma {:induction false} HonestLeniently(w: World, s: Store, events: seq<Event>)
    requires Honest(w, s, events) && !w.lenient
    ensures Honest(Lenient(w), s, events)
    decreases |events|
  {
    if events != [] {
      HonestLeniently(w, Now(States(s, events[0])), events[1..]);
    }
  }

  lemma SafeHolds(w: World, s: Store, env: Env, survives: nat, later: seq<Event>)
    requires Sound(w, s) && HonestAfter(w, s, env, survives, later) && (env.metaRead || |s.rows| <= 1)
    ensures AllPlayTruly(w, FirstThen(s, env, survives, later))
  {
    var events := [Download(env, survives)] + later;
    assert events[1..] == later;
    SoundLeniently(w, s);
    HonestLeniently(w, Now(States(s, Download(env, survives))), later);
    TraceSound(Lenient(w), s, events);
    forall i | 0 <= i < |Trace(s, events)| ensures PlaysTruly(w, Trace(s, events)[i]) {
      SoundPlaysTruly(Lenient(w), Trace(s, events)[i]);
    }
  }

  // ---------------------------------------------------------------------------
  // Unsafe
  // ---------------------------------------------------------------------------

  /** Other bytes, at every position. */
  function Flip(bytes: Bytes): (r: Bytes)
    ensures |r| == |bytes| && forall i :: 0 <= i < |r| ==> r[i] != bytes[i]
  {
    seq(|bytes|, i requires 0 <= i < |bytes| => if bytes[i] == 0 then 1 else 0)
  }

  /** A strong ETag that the row does not have. */
  function OtherEtag(s: Store): string {
    if s.video.Some? && s.video.value.etag == Some("b") then "c" else "b"
  }

  /** The same representations, and another one: the stored bytes, all changed. */
  function WithFlipped(w: World, s: Store): World {
    w.(library := (etag: string) => if etag == OtherEtag(s) then Flip(Content(Load(s.rows))) else w.library(etag))
  }

  lemma StillSound(w: World, s: Store)
    requires Sound(w, s)
    ensures Sound(WithFlipped(w, s), s)
  {
  }

  /** A chunk of the same range under key 0 takes the place of the first one. */
  lemma ReplacesFirst(rows: seq<Row>, row: Row)
    requires WholeTiling(rows) && rows != [] && row.index == 0
    requires Fits(row, 0) && row.end == Load(rows)[0].end
    ensures Load(PutRow(rows, row)) == [row] + Load(rows)[1..]
  {
    var first, i := Load(rows)[0], Position(rows, 0);
    FirstPosition(rows, i);
    var before, after := rows[..i], rows[i + 1..];
    assert rows == before + [first] + after && PutRow(rows, row) == before + [row] + after;
    WholeStarts(rows);
    SortExtends(before, first, after);
    SortExtends(before, row, after);
    SortSorts(PutRow(rows, row));
    OnlyFirstChanges(rows, row, SortByStart(before + after), SortByStart(PutRow(rows, row)));
  }

  lemma FirstPosition(rows: seq<Row>, i: nat)
    requires WholeTiling(rows) && rows != [] && i == Position(rows, 0)
    ensures i < |rows| && rows[i] == Load(rows)[0]
  {
    WholeStarts(rows);
    SortSorts(rows);
    assert Load(rows)[0] in multiset(rows);
    assert Load(rows)[0] in rows;
    assert rows[i] in multiset(rows);
    assert rows[i] in Load(rows);
  }

  lemma OnlyFirstChanges(rows: seq<Row>, row: Row, rest: seq<Row>, sorted: seq<Row>)
    requires WholeTiling(rows) && rows != [] && Load(rows) == SortByStart(rows)
    requires Fits(row, 0) && row.end == Load(rows)[0].end
    requires Extends(Load(rows), rest, Load(rows)[0]) && Extends(sorted, rest, row) && Sorted(sorted)
    ensures Validated(sorted, 0) == [row] + Load(rows)[1..]
  {
    var chunks := Load(rows);
    var p := ExtraPlace(chunks, rest, chunks[0]);
    assert chunks[p] == chunks[0];
    assert p == 0;
    assert rest == chunks[1..];
    LoadIsLongestTiling(rows);
    TilesStarts(chunks[1..], chunks[0].end.value + 1, Covered(rows));
    var q := ExtraPlace(sorted, rest, row);
    assert sorted[q] == row;
    assert q == 0;
    assert sorted == [row] + chunks[1..];
    assert Validated(chunks, 0) == chunks;
    assert sorted[1..] == chunks[1..];
  }

  /** The first chunk of the other representation over the rest of the stored one. */
  function Mixed(s: Store): Bytes
    requires Load(s.rows) != [] && Load(s.rows)[0].blob.Some?
  {
    Flip(Load(s.rows)[0].blob.value) + Content(Load(s.rows)[1..])
  }

  lemma FirstOfFlipped(first: Bytes, rest: Bytes)
    ensures Flip(first + rest)[..|first|] == Flip(first)
    ensures rest != [] ==> Flip(first) + rest != Flip(first + rest)
  {
    var whole := first + rest;
    assert forall i :: 0 <= i < |first| ==> whole[i] == first[i];
    if rest != [] {
      var mixed := Flip(first) + rest;
      var last := |whole| - 1;
      assert mixed[last] == rest[|rest| - 1] == whole[last];
    }
  }

  /** The next session finds the mixture whole, and marks it ready. */
  lemma MarksReady(env: Env, s: Store, etag: string, f: nat)
    requires IsStrongEtag(Some(etag)) && |Load(s.rows)| > 1 && 0 < f < Covered(s.rows) <= MAX_SAFE_INTEGER
    requires s.video == Some(Meta(Paused, Covered(s.rows), f, 1, Some(etag), true, None))
    requires Scripted(env) && env.metaRead && env.chunksRead && env.finalMetaRead && env.finalChunksRead
    requires !env.abortedBefore(0) && forall n: nat :: env.commits(n)
    ensures var final := Now(StartDownload(env, s).history);
      && final.rows == s.rows && PlayBytes(final) == Some(Content(Load(s.rows)))
      && final.video.value.etag == Some(etag)
  {
    var h := [s] + [PutClaim(s, env.me, env.now)];
    var meta := Meta(Downloading, Covered(s.rows), Covered(s.rows), |Load(s.rows)|, Some(etag), true, None);
    assert Prepare(env, h) == Resume(h, meta);
    RunsLoop(env, h, h, meta);
    var h1 := h + [PutVideo(Now(h), meta)];
    assert Loop(env, h1, InitialKnown(meta), 0) == Conclude(env, h1, InitialKnown(meta));
    SettlesReady(env, s, h);
  }

  function Second(): Env {
    SessionWith(0, true, (i: nat, start: int, end: int) => Always(Gone))
  }

  /** The store after an unread session that is cut off behind its first chunk. */
  function AfterUnread(s: Store, f: Bytes): Store {
    var meta := Halfway(OtherEtag(s), Covered(s.rows), Flip(f)).(status := Paused);
    Store(Some(meta), PutRow(s.rows, Chunk0(Flip(f))), None)
  }

  lemma PlaysMixture(w: World, s: Store)
    requires Sound(w, s) && |s.rows| > 1 && Covered(s.rows) <= MAX_SAFE_INTEGER
    requires Load(s.rows)[0].blob.Some? && |Load(s.rows)[0].blob.value| <= CHUNK_BYTES
    ensures var first := Load(s.rows)[0].blob.value;
      var w1 := WithFlipped(w, s);
      && 0 < |first| < Covered(s.rows)
      && TruthfulEnv(w1, OneAnswerEnv(false, OtherEtag(s), 0, Covered(s.rows), Flip(first)))
      && Now(StartDownload(OneAnswerEnv(false, OtherEtag(s), 0, Covered(s.rows), Flip(first)), s).history) ==
        AfterUnread(s, first)
      && var final := Now(StartDownload(Second(), AfterUnread(s, first)).history);
         PlayBytes(final).Some? && !PlaysTruly(w1, final)
  {
    var chunks, first := Load(s.rows), Load(s.rows)[0].blob.value;
    var etag, rest := OtherEtag(s), Content(Load(s.rows)[1..]);
    SplitsOff(s.rows);
    FirstOfFlipped(first, rest);
    OneAnswerIsTruthful(WithFlipped(w, s), false, etag, 0, Flip(first));
    UnreadSession(s, etag, Covered(s.rows), Flip(first));
    ReplacesFirst(s.rows, Chunk0(Flip(first)));
    var s1 := AfterUnread(s, first);
    assert ([Chunk0(Flip(first))] + chunks[1..])[1..] == chunks[1..];
    assert Content(Load(s1.rows)) == Flip(first) + rest;
    MarksReady(Second(), s1, etag, |first|);
  }

  /** Two or more trusted chunks: the first one, and at least one byte after it. */
  lemma SplitsOff(rows: seq<Row>)
    requires WholeTiling(rows) && |rows| > 1
    ensures var first := Load(rows)[0];
      && Fits(first, 0) && first.index == 0 && Content(Load(rows)) == first.blob.value + Content(Load(rows)[1..])
      && Content(Load(rows)[1..]) != [] && 0 < |first.blob.value| < Covered(rows)
  {
    LoadIsLongestTiling(rows);
    TilesSize(Load(rows)[1..], Load(rows)[0].end.value + 1, Covered(rows));
  }

  lemma UnsafeHolds(w: World, s: Store)
    requires Sound(w, s) && !w.lenient && |s.rows| > 1 && Covered(s.rows) <= MAX_SAFE_INTEGER
    requires Load(s.rows)[0].blob.Some? && |Load(s.rows)[0].blob.value| <= CHUNK_BYTES
    ensures !SafeToRun(s, false)
  {
    var first := Load(s.rows)[0].blob.value;
    var w1 := WithFlipped(w, s);
    PlaysMixture(w, s);
    StillSound(w, s);
    var env := OneAnswerEnv(false, OtherEtag(s), 0, Covered(s.rows), Flip(first));
    var survives := |StartDownload(env, s).history|;
    var events := [Download(Second(), |StartDownload(Second(), AfterUnread(s, first)).history|)];
    SecondIsHonest(w1, AfterUnread(s, first), events);
    assert States(s, Download(env, survives)) == StartDownload(env, s).history;
    assert HonestAfter(w1, s, env, survives, events);
    MixtureInTrace(w1, s, env, survives, events, AfterUnread(s, first));
    assert !AllPlayTruly(w1, FirstThen(s, env, survives, events));
  }

  lemma SecondIsHonest(w: World, s: Store, events: seq<Event>)
    requires |events| == 1 && events[0].Download? && events[0].env == Second()
    ensures Honest(w, s, events)
  {
    assert TruthfulEnv(w, Second()) by {
      AlwaysTruthful(w.library, Gone);
    }
    assert events[1..] == [];
  }

  lemma MixtureInTrace(w: World, s: Store, env: Env, survives: nat, events: seq<Event>, s1: Store)
    requires |events| == 1 && events[0].Download? && events[0].survives >= |StartDownload(events[0].env, s1).history|
    requires Now(States(s, Download(env, survives))) == s1
    requires !PlaysTruly(w, Now(StartDownload(events[0].env, s1).history))
    ensures !AllPlayTruly(w, FirstThen(s, env, survives, events))
  {
    var all := [Download(env, survives)] + events;
    assert all[1..] == events && events[1..] == [];
    var first, second := States(s, all[0]), StartDownload(events[0].env, s1).history;
    assert States(s1, events[0]) == second;
    assert Trace(Now(second), []) == [Now(second)];
    assert Trace(s1, events) == second + [Now(second)];
    assert Trace(s, all) == first + (second + [Now(second)]);
    assert Trace(s, all)[|first| + |second|] == Now(second);
  }

  /**
   * For every sound store whose first chunk is no longer than a request asks for: a session is
   * safe to run, for all that it and every later session may play, exactly when the row can be
   * read or at most one chunk is stored.
   */
  lemma SafeToRunIff(w: World, s: Store, metaRead: bool)
    requires Sound(w, s) && !w.lenient && Covered(s.rows) <= MAX_SAFE_INTEGER
    requires s.rows != [] ==> Load(s.rows)[0].blob.Some? && |Load(s.rows)[0].blob.value| <= CHUNK_BYTES
    ensures SafeToRun(s, metaRead) <==> metaRead || |s.rows| <= 1
  {
    if metaRead || |s.rows| <= 1 {
      forall w1: World, env: Env, survives: nat, later: seq<Event> |
        Sound(w1, s) && env.metaRead == metaRead && HonestAfter(w1, s, env, survives, later)
        ensures AllPlayTruly(w1, FirstThen(s, env, survives, later))
      {
        SafeHolds(w1, s, env, survives, later);
      }
    } else {
      UnsafeHolds(w, s);
    }
  }
}
