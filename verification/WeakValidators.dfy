/**
 * Weak ETags that change hide a changed Last-Modified: a session joins bytes of two versions of
 * its source and calls the download ready.
 */
module WeakValidators {
  import opened Common
  import opened Text
  import opened Ranges
  import opened RangeBody
  import opened ChunkRequest
  import opened OfflineStore
  import opened ChunkLoader
  import opened DownloadModel
  import opened DownloadTheorems
  import opened ScriptedSessions

  /** What the source serves under one pair of validators. */
  datatype Version = Version(etag: string, lastModified: string, content: Bytes)

  predicate IsWeak(v: Version) {
    v.etag != "" && v.lastModified != "" && !IsStrongEtag(Some(v.etag)) && 0 < |v.content| <= MAX_SAFE_INTEGER
  }

  /** The source is `a` for the first `changeAt` chunk operations and `b` from then on. */
  function Serving(a: Version, b: Version, changeAt: nat, i: nat): Version {
    if i < changeAt then a else b
  }

  /** What comes of a range that `v` answers. */
  ghost predicate AnswersFrom(v: Version, c: Fetched, start: int) {
    if start < |v.content| then
      && c.Chunk? && c.start == start <= c.end < |v.content| == c.total
      && c.bytes == v.content[c.start..c.end + 1]
      && c.etag == Some(v.etag) && c.lastModified == Some(v.lastModified)
    else c == Unsatisfied(|v.content|, Some(v.etag), Some(v.lastModified))
  }

  /** Within the retries of the operation `v` sends the range asked for, or a first part of it, or tells its length. */
  ghost predicate Sends(v: Version, attempts: nat -> Attempt, start: nat, end: nat) {
    exists r :: Brings(attempts, r, start, end) &&
      r.etag == Some(v.etag) && r.lastModified == Some(v.lastModified) && PartOf(v.content, r, start, end)
  }

  ghost predicate ServesVersions(env: Env, a: Version, b: Version, changeAt: nat) {
    forall i: nat, start: nat, end: nat :: start <= end ==>
      Sends(Serving(a, b, changeAt, i), env.attempts(i, start, end), start, end)
  }

  lemma SentIsAnswer(v: Version, attempts: nat -> Attempt, start: nat, end: nat)
    requires Sends(v, attempts, start, end)
    ensures AnswersFrom(v, RequestChunk(attempts, start, end), start)
  {
    var r :| Brings(attempts, r, start, end) &&
      r.etag == Some(v.etag) && r.lastModified == Some(v.lastModified) && PartOf(v.content, r, start, end);
    PartIsYielded(attempts, v.content, r, start, end);
  }

  /** The change that the code does not see. */
  predicate Unnoticed(a: Version, b: Version) {
    |a.content| == |b.content| && (a.etag != b.etag || a.lastModified == b.lastModified)
  }

  /** How many bytes are stored when the source changes: all of them if it changes too late. */
  function StoredBefore(env: Env, changeAt: nat, k: Known, i: nat): int
    decreases changeAt - i
  {
    if i >= changeAt || k.total == Some(k.offset) then k.offset
    else
      var c := Ask(env, k, i);
      if c.Chunk? then StoredBefore(env, changeAt, Adopt(k, c), i + 1) else k.offset
  }

  /** What a session plays when `n` bytes of `a` were stored before the source became `b`. */
  function Played(a: Version, b: Version, n: int): Bytes {
    if n == |a.content| then a.content
    else if Unnoticed(a, b) && 0 <= n < |a.content| then a.content[..n] + b.content[n..]
    else b.content
  }

  // ---------------------------------------------------------------------------
  // The loop
  // ---------------------------------------------------------------------------

  predicate KnowsOf(k: Known, v: Version) {
    && k.total == Some(|v.content|) && k.etag == Some(v.etag) && !k.etagStrong
    && k.lastModified == Some(v.lastModified)
  }

  predicate KnowsNothing(k: Known) {
    k.total.None? && k.etag.None? && !k.etagStrong && k.lastModified.None? && k.offset == 0
  }

  /** The store is one tiling with content `have`, and the loop has counted it. */
  ghost predicate Holding(env: Env, k: Known, s: Store, have: Bytes) {
    && Owns(s, env.me) && s.video.Some? && s.video.value.chunkCount == k.next
    && WholeTiling(s.rows) && k.next == |s.rows|
    && Content(Load(s.rows)) == have && k.offset == |have|
  }

  ghost predicate Plays(run: Run, bytes: Bytes) {
    run.end == Completed && PlayBytes(Now(run.history)) == Some(bytes)
  }

  lemma ConcludePlays(env: Env, s0: Store, h: History, k: Known, have: Bytes)
    requires Healthy(env, s0) && Holding(env, k, Now(h), have) && have != [] && |have| <= MAX_SAFE_INTEGER
    requires k.total == Some(|have|)
    ensures Plays(Conclude(env, h, k), have)
  {
    CoveredNothing(Now(h).rows);
  }

  lemma AsksOn(env: Env, a: Version, b: Version, changeAt: nat, k: Known, i: nat)
    requires ServesVersions(env, a, b, changeAt) && 0 <= k.offset && k.offset <= RangeEnd(k)
    ensures AnswersFrom(Serving(a, b, changeAt, i), Ask(env, k, i), k.offset)
  {
    SentIsAnswer(Serving(a, b, changeAt, i), env.attempts(i, k.offset, RangeEnd(k)), k.offset, RangeEnd(k));
  }

  lemma JudgesKeep(k: Known, v: Version, c: Fetched)
    requires AnswersFrom(v, c, k.offset) && c.Chunk? && IsWeak(v)
    requires KnowsNothing(k) || exists known :: IsWeak(known) && KnowsOf(k, known) && Unnoticed(known, v)
    ensures Judge(k, c) == Keep(c)
  {
  }

  lemma JudgesRestart(k: Known, known: Version, v: Version, c: Fetched)
    requires AnswersFrom(v, c, k.offset) && IsWeak(v) && IsWeak(known) && KnowsOf(k, known) && !Unnoticed(known, v)
    requires k.restarts == 0 && k.offset < |known.content|
    ensures Judge(k, c) == Restart(ResetMeta(|v.content|, Some(v.etag), Some(v.lastModified)))
  {
  }

  lemma KeepHolds(env: Env, k: Known, s: Store, have: Bytes, v: Version, c: Fetched)
    requires Holding(env, k, s, have) && AnswersFrom(v, c, k.offset) && c.Chunk? && IsWeak(v)
    ensures var k1 := Adopt(k, c);
      var s1 := WriteOwnedChunk(s, env.me, k1.meta, RowOf(k, c)).value;
      && Holding(env, k1, s1, have + v.content[|have|..c.end + 1]) && KnowsOf(k1, v)
  {
    AppendChunk(s.rows, RowOf(k, c));
  }

  /** One pass that keeps what `v` answers. */
  lemma PassKeeps(env: Env, s0: Store, v: Version, h: History, k: Known, i: nat, have: Bytes)
    requires Healthy(env, s0) && Holding(env, k, Now(h), have) && k.total != Some(k.offset)
    requires (k.total.Some? ==> k.offset < k.total.value) && IsWeak(v)
    requires AnswersFrom(v, Ask(env, k, i), k.offset) && |have| < |v.content|
      && Judge(k, Ask(env, k, i)) == Keep(Ask(env, k, i))
    ensures var p := OnePass(env, h, k, i);
      var end := Ask(env, k, i).end;
      && |have| <= end < |v.content|
      && !p.Halt? && p.known == Adopt(k, Ask(env, k, i)) && KnowsOf(p.known, v)
      && Holding(env, p.known, Now(p.history), have + v.content[|have|..end + 1])
  {
    KeepHolds(env, k, Now(h), have, v, Ask(env, k, i));
  }

  /** What is held after a pass that keeps a chunk up to `end`. */
  function Longer(have: Bytes, v: Version, end: int): Bytes {
    if |have| <= end < |v.content| then have + v.content[|have|..end + 1] else have
  }

  /** One pass against version `v`, which continues what is known. */
  lemma ServedPass(env: Env, s0: Store, a: Version, b: Version, changeAt: nat, known: Version, v: Version,
                   h: History, k: Known, i: nat, have: Bytes) returns (p: DownloadModel.Pass, more: Bytes)
    requires Healthy(env, s0) && ServesVersions(env, a, b, changeAt) && v == Serving(a, b, changeAt, i)
    requires IsWeak(v) && IsWeak(known) && Holding(env, k, Now(h), have) && |have| < |v.content|
    requires (KnowsNothing(k) && have == []) || (KnowsOf(k, known) && Unnoticed(known, v))
    ensures Ask(env, k, i).Chunk? && p == OnePass(env, h, k, i) && !p.Halt? && p.known == Adopt(k, Ask(env, k, i))
    ensures KnowsOf(p.known, v) && p.known.restarts == k.restarts
    ensures more == Longer(have, v, Ask(env, k, i).end) && |have| < |more|
      && Holding(env, p.known, Now(p.history), more)
    ensures more + v.content[|more|..] == have + v.content[|have|..]
    ensures have <= v.content ==> more <= v.content
    ensures p.Last? ==> |more| == |v.content|
  {
    ServedIsKept(env, a, b, changeAt, known, v, k, i);
    p, more := KeptPass(env, s0, v, h, k, i, have);
  }

  lemma ServedIsKept(env: Env, a: Version, b: Version, changeAt: nat, known: Version, v: Version, k: Known, i: nat)
    requires ServesVersions(env, a, b, changeAt) && v == Serving(a, b, changeAt, i) && IsWeak(v) && IsWeak(known)
    requires 0 <= k.offset < |v.content| && (k.total.Some? ==> k.offset < k.total.value)
    requires KnowsNothing(k) || (KnowsOf(k, known) && Unnoticed(known, v))
    ensures AnswersFrom(v, Ask(env, k, i), k.offset) && Judge(k, Ask(env, k, i)) == Keep(Ask(env, k, i))
  {
    AsksOn(env, a, b, changeAt, k, i);
    JudgesKeep(k, v, Ask(env, k, i));
  }

  lemma KeptPass(env: Env, s0: Store, v: Version, h: History, k: Known, i: nat, have: Bytes)
    returns (p: DownloadModel.Pass, more: Bytes)
    requires Healthy(env, s0) && Holding(env, k, Now(h), have) && k.total != Some(k.offset)
    requires (k.total.Some? ==> k.offset < k.total.value) && IsWeak(v)
    requires AnswersFrom(v, Ask(env, k, i), k.offset) && |have| < |v.content|
      && Judge(k, Ask(env, k, i)) == Keep(Ask(env, k, i))
    ensures p == OnePass(env, h, k, i) && !p.Halt? && KnowsOf(p.known, v) && p.known.restarts == k.restarts
    ensures more == Longer(have, v, Ask(env, k, i).end) && |have| < |more|
      && Holding(env, p.known, Now(p.history), more)
    ensures p.known == Adopt(k, Ask(env, k, i))
    ensures more + v.content[|more|..] == have + v.content[|have|..]
    ensures have <= v.content ==> more <= v.content
    ensures p.Last? ==> |more| == |v.content|
  {
    PassKeeps(env, s0, v, h, k, i, have);
    Joined(have, v.content, Ask(env, k, i).end);
    p, more := OnePass(env, h, k, i), Longer(have, v, Ask(env, k, i).end);
  }

  lemma Joined(have: Bytes, content: Bytes, end: nat)
    requires |have| <= end < |content|
    ensures var more := have + content[|have|..end + 1];
      && |more| == end + 1 && more + content[|more|..] == have + content[|have|..]
      && (have <= content ==> more == content[..end + 1])
      && (end + 1 == |content| ==> more == have + content[|have|..])
  {
  }

  /** From where only `b` is served and nothing is noticed, the rest of `b` follows what is stored. */
  lemma {:induction false} RestPlays(env: Env, s0: Store, a: Version, b: Version, changeAt: nat,
                                     known: Version, h: History, k: Known, i: nat, have: Bytes)
    requires Healthy(env, s0) && ServesVersions(env, a, b, changeAt) && IsWeak(b) && IsWeak(known) && changeAt <= i
    requires Holding(env, k, Now(h), have) && |have| <= |b.content|
    requires (KnowsNothing(k) && have == []) || (KnowsOf(k, known) && Unnoticed(known, b))
    ensures Plays(Loop(env, h, k, i), have + b.content[|have|..])
    decreases |b.content| - |have|
  {
    if k.total == Some(k.offset) {
      assert have + b.content[|have|..] == have;
      ConcludePlays(env, s0, h, k, have);
    } else {
      var p, more := ServedPass(env, s0, a, b, changeAt, known, b, h, k, i, have);
      if p.Last? {
        assert more + b.content[|more|..] == more;
        ConcludePlays(env, s0, p.history, p.known, more);
      } else {
        RestPlays(env, s0, a, b, changeAt, b, p.history, p.known, i + 1, more);
      }
    }
  }

  /** A change that is noticed costs one clean restart. */
  lemma RestartPlays(env: Env, s0: Store, a: Version, b: Version, changeAt: nat, h: History, k: Known, i: nat,
                     have: Bytes)
    requires Healthy(env, s0) && ServesVersions(env, a, b, changeAt) && IsWeak(a) && IsWeak(b) && changeAt <= i
    requires Holding(env, k, Now(h), have) && KnowsOf(k, a) && !Unnoticed(a, b) && k.restarts == 0
    requires |have| < |a.content|
    ensures Plays(Loop(env, h, k, i), b.content)
  {
    RestartsFrom(env, s0, a, b, changeAt, h, k, i, have);
    var meta := ResetMeta(|b.content|, Some(b.etag), Some(b.lastModified));
    var p := OnePass(env, h, k, i);
    HoldsNothing(env, k, meta, Now(h));
    RestPlays(env, s0, a, b, changeAt, b, p.history, p.known, i + 1, []);
    assert [] + b.content[0..] == b.content;
  }

  lemma RestartsFrom(env: Env, s0: Store, a: Version, b: Version, changeAt: nat, h: History, k: Known, i: nat,
                     have: Bytes)
    requires Healthy(env, s0) && ServesVersions(env, a, b, changeAt) && IsWeak(a) && IsWeak(b) && changeAt <= i
    requires Holding(env, k, Now(h), have) && KnowsOf(k, a) && !Unnoticed(a, b) && k.restarts == 0
    requires |have| < |a.content|
    ensures var meta := ResetMeta(|b.content|, Some(b.etag), Some(b.lastModified));
      OnePass(env, h, k, i) == More(h + [Store(Some(meta), [], Now(h).owner)], AfterRestart(k, meta))
  {
    AsksOn(env, a, b, changeAt, k, i);
    JudgesRestart(k, a, b, Ask(env, k, i));
    RestartPassIs(env, s0, h, k, i);
  }

  lemma HoldsNothing(env: Env, k: Known, meta: Meta, s: Store)
    requires Owns(s, env.me) && meta.chunkCount == 0
    ensures Holding(env, AfterRestart(k, meta), Store(Some(meta), [], s.owner), [])
  {
    assert Load([]) == [];
  }

  /** From the change on. */
  lemma ChangedPlays(env: Env, s0: Store, a: Version, b: Version, changeAt: nat, h: History, k: Known, i: nat,
                     have: Bytes)
    requires Healthy(env, s0) && ServesVersions(env, a, b, changeAt) && IsWeak(a) && IsWeak(b) && changeAt <= i
    requires Holding(env, k, Now(h), have) && have <= a.content && |have| < |a.content| && k.restarts == 0
    requires (KnowsNothing(k) && have == []) || KnowsOf(k, a)
    ensures Plays(Loop(env, h, k, i), Played(a, b, |have|))
  {
    assert a.content[..|have|] == have;
    if KnowsNothing(k) {
      assert [] + b.content[0..] == b.content;
      RestPlays(env, s0, a, b, changeAt, b, h, k, i, have);
    } else if Unnoticed(a, b) {
      RestPlays(env, s0, a, b, changeAt, a, h, k, i, have);
    } else {
      RestartPlays(env, s0, a, b, changeAt, h, k, i, have);
    }
  }

  /** From where `a` is served. */
  lemma {:induction false} LoopPlays(env: Env, s0: Store, a: Version, b: Version, changeAt: nat,
                                     h: History, k: Known, i: nat, have: Bytes)
    requires Healthy(env, s0) && ServesVersions(env, a, b, changeAt) && IsWeak(a) && IsWeak(b)
    requires Holding(env, k, Now(h), have) && have <= a.content && k.restarts == 0
    requires (KnowsNothing(k) && have == []) || KnowsOf(k, a)
    ensures 0 <= StoredBefore(env, changeAt, k, i) <= |a.content|
    ensures Plays(Loop(env, h, k, i), Played(a, b, StoredBefore(env, changeAt, k, i)))
    decreases |a.content| - |have|
  {
    if k.total == Some(k.offset) {
      assert have == a.content;
      ConcludePlays(env, s0, h, k, have);
    } else if i >= changeAt {
      ChangedPlays(env, s0, a, b, changeAt, h, k, i, have);
    } else {
      var p, more := ServedPass(env, s0, a, b, changeAt, a, a, h, k, i, have);
      assert StoredBefore(env, changeAt, k, i) == StoredBefore(env, changeAt, p.known, i + 1);
      if p.Last? {
        assert more == a.content;
        ConcludePlays(env, s0, p.history, p.known, more);
      } else {
        LoopPlays(env, s0, a, b, changeAt, p.history, p.known, i + 1, more);
      }
    }
  }

  // ---------------------------------------------------------------------------
  // The session
  // ---------------------------------------------------------------------------

  function Start(): Known {
    InitialKnown(DefaultMeta(None))
  }

  /**
   * A source of any length changes once during a session, which fetches it in any pieces, each
   * answer true to the version it comes from and to the range asked.  The session always ends
   * ready.  With `n` bytes stored before the change, `0 < n < |a.content|`, it plays
   * `a.content[..n] + b.content[n..]` exactly when the length stayed and the weak ETag changed
   * or Last-Modified did not; otherwise it has restarted once and plays `b.content`.
   */
  lemma SessionOverAChange(env: Env, a: Version, b: Version, changeAt: nat)
    requires Healthy(env, EmptyStore) && ServesVersions(env, a, b, changeAt) && IsWeak(a) && IsWeak(b)
    ensures var n := StoredBefore(env, changeAt, Start(), 0);
      var session := StartDownload(env, EmptyStore);
      && 0 <= n <= |a.content|
      && session.settlement == SettledReady
      && PlayBytes(Now(session.history)) == Some(Played(a, b, n))
  {
    var h := [EmptyStore] + [PutClaim(EmptyStore, env.me, env.now)];
    var h1 := h + [PutVideo(Now(h), DefaultMeta(None))];
    assert Prepare(env, h) == Resume(h, DefaultMeta(None));
    LoopPlays(env, EmptyStore, a, b, changeAt, h1, Start(), 0, []);
  }

  // ---------------------------------------------------------------------------
  // An input
  // ---------------------------------------------------------------------------

  const Monday := Version("W/1", "Monday", [1, 2])
  const Tuesday := Version("W/2", "Tuesday", [3, 4])

  /** One byte at a time out of `v`. */
  function OneByteOf(v: Version, start: int): nat -> Attempt {
    if 0 <= start < |v.content|
    then Always(Part(v.etag, Some(v.lastModified), start, |v.content|, [v.content[start]]))
    else Always(Nothing(v))
  }

  function Nothing(v: Version): Response {
    Response(416, Some(v.etag), Some(v.lastModified), Some(ContentRangeForUnsatisfiable(Some(|v.content|))),
             None, 0, false, false, None)
  }

  function Overnight(): Env {
    SessionWith(0, true, (i: nat, start: int, end: int) => OneByteOf(if i == 0 then Monday else Tuesday, start))
  }

  lemma OneByteAnswers(v: Version, start: nat, end: nat)
    requires IsWeak(v) && start <= end
    ensures Sends(v, OneByteOf(v, start), start, end)
  {
    var r := if start < |v.content| then Part(v.etag, Some(v.lastModified), start, |v.content|, [v.content[start]])
             else Nothing(v);
    AlwaysBrings(r, start, end);
    if start < |v.content| {
      PartCarries(v.etag, Some(v.lastModified), start, |v.content|, [v.content[start]]);
      assert v.content[start..start + 1] == [v.content[start]];
    } else {
      UnsatisfiedRoundTrip(|v.content|);
    }
  }

  lemma OvernightServes()
    ensures ServesVersions(Overnight(), Monday, Tuesday, 1)
  {
    forall i: nat, start: nat, end: nat | start <= end
      ensures Sends(Serving(Monday, Tuesday, 1, i), Overnight().attempts(i, start, end), start, end)
    {
      OneByteAnswers(Serving(Monday, Tuesday, 1, i), start, end);
    }
  }

  /** Both validators change overnight, and what is played is neither version. */
  lemma PlaysNeitherVersion()
    ensures Healthy(Overnight(), EmptyStore) && ServesVersions(Overnight(), Monday, Tuesday, 1)
    ensures var session := StartDownload(Overnight(), EmptyStore);
      session.settlement == SettledReady && PlayBytes(Now(session.history)) == Some([1, 4])
  {
    OvernightServes();
    OvernightPlays();
  }

  lemma OvernightPlays()
    requires ServesVersions(Overnight(), Monday, Tuesday, 1)
    ensures var session := StartDownload(Overnight(), EmptyStore);
      session.settlement == SettledReady && PlayBytes(Now(session.history)) == Some([1, 4])
  {
    SessionOverAChange(Overnight(), Monday, Tuesday, 1);
    StoresOne();
    MixOfBoth();
  }

  lemma MixOfBoth()
    ensures Played(Monday, Tuesday, 1) == [1, 4]
  {
    assert [1 as byte, 2][..1] + [3 as byte, 4][1..] == [1, 4];
  }

  lemma StoresOne()
    ensures StoredBefore(Overnight(), 1, Start(), 0) == 1
  {
    var k := Start();
    assert OneByteOf(Monday, 0) == Always(Part("W/1", Some("Monday"), 0, 2, [1]));
    PartIsAsked(Overnight(), k, 0, "W/1", Some("Monday"), 2, [1]);
    var c := Ask(Overnight(), k, 0);
    assert StoredBefore(Overnight(), 1, Adopt(k, c), 1) == 1;
  }
}
