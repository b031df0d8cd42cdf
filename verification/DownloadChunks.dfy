/** Which ranges a whole download asks for, and the records it stores. */
module DownloadChunks {
  import opened Common
  import opened Text
  import opened Ranges
  import opened RangeBody
  import opened ChunkRequest
  import opened OfflineStore
  import opened ChunkLoader
  import opened DownloadModel
  import opened DownloadTheorems

  // ---------------------------------------------------------------------------
  // Pieces of two mebibytes
  // ---------------------------------------------------------------------------

  const Mebibytes2 := 2 * 1024 * 1024

  function Least(a: int, b: int): int {
    if a < b then a else b
  }

  /** How many pieces it takes to hold `n` bytes. */
  function PieceCount(n: nat): nat {
    (n + Mebibytes2 - 1) / Mebibytes2
  }

  /** The bytes before piece `i`. */
  function Before(n: nat, i: nat): nat {
    Least(i * Mebibytes2, n)
  }

  function Piece(content: Bytes, i: nat): Row
    requires i < PieceCount(|content|)
  {
    var from, to := Before(|content|, i), Before(|content|, i + 1);
    Row(i, Some(from), Some(to - 1), Some(content[from..to]))
  }

  function Pieces(content: Bytes, m: nat): seq<Row>
    requires m <= PieceCount(|content|)
  {
    seq(m, i requires 0 <= i < m => Piece(content, i))
  }

  // ---------------------------------------------------------------------------
  // A server that sends all that is asked for
  // ---------------------------------------------------------------------------

  /** `[start, end]` of the content, or what there is of it. */
  function AskedOf(content: Bytes, start: nat, end: nat): ContentRange
    requires start < |content| && start <= end
  {
    ContentRange(start, Least(end, |content| - 1), |content|)
  }

  ghost predicate BringsAll(content: Bytes, etag: string, attempts: nat -> Attempt, start: nat, end: nat)
    requires start < |content| && start <= end
  {
    exists r :: Brings(attempts, r, start, end) && r.etag == Some(etag) &&
      Carries(r, AskedOf(content, start, end), content[start..Least(end, |content| - 1) + 1])
  }

  /** Each range that starts within the content is answered in full. */
  ghost predicate ServesInFull(env: Env, content: Bytes, etag: string) {
    forall i: nat, start: nat, end: nat :: start <= end && start < |content| ==>
      BringsAll(content, etag, env.attempts(i, start, end), start, end)
  }

  predicate IsPart(c: Fetched, content: Bytes, etag: string, start: int, end: int) {
    && c.Chunk? && 0 <= start == c.start <= c.end == end < |content| == c.total
    && c.bytes == content[start..end + 1] && c.etag == Some(etag)
  }

  lemma FullAnswer(content: Bytes, etag: string, attempts: nat -> Attempt, start: nat, end: nat)
    requires start < |content| && start <= end && BringsAll(content, etag, attempts, start, end)
    ensures IsPart(RequestChunk(attempts, start, end), content, etag, start, Least(end, |content| - 1))
  {
    var range, bytes := AskedOf(content, start, end), content[start..Least(end, |content| - 1) + 1];
    var r :| Brings(attempts, r, start, end) && r.etag == Some(etag) && Carries(r, range, bytes);
    CarriedIsChunk(r, range, bytes, start, end);
    BroughtIsYielded(attempts, r, start, end);
  }

  lemma CarriedIsChunk(r: Response, range: ContentRange, bytes: Bytes, start: nat, end: nat)
    requires Carries(r, range, bytes) && range.start == start && range.end <= end
    ensures FetchSingleRange(Arrived(r, false), start, end) ==
      Chunk(range.start, range.end, range.total, bytes, r.etag, r.lastModified)
  {
    ChunkIff(r, start, end);
  }

  // ---------------------------------------------------------------------------
  // The loop
  // ---------------------------------------------------------------------------

  /** The first `m` pieces are stored, and the loop knows as much. */
  ghost predicate Holding(env: Env, k: Known, s: Store, content: Bytes, etag: string, m: nat) {
    && m <= PieceCount(|content|)
    && Owns(s, env.me) && s.video.Some? && s.video.value.chunkCount == k.next == m == |s.rows|
    && WholeTiling(s.rows) && Load(s.rows) == Pieces(content, m)
    && k.offset == Covered(s.rows) == Before(|content|, m)
    && if m == 0 then k.total.None? && k.etag.None? && !k.etagStrong && k.lastModified.None?
       else k.total == Some(|content|) && k.etag == Some(etag) && k.etagStrong
  }

  lemma PieceFollows(content: Bytes, m: nat)
    requires Before(|content|, m) < |content|
    ensures m < PieceCount(|content|) && Before(|content|, m) == m * Mebibytes2
    ensures Before(|content|, m + 1) == Least(m * Mebibytes2 + Mebibytes2 - 1, |content| - 1) + 1
    ensures Pieces(content, m + 1) == Pieces(content, m) + [Piece(content, m)]
    ensures Before(|content|, m + 1) == |content| <==> m + 1 == PieceCount(|content|)
  {
  }

  lemma AsksForPiece(env: Env, k: Known, s: Store, content: Bytes, etag: string, m: nat, i: nat)
    requires Holding(env, k, s, content, etag, m) && k.offset < |content| <= MAX_SAFE_INTEGER
    requires ServesInFull(env, content, etag) && IsStrongEtag(Some(etag))
    ensures m < PieceCount(|content|)
    ensures IsPart(Ask(env, k, i), content, etag, k.offset, Before(|content|, m + 1) - 1)
  {
    PieceFollows(content, m);
    var start, end := k.offset, RangeEnd(k);
    assert BringsAll(content, etag, env.attempts(i, start, end), start, end);
    FullAnswer(content, etag, env.attempts(i, start, end), start, end);
  }

  lemma KeepsPiece(env: Env, k: Known, s: Store, content: Bytes, etag: string, m: nat, c: Fetched)
    requires Holding(env, k, s, content, etag, m) && m < PieceCount(|content|) && IsStrongEtag(Some(etag))
    requires IsPart(c, content, etag, k.offset, Before(|content|, m + 1) - 1)
    ensures Judge(k, c) == Keep(c) && RowOf(k, c) == Piece(content, m)
  {
  }

  lemma StoresPiece(env: Env, k: Known, s: Store, content: Bytes, etag: string, m: nat, c: Fetched)
    requires Holding(env, k, s, content, etag, m) && k.offset < |content| && m < PieceCount(|content|)
    requires IsPart(c, content, etag, k.offset, Before(|content|, m + 1) - 1) && IsStrongEtag(Some(etag))
    requires RowOf(k, c) == Piece(content, m)
    ensures var k1 := Adopt(k, c);
      Holding(env, k1, WriteOwnedChunk(s, env.me, k1.meta, RowOf(k, c)).value, content, etag, m + 1)
  {
    var row := RowOf(k, c);
    PieceFollows(content, m);
    AppendChunk(s.rows, row);
    assert row.blob.value == content[Before(|content|, m)..Before(|content|, m + 1)];
  }

  ghost predicate Done(run: Run, content: Bytes) {
    var s := Now(run.history);
    && run.end == Completed
    && |s.rows| == PieceCount(|content|) && Load(s.rows) == Pieces(content, PieceCount(|content|))
    && s.video.Some? && s.video.value.status == Ready && s.video.value.totalBytes == |content|
    && s.video.value.completedBytes == |content| && s.video.value.chunkCount == PieceCount(|content|)
  }

  lemma PassStoresPiece(env: Env, s0: Store, h: History, k: Known, content: Bytes, etag: string, m: nat, i: nat)
    requires Healthy(env, s0) && Holding(env, k, Now(h), content, etag, m) && IsStrongEtag(Some(etag))
    requires ServesInFull(env, content, etag) && k.offset < |content| <= MAX_SAFE_INTEGER
    ensures var p := OnePass(env, h, k, i);
      && !p.Halt? && Holding(env, p.known, Now(p.history), content, etag, m + 1)
      && (p.Last? <==> m + 1 == PieceCount(|content|)) && (p.Last? <==> p.known.offset == |content|)
  {
    AsksForPiece(env, k, Now(h), content, etag, m, i);
    var c := Ask(env, k, i);
    KeepsPiece(env, k, Now(h), content, etag, m, c);
    KeptPassIs(env, s0, h, k, i);
    StoresPiece(env, k, Now(h), content, etag, m, c);
    PieceFollows(content, m);
  }

  lemma {:induction false} LoopStoresPieces(env: Env, s0: Store, h: History, k: Known, content: Bytes, etag: string,
                                            m: nat, i: nat)
    requires Healthy(env, s0) && Holding(env, k, Now(h), content, etag, m) && IsStrongEtag(Some(etag))
    requires ServesInFull(env, content, etag) && k.offset < |content| <= MAX_SAFE_INTEGER
    ensures Done(Loop(env, h, k, i), content)
    decreases PieceCount(|content|) - m
  {
    PassStoresPiece(env, s0, h, k, content, etag, m, i);
    var p := OnePass(env, h, k, i);
    if p.Last? {
      ConcludesPieces(env, s0, p.history, p.known, content, etag, m + 1);
    } else {
      LoopStoresPieces(env, s0, p.history, p.known, content, etag, m + 1, i + 1);
    }
  }

  lemma ConcludesPieces(env: Env, s0: Store, h: History, k: Known, content: Bytes, etag: string, m: nat)
    requires Healthy(env, s0) && Holding(env, k, Now(h), content, etag, m) && m == PieceCount(|content|) && m > 0
    requires k.offset == |content| && |content| > 0
    ensures Done(Conclude(env, h, k), content)
  {
    assert Load(Now(h).rows) != [];
  }

  /**
   * A whole download over working storage, from a server that sends all it is asked for, stores
   * exactly the pieces of two mebibytes, under the keys from 0 on, as few as hold the content.
   */
  lemma DownloadsInPieces(env: Env, content: Bytes, etag: string)
    requires Healthy(env, EmptyStore) && ServesInFull(env, content, etag) && IsStrongEtag(Some(etag))
    requires 0 < |content| <= MAX_SAFE_INTEGER
    ensures var session := StartDownload(env, EmptyStore);
      var s := Now(session.history);
      && session.settlement == SettledReady
      && |s.rows| == PieceCount(|content|) && Load(s.rows) == Pieces(content, PieceCount(|content|))
      && s.video.Some? && s.video.value.completedBytes == s.video.value.totalBytes == |content|
      && s.video.value.chunkCount == PieceCount(|content|)
  {
    var h := [EmptyStore] + [PutClaim(EmptyStore, env.me, env.now)];
    var meta := DefaultMeta(None);
    assert Prepare(env, h) == Resume(h, meta);
    var h1 := h + [PutVideo(Now(h), meta)];
    assert Holding(env, InitialKnown(meta), Now(h1), content, etag, 0);
    LoopStoresPieces(env, EmptyStore, h1, InitialKnown(meta), content, etag, 0, 0);
  }

  /** As few as hold it: one piece fewer would not. */
  lemma FewestPieces(n: nat)
    ensures PieceCount(n) * 2097152 >= n && (n > 0 ==> (PieceCount(n) - 1) * 2097152 < n)
  {
  }
}
