/** Sessions against a server that follows a script, from which concrete runs are put together. */
module ScriptedSessions {
  import opened Common
  import opened Text
  import opened Ranges
  import opened RangeBody
  import opened ChunkRequest
  import opened OfflineStore
  import opened DownloadModel
  import opened DownloadExact

  /** A server that answers everything with `response`. */
  function Always(response: Response): nat -> Attempt {
    (n: nat) => Attempt(false, Arrived(response, false), false, false, false)
  }

  /** Everything works but reads of the ownership and, unless `metaRead`, of the metadata row. */
  function SessionWith(me: Context, metaRead: bool, attempts: (nat, int, int) -> (nat -> Attempt)): Env {
    Env(me, 0, false, false, false, metaRead, true, (n: nat) => true, attempts, (n: nat) => false, (n: nat) => false,
        true, true, false, true, true, true)
  }

  lemma AlwaysAnswers(r: Response, start: nat, end: nat)
    requires var f := Classify(r, start, end); f.Errored? ==> f.error.kind == NotFound
    ensures RequestChunk(Always(r), start, end) == Classify(r, start, end)
  {
    var a := Attempt(false, Arrived(r, false), false, false, false);
    assert Always(r)(0) == a;
    assert FetchSingleRange(a.exchange, start, end) == Classify(r, start, end);
    var p := Passes(Always(r), start, end)(0);
    assert p == Observe(a, start, end);
  }

  // ---------------------------------------------------------------------------
  // Answers
  // ---------------------------------------------------------------------------

  /** A body that brings `bytes` in one read, and then ends. */
  function Whole(bytes: Bytes): seq<BodyEvent> {
    [BodyEvent(false, false, Data(bytes), false, false), BodyEvent(false, false, Done, false, false)]
  }

  /** A 206 with `bytes`, which stand at `position`. */
  function Part(etag: string, lastModified: Option<string>, position: nat, total: nat, bytes: Bytes): Response
    requires bytes != []
  {
    var contentRange := FormatContentRange(position, position + |bytes| - 1, Some(total));
    Response(206, Some(etag), lastModified, Some(contentRange), None, 0, false, false, Some(Whole(bytes)))
  }

  const Gone := Response(404, None, None, None, None, 0, false, false, None)

  lemma WholeBody(bytes: Bytes)
    requires bytes != []
    ensures ReadBody(Whole(bytes), |bytes|) == Body(bytes) && AllData(Whole(bytes)) == bytes
  {
    var events := Whole(bytes);
    assert events[1..][0].read == Done && events[1..][1..] == [];
    assert [] + bytes == bytes;
    assert AllData(events[1..]) == [];
  }

  lemma PartParses(etag: string, lastModified: Option<string>, position: nat, total: nat, bytes: Bytes)
    requires bytes != [] && position + |bytes| <= total <= MAX_SAFE_INTEGER
    ensures ParsedRange(Part(etag, lastModified, position, total, bytes)) ==
      Some(ContentRange(position, position + |bytes| - 1, total))
  {
    ContentRangeRoundTrip(position, position + |bytes| - 1, total);
  }

  lemma PartCarries(etag: string, lastModified: Option<string>, position: nat, total: nat, bytes: Bytes)
    requires bytes != [] && position + |bytes| <= total <= MAX_SAFE_INTEGER
    ensures Carries(Part(etag, lastModified, position, total, bytes),
                    ContentRange(position, position + |bytes| - 1, total), bytes)
  {
    PartParses(etag, lastModified, position, total, bytes);
    WholeBody(bytes);
  }

  lemma AlwaysBrings(r: Response, start: nat, end: nat)
    ensures Brings(Always(r), r, start, end)
  {
    assert Always(r)(0) == Attempt(false, Arrived(r, false), false, false, false);
    assert BringsAt(Always(r), 0, r, start, end);
  }

  lemma PartArrives(etag: string, lastModified: Option<string>, position: nat, total: nat, bytes: Bytes, end: nat)
    requires bytes != [] && position + |bytes| <= total <= MAX_SAFE_INTEGER && position + |bytes| - 1 <= end
    ensures RequestChunk(Always(Part(etag, lastModified, position, total, bytes)), position, end) ==
      Chunk(position, position + |bytes| - 1, total, bytes, Some(etag), lastModified)
  {
    var r := Part(etag, lastModified, position, total, bytes);
    PartParses(etag, lastModified, position, total, bytes);
    WholeBody(bytes);
    assert Classify(r, position, end) ==
      Chunk(position, position + |bytes| - 1, total, bytes, Some(etag), lastModified);
    AlwaysAnswers(r, position, end);
  }

  /** Such an answer is truthful about a strong ETag whose representation has these bytes and that length. */
  lemma PartIsTruthful(library: Library, etag: string, lastModified: Option<string>, position: nat, bytes: Bytes)
    requires IsStrongEtag(Some(etag)) && |library(etag)| <= MAX_SAFE_INTEGER
    requires bytes != [] && position + |bytes| <= |library(etag)|
    requires library(etag)[position..position + |bytes|] == bytes
    ensures var r := Part(etag, lastModified, position, |library(etag)|, bytes);
      TruthfulResponse(library, r) && TellsLength(library, r)
  {
    PartParses(etag, lastModified, position, |library(etag)|, bytes);
    WholeBody(bytes);
    assert library(etag)[position..][..|bytes|] == bytes;
  }

  lemma PartIsAsked(env: Env, k: Known, i: nat, etag: string, lastModified: Option<string>, total: nat, bytes: Bytes)
    requires bytes != [] && 0 <= k.offset && k.offset + |bytes| <= total <= MAX_SAFE_INTEGER
    requires k.offset + |bytes| - 1 <= RangeEnd(k)
    requires env.attempts(i, k.offset, RangeEnd(k)) == Always(Part(etag, lastModified, k.offset, total, bytes))
    ensures Ask(env, k, i) ==
      Chunk(k.offset, k.offset + |bytes| - 1, total, bytes, Some(etag), lastModified)
  {
    PartArrives(etag, lastModified, k.offset, total, bytes, RangeEnd(k));
  }

  lemma GoneAnswers(start: nat, end: nat)
    ensures RequestChunk(Always(Gone), start, end) == Errored(ApiError(NotFound, 404, 0))
  {
    assert Classify(Gone, start, end) == Errored(ApiError(NotFound, 404, 0));
    AlwaysAnswers(Gone, start, end);
  }

  // ---------------------------------------------------------------------------
  // Settlement
  // ---------------------------------------------------------------------------

  predicate Scripted(env: Env) {
    && !env.ownerReadFirst && !env.ownerReadAgain && !env.abortedAfterClaim && env.commits(1) && !env.abortedAtEnd
    && env.pauseRead && env.pauseCommits && env.releaseCommits
  }

  lemma RunsLoop(env: Env, h: History, h1: History, meta: Meta)
    requires Prepare(env, h) == Resume(h1, meta) && env.commits(|h1|)
    ensures RunDownload(env, h) == Loop(env, h1 + [PutVideo(Now(h1), meta)], InitialKnown(meta), 0)
  {
  }

  /** The states up to the loop's run, and what the settlement adds to them. */
  lemma SettlesReady(env: Env, s: Store, h: History)
    requires Scripted(env) && h == [s] + [PutClaim(s, env.me, env.now)] && RunDownload(env, h).end == Completed
    ensures StartDownload(env, s).history == Release(env, RunDownload(env, h).history)
  {
  }

  lemma SettlesPaused(env: Env, s: Store, h: History)
    requires Scripted(env) && h == [s] + [PutClaim(s, env.me, env.now)] && RunDownload(env, h).end.Threw?
    ensures StartDownload(env, s).history == Release(env, PauseWithError(env, RunDownload(env, h).history))
  {
  }

  // ---------------------------------------------------------------------------
  // Sessions with one answer
  // ---------------------------------------------------------------------------

  /** One answer with `bytes` at `position`, and after it nothing more is found. */
  function OneAnswer(etag: string, position: nat, total: nat, bytes: Bytes): (nat, int, int) -> (nat -> Attempt)
    requires bytes != []
  {
    (i: nat, start: int, end: int) => Always(if i == 0 then Part(etag, None, position, total, bytes) else Gone)
  }

  function OneAnswerEnv(metaRead: bool, etag: string, position: nat, total: nat, bytes: Bytes): Env
    requires bytes != []
  {
    SessionWith(0, metaRead, OneAnswer(etag, position, total, bytes))
  }

  function Chunk0(bytes: Bytes): Row {
    Row(0, Some(0), Some(|bytes| - 1), Some(bytes))
  }

  function Halfway(etag: string, total: nat, bytes: Bytes): Meta {
    Meta(Downloading, total, |bytes|, 1, Some(etag), true, None)
  }

  lemma OneAnswerIsTruthful(w: World, metaRead: bool, etag: string, position: nat, bytes: Bytes)
    requires IsStrongEtag(Some(etag)) && bytes != [] && position + |bytes| <= |w.library(etag)| <= MAX_SAFE_INTEGER
    requires w.library(etag)[position..position + |bytes|] == bytes
    ensures TruthfulEnv(w, OneAnswerEnv(metaRead, etag, position, |w.library(etag)|, bytes))
  {
    PartIsTruthful(w.library, etag, None, position, bytes);
    AlwaysTruthful(w.library, Part(etag, None, position, |w.library(etag)|, bytes));
    AlwaysTruthful(w.library, Gone);
  }

  lemma AlwaysTruthful(library: Library, r: Response)
    requires TruthfulResponse(library, r) && TellsLength(library, r)
    ensures TruthfulAttempts(library, Always(r)) && TellingAttempts(library, Always(r))
  {
  }

  lemma GoneNext(env: Env, h: History, k: Known, i: nat)
    requires k.total.Some? && 0 <= k.offset < k.total.value && !env.abortedBefore(i)
    requires env.attempts(i, k.offset, RangeEnd(k)) == Always(Gone)
    ensures Loop(env, h, k, i) == Run(h, Threw(Api(ApiError(NotFound, 404, 0))))
  {
    GoneAnswers(k.offset, RangeEnd(k));
    assert Ask(env, k, i) == Errored(ApiError(NotFound, 404, 0));
    assert OnePass(env, h, k, i) == Halt(Run(h, Threw(Api(ApiError(NotFound, 404, 0)))));
  }

  lemma UnreadLoop(h: History, etag: string, total: nat, bytes: Bytes)
    requires bytes != [] && |bytes| < total <= MAX_SAFE_INTEGER && |bytes| <= CHUNK_BYTES
    requires IsStrongEtag(Some(etag)) && Owns(Now(h), 0)
    ensures Loop(OneAnswerEnv(false, etag, 0, total, bytes), h, InitialKnown(DefaultMeta(None)), 0) ==
      Run(h + [Store(Some(Halfway(etag, total, bytes)), PutRow(Now(h).rows, Chunk0(bytes)), Now(h).owner)],
          Threw(Api(ApiError(NotFound, 404, 0))))
  {
    var env, k := OneAnswerEnv(false, etag, 0, total, bytes), InitialKnown(DefaultMeta(None));
    PartIsAsked(env, k, 0, etag, None, total, bytes);
    var c := Ask(env, k, 0);
    assert Judge(k, c) == Keep(c) && RowOf(k, c) == Chunk0(bytes);
    var h1 := h + [Store(Some(Halfway(etag, total, bytes)), PutRow(Now(h).rows, Chunk0(bytes)), Now(h).owner)];
    assert OnePass(env, h, k, 0) == More(h1, Adopt(k, c));
    GoneNext(env, h1, Adopt(k, c), 1);
  }

  /** From any store: an unread row is replaced, the first chunk is put under key 0, and the rest stays. */
  lemma UnreadSession(s: Store, etag: string, total: nat, bytes: Bytes)
    requires bytes != [] && |bytes| < total <= MAX_SAFE_INTEGER && |bytes| <= CHUNK_BYTES
    requires IsStrongEtag(Some(etag))
    ensures Now(StartDownload(OneAnswerEnv(false, etag, 0, total, bytes), s).history) ==
      Store(Some(Halfway(etag, total, bytes).(status := Paused)), PutRow(s.rows, Chunk0(bytes)), None)
  {
    var env, h := OneAnswerEnv(false, etag, 0, total, bytes), [s] + [PutClaim(s, 0, 0)];
    assert Prepare(env, h) == Resume(h, DefaultMeta(None));
    RunsLoop(env, h, h, DefaultMeta(None));
    UnreadLoop(h + [PutVideo(Now(h), DefaultMeta(None))], etag, total, bytes);
    SettlesPaused(env, s, h);
  }
}
