/**
 * One call of `startDownload` for one video, up to its settlement
 * (src/frontend/js/services/offlineService.js): claim, `runDownload`, `pauseWithError`, release.
 * Every function returns the states the store went through, so that a crash can be put
 * between any two transactions.
 */
module DownloadModel {
  import opened Common
  import opened Text
  import opened ChunkRequest
  import opened OfflineStore
  import opened ChunkLoader

  const CHUNK_BYTES := 2097152
  const MAX_SOURCE_RESTARTS := 1

  type History = h: seq<Store> | h != [] witness [EmptyStore]

  function Now(h: History): Store {
    h[|h| - 1]
  }

  /**
   * Everything a session cannot choose: which reads work, which transactions commit (numbered
   * by the states before them), what each chunk operation meets (given its number and its
   * range), and where the user aborts.
   */
  datatype Env = Env(
    me: Context,
    now: int,
    ownerReadFirst: bool,
    ownerReadAgain: bool,
    abortedAfterClaim: bool,
    metaRead: bool,
    chunksRead: bool,
    commits: nat -> bool,
    attempts: (nat, int, int) -> (nat -> Attempt),
    abortedBefore: nat -> bool,
    abortedAfter: nat -> bool,
    finalMetaRead: bool,
    finalChunksRead: bool,
    abortedAtEnd: bool,
    pauseRead: bool,
    pauseCommits: bool,
    releaseCommits: bool)

  datatype Failure = Api(error: ApiError) | Storage

  datatype End = Completed | Cancelled | Threw(failure: Failure)

  datatype Run = Run(history: History, end: End)

  /** What the download loop knows; `restarts` counts the restarts used up. */
  datatype Known = Known(
    offset: int,
    next: int,
    total: Option<int>,
    etag: Option<string>,
    etagStrong: bool,
    lastModified: Option<string>,
    restarts: nat,
    meta: Meta)

  function RangeTrouble(kind: ErrorKind): End {
    Threw(Api(ApiError(kind, 0, 0)))
  }

  /** JavaScript's `value || null` on a header. */
  function OrNull(s: Option<string>): Option<string> {
    if s == Some("") then None else s
  }

  function PositiveTotal(total: int): Option<int> {
    if IsSafeInteger(total) && total > 0 then Some(total) else None
  }

  /** The states after a transaction that should end in `next`. */
  function Commit(env: Env, h: History, next: Option<Store>): Option<History> {
    if next.Some? && env.commits(|h|) then Some(h + [next.value]) else None
  }

  // ---------------------------------------------------------------------------
  // Before the loop
  // ---------------------------------------------------------------------------

  function DefaultMeta(existing: Option<Meta>): Meta {
    if existing.None? then Meta(Downloading, 0, 0, 0, None, false, None)
    else
      var e := existing.value;
      var total := if PositiveTotal(e.totalBytes).Some? then e.totalBytes else 0;
      Meta(Downloading, total, 0, 0, OrNull(e.etag), e.etagStrong, OrNull(e.lastModified))
  }

  datatype Prepared = Resume(history: History, meta: Meta) | Stop(run: Run)

  /** Where stored records are repaired from, if they are. */
  function RepairCut(e: Meta, rows: seq<Row>): Option<int> {
    var chunks, covered := Load(rows), Covered(rows);
    if covered > 0 && (e.completedBytes > covered || (chunks != [] && e.chunkCount > |chunks|)) then Some(covered)
    else if covered == 0 && e.chunkCount > 0 then Some(0)
    else None
  }

  predicate AlreadyReady(e: Meta, rows: seq<Row>) {
    e.status == Ready && PositiveTotal(e.totalBytes).Some? && Covered(rows) == e.totalBytes && Load(rows) != []
  }

  function Repair(env: Env, h: History, cut: Option<int>): Option<History> {
    if cut.None? then Some(h) else Commit(env, h, Some(RepairTrailing(Now(h), cut.value)))
  }

  function Prepare(env: Env, h: History): Prepared {
    var s := Now(h);
    var existing := if env.metaRead then s.video else None;
    var meta := DefaultMeta(existing);
    if !env.chunksRead then Stop(Run(h, Threw(Storage)))
    else if existing.None? then Resume(h, meta)
    else
      var meta := meta.(completedBytes := Covered(s.rows), chunkCount := |Load(s.rows)|);
      var h1 := Repair(env, h, RepairCut(existing.value, s.rows));
      if h1.None? then Stop(Run(h, Threw(Storage)))
      else if AlreadyReady(existing.value, s.rows) then Stop(Run(h1.value, Completed))
      else if meta.completedBytes > 0 && meta.etag.None? && meta.lastModified.None? then
        var h2 := Repair(env, h1.value, Some(0));
        if h2.None? then Stop(Run(h1.value, Threw(Storage)))
        else Resume(h2.value, meta.(completedBytes := 0, chunkCount := 0, totalBytes := 0))
      else Resume(h1.value, meta)
  }

  function InitialKnown(meta: Meta): Known {
    Known(meta.completedBytes, meta.chunkCount, if meta.totalBytes > 0 then Some(meta.totalBytes) else None,
          meta.etag, meta.etagStrong, meta.lastModified, 0, meta)
  }

  // ---------------------------------------------------------------------------
  // The loop
  // ---------------------------------------------------------------------------

  /** The answer differs from what the known validators and total say. */
  predicate RepresentationChanged(k: Known, etag: Option<string>, lastModified: Option<string>, total: int) {
    || (k.etag.Some? && etag.Some? && etag != k.etag && (k.etagStrong || IsStrongEtag(etag)))
    || (k.etagStrong && etag.None?)
    || (k.total.Some? && k.total != Some(total))
    || (!k.etagStrong && k.lastModified.Some? && lastModified.Some? && k.lastModified != lastModified
        && (k.etag.None? || k.etag == etag || etag.None?))
  }

  function ResetMeta(total: int, etag: Option<string>, lastModified: Option<string>): Meta {
    var total := if PositiveTotal(total).Some? then total else 0;
    Meta(Downloading, total, 0, 0, OrNull(etag), IsStrongEtag(etag), OrNull(lastModified))
  }

  function AfterRestart(k: Known, meta: Meta): Known {
    var total := if meta.totalBytes > 0 then Some(meta.totalBytes) else None;
    Known(0, 0, total, meta.etag, meta.etagStrong, meta.lastModified, k.restarts + 1, meta)
  }

  function Adopt(k: Known, c: Fetched): Known
    requires c.Chunk?
  {
    var etag := if c.etag.Some? then c.etag else k.etag;
    var strong := if c.etag.Some? then IsStrongEtag(c.etag) else k.etagStrong;
    var lastModified := if c.lastModified.Some? then c.lastModified else k.lastModified;
    var meta := Meta(Downloading, c.total, c.end + 1, k.next + 1, etag, strong, lastModified);
    Known(c.end + 1, k.next + 1, Some(c.total), etag, strong, lastModified, k.restarts, meta)
  }

  function RowOf(k: Known, c: Fetched): Row
    requires c.Chunk?
  {
    Row(if k.next >= 0 then k.next else 0, Some(c.start), Some(c.end), Some(c.bytes))
  }

  function RangeEnd(k: Known): int {
    var end := k.offset + CHUNK_BYTES - 1;
    if k.total.Some? && k.total.value - 1 < end then k.total.value - 1 else end
  }

  /** What comes of one chunk operation. */
  datatype Turn =
    | Ended(end: End)
    | Learned(total: int)
    | Restart(meta: Meta)
    | Keep(chunk: Fetched)
    | Confirmed(total: int)

  function RestartTurn(k: Known, total: int, etag: Option<string>, lastModified: Option<string>): Turn {
    if k.restarts >= MAX_SOURCE_RESTARTS then Ended(RangeTrouble(SourceChanged))
    else Restart(ResetMeta(total, etag, lastModified))
  }

  function Judge(k: Known, c: Fetched): Turn {
    match c
    case Aborted => Ended(Cancelled)
    case Errored(e) => Ended(Threw(Api(e)))
    case Unsatisfied(total, etag, lastModified) =>
      if k.total.None? then
        if total == 0 && k.offset == 0 then Confirmed(0)
        else if k.offset == 0 then Learned(total)
        else Ended(RangeTrouble(RangeInvalid))
      else if k.total == Some(total) then
        if k.offset == total && !RepresentationChanged(k, etag, lastModified, total) then Confirmed(total)
        else Ended(RangeTrouble(RangeInvalid))
      else RestartTurn(k, total, etag, lastModified)
    case Chunk(_, _, total, _, etag, lastModified) =>
      if RepresentationChanged(k, etag, lastModified, total) then RestartTurn(k, total, etag, lastModified)
      else Keep(c)
  }

  /** A chunk operation; the loop never asks for a negative range. */
  function Fetch(attempts: nat -> Attempt, start: int, end: int): (c: Fetched)
    ensures c.Chunk? ==>
      && 0 <= start == c.start <= c.end <= end && c.end < c.total <= MAX_SAFE_INTEGER
      && |c.bytes| == c.end - c.start + 1
    ensures c.Unsatisfied? ==> c.total <= MAX_SAFE_INTEGER
  {
    if start < 0 || end < 0 then Errored(ApiError(Permanent, 400, 0))
    else
      ChunkFits(attempts, start, end);
      RequestChunk(attempts, start, end)
  }

  function Left(k: Known): nat {
    if k.total.Some? && k.total.value > k.offset then k.total.value - k.offset else 0
  }

  function RestartsLeft(k: Known): nat {
    if k.restarts >= MAX_SOURCE_RESTARTS then 0 else MAX_SOURCE_RESTARTS - k.restarts
  }

  function Ask(env: Env, k: Known, i: nat): (c: Fetched)
    ensures c.Chunk? ==>
      && 0 <= k.offset == c.start <= c.end < c.total <= MAX_SAFE_INTEGER
      && |c.bytes| == c.end - c.start + 1
    ensures c.Unsatisfied? ==> c.total <= MAX_SAFE_INTEGER
  {
    Fetch(env.attempts(i, k.offset, RangeEnd(k)), k.offset, RangeEnd(k))
  }

  /** The loop after one pass: over, at its final check, or on to the next request. */
  datatype Pass = Halt(run: Run) | Last(history: History, known: Known) | More(history: History, known: Known)

  predicate Closer(k1: Known, k: Known) {
    || RestartsLeft(k1) < RestartsLeft(k)
    || (RestartsLeft(k1) == RestartsLeft(k) && k1.total.Some? && (k.total.None? || Left(k1) < Left(k)))
  }

  function OnePass(env: Env, h: History, k: Known, i: nat): (p: Pass)
    ensures p.Last? ==> p.known.total == Some(p.known.offset)
    ensures p.More? ==> Closer(p.known, k)
  {
    if env.abortedBefore(i) then Halt(Run(h, Cancelled))
    else if k.total.Some? && k.offset > k.total.value then Halt(Run(h, RangeTrouble(RangeInvalid)))
    else if k.total == Some(k.offset) then Last(h, k)
    else
      var c := Ask(env, k, i);
      if !c.Errored? && env.abortedAfter(i) then Halt(Run(h, Cancelled))
      else
        match Judge(k, c)
        case Ended(end) => Halt(Run(h, end))
        case Confirmed(total) => Last(h, k.(total := Some(total)))
        case Learned(total) => More(h, k.(total := Some(total)))
        case Restart(meta) =>
          var h1 := Commit(env, h, ResetForNewRepresentation(Now(h), env.me, meta));
          if h1.None? then Halt(Run(h, Threw(Storage))) else More(h1.value, AfterRestart(k, meta))
        case Keep(_) =>
          var k1 := Adopt(k, c);
          var h1 := Commit(env, h, WriteOwnedChunk(Now(h), env.me, k1.meta, RowOf(k, c)));
          if h1.None? then Halt(Run(h, Threw(Storage)))
          else if k1.total == Some(k1.offset) then Last(h1.value, k1)
          else More(h1.value, k1)
  }

  function Loop(env: Env, h: History, k: Known, i: nat): Run
    decreases RestartsLeft(k), k.total.None?, Left(k)
  {
    match OnePass(env, h, k, i)
    case Halt(run) => run
    case Last(h1, k1) => Conclude(env, h1, k1)
    case More(h1, k1) => Loop(env, h1, k1, i + 1)
  }

  /** The final check: ready only when the stored row and the stored chunks agree with the total. */
  function Conclude(env: Env, h: History, k: Known): Run
    requires k.total.Some?
  {
    var s, total := Now(h), k.total.value;
    var committed := if env.finalMetaRead then s.video else None;
    var chunks := if committed.Some? && env.finalChunksRead then Load(s.rows) else [];
    if total == 0 || (chunks != [] && |chunks| == committed.value.chunkCount && Covered(s.rows) == total) then
      var last := if committed.Some? then committed.value else k.meta;
      var h1 := Commit(env, h, Some(PutVideo(s,
        last.(status := Ready, completedBytes := total, totalBytes := total,
              chunkCount := if total == 0 then 0 else |chunks|))));
      if h1.None? then Run(h, Threw(Storage)) else Run(h1.value, Completed)
    else Run(h, RangeTrouble(RangeTotalUnknown))
  }

  // ---------------------------------------------------------------------------
  // The whole call
  // ---------------------------------------------------------------------------

  function RunDownload(env: Env, h: History): Run {
    match Prepare(env, h)
    case Stop(run) => run
    case Resume(h1, meta) =>
      var h2 := Commit(env, h1, Some(PutVideo(Now(h1), meta)));
      if h2.None? then Run(h1, Threw(Storage)) else Loop(env, h2.value, InitialKnown(meta), 0)
  }

  const BareRow := Meta(Paused, 0, 0, 0, None, false, None)

  function PauseWithError(env: Env, h: History): History {
    var latest := if env.pauseRead && Now(h).video.Some? then Now(h).video.value else BareRow;
    if env.pauseCommits then h + [PutVideo(Now(h), latest.(status := Paused))] else h
  }

  function Release(env: Env, h: History): History {
    if env.releaseCommits then h + [ReleaseClaim(Now(h), env.me)] else h
  }

  datatype Settlement = SettledReady | SettledPaused | SettledCancelled | OwnedElsewhere

  datatype Session = Session(history: History, settlement: Settlement)

  function ClaimRefused(env: Env, s: Store): bool {
    (env.ownerReadFirst || env.ownerReadAgain) && IsForeignOwner(s.owner, env.me, env.now)
  }

  function Settle(env: Env, run: Run): Session {
    match run.end
    case Completed => Session(Release(env, run.history), SettledReady)
    case Cancelled => Session(Release(env, run.history), SettledCancelled)
    case Threw(_) =>
      if env.abortedAtEnd then Session(Release(env, run.history), SettledCancelled)
      else Session(Release(env, PauseWithError(env, run.history)), SettledPaused)
  }

  function StartDownload(env: Env, s: Store): Session {
    if ClaimRefused(env, s) then Session([s], OwnedElsewhere)
    else
      var h := Commit(env, [s], Some(PutClaim(s, env.me, env.now)));
      if h.None? then Session([s], OwnedElsewhere)
      else if env.abortedAfterClaim then Session(Release(env, h.value), SettledCancelled)
      else Settle(env, RunDownload(env, h.value))
  }
}
