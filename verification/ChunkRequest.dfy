/**
 * One chunk operation of the offline downloader (src/frontend/js/services/offlineService.js):
 * a single exact range request (`fetchSingleRange`) and its bounded retries (`requestChunk`).
 */
module ChunkRequest {
  import opened Common
  import opened Text
  import opened Ranges
  import opened RangeBody

  datatype ErrorKind =
    | Offline | Timeout | Unauthorized | NotFound | RateLimited | ServerUnavailable | Permanent
    | RangeInvalid | RangeUnsupported | RangeTotalUnknown | SourceChanged

  datatype ApiError = ApiError(kind: ErrorKind, status: int, retryAfterSeconds: int)

  /** A `Content-Length` that is no number reads as -1. */
  datatype Response = Response(
    status: int,
    etag: Option<string>,
    lastModified: Option<string>,
    contentRange: Option<string>,
    contentLength: Option<int>,
    retryAfterSeconds: int,
    encoded: bool,
    enforced: bool,
    body: Option<seq<BodyEvent>>)

  datatype Exchange = Unreachable(aborted: bool, timedOut: bool) | Arrived(response: Response, abortedOnArrival: bool)

  /** One pass of the retry loop: what the network, the session gate and the abort signal do. */
  datatype Attempt = Attempt(
    abortedBefore: bool,
    exchange: Exchange,
    stillEnforced: bool,
    gateAborted: bool,
    sleepAborted: bool)

  datatype Fetched =
    | Chunk(start: nat, end: nat, total: nat, bytes: Bytes, etag: Option<string>, lastModified: Option<string>)
    | Unsatisfied(total: nat, etag: Option<string>, lastModified: Option<string>)
    | Errored(error: ApiError)
    | Aborted

  const MAX_CHUNK_ATTEMPTS := 3

  // ---------------------------------------------------------------------------
  // One fetch
  // ---------------------------------------------------------------------------

  /** `bytes S-E/` followed by a star, in any letter case. */
  predicate HidesTotal(value: string) {
    && StartsWithBytes(value)
    && value[5..] != [] && IsSpace(value[5])
    && var rest := TrimLeft(value[5..]);
       var dash := IndexOf(rest, '-');
       && 0 < dash < |rest| && AllDigits(rest[..dash])
       && var tail := rest[dash + 1..];
          |tail| >= 3 && AllDigits(tail[..|tail| - 2]) && tail[|tail| - 2..] == "/*"
  }

  function RangeFailure(status: int): Fetched {
    Errored(ApiError(RangeInvalid, status, 0))
  }

  /** What a 206 with a well-formed Content-Range amounts to. */
  function AcceptBody(r: Response, range: ContentRange): Fetched
    requires range.start <= range.end
  {
    if r.body.None? then RangeFailure(206)
    else
      match ReadBody(r.body.value, range.end - range.start + 1)
      case BodyAborted => Aborted
      case BodyTimeout => Errored(ApiError(Timeout, 0, 0))
      case BodyOffline => Errored(ApiError(Offline, 0, 0))
      case BodyInvalid => RangeFailure(0)
      case Body(bytes) =>
        if r.encoded || (r.contentLength.Some? && r.contentLength.value != |bytes|) then RangeFailure(206)
        else Chunk(range.start, range.end, range.total, bytes, r.etag, r.lastModified)
  }

  function ParsedRange(r: Response): (range: Option<ContentRange>)
    ensures range.Some? ==> range.value.start <= range.value.end < range.value.total
  {
    if r.contentRange.None? then None else ParseContentRangeValue(r.contentRange.value)
  }

  function Accept(r: Response, start: nat, end: nat): Fetched {
    var parsed := ParsedRange(r);
    if parsed.None? then
      if r.contentRange.Some? && HidesTotal(r.contentRange.value) then Errored(ApiError(RangeTotalUnknown, 206, 0))
      else RangeFailure(206)
    else if parsed.value.start != start || parsed.value.end > end then RangeFailure(206)
    else AcceptBody(r, parsed.value)
  }

  function Classify(r: Response, start: nat, end: nat): Fetched {
    if r.status == 401 && r.enforced then Errored(ApiError(Unauthorized, 401, 0))
    else if r.status == 416 then
      var total := if r.contentRange.None? then None else ParseUnsatisfiedTotal(r.contentRange.value);
      if total.None? then RangeFailure(416) else Unsatisfied(total.value, r.etag, r.lastModified)
    else if r.status == 200 then Errored(ApiError(RangeUnsupported, 200, 0))
    else if r.status == 404 then Errored(ApiError(NotFound, 404, 0))
    else if r.status == 429 then Errored(ApiError(RateLimited, 429, r.retryAfterSeconds))
    else if r.status == 502 || r.status == 503 || r.status == 504 then
      Errored(ApiError(ServerUnavailable, r.status, r.retryAfterSeconds))
    else if r.status != 206 then
      Errored(ApiError(if 400 <= r.status < 500 then Permanent else ServerUnavailable, r.status, 0))
    else Accept(r, start, end)
  }

  function FetchSingleRange(x: Exchange, start: nat, end: nat): Fetched {
    match x
    case Unreachable(aborted, timedOut) =>
      if aborted then Aborted else Errored(ApiError(if timedOut then Timeout else Offline, 0, 0))
    case Arrived(response, aborted) => if aborted then Aborted else Classify(response, start, end)
  }

  // ---------------------------------------------------------------------------
  // Retries
  // ---------------------------------------------------------------------------

  predicate IsTransient(e: ApiError) {
    || e.kind == Offline
    || e.kind == Timeout
    || (e.kind == ServerUnavailable && e.status >= 500)
    || (e.kind == RateLimited && e.retryAfterSeconds <= 30)
  }

  /** What one pass of the loop sees. */
  datatype Pass = Pass(
    abortedBefore: bool,
    fetched: Fetched,
    stillEnforced: bool,
    gateAborted: bool,
    sleepAborted: bool)

  function Observe(a: Attempt, start: nat, end: nat): Pass {
    Pass(a.abortedBefore, FetchSingleRange(a.exchange, start, end), a.stillEnforced, a.gateAborted, a.sleepAborted)
  }

  function Passes(attempts: nat -> Attempt, start: nat, end: nat): nat -> Pass {
    (i: nat) => Observe(attempts(i), start, end)
  }

  /** Where the retry loop ends when its next pass is number `i`. */
  function Request(passes: nat -> Pass, i: nat, attempt: nat, authRetried: bool): Fetched
    requires attempt < MAX_CHUNK_ATTEMPTS
    decreases MAX_CHUNK_ATTEMPTS - attempt, !authRetried
  {
    var p := passes(i);
    if p.abortedBefore then Aborted
    else if !p.fetched.Errored? then p.fetched
    else if p.fetched.error.kind == Unauthorized then
      if authRetried || !p.stillEnforced then p.fetched
      else if p.gateAborted then Aborted
      else Request(passes, i + 1, attempt, true)
    else if !IsTransient(p.fetched.error) || p.fetched.error.retryAfterSeconds > 30 then p.fetched
    else if attempt + 1 >= MAX_CHUNK_ATTEMPTS then p.fetched
    else if p.sleepAborted then Aborted
    else Request(passes, i + 1, attempt + 1, authRetried)
  }

  function RequestChunk(attempts: nat -> Attempt, start: nat, end: nat): Fetched {
    Request(Passes(attempts, start, end), 0, 0, false)
  }

  /** The loop; `fetches` and `logins` count requests sent and waits for a re-login. */
  method RunRequest(attempts: nat -> Attempt, start: nat, end: nat)
    returns (r: Fetched, ghost fetches: nat, ghost logins: nat)
    ensures r == RequestChunk(attempts, start, end)
    ensures fetches <= 4 && logins <= 1
  {
    var authRetried := false;
    var attempt := 0;
    var i := 0;
    fetches, logins := 0, 0;
    var passes := Passes(attempts, start, end);
    while true
      invariant 0 <= attempt < MAX_CHUNK_ATTEMPTS && 0 <= i
      invariant fetches == attempt + logins && logins == (if authRetried then 1 else 0)
      invariant Request(passes, i, attempt, authRetried) == RequestChunk(attempts, start, end)
      decreases MAX_CHUNK_ATTEMPTS - attempt, !authRetried
    {
      var p := passes(i);
      if p.abortedBefore {
        return Aborted, fetches, logins;
      }
      r := p.fetched;
      i, fetches := i + 1, fetches + 1;
      if !r.Errored? {
        return;
      }
      if r.error.kind == Unauthorized {
        if authRetried || !p.stillEnforced {
          return;
        }
        authRetried, logins := true, logins + 1;
        if p.gateAborted {
          return Aborted, fetches, logins;
        }
      } else {
        if !IsTransient(r.error) || r.error.retryAfterSeconds > 30 || attempt >= MAX_CHUNK_ATTEMPTS - 1 {
          return;
        }
        if p.sleepAborted {
          return Aborted, fetches, logins;
        }
        attempt := attempt + 1;
      }
    }
  }

  // ---------------------------------------------------------------------------
  // When one fetch succeeds
  // ---------------------------------------------------------------------------

  /** A 206 whose Content-Range names `range`, and whose body is that many bytes and comes in whole. */
  ghost predicate Carries(r: Response, range: ContentRange, bytes: Bytes) {
    && range.start <= range.end
    && r.status == 206
    && r.contentRange.Some? && ParseContentRangeValue(r.contentRange.value) == Some(range)
    && r.body.Some? && ReadBody(r.body.value, range.end - range.start + 1) == Body(bytes)
    && !r.encoded
    && (r.contentLength.Some? ==> r.contentLength.value == |bytes|)
  }

  /** One fetch yields a chunk exactly for such a 206 that starts where asked and ends within what was asked. */
  lemma ChunkIff(r: Response, start: nat, end: nat)
    ensures forall range: ContentRange, bytes ::
      FetchSingleRange(Arrived(r, false), start, end) ==
        Chunk(range.start, range.end, range.total, bytes, r.etag, r.lastModified) <==>
      Carries(r, range, bytes) && range.start == start && range.end <= end
    ensures FetchSingleRange(Arrived(r, false), start, end).Chunk? <==>
      exists range, bytes :: Carries(r, range, bytes) && range.start == start && range.end <= end
  {
    var c := FetchSingleRange(Arrived(r, false), start, end);
    if c.Chunk? {
      var range := ParsedRange(r).value;
      assert Carries(r, range, c.bytes);
    }
  }

  lemma AcceptYieldsNoLength(r: Response, start: nat, end: nat)
    ensures !Accept(r, start, end).Unsatisfied?
  {
  }

  /** It yields a length exactly for a 416 whose Content-Range tells one. */
  lemma UnsatisfiedIff(r: Response, start: nat, end: nat)
    ensures forall total: nat ::
      FetchSingleRange(Arrived(r, false), start, end) == Unsatisfied(total, r.etag, r.lastModified) <==>
      r.status == 416 && r.contentRange.Some? && ParseUnsatisfiedTotal(r.contentRange.value) == Some(total)
    ensures FetchSingleRange(Arrived(r, false), start, end).Unsatisfied? <==>
      r.status == 416 && r.contentRange.Some? && ParseUnsatisfiedTotal(r.contentRange.value).Some?
  {
    AcceptYieldsNoLength(r, start, end);
    if r.status == 416 && r.contentRange.Some? {
      assert Classify(r, start, end) ==
        var total := ParseUnsatisfiedTotal(r.contentRange.value);
        if total.None? then RangeFailure(416) else Unsatisfied(total.value, r.etag, r.lastModified);
    }
  }

  // ---------------------------------------------------------------------------
  // When a chunk operation succeeds
  // ---------------------------------------------------------------------------

  predicate LoginNeeded(p: Pass) {
    p.fetched.Errored? && p.fetched.error.kind == Unauthorized
  }

  /** A pass that may be followed by another. */
  predicate Retryable(p: Pass) {
    && !p.abortedBefore && p.fetched.Errored?
    && if LoginNeeded(p) then p.stillEnforced && !p.gateAborted
       else IsTransient(p.fetched.error) && p.fetched.error.retryAfterSeconds <= 30 && !p.sleepAborted
  }

  /** The body of an acceptable 206 stops short for want of time or of a connection. */
  predicate BreaksOff(r: Response, start: nat, end: nat) {
    && r.status == 206 && r.body.Some?
    && r.contentRange.Some? && ParseContentRangeValue(r.contentRange.value).Some?
    && var range := ParseContentRangeValue(r.contentRange.value).value;
       && range.start == start <= range.end <= end
       && (ReadBody(r.body.value, range.end - start + 1) == BodyTimeout ||
           ReadBody(r.body.value, range.end - start + 1) == BodyOffline)
  }

  /** A server in trouble, and not for longer than the loop would wait. */
  predicate ServerTrouble(r: Response) {
    || (r.status == 429 && r.retryAfterSeconds <= 30)
    || ((r.status == 502 || r.status == 503 || r.status == 504) && r.retryAfterSeconds <= 30)
    || (r.status >= 500 && r.status != 502 && r.status != 503 && r.status != 504)
  }

  /** No answer in time, a lost connection, or a server in trouble. */
  predicate WorthRepeating(x: Exchange, start: nat, end: nat) {
    match x
    case Unreachable(aborted, _) => !aborted
    case Arrived(r, aborted) => !aborted && (BreaksOff(r, start, end) || ServerTrouble(r))
  }

  /** A refusal that a new login may lift. */
  predicate LoginMayHelp(x: Exchange) {
    x.Arrived? && !x.abortedOnArrival && x.response.status == 401 && x.response.enforced
  }

  /** An error after which the loop waits and asks again. */
  predicate Passing(c: Fetched) {
    c.Errored? && c.error.kind != Unauthorized && IsTransient(c.error) && c.error.retryAfterSeconds <= 30
  }

  lemma AcceptPasses(r: Response, start: nat, end: nat)
    requires r.status == 206
    ensures Passing(Accept(r, start, end)) <==> BreaksOff(r, start, end)
    ensures !(Accept(r, start, end).Errored? && Accept(r, start, end).error.kind == Unauthorized)
  {
    var parsed := ParsedRange(r);
    if parsed.Some? && parsed.value.start == start && parsed.value.end <= end && r.body.Some? {
      assert Accept(r, start, end) == AcceptBody(r, parsed.value);
    }
  }

  lemma ClassifyPasses(r: Response, start: nat, end: nat)
    ensures Passing(Classify(r, start, end)) <==> BreaksOff(r, start, end) || ServerTrouble(r)
    ensures Classify(r, start, end).Errored? && Classify(r, start, end).error.kind == Unauthorized <==>
      r.status == 401 && r.enforced
  {
    if r.status == 206 {
      AcceptPasses(r, start, end);
    }
  }

  /**
   * Which attempts may be followed by another: a 401 while sessions are enforced, unless the
   * operation is aborted at the login; and network or server trouble, unless aborted in the wait.
   */
  lemma RepeatedIff(a: Attempt, start: nat, end: nat)
    ensures Retryable(Observe(a, start, end)) <==>
      && !a.abortedBefore
      && ((LoginMayHelp(a.exchange) && a.stillEnforced && !a.gateAborted) ||
          (WorthRepeating(a.exchange, start, end) && !a.sleepAborted))
    ensures LoginNeeded(Observe(a, start, end)) <==> LoginMayHelp(a.exchange)
  {
    var p := Observe(a, start, end);
    assert Retryable(p) <==>
      && !p.abortedBefore
      && ((LoginNeeded(p) && p.stillEnforced && !p.gateAborted) || (Passing(p.fetched) && !p.sleepAborted));
    if a.exchange.Arrived? {
      ClassifyPasses(a.exchange.response, start, end);
    }
  }

  function Logins(passes: nat -> Pass, n: nat): (k: nat)
    ensures k <= n
  {
    if n == 0 then 0 else Logins(passes, n - 1) + if LoginNeeded(passes(n - 1)) then 1 else 0
  }

  /** The first `n` passes all ask for another, with at most one login and two transient failures among them. */
  ghost predicate WithinBudget(passes: nat -> Pass, n: nat) {
    && (forall j: nat :: j < n ==> Retryable(passes(j)))
    && Logins(passes, n) <= 1
    && n - Logins(passes, n) < MAX_CHUNK_ATTEMPTS
  }

  lemma {:induction false} RequestSkips(passes: nat -> Pass, n: nat)
    requires WithinBudget(passes, n)
    ensures Request(passes, 0, 0, false) == Request(passes, n, n - Logins(passes, n), Logins(passes, n) == 1)
  {
    if n > 0 {
      RequestSkips(passes, n - 1);
      assert Retryable(passes(n - 1));
    }
  }

  ghost predicate EndsAt(passes: nat -> Pass, n: nat, r: Fetched) {
    WithinBudget(passes, n) && !passes(n).abortedBefore && passes(n).fetched == r
  }

  lemma {:induction false} RequestStops(passes: nat -> Pass, n: nat) returns (m: nat)
    requires WithinBudget(passes, n)
    requires var r := Request(passes, 0, 0, false); r.Chunk? || r.Unsatisfied?
    ensures EndsAt(passes, m, Request(passes, 0, 0, false))
    decreases 4 - n
  {
    RequestSkips(passes, n);
    m := n;
    if passes(n).fetched.Errored? {
      m := RequestStops(passes, n + 1);
    }
  }

  /**
   * A chunk operation answers `r` exactly when some fetch answers `r` after passes that were
   * all worth repeating, at most one of them for a login and at most two for transient trouble.
   */
  lemma SuccessIff(attempts: nat -> Attempt, start: nat, end: nat, r: Fetched)
    requires r.Chunk? || r.Unsatisfied?
    ensures RequestChunk(attempts, start, end) == r <==>
      exists n: nat :: n < 4 && EndsAt(Passes(attempts, start, end), n, r)
  {
    var passes := Passes(attempts, start, end);
    if RequestChunk(attempts, start, end) == r {
      var m := RequestStops(passes, 0);
    }
    forall n: nat | n < 4 && EndsAt(passes, n, r) ensures RequestChunk(attempts, start, end) == r {
      RequestSkips(passes, n);
    }
  }

  // ---------------------------------------------------------------------------
  // A server of known content
  // ---------------------------------------------------------------------------

  /** The range asked for, or a first part of it, out of `content`; past its end a 416 that tells its length. */
  ghost predicate PartOf(content: Bytes, r: Response, start: nat, end: nat) {
    if start < |content| then
      exists range: ContentRange, bytes :: Carries(r, range, bytes) &&
        range.start == start && range.end <= end && range.end < range.total == |content| &&
        bytes == content[start..range.end + 1]
    else r.status == 416 && r.contentRange.Some? && ParseUnsatisfiedTotal(r.contentRange.value) == Some(|content|)
  }

  /** After `n` attempts that are worth repeating, the next one brings `r`. */
  ghost predicate BringsAt(attempts: nat -> Attempt, n: nat, r: Response, start: nat, end: nat) {
    && WithinBudget(Passes(attempts, start, end), n)
    && !attempts(n).abortedBefore && attempts(n).exchange == Arrived(r, false)
  }

  ghost predicate Brings(attempts: nat -> Attempt, r: Response, start: nat, end: nat) {
    exists n: nat :: BringsAt(attempts, n, r, start, end)
  }

  /** What the chunk operation yields then. */
  ghost predicate YieldsPart(content: Bytes, r: Response, c: Fetched, start: nat, end: nat) {
    if start < |content| then
      && c.Chunk? && c.start == start <= c.end <= end && c.end < |content| == c.total
      && c.bytes == content[c.start..c.end + 1] && c.etag == r.etag && c.lastModified == r.lastModified
    else c == Unsatisfied(|content|, r.etag, r.lastModified)
  }

  lemma PartIsYielded(attempts: nat -> Attempt, content: Bytes, r: Response, start: nat, end: nat)
    requires Brings(attempts, r, start, end) && PartOf(content, r, start, end)
    ensures YieldsPart(content, r, RequestChunk(attempts, start, end), start, end)
  {
    PartIsFetched(content, r, start, end);
    BroughtIsYielded(attempts, r, start, end);
  }

  /** The operation yields what it makes of the response. */
  lemma BroughtIsYielded(attempts: nat -> Attempt, r: Response, start: nat, end: nat)
    requires Brings(attempts, r, start, end) && !FetchSingleRange(Arrived(r, false), start, end).Errored?
    ensures RequestChunk(attempts, start, end) == FetchSingleRange(Arrived(r, false), start, end)
  {
    var n: nat :| BringsAt(attempts, n, r, start, end);
    EndsWith(Passes(attempts, start, end), n, FetchSingleRange(Arrived(r, false), start, end));
  }

  lemma EndsWith(passes: nat -> Pass, n: nat, c: Fetched)
    requires EndsAt(passes, n, c) && !c.Errored?
    ensures Request(passes, 0, 0, false) == c
  {
    RequestSkips(passes, n);
  }

  lemma PartIsFetched(content: Bytes, r: Response, start: nat, end: nat)
    requires PartOf(content, r, start, end)
    ensures YieldsPart(content, r, FetchSingleRange(Arrived(r, false), start, end), start, end)
  {
    if start < |content| {
      ChunkIff(r, start, end);
    } else {
      UnsatisfiedIff(r, start, end);
    }
  }

  // ---------------------------------------------------------------------------
  // What a chunk holds
  // ---------------------------------------------------------------------------

  /** The bytes behind each ETag. */
  type Library = string -> Bytes

  predicate IsStrongEtag(etag: Option<string>) {
    && etag.Some? && etag.value != ""
    && !(|etag.value| >= 2 && (etag.value[0] == 'W' || etag.value[0] == 'w') && etag.value[1] == '/')
  }

  /** Strong is every ETag but the empty one and those that begin with `W/`, in either case. */
  lemma StrongEtagIff(etag: string)
    ensures IsStrongEtag(Some(etag)) <==> etag != "" && !exists rest :: etag == "W/" + rest || etag == "w/" + rest
  {
    if |etag| >= 2 && etag[1] == '/' && (etag[0] == 'W' || etag[0] == 'w') {
      var rest := etag[2..];
      assert etag == "W/" + rest || etag == "w/" + rest;
    }
  }

  /**
   * A 206 carries a strong ETag; its Content-Range states that representation's length, and
   * whatever data it sends are that representation's bytes from the start of the range on.
   */
  ghost predicate TruthfulResponse(library: Library, r: Response) {
    r.status == 206 ==>
      && IsStrongEtag(r.etag)
      && var parsed := ParsedRange(r);
         parsed.Some? ==>
           && parsed.value.total == |library(r.etag.value)|
           && (r.body.Some? ==> AllData(r.body.value) <= library(r.etag.value)[parsed.value.start..])
  }

  ghost predicate TruthfulAttempts(library: Library, attempts: nat -> Attempt) {
    forall i: nat :: attempts(i).exchange.Arrived? ==> TruthfulResponse(library, attempts(i).exchange.response)
  }

  /** `bytes` are `[start, end]` of what the strong ETag names, and `total` is its length. */
  ghost predicate TrueChunk(library: Library, c: Fetched) {
    && c.Chunk? && IsStrongEtag(c.etag)
    && c.start <= c.end < c.total == |library(c.etag.value)|
    && c.bytes == library(c.etag.value)[c.start..c.end + 1]
  }

  lemma FetchIsExact(library: Library, x: Exchange, start: nat, end: nat)
    requires x.Arrived? ==> TruthfulResponse(library, x.response)
    ensures var c := FetchSingleRange(x, start, end);
      c.Chunk? ==> TrueChunk(library, c) && c.start == start && c.end <= end
  {
    var c := FetchSingleRange(x, start, end);
    if c.Chunk? {
      var r := x.response;
      var n := BodyIsDelivered(r.body.value, c.end - c.start + 1);
      DataPrefix(r.body.value, n);
    }
  }

  /** A 416 that names an ETag states that representation's length. */
  ghost predicate TellsLength(library: Library, r: Response) {
    r.status == 416 && r.etag.Some? && r.etag != Some("") && r.contentRange.Some? ==>
      var total := ParseUnsatisfiedTotal(r.contentRange.value);
      total.Some? ==> total.value == |library(r.etag.value)|
  }

  ghost predicate TellingAttempts(library: Library, attempts: nat -> Attempt) {
    forall i: nat :: attempts(i).exchange.Arrived? ==> TellsLength(library, attempts(i).exchange.response)
  }

  ghost predicate TrueLength(library: Library, c: Fetched) {
    c.Unsatisfied? && c.etag.Some? && c.etag != Some("") ==> c.total == |library(c.etag.value)|
  }

  lemma FetchTellsLength(library: Library, x: Exchange, start: nat, end: nat)
    requires x.Arrived? ==> TellsLength(library, x.response)
    ensures TrueLength(library, FetchSingleRange(x, start, end))
  {
  }

  lemma LengthIsTold(library: Library, attempts: nat -> Attempt, start: nat, end: nat)
    requires TellingAttempts(library, attempts)
    ensures TrueLength(library, RequestChunk(attempts, start, end))
  {
    if RequestChunk(attempts, start, end).Unsatisfied? {
      var n := AnswerOfFetch(attempts, start, end);
      FetchTellsLength(library, attempts(n).exchange, start, end);
    }
  }

  lemma FetchFits(x: Exchange, start: nat, end: nat)
    ensures var c := FetchSingleRange(x, start, end);
      c.Chunk? ==>
        && c.start == start <= c.end <= end && c.end < c.total <= MAX_SAFE_INTEGER
        && |c.bytes| == c.end - c.start + 1
    ensures var c := FetchSingleRange(x, start, end); c.Unsatisfied? ==> c.total <= MAX_SAFE_INTEGER
  {
    if x.Arrived? && !x.abortedOnArrival {
      var r, c := x.response, FetchSingleRange(x, start, end);
      ChunkIff(r, start, end);
      UnsatisfiedIff(r, start, end);
      if c.Chunk? {
        var range, bytes :| Carries(r, range, bytes) && range.start == start && range.end <= end;
        var n := BodyIsDelivered(r.body.value, range.end - range.start + 1);
      }
    }
  }

  /** A successful chunk operation answers with one of its fetches. */
  lemma AnswerOfFetch(attempts: nat -> Attempt, start: nat, end: nat) returns (n: nat)
    requires var c := RequestChunk(attempts, start, end); c.Chunk? || c.Unsatisfied?
    ensures RequestChunk(attempts, start, end) == FetchSingleRange(attempts(n).exchange, start, end)
  {
    n := RequestStops(Passes(attempts, start, end), 0);
  }

  /** From a truthful server, whatever the retries, a chunk is exactly the bytes it claims to be. */
  lemma ChunkIsExact(library: Library, attempts: nat -> Attempt, start: nat, end: nat)
    requires TruthfulAttempts(library, attempts)
    ensures var c := RequestChunk(attempts, start, end);
      c.Chunk? ==> TrueChunk(library, c) && c.start == start && c.end <= end
  {
    if RequestChunk(attempts, start, end).Chunk? {
      var n := AnswerOfFetch(attempts, start, end);
      FetchIsExact(library, attempts(n).exchange, start, end);
    }
  }

  /** Against any server at all a chunk starts where asked, ends within what was asked and has the size it states. */
  lemma ChunkFits(attempts: nat -> Attempt, start: nat, end: nat)
    ensures var c := RequestChunk(attempts, start, end);
      c.Chunk? ==>
        && c.start == start <= c.end <= end && c.end < c.total <= MAX_SAFE_INTEGER
        && |c.bytes| == c.end - c.start + 1
    ensures var c := RequestChunk(attempts, start, end); c.Unsatisfied? ==> c.total <= MAX_SAFE_INTEGER
  {
    var c := RequestChunk(attempts, start, end);
    if c.Chunk? || c.Unsatisfied? {
      var n := AnswerOfFetch(attempts, start, end);
      FetchFits(attempts(n).exchange, start, end);
    }
  }
}
