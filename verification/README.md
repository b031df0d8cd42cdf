# Verification of the proxy's stateful cores

A Dafny 4.11 project that models the stateful parts of the low-bandwidth video proxy and proves
properties of them that hold over whole runs. `dafny verify dfyconfig.toml` checks everything.

## What is modelled

- **The bounded single-flight gate** (`src/services/ytdlp/queue.ts`). `GateModel` is the scheduler as a
  state machine with one step per JavaScript callback; `GateInvariant` shows what every step keeps;
  `GateTheorems` draws the whole-run consequences; `Gate` is the class over heap-allocated flights, each
  of whose methods is one step of the machine; `GateSteps` says what each callback does to whom. A flight's
  `core` promise and each caller's promise are the outcomes they were settled with. A rejection reason is
  assumed never to be `undefined`, which the source would take for success.
- **The session allowlist** (`src/services/sessionStore.ts`). `SessionDocument` is the document and its
  checks, `SessionModel` one process and one disk with a crash possible between any two steps,
  `SessionTheorems` the crash refinement, `SessionEffects` what each operation does and that a damaged
  document keeps the store closed, `SessionStore` the class. The clock does not run backwards, and
  `initialize` is called at startup or after a failure.
- **The resumable offline downloader** (`src/frontend/js/services/offlineService.js`). `RangeBody` and
  `ChunkRequest` are one bounded body and one chunk operation with its retries; `OfflineStore` and
  `ChunkLoader` are the stored records and which of them are trusted; `DownloadModel` is one call of
  `startDownload` as the list of states its transactions commit, and `Downloader` the methods that go
  through them; `DownloadExact` and `DownloadTheorems` prove what that means over any run of sessions,
  crashes and deletions; `DownloadControl` says who may start, what a cancelled session leaves and when nothing
  is fetched, `DownloadChunks` which ranges are asked for, `KeyOrder` how the records stand, `ErrorKinds` what is
  reported when no chunk comes; `FirstPut` says what the first chunk put does to any stored records, and
  `OverlappedStore`, `OverlapFinish`, `StuckDownload` and `DamagedStores` follow records that overlap through
  whole runs; `UnreadMetadata` and `UnreadPlayback` follow a metadata row that is not read, `WeakValidators`
  a source that changes under weak validators; `Ownership` lets any number of contexts interleave, and
  `SharedDownload` lets pages download in turn. `ScriptedSessions` builds the concrete sessions.
- **Byte ranges** (`src/utils/range.ts`, `src/services/youtube/streamProxy.ts`, and the client's parsers):
  `Text`, `Ranges` and `RangeGrammar`.
- **The rate limiter** (`src/middleware/rateLimit.ts`): `RateLimit`.
- **The shell manifest's module walk** (`scripts/build-shell-manifest.mjs`): `ShellManifest` and `ImportPaths`.
- **The home feed** (`src/services/youtube/trendingService.ts`): `HomeFeed` and `FeedOrder`.

## Where the code falls short of what it says

- `offlineService.js` line 1327 turns a failed read of the metadata row into an absent row while the chunks
  stay. `UnreadPlayback.SafeToRunIff`: nothing but what the ETag names is played, in this session and all later
  ones, exactly when that read works or at most one chunk is stored; `UnreadMetadata.MixesBytes` plays one byte
  of each of two representations. `UnreadMetadata.SafeIff` is the stricter form in which every state in between
  is exact too.
- Lines 1283-1284 say that a failed session keeps its partial data. When the pause cannot read the row it writes
  a bare one, without validator, and the next session deletes every chunk. `DownloadTheorems.PauseThenResumeIff`:
  it goes on at the end of what is stored exactly when the pause could read the row, could not write it, or
  nothing is stored.
- The header of `offlineService.js` says a changed Last-Modified without a strong ETag restarts the
  download. `DownloadTheorems.AcceptedIff`: not when both answers carry weak ETags that differ.
  `WeakValidators.SessionOverAChange`: a session over a source that changes once, by a server that always sends
  the range asked for, always ends ready. It plays a mixture of the two versions exactly when the length stayed
  and the weak ETag changed or Last-Modified did not; otherwise it restarts and plays the new version
  (`WeakValidators.PlaysNeitherVersion` is an input).
- A stored record that overlaps the trusted ones survives repair (`ChunkLoader.RepairIsCleanIff`), and the next
  chunk is then not trusted (`FirstPut.NextChunkTrustedIff`). `OverlapFinish.FinishesIff`: a session with working
  storage finishes such a download exactly when it puts chunks under the keys of all overlapping records. Where
  no put of the missing bytes can reach the key of a stored record, no run of sessions finishes the download
  (`OverlappedStore.NeverFinishes`), as long as they read the row, no pause replaces a row it could not read,
  and the answers are truthful and about the stored representation: a session that does not read the row, or
  meets another representation, starts anew. `DamagedStores.InterruptedNeverFinishes`: the code leaves such a
  store by itself.
- The run resumes under the key that counts the trusted chunks. Where one of them already has that key, the
  first put overwrites it, and only there (`FirstPut.FirstPutKeepsPrefixIff`); `DamagedStores.TrustedUnderNextKey`
  is such a store, left by three sessions.
- `claimOwnership` looks and writes in two transactions. `Ownership.ReplacesLiveOwnerIff`: after a readable
  look it replaces a live owner exactly when that owner has shown itself since; after an unreadable one it
  replaces whoever is there (`Ownership.UnreadableLookTakesOver`).
- The metadata row is not fenced. `Ownership.RowReappearsIff`: until a later claim a deleted video's row is
  back exactly when some context has put it since and no deletion followed. No chunk comes back.
  `SharedDownload.LateRowMixesBytes`: a row that a replaced page puts late makes a later session join two
  representations. `SharedDownload.SharedIsExact`: not while rows are put, and records repaired, only under the
  claim.
- The header of `sessionStore.ts` says memory is published only after the write; it is changed before.
  `SessionTheorems.HasAgreesWithDisk` says exactly when the two differ, and
  `SessionTheorems.AddShowsBeforeItIsDurable` that they do.
- Calling `initialize` on an open store over a document that has been damaged leaves the store open, without
  epoch or records (`SessionEffects.CorruptLoadOpensIff`); a closed one stays closed.
- The key of chunk 1000000 sorts before that of chunk 999999 (`KeyOrder.MillionComesEarly`); records are read in
  order of their start, so only ties are affected.
- `bytes=-00` passes the header parser as a suffix of length zero (`Ranges.ZeroSuffixSlipsThrough`).
- A file that `index.html` names outside `/js/`, other than a stylesheet, is not walked even when a module
  imports it (`ShellManifest.UnwalkedSeedLosesImport`). `ShellManifest.FullyClosedIff`: nothing is missing
  exactly when all that such files name is reached from the seeds through walked files.
- A limiter of `max` calls a window lets 2 * max - 1 through in one window's length, and never more
  (`RateLimit.RateBound`, `RateLimit.BoundIsTight`).

## Model

| member | source | states |
|---|---|---|
| GateInvariant.StepKeepsValid | src/services/ytdlp/queue.ts:160-400 | every callback keeps the global invariant: counters, queue, key map, waiters, timers, controllers and work conservation all fit each other |
| GateTheorems.SingleFlight | src/services/ytdlp/queue.ts:174-188 | in every reachable state a key has at most one unsettled un-aborted flight, it is the one the map holds, and the map holds no settled flight |
| GateTheorems.FinalizerSparesReplacement | src/services/ytdlp/queue.ts:336-349 | when a task settles, the key map loses the entry of that very flight and of no other |
| GateTheorems.AdmittedIsPendingPlusSettled | src/services/ytdlp/queue.ts:336-370 | over every run, callers admitted = callers waiting + callers settled, and each caller has been settled at most once |
| GateTheorems.StepAborts | src/services/ytdlp/queue.ts:242-251 | a waiting caller is rejected with AbortError in a step exactly when that step is its own signal |
| GateTheorems.SettledBy | src/services/ytdlp/queue.ts:355-370 | over every run a settled caller has AbortError if its own signal fired while it waited and otherwise its flight's outcome |
| GateTheorems.FifoWithinBounds | src/services/ytdlp/queue.ts:280-333 | `active` is the number of started unsettled tasks and at most `activeLimit`; the queue is within `queueMax`; before shutdown a non-empty queue means all slots are taken; starts follow admission order |
| GateTheorems.SlotGoesToQueueHead | src/services/ytdlp/queue.ts:372-380 | before shutdown a settled task's slot goes to the head of the queue, and to nothing else |
| GateTheorems.AbandonmentIsExact | src/services/ytdlp/queue.ts:242-268 | an active flight's controller is aborted exactly when nobody waits for it; a queued flight always has a waiter; a waiting caller's flight is un-aborted |
| GateTheorems.AbortedGainsNobody | src/services/ytdlp/queue.ts:174-183 | however the run continues, an aborted flight never gets another waiter |
| GateTheorems.CancellingOneOfSeveral | src/services/ytdlp/queue.ts:242-255 | cancelling one of several waiters changes nothing but that waiter |
| GateTheorems.ShutdownDrains | src/services/ytdlp/queue.ts:372-400 | after shutdown nothing is admitted, queued or started, no timer is armed, and each task settlement frees one slot for good |
| GateTheorems.ShutdownRejectsQueued | src/services/ytdlp/queue.ts:388-400 | shutdown rejects every waiter of every queued flight once and touches no other caller |
| GateSteps.RefusedCaller | src/services/ytdlp/queue.ts:165-172 | a `run` changes nothing exactly for a caller aborted before or after shutdown; any other gets a waiter |
| GateSteps.JoiningCaller | src/services/ytdlp/queue.ts:174-180 | a caller whose key an unsettled, un-aborted flight serves becomes one more waiter of it, and nothing else changes |
| GateSteps.NewCaller | src/services/ytdlp/queue.ts:280-308 | any other caller gets a new flight: started exactly when a slot is free; queued last with its timer armed exactly when no slot is free and the queue has room; otherwise, and only then, refused with the least number of seconds in which the queue would drain |
| GateSteps.LastWaiterLeaves | src/services/ytdlp/queue.ts:253-268 | when its last waiter leaves, a queued flight leaves the queue, which keeps its order, and an active one is aborted; nobody else notices |
| GateSteps.LateSignal | src/services/ytdlp/queue.ts:242-243 | the signal of a caller already answered changes nothing |
| GateSteps.TimeoutRejects | src/services/ytdlp/queue.ts:301-306 | the queue timer takes its flight out of the queue and rejects exactly those who wait for it with the timeout error |
| GateSteps.OutcomeIsDelivered | src/services/ytdlp/queue.ts:321-332 | a task's own outcome reaches exactly those who wait for its flight; its slot goes to the queue head, or is freed |
| GateSteps.BoundsChangeWhenIdle | src/services/ytdlp/queue.ts:143-153 | new bounds are taken exactly when the gate is open and every flight is settled |
| Gate.ConcurrencyGate.Run | src/services/ytdlp/queue.ts:160-190 | the method on heap objects is the machine's run step: refuse, join the live flight, or create, register and enqueue |
| Gate.ConcurrencyGate.CancelWaiter | src/services/ytdlp/queue.ts:242-251 | the abort handler is the machine's cancel step |
| Gate.ConcurrencyGate.TimerFires | src/services/ytdlp/queue.ts:301-306 | the queue timer's callback is the machine's timeout step |
| Gate.ConcurrencyGate.TaskSettles | src/services/ytdlp/queue.ts:321-332 | a task's settlement frees its slot, settles its flight and pumps |
| Gate.ConcurrencyGate.FinishFlight | src/services/ytdlp/queue.ts:336-359 | settling a flight's objects and the key map agrees with the machine |
| Gate.ConcurrencyGate.ForgetKey | src/services/ytdlp/queue.ts:346-349 | a settling flight drops its key only while the map leads to this very object |
| Gate.ConcurrencyGate.ReleaseWaiters | src/services/ytdlp/queue.ts:355-370 | every waiter left is settled once with the flight's outcome and none remains |
| Gate.ConcurrencyGate.AttachWaiter | src/services/ytdlp/queue.ts:217-240 | a new row for the caller, and the flight waits for it |
| Gate.ConcurrencyGate.StartFlight | src/services/ytdlp/queue.ts:310-319 | a slot and a run are counted, the timer is cleared, the flight is active |
| Gate.ConcurrencyGate.RemoveQueued | src/services/ytdlp/queue.ts:270-278 | the flight leaves the queue by its first occurrence and its timer is cleared |
| Gate.ConcurrencyGate.MaybeAbandon | src/services/ytdlp/queue.ts:253-268 | the last waiter's leaving removes queued work or aborts the running controller, as the machine does |
| Gate.ConcurrencyGate.Pump | src/services/ytdlp/queue.ts:372-380 | the loop starts queued flights as the machine does |
| Gate.ConcurrencyGate.Enqueue | src/services/ytdlp/queue.ts:280-308 | start, queue or reject as the machine does |
| Gate.ConcurrencyGate.AbortQueued | src/services/ytdlp/queue.ts:388-400 | shutdown on heap objects is the machine's shutdown step |
| Gate.ConcurrencyGate.Configure | src/services/ytdlp/queue.ts:143-153 | bounds change only while the gate is idle and open |
| SessionDocument.ApplyDocument | src/services/sessionStore.ts:285-320 | the loading loop accepts and builds exactly what the document's checks define |
| SessionDocument.Snapshot | src/services/sessionStore.ts:328-339 | the records written are the allowlist's entries, each once, in order of id |
| SessionDocument.PersistThenLoad | src/services/sessionStore.ts:285-340 | every document the store writes passes all its own load checks and rebuilds the same epoch and allowlist |
| SessionDocument.LoadIsValid | src/services/sessionStore.ts:285-320 | whatever loads is a valid epoch and an allowlist of valid records |
| SessionEffects.LoadIff | src/services/sessionStore.ts:285-320 | a document loads exactly when it is an object of version 1 with a well-formed epoch and a list of well-formed records of distinct ids, and what is loaded is that epoch and those records |
| SessionTheorems.StepKeepsInv | src/services/sessionStore.ts:125-170 | every step of process, disk, clock and crash keeps the invariant that ties memory and disk to the acknowledged operations |
| SessionTheorems.LogIsAnswers | src/services/sessionStore.ts:203-212 | the log is exactly the adds and removes answered with success, in order, plus at most one operation per crash |
| SessionTheorems.CrashRefinement | src/services/sessionStore.ts:328-366 | killed anywhere and restarted on retained storage, the unexpired allowlist is the serial fold of all acknowledged operations plus at most the one whose rename had happened |
| SessionTheorems.IdleAgreement | src/services/sessionStore.ts:134-170 | between writes memory and disk both hold exactly what was acknowledged |
| SessionTheorems.FailedWriteNeverTakesEffect | src/services/sessionStore.ts:359-365 | after a failed write, whatever is queued behind it or asked for later, nothing is answered with success, log and disk stay as they were and the store stays closed; once drained and initialized again it holds the fold of the log |
| SessionTheorems.AfterFailureOnlyAnswersCount | src/services/sessionStore.ts:203-212 | however the run goes on after a failed write, with recoveries and crashes, the log grows only by what is answered with success and by at most one operation per crash, and idle memory is its fold |
| SessionTheorems.EpochIsStable | src/services/sessionStore.ts:226-274 | on retained storage the epoch never changes |
| SessionTheorems.AddNeverEvicts | src/services/sessionStore.ts:142-158 | an add is refused exactly when the id is not live and the live allowlist is full; otherwise no live record is dropped and the cap is not passed |
| SessionTheorems.HasAgreesWithDisk | src/services/sessionStore.ts:173-178 | for an unexpired record the membership check agrees with the disk exactly when no write that changes it awaits its rename |
| SessionTheorems.AddShowsBeforeItIsDurable | src/services/sessionStore.ts:149-157 | from every idle state an add of a new record is visible before it is on disk, and a crash takes it back |
| SessionEffects.CorruptStaysClosed | src/services/sessionStore.ts:265-274 | over a document that fails a check, a store that is not open never opens, over every legal run: no answer, no write, no membership, no epoch |
| SessionEffects.CorruptionFailsStartup | src/services/sessionStore.ts:125-131 | in particular from startup on |
| SessionEffects.CorruptionFailsRecovery | src/services/sessionStore.ts:125-131 | and after a failed write, if the document has been damaged since |
| SessionEffects.CorruptLoadOpensIff | src/services/sessionStore.ts:125-131 | initializing over such a document leaves nothing loaded, and the store open exactly when it was open before |
| SessionEffects.AcceptedAtCall | src/services/sessionStore.ts:134-166 | which calls enter the chain: initialize always, add and remove of an open store, add only with a well-formed id and expiry |
| SessionEffects.FreshInstallOpens | src/services/sessionStore.ts:226-236 | without a document initializing stores the drawn epoch with no records, and then opens the store |
| SessionEffects.AddTakesEffect | src/services/sessionStore.ts:142-158 | an add to an idle open store is refused, without a write, exactly when its id is not among the unexpired records and those are 5000; otherwise memory and disk end with exactly the unexpired records and the new one, and the caller is told |
| SessionEffects.RemoveTakesEffect | src/services/sessionStore.ts:162-170 | a remove ends with exactly the other records in memory and on disk; of an absent id it is answered at once, without a write |
| SessionEffects.ServedInCallOrder | src/services/sessionStore.ts:203-212 | until a crash, operations are begun in the order of their calls and none is lost |
| SessionEffects.OneWriteAtATime | src/services/sessionStore.ts:203-212 | nothing is begun while a write is under way, and a write is that of the operation begun last |
| SessionStore.SessionStore.Add | src/services/sessionStore.ts:134-159 | the call is the machine's call step, refused exactly when unusable or malformed |
| SessionStore.SessionStore.Initialize | src/services/sessionStore.ts:125-131 | the call joins the chain whatever the state |
| SessionStore.SessionStore.Remove | src/services/sessionStore.ts:162-170 | the call is the machine's call step, refused exactly when unusable |
| SessionStore.SessionStore.WriteSnapshot | src/services/sessionStore.ts:328-340 | the document in flight is the sorted snapshot of memory under its epoch, or nothing is written for want of one |
| SessionStore.SessionStore.Has | src/services/sessionStore.ts:173-178 | the check reads memory, and only of a usable store; between writes it answers for exactly the acknowledged operations |
| SessionStore.SessionStore.Size | src/services/sessionStore.ts:191-197 | the loop counts exactly the unexpired records |
| SessionStore.SessionStore.Prune | src/services/sessionStore.ts:144-148 | the loop keeps exactly the unexpired records |
| SessionStore.SessionStore.BeginNext | src/services/sessionStore.ts:142-170 | running the head of the chain is the machine's begin step for add, remove and initialize |
| SessionStore.SessionStore.LoadFromDisk | src/services/sessionStore.ts:265-274 | a document that fails a check leaves nothing loaded |
| SessionStore.SessionStore.Rename | src/services/sessionStore.ts:356-357 | the document is replaced whole |
| SessionStore.SessionStore.Complete | src/services/sessionStore.ts:125-131 | success is answered after the rename, and initialization makes the store usable only then |
| SessionStore.SessionStore.ReadFails | src/services/sessionStore.ts:226-241 | an unreadable file rejects initialization and changes nothing else |
| SessionStore.SessionStore.WriteFails | src/services/sessionStore.ts:359-365 | a failed write marks the store unhealthy |
| Ranges.AcceptedIsSafe | src/utils/range.ts:49-96 | an accepted header names safe, ordered bounds |
| RangeGrammar.AcceptedHeaderIff | src/utils/range.ts:33-96 | a header is accepted as a given range exactly when it is `bytes` in any case, an equals sign and digits around a dash, blanks only between these, and the digits name safe bounds in order |
| RangeGrammar.AbsentIff | src/utils/range.ts:49-50 | only a missing or empty header is no range |
| RangeGrammar.ResolvesToSelection | src/utils/range.ts:104-128 | with a known size a range resolves to exactly the bytes it selects, and to none only if it selects none |
| RangeGrammar.NoHeaderNoRange | src/services/youtube/streamProxy.ts:245-252 | without a header no range is forwarded and a full body will do |
| Ranges.ForwardingPreservesMeaning | src/services/youtube/streamProxy.ts:245-269 | for a known size 416 is answered exactly for ranges that select no byte, and what is forwarded parses again and selects the same bytes; only a zero suffix differs |
| Ranges.ForwardingUnknownTotal | src/utils/range.ts:135-155 | without a known size the forwarded header parses back to the same range exactly when it is no zero suffix |
| Ranges.ZeroSuffixSlipsThrough | src/utils/range.ts:73-77 | `bytes=-00` is accepted, selects nothing and is forwarded as no range |
| Ranges.FullBodyOnlyFromByteZero | src/services/youtube/streamProxy.ts:272-278 | a 200 is let through for a range of an object of known size exactly when it is no suffix and selects byte 0, or is a suffix of length zero |
| Ranges.EarlyRejection | src/services/youtube/streamProxy.ts:219-227 | exactly malformed headers are rejected early, and the client reads the known size out of the answer |
| Ranges.ContentRangeRoundTrip | src/frontend/js/services/offlineService.js:627-639 | the client reads back exactly the well-formed ranges the server prints |
| Ranges.UnsatisfiedRoundTrip | src/frontend/js/services/offlineService.js:642-649 | the client reads back the total of a 416 |
| RangeGrammar.ContentRangeIff | src/frontend/js/services/offlineService.js:627-639 | the client reads exactly the values `bytes a-b/c` of safe numbers in order, and reads those numbers |
| RangeGrammar.TotalIff | src/frontend/js/services/offlineService.js:642-649 | of a 416 it reads exactly the values with a star and one safe number |
| RangeBody.ReadRangeBody | src/frontend/js/services/offlineService.js:707-809 | the read loop is its specification and never holds more bytes than promised |
| RangeBody.BodyIsDelivered | src/frontend/js/services/offlineService.js:743-808 | whatever disturbs the reading, a success is the promised number of bytes, all that was read, followed at once by the end |
| RangeBody.BodySucceedsIff | src/frontend/js/services/offlineService.js:743-808 | reading succeeds with given bytes exactly when they are what the reads bring before the end, they are as many as promised, and no abort, deadline or idle timer gets in the way |
| RangeBody.FirstTroubleDecides | src/frontend/js/services/offlineService.js:743-808 | the first thing that goes wrong decides the failure: abort, timeout, lost connection, early end or too many bytes |
| RangeBody.EndDecides | src/frontend/js/services/offlineService.js:775-790 | once the promised bytes are there the next read decides: the end, more bytes, a lost connection or the idle timer |
| ChunkRequest.RunRequest | src/frontend/js/services/offlineService.js:972-1008 | the retry loop is its specification, with at most four fetches and one wait for a login |
| ChunkRequest.ChunkIff | src/frontend/js/services/offlineService.js:897-951 | one fetch yields a given chunk exactly for a 206 whose Content-Range names it, starting where asked and ending within what was asked, with a body of those bytes, unencoded, and a Content-Length that is absent or equal |
| ChunkRequest.UnsatisfiedIff | src/frontend/js/services/offlineService.js:869-876 | it yields a length exactly for a 416 whose Content-Range tells one |
| ChunkRequest.RepeatedIff | src/frontend/js/services/offlineService.js:955-1010 | an attempt may be followed by another exactly after lost connections, timeouts, a body that breaks off, 429 and 5xx answers with at most 30 s to wait, and a 401 while sessions are enforced, unless aborted |
| ErrorKinds.StatusDecides | src/frontend/js/services/offlineService.js:859-901 | which status other than 206 and 416 is reported as which failure |
| ErrorKinds.PartialFailures | src/frontend/js/services/offlineService.js:902-951 | which failures a 206 without a chunk is reported as; the missing total exactly for `bytes a-b` with a star for the total |
| ChunkRequest.StrongEtagIff | src/frontend/js/services/offlineService.js:651-651 | strong is every ETag but the empty one and those that begin with `W/` in either case |
| ChunkRequest.SuccessIff | src/frontend/js/services/offlineService.js:972-1008 | a chunk operation answers exactly when some fetch does after passes that were all worth repeating, at most one for a login and two for transient trouble |
| ChunkRequest.ChunkFits | src/frontend/js/services/offlineService.js:902-942 | against any server a chunk starts where asked, ends within what was asked and has the size it states |
| ChunkRequest.ChunkIsExact | src/frontend/js/services/offlineService.js:822-952 | from a truthful server, whatever the retries, a chunk is exactly the bytes of the representation its strong ETag names |
| ChunkRequest.LengthIsTold | src/frontend/js/services/offlineService.js:869-876 | a truthful 416 yields the length of the representation it names |
| OfflineStore.Database.Transact | src/frontend/js/services/offlineService.js:132-187 | a transaction commits its whole next state or leaves no trace |
| KeyOrder.KeysInNumberOrder | src/frontend/js/services/offlineService.js:1152-1154 | the keys of the first million chunks sort as their numbers |
| KeyOrder.MillionComesEarly | src/frontend/js/services/offlineService.js:1152-1154 | and the next key does not |
| KeyOrder.KeysDiffer | src/frontend/js/services/offlineService.js:1152-1154 | keys of different chunks differ, in any number of digits |
| KeyOrder.PutKeepsKeyOrder | src/frontend/js/services/offlineService.js:1057-1079 | a put replaces the record under its key or goes to its place in key order, and touches no other record |
| KeyOrder.SessionKeepsKeyOrder | src/frontend/js/services/offlineService.js:1321-1610 | every state of every session keeps its records in key order, each key once |
| ChunkLoader.SortIsStable | src/frontend/js/services/offlineService.js:563-568 | the order is by start, infinite for unsafe ones, over the same records, ties in key order |
| ChunkLoader.LoadValidatedChunks | src/frontend/js/services/offlineService.js:556-591 | the loop loads the specified chunks and `validThrough` is the last byte they cover |
| ChunkLoader.LoadIsLongestTiling | src/frontend/js/services/offlineService.js:570-590 | for any stored records what is loaded is the longest prefix in start order that tiles an interval from 0 |
| ChunkLoader.RepairKeepsCoverage | src/frontend/js/services/offlineService.js:598-620 | repair at the end of the coverage leaves the loaded chunks as they were, whatever else is stored |
| ChunkLoader.RepairIsCleanIff | src/frontend/js/services/offlineService.js:604-613 | repair leaves nothing else exactly when no other record starts before the cut |
| ChunkLoader.PlaysWholeTilingOnly | src/frontend/js/services/offlineService.js:1165-1192 | a playback URL exists exactly for a ready row whose trusted chunks tile all of its total, and plays their bytes |
| DownloadModel.OnePass | src/frontend/js/services/offlineService.js:1469-1574 | every pass that asks again has fewer restarts left, a total newly known, or fewer bytes missing |
| Downloader.PrepareRun | src/frontend/js/services/offlineService.js:1326-1389 | the method prepares as specified, state by state |
| Downloader.RepairRun | src/frontend/js/services/offlineService.js:1351-1360 | trailing records are dropped exactly where the counters claim more than is trusted |
| Downloader.RunPass | src/frontend/js/services/offlineService.js:1469-1574 | one pass of the loop goes through exactly the specified states |
| Downloader.StoreChunk | src/frontend/js/services/offlineService.js:1530-1562 | chunk and metadata are committed together or not at all, behind the ownership fence |
| Downloader.RestartForNewRepresentation | src/frontend/js/services/offlineService.js:1439-1462 | the restart commits an empty store under the new validators, behind the fence |
| Downloader.RunLoop | src/frontend/js/services/offlineService.js:1469-1574 | the loop ends against any server, goes through the specified states and restarts at most once |
| Downloader.ResumeDownload | src/frontend/js/services/offlineService.js:1321-1400 | prepare, write the row, run the loop: the states of the specified run |
| Downloader.PauseRun | src/frontend/js/services/offlineService.js:1301-1319 | the latest row is kept and marked paused; one that cannot be read is replaced by a bare one |
| Downloader.SettleRun | src/frontend/js/services/offlineService.js:1273-1297 | a failure without an abort pauses, an abort cancels, and every exit releases the claim |
| Downloader.ConcludeRun | src/frontend/js/services/offlineService.js:1576-1609 | the final check marks ready as specified |
| Downloader.Start | src/frontend/js/services/offlineService.js:1249-1298 | on a database with any past, the whole call goes through exactly the specified states from the one it finds, settles as specified, and adds to the states before |
| DownloadControl.ClaimedIff | src/frontend/js/services/offlineService.js:1249-1266 | a session is owned elsewhere, and writes nothing, exactly when a readable look shows another context with a sign less than 15 s old, or the claim cannot be written; otherwise the claim is its first write |
| DownloadControl.AbortStopsLoop | src/frontend/js/services/offlineService.js:1469-1489 | once the abort is seen the loop commits nothing more |
| DownloadControl.AbortDiscardsAnswer | src/frontend/js/services/offlineService.js:1488-1489 | an answer that comes with an abort is discarded |
| DownloadControl.CancelledIff | src/frontend/js/services/offlineService.js:1266-1298 | when a session ends as cancelled, and that it then leaves row and chunks as its last commit did, not marked as paused |
| DownloadControl.ReadyIsNotFetchedAgain | src/frontend/js/services/offlineService.js:1362-1372 | a ready download with all its bytes is ready again whatever the server would answer, and keeps its row and chunks |
| DownloadControl.LengthIsLearned | src/frontend/js/services/offlineService.js:1491-1522 | a 416 before anything is stored tells the length the loop goes on with; one that tells the known length while bytes are missing ends the run |
| DownloadControl.OneChangeIsFollowed | src/frontend/js/services/offlineService.js:1439-1462 | the first change of the representation commits an empty store and starts anew, a second one ends the run as a changed source |
| DownloadControl.EmptySourceIsReady | src/frontend/js/services/offlineService.js:1491-1498 | a source of length 0 ends ready with length 0 and plays nothing |
| DownloadChunks.DownloadsInPieces | src/frontend/js/services/offlineService.js:1484-1562 | a whole download from a server that sends what is asked stores exactly the pieces of 2 MiB under the keys from 0 on, and its row counts them |
| DownloadChunks.FewestPieces | src/frontend/js/services/offlineService.js:1484-1486 | which are as few as can hold the content |
| DownloadExact.SessionSound | src/frontend/js/services/offlineService.js:1301-1610 | one session of a truthful server leaves every state sound, and settles as ready only with a ready row |
| DownloadExact.ReadyIsExact | src/frontend/js/services/offlineService.js:1321-1610 | over every run of sessions, crashes between any two transactions, deletions and ownership changes, a ready row's chunks are `totalBytes` long and are exactly what its ETag names, and so is what is played |
| DownloadTheorems.ResumesAtCoverage | src/frontend/js/services/offlineService.js:1326-1393 | for any stored records and counters, with a row and a validator the run continues at exactly the end of the trusted chunks, untouched by repair; with no validator it starts from nothing |
| DownloadTheorems.OverclaimIsRepaired | src/frontend/js/services/offlineService.js:1351-1360 | where the row counts more chunks than are trusted, or more bytes than a non-empty trusted prefix covers, no record at or past the coverage is left when the run goes on |
| FirstPut.FirstPutKeepsPrefixIff | src/frontend/js/services/offlineService.js:1549-1557 | for any stored records under distinct keys, the first put after a resume keeps the trusted chunks exactly when none of them has the key that counts them |
| FirstPut.NextChunkTrustedIff | src/frontend/js/services/offlineService.js:570-590 | after repair the next chunk, put under a key that no trusted one has, becomes trusted exactly when no untrusted record under another key starts before the end of the trusted ones; otherwise what is trusted stays the same |
| StuckDownload.BlockedNeverFinishes | src/frontend/js/services/offlineService.js:604-613 | with an overlapping record the next chunk leaves the coverage as it was, the final check fails, and repair takes the chunk away again |
| StuckDownload.StuckNeverFinishes | src/frontend/js/services/offlineService.js:1351-1360 | for any such store that lacks only the last byte, no session that reads the row and is answered truthfully about the stored representation ends ready, whatever else fails |
| StuckDownload.RetryLeavesSameStore | src/frontend/js/services/offlineService.js:1351-1360 | an instance: a session that fetches that byte pauses and leaves exactly the store it found |
| StuckDownload.OverlappedExample | src/frontend/js/services/offlineService.js:604-613 | a store of that kind |
| OverlappedStore.SessionCannotFinish | src/frontend/js/services/offlineService.js:1351-1360 | from any store that repairs to records with an overlap under no key still to come, a session that reads the row and is answered truthfully about the stored representation does not end ready, whatever else fails; unless its pause replaces an unread row, every store it leaves is of the same kind |
| OverlappedStore.NeverFinishes | src/frontend/js/services/offlineService.js:1321-1610 | so over every run of such sessions, cut short anywhere: no state is ready, nothing is ever played and no further chunk is trusted |
| OverlapFinish.FinishesIff | src/frontend/js/services/offlineService.js:1469-1610 | with any number of chunks missing, a session with working storage and a server of the stored representation finishes repaired records exactly when every overlapping record is under the key of a chunk it puts |
| DamagedStores.InterruptedNeverFinishes | src/frontend/js/services/offlineService.js:1327-1330 | from a sound download of three chunks, one interrupted session with an unread row and one with a read row leave a store that no later run finishes |
| DamagedStores.TrustedUnderNextKey | src/frontend/js/services/offlineService.js:1549-1557 | one more session with an unread row leaves trusted chunks under keys 0 and 2, so every next put overwrites a trusted one |
| DownloadTheorems.SessionCompletes | src/frontend/js/services/offlineService.js:1439-1610 | from every sound store, however stale, a session with working storage and a server of one representation ends ready and plays exactly that representation, unless a whole one was already stored |
| DownloadTheorems.NothingIsLost | src/frontend/js/services/offlineService.js:1301-1319 | however a session fails or is cut short, while the answers that arrive are about the stored representation no state loses a stored byte |
| DownloadTheorems.PauseThenResumeIff | src/frontend/js/services/offlineService.js:1282-1319 | however a session of a truthful server fails and pauses, the next one that reads and commits goes on from exactly the end of all that is stored if and only if the pause could read the row, could not write it, or nothing is stored; otherwise the next session deletes every chunk |
| DownloadTheorems.AcceptedIff | src/frontend/js/services/offlineService.js:1415-1436 | exactly which answers count as the same representation, with and without strong ETags |
| WeakValidators.SessionOverAChange | src/frontend/js/services/offlineService.js:1415-1462 | a source of any length under weak ETags that changes once, fetched in any pieces from a server that always sends the range asked for: the session always ends ready; it plays the stored bytes of the old version followed by the rest of the new one exactly when the length stayed and the ETag changed or Last-Modified did not, and otherwise it has restarted once and plays the new version |
| WeakValidators.PlaysNeitherVersion | src/frontend/js/services/offlineService.js:1426-1434 | an input on which both validators change and neither version is played |
| UnreadMetadata.SafeIff | src/frontend/js/services/offlineService.js:1327-1329 | from a sound store a session leaves only states that are exact for the ETag in the row, for every truthful server and failure, exactly when the metadata read works or no chunk is stored |
| UnreadMetadata.MixesBytes | src/frontend/js/services/offlineService.js:1327-1328 | two sessions of a truthful server, the first with a failed metadata read, leave a playable mixture |
| UnreadPlayback.SafeToRunIff | src/frontend/js/services/offlineService.js:1327-1329 | from a sound store whose first chunk is no longer than a request, a session leaves nothing that it or any later session, crashed or not, plays in place of what its ETag names, for all representations and truthful servers, exactly when the metadata read works or at most one chunk is stored |
| SharedDownload.SharedIsExact | src/frontend/js/services/offlineService.js:1041-1110 | over any interleaving of pages with truthful servers in which metadata rows are put and records repaired only by the holder of the claim, every state is exact and only what its ETag names is played |
| SharedDownload.LateRowMixesBytes | src/frontend/js/services/offlineService.js:1301-1319 | three pages with truthful servers: one that has read its row to mark it, one that takes over and restarts for another representation, the late put, and one that resumes; it plays a byte of each representation |
| Ownership.OwnerIsClaimHolder | src/frontend/js/services/offlineService.js:311-374 | the record names a context exactly when it wrote a claim that no other claim, deletion or release of its own has ended |
| Ownership.WritesAreOwned | src/frontend/js/services/offlineService.js:1057-1110 | a chunk or reset takes effect exactly when its writer holds the claim at that moment |
| Ownership.ClaimBetweenWriters | src/frontend/js/services/offlineService.js:1063-1066 | between writes of two contexts the later one has written a claim |
| Ownership.HeartbeatIsLatest | src/frontend/js/services/offlineService.js:331-349 | the record's heartbeat is the latest sign of life of the context it names |
| Ownership.DeletesUnlessForeign | src/frontend/js/services/offlineService.js:1123-1150 | a deletion goes through exactly when no other context holds the claim and has shown itself within the liveness window |
| Ownership.NothingReappears | src/frontend/js/services/offlineService.js:1136-1140 | after a deletion no chunk is stored and nobody owns the video until a later claim is written |
| Ownership.RowStoredIff | src/frontend/js/services/offlineService.js:1041-1046 | in every run a metadata row is stored exactly when an event has put one that no deletion since has removed |
| Ownership.RowReappearsIff | src/frontend/js/services/offlineService.js:1136-1140 | until a later claim, a deleted video's row is back exactly when an unfenced put came after the deletion and no deletion after that |
| Ownership.RowReappears | src/frontend/js/services/offlineService.js:1041-1046 | an instance of the above |
| Ownership.LiveSinceLookIff | src/frontend/js/services/offlineService.js:311-318 | after any readable look that clears, another live context holds the claim exactly when that holder has shown itself since the look and within the window |
| Ownership.ReplacesLiveOwnerIff | src/frontend/js/services/offlineService.js:311-329 | a written claim has a look before it, and if that look was readable the claim replaces a live owner exactly when that owner has shown itself between the two |
| Ownership.LookClearsIff | src/frontend/js/services/offlineService.js:311-318 | a look clears its context exactly when it cannot be read or no other live context holds the claim |
| Ownership.ClaimTakesIff | src/frontend/js/services/offlineService.js:311-329 | a claim is written exactly when its transaction commits and a look has cleared its context since its last claim |
| Ownership.UnreadableLookTakesOver | src/frontend/js/services/offlineService.js:312-322 | an unreadable look clears its context whoever owns the video, and its claim takes the video over |
| Ownership.LiveOwnerCanBeReplaced | src/frontend/js/services/offlineService.js:311-329 | two contexts that look before either writes both claim, and the first one's chunks are refused |
| Ownership.SharedStore.LookAtOwner | src/frontend/js/services/offlineService.js:312-318 | the look clears a claim unless a live other owner is seen |
| Ownership.SharedStore.WriteClaim | src/frontend/js/services/offlineService.js:319-328 | the claim overwrites whatever record is there |
| Ownership.SharedStore.WriteChunk | src/frontend/js/services/offlineService.js:1057-1079 | fence and puts are one step of the run |
| Ownership.SharedStore.ResetRepresentation | src/frontend/js/services/offlineService.js:1085-1110 | fence, chunk deletion and reset row are one step of the run |
| Ownership.SharedStore.DeleteFenced | src/frontend/js/services/offlineService.js:1123-1150 | the fenced deletion is one step of the run |
| Ownership.SharedStore.TouchOwner | src/frontend/js/services/offlineService.js:333-344 | a heartbeat renews its own record only |
| Ownership.SharedStore.ReleaseOwnership | src/frontend/js/services/offlineService.js:360-374 | a release removes its own record only |
| Ownership.SharedStore.PutVideoRow | src/frontend/js/services/offlineService.js:1041-1046 | the unfenced metadata write is one step of the run |
| Ownership.SharedStore.RepairRows | src/frontend/js/services/offlineService.js:598-620 | the unfenced repair is one step of the run |
| Ownership.SharedStore.IsForeign | src/frontend/js/services/offlineService.js:269-278 | in any run whose clock does not run backwards, foreign means that another context holds the claim and has shown itself within the liveness window |
| RateLimit.RateLimiter.Allow | src/middleware/rateLimit.ts:118-131 | however it has been swept, the limiter decides as one that never was |
| RateLimit.RateLimiter.DropExpired | src/middleware/rateLimit.ts:149-153 | a sweep drops exactly the expired buckets |
| RateLimit.RateLimiter.MaybeSweep | src/middleware/rateLimit.ts:155-162 | the sweep on the write path keeps what decisions depend on |
| RateLimit.RateLimiter.SweepNow | src/middleware/rateLimit.ts:112-115 | the timer's sweep drops exactly the expired buckets and is recorded as one event |
| RateLimit.OwnCallsDecide | src/middleware/rateLimit.ts:118-131 | sweeps and other keys leave no mark on a key's bucket |
| RateLimit.AllowedIff | src/middleware/rateLimit.ts:118-131 | a call is allowed exactly when the latest window, opened by the first call allowed after the one before had run out, is over or holds fewer than `max` allowed calls |
| RateLimit.RateBound | src/middleware/rateLimit.ts:118-131 | with a clock that does not run backwards any half-open interval of the window's length holds at most 2 * max - 1 allowed calls of a key |
| RateLimit.BoundIsTight | src/middleware/rateLimit.ts:120-130 | that many do get through |
| RateLimit.RetryAfterIsLeast | src/middleware/rateLimit.ts:125-128 | Retry-After is the least whole number of seconds after which the key, left alone, is allowed |
| ShellManifest.ResolveImportPath | scripts/build-shell-manifest.mjs:90-99 | the loop resolves as specified |
| ShellManifest.RootRelativeIff | scripts/build-shell-manifest.mjs:90-99 | exactly which specifiers resolve to a root-relative path |
| ImportPaths.ResolvesInDirectory | scripts/build-shell-manifest.mjs:90-99 | from `/dirs/name` a specifier of plain segments leads to that path below `/dirs` |
| ImportPaths.DotResolvesInDirectory | scripts/build-shell-manifest.mjs:90-99 | with `./` before it too |
| ImportPaths.ResolvesUpwards | scripts/build-shell-manifest.mjs:90-99 | each leading `../` drops exactly the last directory; one more than there are drops the root |
| ImportPaths.ResolvesFromRoot | scripts/build-shell-manifest.mjs:91-91 | a root-relative specifier leads where it says |
| ImportPaths.DetoursCancel | scripts/build-shell-manifest.mjs:93-97 | anywhere behind plain segments a segment followed by `..`, a `.` or an empty segment can be left out |
| ImportPaths.ReferencesIff | scripts/build-shell-manifest.mjs:113-130 | a file leads to what its imports resolve to and, only if it is a stylesheet, to what its `url()`s do |
| ImportPaths.WalkableIff | scripts/build-shell-manifest.mjs:143-146 | scripts below `/js/`, the service worker and stylesheets are walked, and nothing else |
| ShellManifest.Walker.WalkModuleGraph | scripts/build-shell-manifest.mjs:113-130 | on any graph, cyclic or not, the walk ends with the least set that adds what the entry names and is closed over what was added |
| ShellManifest.Walker.Follow | scripts/build-shell-manifest.mjs:116-121 | marking each reference before walking it still ends with the least closed set |
| ShellManifest.BuildShellManifest | scripts/build-shell-manifest.mjs:137-146 | the paths are the least set with the seeds and all that every walked file imports or names by `url()` |
| ShellManifest.HoldsExactlyReached | scripts/build-shell-manifest.mjs:137-146 | the least such set is exactly what a way from a seed reaches through references of walked files |
| ShellManifest.FullyClosedIff | scripts/build-shell-manifest.mjs:143-146 | the manifest is closed over every file exactly when all that the seeds outside the walk name is reached through walked files |
| ShellManifest.UnwalkedSeedLosesImport | scripts/build-shell-manifest.mjs:117-118 | a seed that is not walked loses its import although a walked module imports it |
| HomeFeed.LoadHomeBatch | src/services/youtube/trendingService.ts:323-335 | the nested loops yield the round-robin sequence with later duplicates dropped, cut to size |
| HomeFeed.RoundRobinConserves | src/services/youtube/trendingService.ts:325-334 | round robin holds every video of every batch as often as they do |
| HomeFeed.MixKeepsEveryId | src/services/youtube/trendingService.ts:326-333 | every id of any batch is kept once, as its first video in round-robin order |
| FeedOrder.RoundRobinOrder | src/services/youtube/trendingService.ts:325-334 | video `i` of batch `j` comes after exactly the videos of earlier rounds and those of its round in earlier batches |
| FeedOrder.MixKeepsOrder | src/services/youtube/trendingService.ts:326-333 | what is kept are exactly the first videos of each id, in round-robin order |
| FeedOrder.PageHolds | src/services/youtube/trendingService.ts:206-216 | a page holds its places of the list, echoes page, limit and offset, and says there is more exactly when the list goes on |
| HomeFeed.WalkRebuildsList | src/services/youtube/trendingService.ts:206-216 | reading pages from 1 while `hasMore` rebuilds the list exactly once, with no empty page and none short before the last |

## Left out

- Gate waiters: a caller's promise and listener are rows of the gate, not separate heap objects; aliasing is modelled for flights only.
- Gate tasks: `active` counts tasks; how long a child process outlives its rejected task is not modelled, nor is `getMetrics`.
- Session file details: JSON text, permissions, ownership and symlink checks, directory fsync. The disk is one document replaced whole, and a write that fails leaves it alone.
- Downloader time: backoff lengths, deadlines and Retry-After timestamps; a timer either fires or does not at each await. Retry-After is a whole number.
- Downloader decoration: title, author, MIME type, `pausedReason`, progress events, object-URL cache and the legacy v1 `blobs` store. Counters in the metadata row are integers; an absent one is 0.
- DownloadExact.ReadyIsExact: assumes that a session which meets stored chunks can read their metadata row, which UnreadMetadata.SafeIff shows to be needed (and UnreadPlayback.SafeToRunIff for what is played); covers one page at a time, a lost ownership fence appearing as a transaction that does not commit. SharedDownload.SharedIsExact covers pages that take turns and put rows only under the claim, which LateRowMixesBytes shows they do not always do.
- UnreadPlayback.SafeToRunIff: takes a first chunk no longer than a request; the code stores none that is longer.
- SharedDownload.SharedIsExact: the events of a holder follow the states of one session that it runs from the store it claimed; which page's session an event belongs to is given.
- DownloadExact.SessionSound: the heartbeat's own transactions are left to Ownership; they change nothing but the ownership record.
- A ready download of length 0: its ETag is known to name an empty representation only if 416 answers that name an ETag tell its length, which is the `told` case of ReadyIsExact.
- Other videos' records: the store is that of one video.
- Undici fetch, redirects, relay headers and read timeouts of the proxy; `decideClientRange` and `upstream200IsUsable` are the only parts of it here.
- The rate limiter's key choice and middleware.
- The manifest's regular expressions: what a file imports and names is given. Two spellings that `path.join` sends to one file count as two paths. Hashing and the written manifest.
- The feed's fetching, caching, rejection of page and limit below 1, category rotation and outage error.
- Which reason a malformed Range header is refused for: the answer does not depend on it.
