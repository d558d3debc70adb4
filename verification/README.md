# Verification of the CMTrace Open agent, server and query bar

This project models the parts of the repository where a mistake would lose or corrupt data without
anybody noticing, and proves what they guarantee. Its centre is the durable upload pipeline: the
agent's on-disk queue, its drain loop and its chunked resumable uploader, together with the server's
three ingest handlers and the tables behind them. Around it stand the config override with its
rollback clock, the rate limiter, redaction, the device identity parser, the load harness's driver,
the query lexer and search highlighting.

## The modules

| file | what it holds |
|---|---|
| `Ingest.dfy` | the wire types, the upload, staging and session tables, and the init, chunk and finalize handlers cut into the stages between which other handlers run or the process dies; what each request is answered and what it changes |
| `Network.dfy` | agent and server as a step system: requests repeated or late, handlers interleaved or killed, writes torn; its invariant over every run |
| `View.dfy` | what the server looks like to one bundle, which events cannot show in that view, and what one handled request does to a bundle that stands somewhere in it |
| `BundleQueue.dfy` | the queue directory as a class: every method takes the course of its file-system calls, failures and crashes included, and its contract says what the disk then holds |
| `Delivery.dfy` | disk and network as one system, and the end-to-end theorems over all its runs |
| `Fates.dfy` | what the network may do to an exchange, and what comes of a request, a chunk loop and a whole attempt as functions of that alone |
| `Uploader.dfy` | retries, chunk loop, finalize against that network: as long as only other bundles and devices are at work beside it, an attempt ends exactly as the fates decide; progress |
| `Runtime.dfy` | one drain, one collection, restart, each proved to be a run of the system; drains commit; bounded starvation |
| `ConfigSync.dfy` | overrides, failures, rollbacks and restarts as a state machine over histories |
| `TaskLoop.dfy` | the whole task loop over a schedule: all ticks in any order, with others at work between them; it does what its ticks do, loses nothing, and delivers if the schedule is fair |
| `RateLimiter.dfy` | fixed windows with inline and background sweeps and the key cap, sequential and concurrent |
| `LoadDriver.dfy` | the load harness's dispatch loop with its ramp gate and its semaphore |
| `Redaction.dfy`, `Encoding.dfy` | the rule list, whole-file and line-by-line redaction, well-formed UTF-8 |
| `SanUri.dfy` | the SAN URI of a client certificate and the percent-encoded certificate header |
| `KqlLexer.dfy` | the scanner of the query bar against a longest-match reading |
| `Highlight.dfy` | search matches and the pieces a text is cut into |
| `Wrappers.dfy` | `Option` and one fact about set sizes |

The upload part is layered. `Ingest` gives each handler as stages. `Network` interleaves any number of
them. What the network and the file system do is an input of the classes: a `World` gives the fate of every
exchange, with what runs beside it and between the stages of its own handler, and a course gives the fate of
every file-system call. Every method of `Uploader`, `Runtime` and `TaskLoop` promises `Leads` or `Reaches`:
what it did is a run of the step system, in which nothing is purged. So the theorems about all runs in
`Network` and `Delivery` hold of the code in the classes, wherever it is interrupted.

An exchange is calm for a bundle if everything beside it is foreign to that bundle: requests and handlers of
other devices, and of the agent on behalf of other bundles. `View.ForeignKeepsView` proves that a foreign
event does not show in the bundle's rows, staging files or session, and `View.OtherDevicesAreForeign` that
whatever another device does is foreign. `Fates` says, without any server, where an attempt ends, how far the
bundle has come then and what the client is told; `Uploader.Link.Upload` proves that a calm attempt ends exactly
there. So every condition below is one on the fates of the exchanges. Attempts or drains may follow each other
with any foreign work in between. `TaskLoop.RunTaskLoop` puts it all together: a bundle in the queue is delivered
if the schedule has more windows, one backoff period apart and each with more drains than there are rivals,
than drains in which anything is lost.

## What turned out differently from what the code or its documents say

* **A bundle whose commit was not acknowledged is not accepted while its session lasts.** For a bundle that
  already has a session, init hands back the session id in place of an upload id
  (`crates/api-server/src/routes/ingest.rs:115-135`). The agent then skips the chunk loop and
  finalizes under that id, which the finalize handler does not find: 404, a fatal error. The document
  at `tools/README.md:90-97` and the comment at `crates/agent/src/uploader.rs:161-163` promise
  success. The bytes are safe on the server, but the sidecar never becomes done and the zip stays.
  `Delivery.ASilentCommit` gives a run from the start to such a state. `Uploader.Link.Upload` proves that no
  attempt that starts with a session in place succeeds. `Uploader.AcceptedIffCommitWasAnswered` gives the
  exact condition: a bundle is accepted if and only if the last exchange of the attempt that committed it was
  handled and its reply arrived. `Runtime.Agent.Drain` and `Runtime.OneDrainIsAccepted` draw the consequences.
  Retention ends this state: after 90 days by default (`crates/api-server/src/config.rs:232-243`,
  `crates/api-server/src/storage/meta_sqlite.rs:916-946`) the session goes, and then the agent, which still
  holds the bundle, uploads it again and is accepted (`View.RetentionReopens`).
* **A chunk whose offset was stored but whose bytes were not all written wedges its bundle for good**, unless
  the missing bytes are zeros. The comment at `crates/api-server/src/routes/ingest.rs:310-314` says that the
  client will re-init. Re-init resumes at the full offset of the same upload; finalize rejects it and discards
  the staging file; every later attempt fails. A staged byte is always the bundle's own or a zero that fills a
  gap, so a complete upload commits if and only if its staging file has full length and each zero in it is a
  zero of the bundle (`Network.FinalizeCommitsIffNoByteIsMissing`). `Network.RejectedFinalizeWedges`,
  `Network.WedgedRun` and `Network.ATornWriteCanWedge` say what follows, for how long, and that it can happen.
* **A bundle whose outcome cannot be recorded is not tried again before the next start.** If writing done or failed
  fails, the drain goes on (`crates/agent/src/runtime.rs:270-291`) and the entry stays uploading, which no drain
  picks (`Runtime.Agent.Drain`); only `open` makes it pending again (`Runtime.Agent.Start`).
* **Purging a bundle that is not delivered loses it** (`Delivery.PurgeForgets`). Nothing in the agent calls
  `purge` (`crates/agent/src/queue.rs:212-213`), and without it no bundle is lost
  (`Delivery.KeptUntilDelivered`).
* **The rollback clock does not survive a restart under an override**, against
  `crates/agent/src/config_sync.rs:35-39`: after a restart no override counts as applied, so the first one
  that is fetched is new and clears the loaded clock (`ConfigSync.RestartForgetsFailures`,
  `ConfigSync.CrashLoopKeepsOverride`). A failed fetch counts as "no override" and clears it as well
  (`ConfigSync.RollbackNeedsSteadyServer`). And as the loop is wired, failures are never recorded and every
  drain counts as a success, so the rollback is never reached (`TaskLoop.RunTaskLoop`).
* **Search highlighting is shifted after a letter that becomes longer in lower case**: the spans are found in
  the lower-cased text and applied to the original. `Highlight.LongerLowerCaseShiftsMarks` gives a text on
  which nothing is marked, `Highlight.MarksItsLettersIff` says exactly when a mark covers the letters its match
  came from, and `Highlight.AllMarksAreRightIff` that all marks of a text are right if and only if the last one
  is. The text itself is always reproduced (`Highlight.RenderHighlighted`).
* **Whole-file and line-by-line redaction differ on some texts under the default rules**: a user name in a
  path may reach over a newline. `Redaction.ANameOverTwoLines` gives such a text, and
  `Redaction.PathRuleStreamsIff` the exact condition for the path rule alone. Followed by rules that are local to
  lines, it agrees while every name ends within its line (`Redaction.DefaultRulesStream`); that this is needed is
  not claimed, because a later rule may happen to rewrite both results to the same bytes. The rules for GUIDs and
  domain SIDs are proved local to lines (`Redaction.GuidAndSidAreLocal`).
* **The limiter's burst is smaller than twice the limit**: the first request of a window is counted at its
  start, so an interval of one window length holds at most 2 * limit - 1 admissions
  (`RateLimiter.BurstBound`), and that many can occur (`RateLimiter.BurstBoundIsMet`). This is about checks
  whose clock readings come in order. The source reads the clock before it locks the entry
  (`crates/api-server/src/state.rs:115`), so a caller that is held up in between until the key is swept puts it
  back with an older start, and is admitted beyond the bound (`RateLimiter.OvertakenChecksExceedTheBound`).
* The header comment at `crates/agent/src/uploader.rs:6-17` is out of date: the default policy makes five
  attempts, its last delay is never slept (`Uploader.LastDelayIsNeverSlept`), and a 409 on a chunk is
  fatal for the attempt. The code is what is modelled.

## Assumptions

* SHA-256 is collision-free; upload ids and session ids are fresh and never coincide. An answer of the
  server is received as sent or not at all.
* A rename is atomic and a write that is followed by a rename is complete; a file write that is cut short
  leaves a torn file. The agent keeps its device id and collects each bundle under a new id.
* A database statement and a file-system call are atomic, except that a chunk write may stop after any number
  of bytes when its handler dies; handlers interleave at their awaits. Sessions are not deleted while the agent
  still holds the bundle. Retention does delete them, and the one bundle that the agent can still hold by then
  is the one whose commit was never acknowledged.
* Clocks do not run backwards. One clock stands for the monotonic and the wall clock in `ConfigSync`.
* A redaction rule is an arbitrary function from a text to a new text or to "no match"; only `username_path` is
  modelled exactly. A sweep of the limiter's map is one step.
* Progress is claimed for a bundle the server accepts (digest and size agree with its bytes, it is not empty and
  its kind is known) and on which nobody else works. A request that the client gave up on and that the server
  handles later counts as someone else's work during an attempt. Between two attempts it does no harm
  (`Uploader.CommittedDespiteLateRequests`), and the theorems about all runs cover it anywhere.

## Model

| member | source | states |
|---|---|---|
| `Ingest.FindResumable` | crates/api-server/src/storage/meta_sqlite.rs:349-384 | the most recent unfinalized upload of the device's bundle, and none exactly when there is none |
| `Ingest.GetUpload` | crates/api-server/src/storage/meta_sqlite.rs:258-283 | an id is found exactly in its own row and exactly by the device that owns the row |
| `Ingest.DisjointWritesCommute` | crates/api-server/src/storage/blob_object_store.rs:150-162 | two chunk writes to ranges that do not overlap may land in either order |
| `Ingest.WrittenIsRead` | crates/api-server/src/storage/blob_object_store.rs:150-162 | what a chunk write wrote is read back, and so is what was there around it |
| `Ingest.InitVerdict` | crates/api-server/src/routes/ingest.rs:84-212 | for any device, bundle and server: refused with 400 exactly if digest, kind or size is malformed, with 409 exactly if the latest interrupted upload has other metadata; otherwise the session or an upload of exactly this metadata is named at its offset, a new one is opened only where there is none, and asking again says the same and opens nothing |
| `Ingest.ChunkVerdict` | crates/api-server/src/routes/ingest.rs:231-331 | for any chunk to an own upload: taken exactly at the stored offset, with 1 to 32 MiB within the declared size, and then offset and staged bytes are given exactly; 400 and 409 exactly in the other cases, with nothing changed; 500 after the offset was moved if the staging file is gone; the same chunk again is 409 |
| `Ingest.StrangersAreNotFound` | crates/api-server/src/routes/ingest.rs:245-256 | chunk and finalize answer 404 and change nothing for an id that is not an upload of the device, and for no other |
| `Ingest.ShipmentCommits` | crates/api-server/src/routes/ingest.rs:430-500 | the stages after the digest check, not interrupted: the row is closed, the staged bytes move into a new session or, where there is one, that one is named |
| `Ingest.FinalizeVerdict` | crates/api-server/src/routes/ingest.rs:364-428 | for any server, device, complete upload and claimed digest: a session is created if and only if the staged bytes hash to the digest given at init and to the claimed one; otherwise 400, and only the row's staging file goes |
| `Ingest.FinalizeElsewise` | crates/api-server/src/routes/ingest.rs:364-402 | finalize of an upload that is incomplete, without staging file or finalized already: the exact answer, and nothing changes |
| `Network.RewriteIsIdentity` | crates/api-server/src/storage/blob_object_store.rs:150-162 | writing a slice of the bundle over the bundle changes nothing, so a repeated chunk does no harm |
| `Network.WriteIsOwnOrZero` | crates/api-server/src/storage/blob_object_store.rs:150-162 | writing any part of the bundle at its place leaves every staged byte the bundle's own or a zero |
| `Network.NetNextKeepsInv` | crates/api-server/src/routes/ingest.rs:84-546 | every step of any handler, and every loss, repetition, death or half-done write, keeps the invariant that ties uploads, staging files, outstanding writes, sessions and replies to the bundles' bytes |
| `Network.NetRunKeepsInv` | crates/api-server/src/routes/ingest.rs:84-546 | the same for every run |
| `Network.BeginChunkKeepsInv` | crates/api-server/src/routes/ingest.rs:244-308 | reserving a byte range keeps it: each reserved byte is staged or owed by a handler still to write it |
| `Network.WriteKeepsInv` | crates/api-server/src/routes/ingest.rs:310-331 | a late or repeated chunk write settles its own range and disturbs no other |
| `Network.AnswerKeepsInv` | crates/api-server/src/routes/ingest.rs:364-428 | a request that is answered at once changes no table; at most it discards the staging file of a rejected upload |
| `Network.AnswerIsQuiet` | crates/api-server/src/routes/ingest.rs:84-428 | a request answered at once, refused or not, changes no upload row and no session and writes no staging file |
| `Network.ShipKeepsInv` | crates/api-server/src/storage/blob_object_store.rs:169-208 | moving staging to the blob store keeps the invariant whether or not the staging file could be removed |
| `Network.InsertIsExact` | crates/api-server/src/routes/ingest.rs:432-480 | a session that a handler inserts, or finds already there, holds exactly the bytes of the row's bundle |
| `Network.InsertKeepsInv` | crates/api-server/src/storage/meta_sqlite.rs:386-423 | two finalizes of one bundle racing for the unique session row leave one session with the right bytes |
| `Network.DieKeepsInv` | crates/api-server/src/routes/ingest.rs:310-331 | a handler that dies after its database write and any part of its blob write leaves the row marked as torn and nothing else wrong |
| `Network.NewBundleKeepsInv` | crates/agent/src/runtime.rs:224-246 | taking in another bundle disturbs nothing under way |
| `Network.RunGrows` | crates/api-server/src/storage/meta_sqlite.rs:285-347 | over any run rows keep their identity, offsets and finalized flags only rise and sessions stay |
| `Network.TranscriptGrows` | crates/agent/src/uploader.rs:283-306 | requests and replies stay on record, so an answer can justify a later request |
| `Network.AcknowledgedIsCommitted` | crates/common-wire/src/lib.rs:57-97 | a finalize that was answered with success means a session with exactly the bundle's bytes |
| `Network.StagedIsPrefix` | crates/agent/src/uploader.rs:190-206 | with no write outstanding or torn, the staging file is exactly the first `offset` bytes of the bundle: none skipped, none twice |
| `Network.FinalizeCommitsIffStagedExactly` | crates/api-server/src/routes/ingest.rs:364-546 | in every reachable state, whatever digest is claimed: a complete upload is committed by finalize if and only if its staging file holds the bundle's bytes and the claimed digest is theirs |
| `Network.FinalizeCommitsIffNoByteIsMissing` | crates/api-server/src/routes/ingest.rs:310-428 | in terms of the bytes: it is committed if and only if the staging file has full length and every zero in it is a zero of the bundle |
| `Network.WedgedForever` | crates/api-server/src/routes/ingest.rs:310-324 | no step by anybody frees a wedged bundle |
| `Network.WedgedRun` | crates/api-server/src/routes/ingest.rs:310-324 | over every run a wedged bundle stays without a session |
| `Network.RejectedFinalizeWedges` | crates/api-server/src/routes/ingest.rs:399-427 | a full upload whose staged bytes are wrong becomes wedged by the agent's own finalize |
| `Network.ATornWriteCanWedge` | crates/api-server/src/routes/ingest.rs:310-324 | a concrete run from the empty server to a wedged bundle |
| `View.ForeignKeepsView` | crates/api-server/src/routes/ingest.rs:84-546 | no step of another device or of another bundle shows in a bundle's rows, staging files or session |
| `View.ForeignRunKeepsView` | crates/api-server/src/routes/ingest.rs:84-546 | the same for every run of such steps |
| `View.OtherDevicesAreForeign` | crates/api-server/src/storage/meta_sqlite.rs:258-283 | whatever another device sends, and whatever its handlers do, is foreign to each bundle of the agent |
| `View.StandsBySameView` | crates/api-server/src/storage/meta_sqlite.rs:349-384 | where a bundle stands, unknown, staged up to an offset or committed, depends on its view alone |
| `View.UnderwayBySameView` | crates/api-server/src/routes/ingest.rs:84-546 | between two stages of a handler foreign work does not show |
| `View.InitServes` | crates/api-server/src/routes/ingest.rs:84-227 | init opens an empty upload for an unknown bundle, names the offset of an interrupted one and the session of a committed one, and moves neither of these |
| `View.ChunkServes` | crates/api-server/src/routes/ingest.rs:244-331 | a chunk at the offset moves the prefix on; the same chunk once more is refused with 409 and moves nothing |
| `View.FinalizeServes` | crates/api-server/src/routes/ingest.rs:364-546 | a complete upload is committed; the same finalize once more gives the same session, and one under a session id is a 404 |
| `View.CommitServes` | crates/api-server/src/routes/ingest.rs:430-480 | each of the three stages of a commit leads to the next, and the last one to the session |
| `View.HandleServes` | crates/api-server/src/routes/ingest.rs:84-546 | a whole handler moves a bundle and answers exactly as the bundle's standing says |
| `View.MovesOnce` | crates/api-server/src/routes/ingest.rs:84-546 | a request handled again moves the bundle no further |
| `View.LateRequestDoesNoHarm` | crates/api-server/src/routes/ingest.rs:84-546 | a request of the bundle that arrives late and is handled whole moves the bundle on or leaves it where it stands |
| `View.RetentionReopens` | crates/api-server/src/storage/meta_sqlite.rs:916-946 | once retention has deleted the session of a bundle without an unfinalized upload, init opens an empty upload for it again |
| `BundleQueue.SortByAge` | crates/agent/src/queue.rs:166-176 | the entries in order of their enqueue time |
| `BundleQueue.SortIsStable` | crates/agent/src/queue.rs:166-176 | of each enqueue time the sort keeps the same entries, as often and in the same order |
| `BundleQueue.RecoverOnlyFlips` | crates/agent/src/queue.rs:314-323 | wherever recovery is cut short, it has turned uploading entries into pending ones and changed nothing else |
| `BundleQueue.Queue.WriteSidecar` | crates/agent/src/queue.rs:257-277 | at every point of interruption the sidecar is the complete old or the complete new version |
| `BundleQueue.Queue.Get` | crates/agent/src/queue.rs:226-233 | returns exactly what the sidecar holds, and for each way in which that fails its own error |
| `BundleQueue.Queue.Transition` | crates/agent/src/queue.rs:245-255 | replaces the state alone, of the entry that was read, and reports success exactly when the new version is in place |
| `BundleQueue.Queue.MarkUploading` | crates/agent/src/queue.rs:178-180 | the entry is uploading, whatever it was; the count of failures goes |
| `BundleQueue.Queue.MarkDone` | crates/agent/src/queue.rs:182-187 | the entry is done at the given time |
| `BundleQueue.Queue.MarkFailed` | crates/agent/src/queue.rs:189-210 | the state becomes failed, with one failure more than the previous state recorded or one if it recorded none, hidden until the delay has passed |
| `BundleQueue.Queue.LoadAll` | crates/agent/src/queue.rs:279-309 | exactly the sidecars that can be read, each bundle once |
| `BundleQueue.Queue.NextPending` | crates/agent/src/queue.rs:166-176 | the oldest entry that is pending or due among those that can be read, and none only if there is none |
| `BundleQueue.Queue.MoveZip` | crates/agent/src/queue.rs:130-161 | the zip is moved, untouched or, across devices, a prefix of it; no other zip changes |
| `BundleQueue.Queue.Enqueue` | crates/agent/src/queue.rs:130-161 | the zip is complete before the sidecar appears, at every point of interruption |
| `BundleQueue.Queue.Purge` | crates/agent/src/queue.rs:214-224 | the sidecar goes before the zip, so no sidecar is left without its zip |
| `BundleQueue.Queue.FlipOne` | crates/agent/src/queue.rs:314-323 | one recovery write: the entry is pending afterwards or, when the write does not complete, as it was |
| `BundleQueue.Queue.Open` | crates/agent/src/queue.rs:99-105 | after opening no readable entry is uploading; an interrupted opening is a prefix of recovery; it fails only if a file operation does, and changes nothing if the directory cannot be read |
| `Delivery.NextKeepsInv` | crates/agent/src/runtime.rs:250-303 | every file-system write and every network step keeps the system invariant |
| `Delivery.DeliveredBeforeForgotten` | crates/agent/src/runtime.rs:250-303 | after any run, a bundle marked done, or one whose zip is gone while its sidecar remains, has a session with exactly the enqueued bytes |
| `Delivery.KeptUntilDelivered` | crates/agent/src/queue.rs:212-224 | in every run without a purge a bundle whose sidecar appeared keeps its sidecar, and its zip holds the enqueued bytes until a session with exactly those bytes exists |
| `Delivery.ReachableKeepsBundles` | crates/agent/src/queue.rs:212-224 | the same between any two states of which one reaches the other |
| `Delivery.PurgeForgets` | crates/agent/src/queue.rs:214-224 | purging a bundle without a session leaves no trace of it |
| `Delivery.ASilentCommit` | crates/agent/src/uploader.rs:161-163 | a concrete run to a state in which a pending bundle already has its session; there init names the session and finalize under it is a 404 |
| `Delivery.QueueIsCrashConsistent` | crates/agent/src/queue.rs:257-323 | after any run every sidecar is complete, names its bundle and, unless done, has its zip with the enqueued bytes beside it |
| `Delivery.NothingElseIsCommitted` | crates/api-server/src/routes/ingest.rs:364-546 | after any run every session of the agent holds exactly its bundle's bytes, acknowledged or not |
| `Delivery.CommitIsStable` | crates/api-server/migrations/0001_initial.sql:16-43 | until retention deletes it a session is never changed or replaced |
| `Delivery.StagingIsAlwaysAPrefix` | crates/common-wire/src/lib.rs:57-87 | after any run settled staging is a prefix of the bundle |
| `Delivery.ReachesByRecovery` | crates/agent/src/queue.rs:314-323 | recovery, finished or cut short, is a run of the system |
| `Fates.ToldOk` | crates/agent/src/uploader.rs:283-306 | a retried request succeeds if and only if its last exchange was handled, granted and heard; ungranted failure apart, failing costs a loss |
| `Fates.UnheardIsALoss` | crates/agent/src/uploader.rs:283-306 | a request that was handled before its last exchange had a reply lost |
| `Fates.Chunks` | crates/agent/src/uploader.rs:190-206 | by the fates alone the chunk loop never moves the offset back, and succeeds only at the end of the bundle |
| `Fates.FailedChunksLose` | crates/agent/src/uploader.rs:190-206 | a chunk loop that fails suffered a loss |
| `Fates.RestLoses` | crates/agent/src/uploader.rs:180-216 | after a granted init success means stored, failure means a loss, and if the bundle is stored success is exactly that the last reply arrived |
| `Fates.AttemptDecided` | crates/agent/src/uploader.rs:164-217 | a stored bundle is refused; any other is accepted unless an exchange was lost or its file could not be read; an attempt that stores it is accepted if and only if the reply to its last exchange arrived |
| `Uploader.LastDelayIsNeverSlept` | crates/agent/src/uploader.rs:50-79 | with one delay per attempt the last one makes no difference; the default policy sleeps 102 seconds at most |
| `Uploader.LastDelayIsRepeated` | crates/agent/src/uploader.rs:76-83 | after n failed tries the client has slept the first n listed delays, and once the list is used up its last one again and again; with no list nothing |
| `Uploader.WhatIsAskedAgain` | crates/agent/src/uploader.rs:310-352 | which exchanges are asked about again, in HTTP's numbers: lost ones and statuses 408, 429 and 500 to 599; any other status is fatal, a body that cannot be read too |
| `Uploader.CommittedGetsSessionId` | crates/api-server/src/routes/ingest.rs:115-135 | for a bundle with a session, init only ever answers with the session's id |
| `Uploader.SessionIdNeverFinalizes` | crates/api-server/src/routes/ingest.rs:364-380 | at no later time does finalize under a session id succeed |
| `Uploader.CalmStep` | crates/agent/src/uploader.rs:283-306 | one more calm exchange: the client asks again exactly when the fate is retriable, and otherwise the request ends as the fates say |
| `Uploader.CalmInit` | crates/agent/src/uploader.rs:169-178 | a calm init ends as the fates say, and a granted one leaves the attempt at the server's offset |
| `Uploader.ChunkSettles` | crates/agent/src/uploader.rs:190-206 | a calm chunk is in place exactly when one try of it was handled, and the client is told what the fates say: success, or 409 when the reply to an earlier try was lost |
| `Uploader.CalmFinalize` | crates/agent/src/uploader.rs:208-216 | a calm finalize ends the attempt as the fates say |
| `Uploader.ChunksThenFinalize` | crates/agent/src/uploader.rs:190-216 | the chunk loop and finalize together end as the fates say |
| `Uploader.InitThenRest` | crates/agent/src/uploader.rs:164-217 | an attempt ends as the fates say of its init and of what follows |
| `Uploader.GrantNamesOwn` | crates/api-server/src/routes/ingest.rs:137-227 | an upload id that was granted for one bundle names no upload of another |
| `Uploader.UploadElsewhere` | crates/agent/src/uploader.rs:164-217 | an upload leaves the server's view of every other bundle alone |
| `Uploader.Link.Interfere` | crates/api-server/src/routes/ingest.rs:84-546 | the events that can happen in their turn have happened and no others: a run of the network, and a bundle they are foreign to keeps its view and its handlers |
| `Uploader.Link.Process` | crates/api-server/src/routes/ingest.rs:84-546 | the handler of a request, stage by stage, with exactly the given events in its gaps: if they are foreign it moves the bundle and answers exactly as the bundle's standing says, and other bundles stay where they are |
| `Uploader.Link.Exchange` | crates/agent/src/uploader.rs:219-281 | one request on the wire with its given fate: what it does to the network and what arrives are exactly given, it is a run of the network, and if everything beside it is foreign to the bundle, so is what the server did in terms of its standing |
| `Uploader.Link.WithRetries` | crates/agent/src/uploader.rs:283-306 | whatever happens beside it: the same request once per try, asked again exactly after lost exchanges and statuses 408, 429 and 5xx while tries are left, fatal at once on any other status, with exactly the policy's sleeps; success only with a reply the server gave; if calm, it ends where and as the fates decide |
| `Uploader.Link.InitUpload` | crates/agent/src/uploader.rs:169-178 | init with retries: a grant comes from the server and, for a bundle with a session, names no upload; if calm, it ends as the fates say and a grant names the server's offset |
| `Uploader.Link.SendChunk` | crates/agent/src/uploader.rs:192-206 | one chunk: success only if the server answered with exactly its end; if calm, it is in place exactly if a try was handled, and succeeds exactly if the fates say so |
| `Uploader.Link.SendChunks` | crates/agent/src/uploader.rs:180-206 | terminates; each request it sends carries the bundle's bytes at its offset, as many as the server's chunk size and 4 MiB allow or all that are left; success means that the server took the last part; if calm, where it ends, how much is staged then and its outcome are those that the fates decide |
| `Uploader.Link.Upload` | crates/agent/src/uploader.rs:164-217 | success implies an acknowledged commit and never happens for a bundle that already had a session; a file of another size than declared is refused before any of it is sent; if calm, where the attempt ends, how far the bundle has come and the exact outcome are those that the fates decide; other bundles are left alone |
| `Uploader.Link.Transfer` | crates/agent/src/uploader.rs:190-217 | the same for what follows a granted init |
| `Uploader.AttemptEffect` | crates/agent/src/uploader.rs:164-217 | an attempt of a committed bundle is refused and changes nothing; any other is accepted or lost an exchange or its file, and one that commits is accepted if and only if the reply to its last exchange arrived |
| `Uploader.CommittedOnceLossesRunOut` | crates/agent/src/uploader.rs:164-217 | attempts that outnumber the losses they suffer commit the bundle with its exact bytes, whatever other bundles and devices do beside them and in between |
| `Uploader.CommittedDespiteLateRequests` | crates/agent/src/uploader.rs:164-217 | the same when requests of the bundle that the client gave up on are handled between the attempts |
| `Uploader.CommittedIsNeverAccepted` | tools/README.md:90-97 | a bundle that is committed before an attempt is refused by it and by all later ones, and its session stays as it is |
| `Uploader.CommitPoint` | crates/agent/src/uploader.rs:164-217 | among attempts that turn an uncommitted bundle into a committed one there is a first that does |
| `Uploader.AcceptedIffCommitWasAnswered` | crates/agent/src/uploader.rs:161-163 | of a bundle whose losses run out exactly one attempt commits it, no other is accepted, and that one is accepted if and only if its last exchange was handled and the reply arrived |
| `Runtime.Agent.Start` | crates/agent/src/runtime.rs:74-80 | a restart is a run of the system and leaves no readable entry uploading; if the directory cannot be read it changes nothing |
| `Runtime.Agent.CollectAndEnqueue` | crates/agent/src/runtime.rs:224-246 | a collection is a run of the system, and what it leaves on the disk is exactly what the course of its file operations says |
| `Runtime.FreshIsHealthy` | crates/api-server/src/routes/ingest.rs:188-227 | a bundle that was just collected is new to the server, whatever has happened there |
| `Runtime.Agent.ClaimNext` | crates/agent/src/runtime.rs:250-268 | the oldest eligible entry among those that can be read becomes uploading, as far as the write gets, and nothing else changes |
| `Runtime.Agent.UploadClaimed` | crates/agent/src/runtime.rs:270-278 | success implies an acknowledgement for a bundle that had no session; to each bundle the upload is an attempt of that bundle with these fates or leaves the server's view of it alone |
| `Runtime.Agent.RecordOutcome` | crates/agent/src/runtime.rs:278-291 | the claimed entry alone changes: done exactly when delivered, otherwise failed with the backoff from that moment |
| `Runtime.Agent.DropZipIfDone` | crates/agent/src/runtime.rs:293-302 | the zip is removed exactly when the sidecar can be read and says done, as far as the removal gets; nothing else changes |
| `Runtime.Agent.Settle` | crates/agent/src/runtime.rs:278-302 | only the files of the one bundle change: its sidecar says what came of it if that can be written and stays otherwise, its zip goes exactly if it is done, can be read again and the removal works, and the process stops exactly where a file-system call stops it |
| `Runtime.Agent.Drain` | crates/agent/src/runtime.rs:250-303 | any drain, finished, failed or cut off, is a run of the system without a purge and keeps every bundle and every file but the selected bundle's; it picks the oldest eligible one, records the outcome exactly or leaves it marked as uploading if that fails, removes the zip exactly if it recorded a delivery and can read and remove, never marks done a bundle that had a session before, to each bundle is an attempt or leaves it alone, and stops exactly where the disk stops it or in an exchange |
| `Runtime.AttemptsAreAChain` | crates/agent/src/runtime.rs:250-303 | the drains that picked a bundle are attempts of it one after the other, whatever the drains in between did |
| `Runtime.DrainsCommit` | crates/agent/src/runtime.rs:250-303 | once the drains that picked a bundle outnumber the losses they suffered, the server holds exactly its bytes |
| `Runtime.OneDrainIsAccepted` | crates/agent/src/runtime.rs:250-303 | of those drains exactly one commits, no other is accepted, and that one is if and only if its last exchange was handled and the reply arrived |
| `Runtime.DrainUsesUpRival` | crates/agent/src/runtime.rs:278-291 | a drain that passes a due bundle over parks one no younger for the rest of the window |
| `Runtime.RivalsAreUsedUp` | crates/agent/src/runtime.rs:250-291 | over drains and collections that pass a bundle over, as many different rivals are used up as there are drains, and the bundle's entry stays as it is |
| `Runtime.NobodyStarves` | crates/agent/src/runtime.rs:250-291 | of more drains than there are bundles no younger, with collections in between and all begun within one backoff period, some drain picks the bundle |
| `TaskLoop.DrainTick` | crates/agent/src/runtime.rs:188-195 | a drain tick is one drain followed, unless it is cut off, by exactly one recorded success, which clears the failure clock; the final drain reports nothing |
| `TaskLoop.ConfigTick` | crates/agent/src/runtime.rs:196-202 | a config tick is exactly one sync, after which the override is the one that came with status 200 or none; its rollback branch is never taken |
| `TaskLoop.TakeTurn` | crates/agent/src/runtime.rs:168-217 | any tick does exactly what its kind says, at its time, and reports exactly what it should |
| `TaskLoop.TurnsAreVisits` | crates/agent/src/runtime.rs:168-217 | the turns of a loop in which nobody else works on a bundle are visits of it one after the other, so the theorems about drains hold of the loop |
| `TaskLoop.LossesAreBad` | crates/agent/src/runtime.rs:250-303 | an attempt that lost something is one of a tick in whose world something is lost or whose file cannot be read |
| `TaskLoop.KeepsGoing` | crates/agent/src/runtime.rs:168-217 | each turn keeps the bundle healthy with the server, in line in the queue, and picked no more often than something was lost until it is committed |
| `TaskLoop.WindowPicks` | crates/agent/src/runtime.rs:44-48 | from one window to the end of the next some drain picks the bundle, unless it is done |
| `TaskLoop.LoopDelivers` | crates/agent/src/runtime.rs:151-217 | a bundle in the queue, on which nobody else works, is delivered if the schedule has more fair windows than drains in which anything is lost |
| `TaskLoop.DeliveredZipStaysGone` | crates/agent/src/runtime.rs:293-302 | after a turn that delivered a bundle and in which nothing failed on the disk, its zip is gone, and it is gone in every later state of the loop |
| `TaskLoop.SteadyDrainsAreFair` | crates/agent/src/runtime.rs:39-48 | with a drain every thirty seconds every other backoff period is a fair window for up to nineteen rivals |
| `TaskLoop.RunTaskLoop` | crates/agent/src/runtime.rs:151-217 | runs the schedule to its end, its stop or the death of the process, and after the stop signal takes the one final drain as its last turn; each turn does what its tick does, the history of the config clock is exactly the one reported, no rollback is ever due, no bundle is lost, and a fair schedule delivers |
| `ConfigSync.MergeIsFieldwise` | crates/agent/src/config_sync.rs:341-385 | protected fields never change, merging is idempotent, and it is the identity exactly when every field the override sets already has that value |
| `ConfigSync.Syncer.constructor` | crates/agent/src/config_sync.rs:127-158 | a start is the restart action: no override, and the failure time of the state file unless that lies in the future or out of the monotonic clock's reach |
| `ConfigSync.Syncer.PersistState` | crates/agent/src/config_sync.rs:302-326 | writes the failure clock as it is or, when the write fails, nothing |
| `ConfigSync.Syncer.EffectiveConfig` | crates/agent/src/config_sync.rs:330-337 | protected fields are the local ones; each of the other five is the override's where it says something and the local one otherwise |
| `ConfigSync.Syncer.Sync` | crates/agent/src/config_sync.rs:217-248 | one sync action of the state machine: the applied override is the body that came with status 200, and none after any other answer; and the config that follows |
| `ConfigSync.Syncer.RecordSuccess` | crates/agent/src/config_sync.rs:252-257 | one success action |
| `ConfigSync.Syncer.RecordFailure` | crates/agent/src/config_sync.rs:262-267 | one failure action: it starts the clock only under an override and only if it is not running |
| `ConfigSync.Syncer.RollBack` | crates/agent/src/config_sync.rs:288-297 | one rollback action; the local config is in effect again |
| `ConfigSync.ClockIsOldestStandingFailure` | crates/agent/src/config_sync.rs:217-267 | after any history the clock under an override holds the time of the oldest failure since which nothing was disturbed |
| `ConfigSync.RollbackIsDueIff` | crates/agent/src/config_sync.rs:272-285 | after any history a rollback is due if and only if such a failure is at least 24 hours old |
| `ConfigSync.StandingFailureKeepsOverride` | crates/agent/src/config_sync.rs:217-248 | since a standing failure the override has been one and the same |
| `ConfigSync.RollbackNeedsSteadyServer` | crates/agent/src/config_sync.rs:176-213 | a rollback is due only if since that failure every config fetch answered with the applied override; an outage of the endpoint rules it out |
| `ConfigSync.RestartForgetsFailures` | crates/agent/src/config_sync.rs:35-39 | failures before a restart never make a rollback due after it |
| `ConfigSync.CrashLoopKeepsOverride` | crates/agent/src/config_sync.rs:35-39 | a concrete history in which a restart loses a clock that would have led to a rollback |
| `ConfigSync.NoFailureNoRollback` | crates/agent/src/runtime.rs:188-202 | where failures are never recorded no rollback is ever due |
| `ConfigSync.ClockIsOnFile` | crates/agent/src/config_sync.rs:302-326 | if every write of the state file succeeds, a running clock is on file, and before the first restart so is a cleared one |
| `ConfigSync.NoClockWithoutOverride` | crates/agent/src/config_sync.rs:262-267 | before the first restart the clock runs only under an override |
| `ConfigSync.ClockIsReloaded` | crates/agent/src/config_sync.rs:127-158 | a restart by itself takes the clock over as it was; what loses it is the sync that follows |
| `RateLimiter.FromConfig` | crates/api-server/src/state.rs:257-267 | there is a limiter exactly when the limit is not zero, with that limit and window |
| `RateLimiter.Limiter.Check` | crates/api-server/src/state.rs:114-151 | the map and the decision after a check are those of the specification, and for any map: rejected if and only if the key's window is running and used up, let through unrecorded if and only if the key is new and 50,000 windows are running, recorded in the running window or a new one otherwise, with no other key touched but windows that are over |
| `RateLimiter.Limiter.PurgeExpired` | crates/api-server/src/state.rs:155-176 | a key is there afterwards if and only if its window is running, and with its entry as it was; a window of length zero is never running |
| `RateLimiter.DecidesRightly` | crates/api-server/src/state.rs:114-151 | the same of the specification that the runs below are made of |
| `RateLimiter.StepRefines` | crates/api-server/src/state.rs:114-176 | one check or sweep decides like the limiter that never evicts and stays in step with it |
| `RateLimiter.SweepsAreInvisible` | crates/api-server/src/state.rs:114-176 | over every run, as long as no new key meets a full map, each decision is that of a limiter that never evicts |
| `RateLimiter.LimitZeroWouldShowSweeps` | crates/api-server/src/state.rs:257-260 | with a limit of zero a sweep would change a decision |
| `RateLimiter.AdmissionsAreSound` | crates/api-server/src/state.rs:131-150 | over every run a key's windows are a full length apart, each is opened by an admission at its start and admits no more than the limit |
| `RateLimiter.BurstBound` | crates/api-server/src/state.rs:131-150 | over every run an interval of one window length holds at most 2 * limit - 1 counted admissions of a key |
| `RateLimiter.BurstBoundIsMet` | crates/api-server/src/state.rs:131-150 | for every limit and every window longer than one tick some run reaches that bound |
| `RateLimiter.OvertakenChecksExceedTheBound` | crates/api-server/src/state.rs:114-176 | a concrete interleaving of two callers and a sweep, one of them held up after reading the clock, that exceeds the bound |
| `RateLimiter.RejectionIsBounded` | crates/api-server/src/state.rs:145-150 | a rejection names a delay above zero and within the window: the end of the key's window |
| `RateLimiter.StaysBlocked` | crates/api-server/src/state.rs:155-176 | until the deadline nothing anybody does changes or removes a blocked key's entry |
| `RateLimiter.RetryAfterIsExact` | crates/api-server/src/state.rs:136-150 | every check before the deadline is rejected with the time left, and the first one at or after it is admitted, whatever other keys and sweeps do |
| `RateLimiter.CapHolds` | crates/api-server/src/state.rs:51-57 | with one caller at a time the map never exceeds the cap |
| `RateLimiter.AloneItIsDecide` | crates/api-server/src/state.rs:114-134 | the single steps of a check, not interrupted, amount to the whole check |
| `RateLimiter.NoNewKey` | crates/api-server/src/state.rs:117-134 | only a caller let through on the strength of the map's size makes room for a further key |
| `RateLimiter.MoveKeepsBound` | crates/api-server/src/state.rs:117-134 | every step of every caller and every sweep keeps map keys and pending keys together within cap plus callers less one |
| `RateLimiter.OvershootIsBounded` | crates/api-server/src/state.rs:51-57 | in every interleaving of T callers and background sweeps the map holds at most T - 1 keys above the cap |
| `LoadDriver.Driver.constructor` | crates/parse-load-harness/src/driver.rs:34-46 | a run starts with all slots free, and with the gate open or at the first ramp step |
| `LoadDriver.Driver.Await` | crates/parse-load-harness/src/driver.rs:71-84 | while the loop waits time passes, a task ends and frees its slot, or the ramp adds a permit if its step has passed |
| `LoadDriver.Driver.AcquireGate` | crates/parse-load-harness/src/driver.rs:80-84 | a ramp permit is used up for good, or the deadline has passed, or all moments are over and the gate is still shut |
| `LoadDriver.Driver.AcquireSlot` | crates/parse-load-harness/src/driver.rs:86-87 | one slot is held, or the deadline has passed, or all moments are over and no slot is free |
| `LoadDriver.Driver.Dispatch` | crates/parse-load-harness/src/driver.rs:89-105 | the next sequence number goes to a new task, which takes over the held slot |
| `LoadDriver.Driver.DispatchNext` | crates/parse-load-harness/src/driver.rs:58-106 | one turn of the loop: one bundle more is dispatched, before the deadline, unless the deadline passes, all moments are over while gate or slots are shut, or the corpus has no next bundle |
| `LoadDriver.Driver.Join` | crates/parse-load-harness/src/driver.rs:107-108 | the final join ends when no task is left, and otherwise has used up all moments |
| `LoadDriver.Driver.RunDriver` | crates/parse-load-harness/src/driver.rs:34-109 | at the end no task is in flight, every slot is back and the finished tasks are exactly 0 to emitted - 1, once each; with a total of n, exactly n; with a deadline none is dispatched after it; at no moment does the loop wait while the run goes on and gate and slots are open; it fails only where the corpus ends before the run is over, and gives up only when all moments are over while it still waits |
| `LoadDriver.RampBoundsDispatch` | crates/parse-load-harness/src/driver.rs:111-127 | by time t no more than 1 + t / step bundles are dispatched |
| `LoadDriver.InFlightIsBounded` | crates/parse-load-harness/src/driver.rs:37-38 | no more tasks are in flight than the concurrency, and all slots are free exactly when none is |
| `Encoding.Utf8Append` | crates/agent/src/collectors/evidence.rs:285-295 | after text, more bytes are text exactly when they are on their own |
| `Encoding.Utf8Cut` | crates/agent/src/collectors/evidence.rs:285-295 | text cut after a newline is text: no character hides one |
| `Encoding.Utf8IsEncodedText` | crates/agent/src/collectors/evidence.rs:245-250 | bytes count as text if and only if they encode a sequence of Unicode scalar values as in section 3 of RFC 3629 |
| `Encoding.CasesOfALetter` | crates/api-server/src/auth/device_identity.rs:161-166 | lower-casing identifies the two cases of an ASCII letter and nothing else |
| `Redaction.Apply` | crates/agent/src/redact.rs:185-208 | with its lazy copy, a new text exactly when some rule matches in its turn, and then the fold of all rules |
| `Redaction.CopyLines` | crates/agent/src/collectors/evidence.rs:278-296 | the read and write loop yields the line-by-line redaction, and a prefix of it when an operation fails |
| `Redaction.StagedFile.RedactWhole` | crates/agent/src/collectors/evidence.rs:245-257 | a text becomes its redaction, another file stays; a failing write leaves a prefix of the new text |
| `Redaction.StagedFile.RedactStreaming` | crates/agent/src/collectors/evidence.rs:263-305 | the file becomes its line-by-line redaction, or stays as it was when any operation fails, and then the temporary file holds nothing but a part of the redaction |
| `Redaction.RedactFile` | crates/agent/src/collectors/evidence.rs:214-224 | with rules that are local to lines, a text file is redacted in the same way whatever its size; a file that is not text stays up to 4 MiB and is redacted line by line above |
| `Redaction.TextLineByLine` | crates/agent/src/collectors/evidence.rs:285-295 | a file is text exactly when its first line and the rest are |
| `Redaction.ByLinesSplits` | crates/agent/src/collectors/evidence.rs:278-296 | line by line, what comes before a newline and what comes after it are redacted separately |
| `Redaction.EachLineByItself` | crates/agent/src/collectors/evidence.rs:285-295 | on the line-by-line path each line of any file is redacted by itself if it is text, and stays in the file as it is if it is not |
| `Redaction.LocalRulesSplit` | crates/agent/src/redact.rs:185-208 | a list of rules that are local to lines is local to lines |
| `Redaction.StreamingIsWholeFile` | crates/agent/src/collectors/evidence.rs:245-305 | on text, with such rules, line-by-line and whole-file redaction give the same bytes |
| `Redaction.PathsAreHidden` | crates/agent/src/redact.rs:63-70 | the path rule replaces each user name in a path and leaves a text without one alone |
| `Redaction.NoNameIsLeft` | crates/agent/src/redact.rs:63-70 | after the path rule no user name but the placeholder follows `C:\Users\` anywhere; redacting again changes nothing; a text stays as it is if and only if every name in it is hidden |
| `Redaction.PathsOverNewline` | crates/agent/src/redact.rs:63-70 | across a newline the path rule splits, except that a name reaching the end of the line swallows the start of the next |
| `Redaction.PathRuleStreamsIff` | crates/agent/src/collectors/evidence.rs:245-305 | under the path rule both ways agree on a text if and only if no name goes on from one line into the next |
| `Redaction.ANameOverTwoLines` | crates/agent/src/collectors/evidence.rs:245-305 | a concrete text, with a name broken by a newline, on which they differ |
| `Redaction.DefaultRulesStream` | crates/agent/src/redact.rs:63-109 | the path rule followed by rules local to lines: both ways agree while every name ends within its line |
| `Redaction.LineBoundRulesAreLocal` | crates/agent/src/redact.rs:185-208 | a rule whose matches reach over no newline and do not depend on what lies beyond one is local to lines |
| `Redaction.FirstMatchIsReplaced` | crates/agent/src/redact.rs:185-208 | a rule keeps what stands before the first match, writes its substitute for the match and goes on behind it |
| `Redaction.GuidIsLineBound` | crates/agent/src/redact.rs:72-78 | the GUID pattern with its word boundaries is such a pattern |
| `Redaction.GuidIsFiveRuns` | crates/agent/src/redact.rs:72-78 | the pattern is met exactly by 8, 4, 4, 4 and 12 hexadecimal digits joined by dashes |
| `Redaction.HexDigitsAre` | crates/agent/src/redact.rs:72-78 | the hexadecimal digits are the twenty-two characters of both cases |
| `Redaction.SidIsLineBound` | crates/agent/src/redact.rs:98-106 | so is the pattern for domain SIDs |
| `Redaction.SidIsPrefixAndFourNumbers` | crates/agent/src/redact.rs:98-106 | a match is exactly the prefix and four numbers joined by dashes between word boundaries, as long as the digits go |
| `Redaction.GuidAndSidAreLocal` | crates/agent/src/redact.rs:72-106 | so both rules are local to lines |
| `SanUri.AcceptedLanguage` | crates/api-server/src/auth/device_identity.rs:157-186 | a raw value is accepted as (t, d) if and only if it is s://t/d or s://t/d/ with s the expected scheme up to case, and t and d non-empty and free of slashes, the expected scheme being free of "://" |
| `SanUri.PrintParseRoundTrip` | crates/api-server/src/auth/device_identity.rs:157-186 | printing and parsing gives back exactly the well-formed URIs |
| `SanUri.SchemeRejections` | crates/api-server/src/auth/device_identity.rs:158-166 | when a value is refused for lack of a separator, and when and with what for its scheme |
| `SanUri.PathRejections` | crates/api-server/src/auth/device_identity.rs:167-178 | when a value is refused for lack of a tenant or of a device id, both directions |
| `SanUri.TrailingRejections` | crates/api-server/src/auth/device_identity.rs:173-181 | when a value is refused for trailing content, and which content is reported |
| `SanUri.CaseKeepsSeparator` | crates/api-server/src/auth/device_identity.rs:161-166 | a scheme that contains the separator can never match |
| `SanUri.CaseIsIgnoredOfLettersOnly` | crates/api-server/src/auth/device_identity.rs:161-166 | schemes match letter by letter up to the case of ASCII letters, and in no other way |
| `SanUri.PercentDecodePem` | crates/api-server/src/auth/device_identity.rs:434-453 | the loop decodes every complete escape, keeps broken ones as they are and refuses what is not UTF-8 |
| `SanUri.HexDigitsAre` | crates/api-server/src/auth/device_identity.rs:455-462 | a byte is a digit of a value exactly if it is its character in one of the two cases |
| `SanUri.EncodeDecodeRoundTrip` | crates/api-server/src/auth/device_identity.rs:426-433 | whatever set of bytes a proxy escapes in either case of digits, if it escapes the percent sign the bytes come back |
| `SanUri.UnescapedPercentIsAmbiguous` | crates/api-server/src/auth/device_identity.rs:426-433 | without that they need not |
| `SanUri.DecodingIsIdentityIff` | crates/api-server/src/auth/device_identity.rs:434-453 | a header comes through unchanged exactly when it holds no complete escape |
| `KqlLexer.SortByLength` | src/lib/kql-lexer.ts:33 | no operator comes before a longer one |
| `KqlLexer.SortKeepsAll` | src/lib/kql-lexer.ts:33 | every operator is there as often as it is listed |
| `KqlLexer.Longest` | src/lib/kql-lexer.ts:80-91 | the longest listed operator that a text starts with |
| `KqlLexer.ReadWhile` | src/lib/kql-lexer.ts:42-45 | the loop stops at the end of the longest run of matching characters |
| `KqlLexer.MatchOperator` | src/lib/kql-lexer.ts:80-87 | the first match in the sorted list is the longest match in the list as written |
| `KqlLexer.ReadString` | src/lib/kql-lexer.ts:66-72 | a string runs to its closing quote or to the end |
| `KqlLexer.Scan` | src/lib/kql-lexer.ts:49-111 | one turn of the loop reads the longest-match token |
| `KqlLexer.Tokenize` | src/lib/kql-lexer.ts:47-112 | terminates with the longest-match reading of the query |
| `KqlLexer.LexIsLossless` | src/lib/kql-lexer.ts:47-112 | the tokens tile the query without gap, overlap or empty token, and their texts make it up |
| `KqlLexer.TileAt` | src/lib/kql-lexer.ts:17-22 | each token's text is the slice between its bounds and it starts where the one before it ends |
| `KqlLexer.OperatorsAreLongest` | src/lib/kql-lexer.ts:80-91 | an operator token is the longest listed operator at its place, and a word never starts with a listed operator |
| `KqlLexer.TokensFollowGrammar` | src/lib/kql-lexer.ts:47-112 | every token of every query is of the kind its first character says and as long as its kind goes on: white space, numbers and words to their end, strings to the next quote or the end of the query, an operator the longest one, a word filed under the first list that holds it |
| `KqlLexer.WordsIgnoreCase` | src/lib/kql-lexer.ts:93-105 | keywords and functions are found whatever the case of their letters |
| `KqlLexer.CountIsNeverAFunction` | src/lib/kql-schema.ts:41-53 | in the query bar `count` is listed as a function but always read as a keyword |
| `KqlLexer.LexFrom` | src/lib/kql-lexer.ts:47-112 | reading on from the start of any token gives the remaining tokens |
| `KqlLexer.LexUpTo` | src/lib/kql-autocomplete.ts:16-19 | the tokens up to a cursor are the query's own that end there or earlier, then at most one cut token that starts with one of the query's |
| `KqlLexer.PrefixStability` | src/lib/kql-autocomplete.ts:16-19 | for any word lists, lexing up to a cursor is stable for all queries and cursors if and only if every proper prefix of an operator is read as one token |
| `KqlLexer.SliceIsStable` | src/lib/kql-lexer.ts:47-112 | a slice between token boundaries is read as the tokens between them, so each token stands alone |
| `KqlLexer.KqlCutsClean` | src/lib/kql-schema.ts:54-56 | the operators of the query bar meet that condition |
| `KqlLexer.QueryBarIsCursorSafe` | src/lib/kql-autocomplete.ts:16-19 | so in the query bar all tokens before the cursor but the last are the query's, and at a token boundary the last one too |
| `Highlight.IndexOf` | src/components/EntryList.tsx:564-576 | the first occurrence at or after a position, and none exactly when there is none |
| `Highlight.CollectMatches` | src/components/EntryList.tsx:564-576 | the loop terminates with the greedy choice of matches; none for an empty needle |
| `Highlight.Greedy` | src/components/EntryList.tsx:564-576 | the spans are exact occurrences, in order and disjoint |
| `Highlight.GreedyIsMaximum` | src/components/EntryList.tsx:564-576 | no set of disjoint occurrences is larger |
| `Highlight.GreedyIsDisjoint` | src/components/EntryList.tsx:564-576 | the spans are such a set themselves |
| `Highlight.Render` | src/components/EntryList.tsx:530-562 | whatever the spans, the pieces make up the text and the marks are the slices at the spans |
| `Highlight.RenderHighlighted` | src/components/EntryList.tsx:530-562 | the same for any lower-casing, with the greedy spans of the lower-cased text |
| `Highlight.MarksShowTheNeedle` | src/components/EntryList.tsx:564-576 | if no letter up to the end of a match becomes longer in lower case, what is marked is the needle up to case |
| `Highlight.MarksItsLettersIff` | src/components/EntryList.tsx:564-576 | for any lower-casing, letter by letter in context, that drops no letter: a mark covers exactly the letters its match came from if and only if no letter before the match becomes longer and the match starts with a letter, and it reaches the last letter of the text or no letter before its own last one becomes longer and it takes one character of that one |
| `Highlight.WholeLettersMarkedIff` | src/components/EntryList.tsx:564-576 | for a match of whole letters before the text's end: if and only if no letter up to its end becomes longer |
| `Highlight.AllMarksAreRightIff` | src/components/EntryList.tsx:564-576 | all marks of a text are right if and only if the last one is |
| `Highlight.RightMarksShowTheirLetters` | src/components/EntryList.tsx:530-562 | a right mark shows exactly those letters |
| `Highlight.LongerLowerCaseShiftsMarks` | src/components/EntryList.tsx:564-576 | a concrete text with a letter that becomes longer: its only match marks nothing |

## Left out

- HTTP, TLS, JSON and URL building: an exchange is a request, and a reply or one of the failures the client can tell apart; a request that cannot be built does not occur.
- The parse worker, device registration and metrics: nothing in the pipeline reads them back.
- Delivery.CommitIsStable: does not model retention as an event of the system, because what it does to a bundle that is still held is one step (`View.RetentionReopens`).
- The size limit on a response, authentication and the device header: every request carries its device.
- Reading a staging file in blocks, and the blob store behind it: hashing and shipping see the whole file in one step.
- Two agents that share one device id.
- Queue capacity: the queue does not enforce it.
- The stop signal's ten-second limit: a final drain that is cut off is a drain that stops anywhere.
- Validation of an override, the fetch interval and its jitter: a fetch yields a valid override, another status or nothing.
- What the loop does with a changed config: the running collectors and the uploader do not see it before a restart.
- RateLimiter.Limiter.Check: does not model the width of the counter, because the limit keeps it small.
- RateLimiter.OvershootIsBounded: the sweep of the sharded map is one step, because the source calls each of its outcomes correct.
- LoadDriver.Driver.RunDriver: a run that never ends is observed up to the last of the given moments, because the loop itself has none.
- TaskLoop.RunTaskLoop: the endless loop is observed up to the end of a schedule, because only the stop signal ends it.
- Uploader.CommittedDespiteLateRequests: a late request that is handled while an attempt is under way is not counted, because it may also be a write that is outstanding at finalize, which wedges the bundle.
- RateLimiter.BurstBound: does not cover checks that overtake each other between reading the clock and locking the entry, because it fails for them (`RateLimiter.OvertakenChecksExceedTheBound`).
- The patterns for e-mail addresses and internal addresses, and decimal digits outside ASCII.
- Redaction.DefaultRulesStream: the other default rules are arbitrary functions local to lines, because the regular-expression engine is not part of this model.
- KqlLexer.Tokenize: characters outside the basic plane are one character here and two code units in the source, because both are read as unknown single characters.
- The directory walk of redaction, with the files it skips by name or extension.
- Certificates, chains and revocation lists, and the other two encodings of the certificate header.
- Suggestions, query execution and the rest of the user interface.
