# A verified model of the FBS interlock gateway

The gateway stands between a booking system (FBS) and Shelly relays. FBS requests switch
tools on and off and have priority; an admin page probes the same devices in the background;
logs are copied to a rotating archive; the configuration lives in SQLite. This project models
the stateful and concurrent parts of the gateway and proves what they guarantee. Verify it
with `dafny verify dfyconfig.toml`.

Two kinds of model are used side by side. A class holds the fields the program updates in
place, and its methods are the program's methods, each proved against a function on values.
A step system takes the same functions and lets any number of requests, threads or
goroutines interleave: a label per lock operation, critical section or channel operation, a
map from request to program counter, and histories where a property speaks of the past. A
run is a sequence of states and labels, and the main results hold in every state of every
run.

| module | what it holds |
|---|---|
| `RequestSlot` | the one-token gate of a device, the FBS waiter count, pre-emption of Admin probes |
| `AuthLoop` | the 401/429 loop, the unauthenticated loop, status retries, and their send bounds |
| `SessionSystem` | the digest session under interleaved requests, one read or write at a time |
| `SessionAtomicity` | every authenticated call of `SessionSystem` behaves as the loop of `AuthLoop` run alone |
| `DigestHeader` | the printed Authorization header and the quote-aware splitter |
| `DigestServer` | a server that checks a printed header as RFC 7616 prescribes |
| `DigestChallenge` | the challenge parser and the making of a session |
| `RebootRecovery` | in-flight suppression and cooldown of device reboots |
| `AsyncLog` | the asynchronous log queue: byte accounting, drops, barriers, drain on close |
| `Records`, `Pruning` | record truncation; the archive directory, its listing and the pruning loops |
| `LogArchive` | rotation, writing, cleanup and the byte budgets of one caller |
| `ArchiveRefinement` | every write of `LogArchive` is a sequence of steps of one thread of `ArchiveExport` |
| `ArchiveExport` | export beside writers, cleanups and closers under the two-level lock |
| `LogPipeline` | the queue on top of the archive: what `AsyncStore.Export` covers |
| `StatusStore` | revisioned status rows |
| `FleetRefresh`, `WorkerPool` | FBS writers against the single-flight refresh; its worker pool |
| `GatewayConfig` | defaults and validation |
| `ConfigStore`, `ConfigTheorems` | transactional replacement, stable ids, loading; what they guarantee |
| `Text`, `Optional` | string operations and an option type |

## Where the obvious property fails

- Four sends per authenticated call: true exactly for calls shorter than the session age of
  55 minutes (`AuthLoop.FourSendsExactly`). The retry-limit exit is dead exactly for calls
  shorter than three session ages (`AuthLoop.RetryLimitExactly`).
- A session holds the realm, nonce and opaque value the device meant: true exactly when none of
  them contains a quotation mark or a backslash, whatever else the challenge contains and in
  whatever order, because the challenge parser strips quotes without undoing quoted pairs,
  contrary to section 5.6.4 of RFC 9110 (`DigestChallenge.SessionHoldsExactly`;
  `DigestChallenge.QuotedPairNotUndone` is an input).
- Ids assigned by a replacement are distinct: true exactly when no two incoming tools continue
  the same stored row; otherwise the whole transaction rolls back
  (`ConfigTheorems.SameIdExactly`, `ConfigTheorems.CommitsExactly`,
  `ConfigTheorems.CollisionRollsBack`).
- A write keeps the archive below its total budget plus one cleanup period: true for every
  behaviour of the disk exactly when the bytes there are and the truncated record together are
  below it (`LogArchive.BudgetExactly`). A store that is exactly at its total budget, and a
  record that makes cleanup due while the directory cannot be listed, break it
  (`LogArchive.BudgetBroken`); the write then disables all later ones.

## Model

| member | source | states |
|---|---|---|
| RequestSlot.DeviceAuthState.constructor | internal/shelly/client.go:770-774 | a new device has one token, no waiter and no registered probe |
| RequestSlot.DeviceAuthState.AcquireAdmin | internal/shelly/client.go:786-824 | a probe is admitted exactly when its context is live, no FBS request is announced and the token is there; then it owns the token and its cancel function is stored, otherwise nothing changed; this is what the interleaved steps do when nothing comes between them |
| RequestSlot.DeviceAuthState.Announce | internal/shelly/client.go:829-832 | the waiter count grows by one and the stored cancel function is captured |
| RequestSlot.DeviceAuthState.TryTake | internal/shelly/client.go:838-845 | an FBS request takes the token exactly when there is one |
| RequestSlot.DeviceAuthState.Withdraw | internal/shelly/client.go:840-849 | on either branch the waiter count goes down by one and nothing else changes |
| RequestSlot.DeviceAuthState.Clear | internal/shelly/client.go:814-816 | the probe's cancel function is forgotten and nothing else changes |
| RequestSlot.DeviceAuthState.Release | internal/shelly/client.go:853-855 | with room in the channel the token goes back |
| RequestSlot.MoveCounts | internal/shelly/client.go:786-855 | every step moves the token and the waiter count together with the request that takes it |
| RequestSlot.SlotStep | internal/shelly/client.go:786-855 | every step of every request keeps the whole slot invariant |
| RequestSlot.RunInv | internal/shelly/client.go:786-855 | the slot invariant holds in every reachable state |
| RequestSlot.OneTokenEver | internal/shelly/client.go:482-556 | tokens in the gate plus requests owing a release is exactly one, so at most one request is between acquire and body close |
| RequestSlot.ReleasedExactlyOnce | internal/shelly/client.go:72-81 | the release send always finds room; a finished request has sent back exactly what it received, and closing its body again changes nothing |
| RequestSlot.WaitingFbsHasPreempted | internal/shelly/client.go:826-836 | a probe that holds the slot while an FBS request waits is already cancelled or already releasing |
| RequestSlot.NoAdminAdmittedMeanwhile | internal/shelly/client.go:793-806 | from announcement to withdrawal of an FBS request no probe reaches for the token, and each that looks is refused |
| RequestSlot.StageRun | internal/shelly/client.go:826-851 | an FBS request passes through acquireFBS once, never back |
| RequestSlot.CalledExactlyWithToken | internal/shelly/client.go:482-521 | in every run a request that got the token has talked to the device before it gives the token back, and one that never got it has not |
| RequestSlot.FbsAlone | internal/shelly/client.go:826-843 | a lone live FBS request on a free slot ends at the device, owing the token |
| RequestSlot.FbsGivesUpAlone | internal/shelly/client.go:845-849 | an FBS request whose context ends while there is no token leaves the device as it was |
| RequestSlot.HeldUntilClose | internal/shelly/client.go:544-553 | from the response to the first Close of its body a request keeps the slot, and nobody else talks to the device |
| RequestSlot.PreemptionDefers | internal/shelly/client.go:834-836 | the pre-empted probe, and only it, is told that it was deferred, unless its context was over already |
| RequestSlot.ContextsEnd | internal/shelly/client.go:811-821 | only probes are deferred, and none gives back the token with a live context |
| RequestSlot.NoDeadlock | internal/shelly/client.go:786-855 | mutex and channel never block each other: unless a request talks to the device, some unfinished request can move |
| AuthLoop.SessionHolder.Authorize | internal/shelly/client.go:600-623 | an expired session is dropped; a kept one is counted up unless the URL does not parse; the exhausted branch is dead |
| AuthLoop.SessionHolder.Receive | internal/shelly/client.go:630-675 | what each answer does to the session, the failure and throttle flags and the loop |
| AuthLoop.SessionHolder.DoAuthenticatedGet | internal/shelly/client.go:589-679 | the loop's sends, final session and ending are those of the function AuthRun |
| AuthLoop.DoUnauthenticatedGet | internal/shelly/client.go:565-587 | the loop's sends and ending are those of the function PlainRun |
| AuthLoop.GetStatus | internal/shelly/client.go:197-263 | the sends and success of a status operation over its attempts; success needs an attempt that succeeded |
| AuthLoop.SecondAttemptExactly | internal/shelly/client.go:719-753 | a status operation succeeds exactly when its first attempt is good, or when that is worth retrying after a full pause and the second is good; only then is the second made; never for a deferred probe, a certificate error or a caller that gave up |
| AuthLoop.OneAttempt | internal/shelly/client.go:599-676 | the loop unfolded by one attempt |
| AuthLoop.CallExactly | internal/shelly/client.go:589-679 | how every call ends and what session it leaves, told from the attempts alone: with the first attempt that answers or fails it, at the retry limit if none does |
| AuthLoop.OrdinaryAnswerReturned | internal/shelly/client.go:673-674 | an answer other than 401 and 429 ends the call as a response with that status, and keeps the session, counted up by one |
| AuthLoop.FirstAnswerReturned | internal/shelly/client.go:599-674 | the same of the first request of a call, from what the call found |
| AuthLoop.FailsExactly | internal/shelly/client.go:606-672 | a call fails if and only if some attempt meets an unparsable URL with a session, a failed send, a 401 without a usable challenge or an interrupted pause, and none before ended it |
| AuthLoop.PlainExactly | internal/shelly/client.go:565-587 | a call without password ends with its first answer, unless that is a 429 whose pause is waited out; then with the second |
| AuthLoop.PlainStatusAtOnce | internal/shelly/client.go:197-263 | a good first answer makes a status operation succeed with one request, for a tool without password |
| AuthLoop.SessionStatusAtOnce | internal/shelly/client.go:197-263 | and for one with a password and a session that is still good |
| AuthLoop.UnacquiredSendsNothing | internal/shelly/client.go:482-495 | an attempt that does not get the slot sends nothing and is no success |
| AuthLoop.WithinBudget | internal/shelly/client.go:589-679 | from any loop position the remaining sends are bounded by what failures, throttling, renewal and expiry still allow |
| AuthLoop.SendBound | internal/shelly/client.go:589-679 | at most four sends, plus one for each full session age the call lasts |
| AuthLoop.ResponseExplained | internal/shelly/client.go:630-675 | a response ends a call only as its last answer after nothing but 401s and at most one 429; a 429 ends it only as the second, a 401 only after an earlier one and with the session gone |
| AuthLoop.FourSendsExactly | internal/shelly/client.go:589-679 | four sends are enough for all calls of a duration if and only if it is shorter than the session age |
| AuthLoop.FiveSends | internal/shelly/client.go:600-602 | an input that sends five times |
| AuthLoop.RetryLimitExactly | internal/shelly/client.go:678 | the retry-limit exit is dead for all calls of a duration if and only if it is shorter than three session ages |
| AuthLoop.RetryLimitReached | internal/shelly/client.go:678 | an input that ends at the retry limit |
| AuthLoop.NeverExhausted | internal/shelly/client.go:613-622 | whatever the loop meets, it never asks an exhausted session for a header |
| AuthLoop.PlainSendBound | internal/shelly/client.go:565-587 | at most two sends, and the final error return is dead |
| AuthLoop.EightSends | internal/shelly/client.go:197-263 | a status operation of two attempts sends at most eight requests |
| AuthLoop.EightSendsAttained | internal/shelly/client.go:197-263 | eight is attained |
| SessionSystem.MoveKeeps | internal/shelly/client.go:599-676 | each single read or write of the loop keeps the nonce accounting |
| SessionSystem.SoleCaller | internal/shelly/client.go:482-521 | two requests inside the loop are the same request |
| SessionSystem.RunInv | internal/shelly/client.go:589-679 | slot invariant and nonce accounting hold in every reachable state |
| SessionSystem.EntersAtTop | internal/shelly/client.go:498-521 | whoever gets through to the device starts the authenticated loop at its top if and only if the tool has a password |
| SessionSystem.EndHandedOver | internal/shelly/client.go:523-533 | a call that ended hands over a response if and only if it has one, else an error |
| SessionSystem.NonceCountsConsecutive | internal/shelly/digest.go:81-95 | the counts a session has put into headers are 1, 2, 3, ... up to at most 30000, and no request takes the exhausted exit |
| SessionSystem.HeaderCarriesNextCount | internal/shelly/digest.go:94-95 | each header carries one more than the number of headers the session signed before |
| SessionAtomicity.MoveRefines | internal/shelly/client.go:599-676 | a single read or write leaves what the call is going to do unchanged |
| SessionAtomicity.OthersAway | internal/shelly/client.go:482-556 | while a request is in its call no other step touches the session |
| SessionAtomicity.CallsAreAtomic | internal/shelly/client.go:589-679 | in every run a finished call has left the session, sent as often and ended, with the same response or error, as the loop run alone on what it met |
| SessionAtomicity.EnvFeeds | internal/shelly/client.go:599-676 | what a call met can always be put together from the labels of its run, each field being read once |
| SessionAtomicity.EveryCallIsAtomic | internal/shelly/client.go:589-679 | atomicity of every finished call of every run, on what its own labels say it met |
| SessionAtomicity.EveryCallEndsRight | internal/shelly/client.go:589-679 | in every run each finished call has ended as its own attempts say, whatever other requests did meanwhile |
| SessionAtomicity.FourSendsInEveryRun | internal/shelly/client.go:589-679 | in every run a call whose own clock readings span less than the session age sends at most four requests, finished or not |
| DigestHeader.UnescapeEscape | internal/shelly/digest.go:240-244 | undoing quoted pairs recovers every escaped value |
| DigestHeader.SplitDigestHeader | internal/shelly/digest.go:203-238 | the loop yields the parts of the recursive splitter |
| DigestHeader.ScanQuoted | internal/shelly/digest.go:210-231 | the splitter passes over a quoted value whole, whatever it holds |
| DigestHeader.SplitJoin | internal/shelly/digest.go:203-238 | splitting any printed parameter list gives back exactly its parameters |
| DigestHeader.ReadPrinted | internal/shelly/fuzz_test.go:292-317 | a printed parameter reads back as its name and original value |
| DigestHeader.HexNeedsNoEscape | internal/shelly/digest.go:105-115 | the response is printed unescaped and needs no escape |
| DigestHeader.HeaderRoundTrip | internal/shelly/digest.go:100-138 | for all user names, realms, nonces, URIs and opaque values the header splits into its parameters in order and each reads back |
| DigestHeader.CountRoundTrip | internal/shelly/digest.go:95 | the printed nonce count reads back as the count |
| DigestHeader.DigestSession.constructor | internal/shelly/digest.go:64-72 | a new session has issued no count |
| DigestHeader.DigestSession.NextAuthorizationHeader | internal/shelly/digest.go:81-139 | at 30000 an error and no change; otherwise the next count and the header that carries it |
| DigestServer.FoundValue | internal/shelly/digest.go:105-136 | a server that splits and unquotes the header finds exactly the session's values under their names, and no quality-of-protection fields without one |
| DigestServer.ServerAccepts | internal/shelly/digest.go:97-138 | for all inputs the header passes the check of section 3.4.1 of RFC 7616 under the user's password, and the count read is the session's |
| DigestServer.OtherPasswordNeedsCollision | internal/shelly/digest.go:97-103 | under another password it passes only through a hash collision |
| DigestChallenge.ReadChallenge | internal/shelly/digest.go:178-201 | the loop yields the parameter map of the recursive parser |
| DigestChallenge.ChooseDigestQop | internal/shelly/digest.go:168-176 | "auth" exactly when some comma-separated part is auth in any case |
| DigestChallenge.OffersExactly | internal/shelly/digest.go:168-176 | a comma-separated list offers auth if and only if one element is that word, in any case and with spaces around it |
| DigestChallenge.SplitJoined | internal/shelly/digest.go:169 | splitting at commas undoes joining with commas |
| DigestChallenge.NewDigestSession | internal/shelly/digest.go:28-73 | the session or the first complaint about the challenge |
| DigestChallenge.RecoveredExactly | internal/shelly/digest.go:193-197 | a quoted value is recovered if and only if it holds no quote and no backslash |
| DigestChallenge.ChallengeRead | internal/shelly/digest.go:178-201 | parsing a printed challenge yields exactly its names with the received values |
| DigestChallenge.SessionHoldsExactly | internal/shelly/digest.go:28-73 | for every printed challenge, the session made holds the realm, nonce and opaque value the device meant if and only if none of them needs a quoted pair |
| DigestChallenge.SessionNeedsRealmAndNonce | internal/shelly/digest.go:36-41 | for every printed challenge, the two missing-parameter errors occur exactly when realm, or else nonce, is absent or empty |
| DigestChallenge.SessionMadeExactly | internal/shelly/digest.go:28-73 | for every printed challenge a session is made if and only if realm and nonce are given, the algorithm is absent or SHA-256, auth is offered or no quality of protection named, and randomness works if auth is used; auth is used exactly if offered, and only then a client nonce is drawn |
| DigestChallenge.SessionExactly | internal/shelly/digest.go:28-73 | for the challenge with quality of protection auth: a session is made if and only if realm and nonce are not empty, and is the one the device meant if and only if no value needs a quoted pair |
| DigestChallenge.QuotedPairNotUndone | internal/shelly/digest.go:194-195 | a realm whose quoted pair survives parsing |
| RebootRecovery.Client.ScheduleReboot | internal/shelly/client.go:377-415 | the new recovery table and whether a reboot starts |
| RebootRecovery.Client.FinishReboot | internal/shelly/client.go:430-434 | only the in-flight flag of that device goes down |
| RebootRecovery.KeyStep | internal/shelly/client.go:385-434 | every report and every finished reboot keeps spacing, flag and last attempt in agreement |
| RebootRecovery.AttemptsSpaced | internal/shelly/client.go:383-415 | in every run attempts on a device are a cooldown apart and at most one is in flight, even when clock readings arrive out of order |
| RebootRecovery.WindowOfSpaced | internal/shelly/client.go:399-413 | spaced times put at most floor(w / cooldown) + 1 into a window of length w |
| RebootRecovery.AttemptsInWindow | internal/shelly/client.go:377-453 | the same for the recorded attempts of every run |
| RebootRecovery.ReportStartsExactly | internal/shelly/client.go:377-415 | in every reachable state a report starts a reboot if and only if the device has an address, none is under way and the last attempt is at least a cooldown ago; other devices are not affected |
| RebootRecovery.FinishAllowsNext | internal/shelly/client.go:424-434 | when a reboot ends, the next report starts one if and only if the cooldown is over |
| RebootRecovery.WindowBoundAttained | internal/shelly/client.go:377-453 | the bound is attained |
| AsyncLog.AsyncStore.constructor | internal/applog/async.go:38-46 | an empty open queue |
| AsyncLog.AsyncStore.Write | internal/applog/async.go:48-71 | an open queue with at most 8388608 bytes and fewer than 1024 jobs accepts the truncated record, any other open one counts one drop, a closed one does nothing; the full length is reported |
| AsyncLog.AsyncStore.TryFlush | internal/applog/async.go:113-124 | a closed queue ends the flush, a full one makes it wait, otherwise the barrier is queued |
| AsyncLog.AsyncStore.BeginClose | internal/applog/async.go:161-166 | the queue is closed and keeps its contents |
| AsyncLog.AsyncStore.Turn | internal/applog/async.go:80-91 | one job: a barrier is passed, a record handed over and deducted |
| AsyncLog.AsyncStore.Drain | internal/applog/async.go:78-91 | on a closed queue the loop hands over all records in order, passes all barriers and ends with nothing counted |
| AsyncLog.LogStep | internal/applog/async.go:48-176 | every step of every writer, flush, close and of the worker keeps the invariant |
| AsyncLog.RunInv | internal/applog/async.go:48-176 | the queue invariant holds in every reachable state |
| AsyncLog.HandedIsPrefix | internal/applog/async.go:73-91 | records handed to the archive are a prefix, in order, of the accepted ones; the rest is in hand or queued |
| AsyncLog.FlushCovers | internal/applog/async.go:103-140 | when a flush returns nil every record accepted before its barrier has been handed over |
| AsyncLog.CloseDrains | internal/applog/async.go:157-172 | when close has seen the worker end, all accepted records have been handed over |
| AsyncLog.FinalAfterDrain | internal/applog/async.go:161-172 | nothing is accepted after the drain |
| AsyncLog.QueuedBytesExact | internal/applog/async.go:56-69 | seen with the mutex free, queuedBytes is the length of the accepted, undeducted records, and it stays between 0 and 8 MiB |
| AsyncLog.SendNeverBlocks | internal/applog/async.go:62-68 | the send in Write finds room and an open channel whatever the worker does meanwhile |
| AsyncLog.EveryWriteCounted | internal/applog/async.go:56-70 | each write that found the queue open accepted its record or added one drop |
| AsyncLog.OneWriteCounted | internal/applog/async.go:56-70 | each single write has by its own steps accepted exactly one record or counted exactly one drop if it found the queue open, and neither if it found it closed |
| AsyncLog.DropsExactly | internal/applog/async.go:56-65 | in every run the drop count grows exactly at a write that finds an open queue with more than 8388608 bytes or 1024 jobs, and at no other step |
| AsyncLog.RoomAccepts | internal/applog/async.go:48-71 | a write that finds room accepts its record |
| AsyncLog.WorkerNeverStuck | internal/applog/async.go:73-101 | in every run, while there is work in the queue or it is to be closed, somebody can take a step |
| Records.TruncateRecord | internal/applog/store.go:214-228 | the length limit, the kept prefix and the marker at the end |
| Pruning.ListingSorted | internal/applog/store.go:504-511 | the listing is the directory in order of age, nothing lost or added |
| Pruning.TwoPassIsSweep | internal/applog/store.go:442-466 | the two passes remove, count and fail exactly as one oldest-first sweep |
| Pruning.SweepIsShortestPrefix | internal/applog/store.go:446-465 | the sweep removes the shortest oldest-first run, current file excepted, after which the rest fits |
| Pruning.SweepFits | internal/applog/store.go:434-476 | if the current file fits alone the rest fits after the sweep |
| Pruning.SweepTracked | internal/applog/store.go:446-465 | whatever removals fail, the running total is exact and the current file stays |
| LogArchive.Store.CreateLogFileLocked | internal/applog/store.go:285-310 | the first free name of the next thousand, or none |
| LogArchive.Store.RotateLocked | internal/applog/store.go:263-283 | the store after rotation, a failed close included |
| LogArchive.Store.DisableWritesLocked | internal/applog/store.go:254-261 | writes are off and no file is open |
| LogArchive.Store.DisableWrites | internal/applog/store.go:239-252 | only an enabled, open store is disabled |
| LogArchive.Store.Close | internal/applog/store.go:519-544 | the first close closes the file and reports sync and close errors, later ones change nothing and report none |
| LogArchive.Store.Write | internal/applog/store.go:150-212 | the whole state after a write for every way the disk can behave; the full length is reported |
| LogArchive.Store.WriteOpenFile | internal/applog/store.go:183-209 | append, accounting and cleanup, with the error paths |
| LogArchive.Store.Cleanup | internal/applog/store.go:404-477 | the directory left and whether cleanup returned nil |
| LogArchive.Store.ExpireOld | internal/applog/store.go:412-427 | the age loop up to its first failed removal |
| LogArchive.Store.PruneToSize | internal/applog/store.go:434-476 | the size loops on the listing's total |
| LogArchive.Store.PrunePass | internal/applog/store.go:446-465 | one of the two passes |
| LogArchive.Open | internal/applog/store.go:78-119 | the first of the five reasons not to open, or else a store over the files left after cleanup with a fresh current file |
| LogArchive.OpenSucceeds | internal/applog/store.go:78-119 | on a disk that serves it, opening over any files with a directory and valid options succeeds |
| LogArchive.CleanupShrinks | internal/applog/store.go:404-477 | cleanup adds nothing, keeps the current file, and on nil the total is within the hard limit |
| LogArchive.CleanedExactly | internal/applog/store.go:404-477 | a served cleanup removes exactly the files older than the maximum age and then the shortest oldest-first run that brings the rest within the total budget; the current file stays |
| LogArchive.RotationExactly | internal/applog/store.go:263-310 | rotation fails if and only if the old file cannot be closed or no new one made, and otherwise remembers the day |
| LogArchive.HardLimitErrorUnreachable | internal/applog/store.go:468-474 | when listings and removals work the final error cannot occur |
| LogArchive.RotateKeeps | internal/applog/store.go:263-310 | rotation keeps every file and makes a fresh current one |
| LogArchive.WriteKeeps | internal/applog/store.go:150-212 | one write keeps the file and byte budgets and adds at most one record |
| LogArchive.OpenKeeps | internal/applog/store.go:105-118 | an opened store starts within its budgets |
| LogArchive.WriteStores | internal/applog/store.go:168-196 | a write that the disk serves puts exactly the truncated record at the end of the current file, or alone into a new one when the day changed, no file is open or it would not fit; no other file changes |
| LogArchive.WriteRemembers | internal/applog/store.go:168-209 | after a served write the store knows today as the day of its file, the exact size of it, and the bytes since the last cleanup |
| LogArchive.TwoWritesOneFile | internal/applog/store.go:168-196 | two served writes of one day that fit together end up in one file, in order |
| LogArchive.FirstTwoOfTheDay | internal/applog/store.go:168-178 | the first two records of a day share a fresh file, alone |
| LogArchive.WriteDisablesExactly | internal/applog/store.go:174-203 | a write disables later ones if and only if a rotation it needed or its append failed |
| LogArchive.BudgetsHold | internal/applog/store.go:150-212 | over every sequence of writes: each file within MaxFileBytes, the total within MaxTotalBytes plus bytesSinceGC while enabled, and one record more at most |
| LogArchive.BudgetExactly | internal/applog/store.go:183-209 | a write stays below the total budget plus one cleanup period for all behaviours of the disk if and only if present bytes and truncated record do |
| LogArchive.BudgetBroken | internal/applog/store.go:205-209 | a reachable store, a record and a disk whose directory listing fails that end at the bound with writes disabled |
| LogArchive.ServedNeverDisabled | internal/applog/store.go:205-209 | while the disk serves every call, writes are never disabled |
| ArchiveRefinement.WriteIsSteps | internal/applog/store.go:150-212 | every write, for every behaviour of the disk, is a sequence of steps of one thread that ends with the same files, open file and flags and decides the fate of exactly its record |
| ArchiveRefinement.WriteRefines | internal/applog/store.go:150-261 | so it runs among any other threads while the locks are free |
| ArchiveExport.Step | internal/applog/store.go:159-203 | every step of writers, cleanups, exports and closers keeps the invariant |
| ArchiveExport.RunInv | internal/applog/store.go:150-544 | the invariant holds in every state reachable from a store opened over any files |
| ArchiveExport.ExportUndisturbed | internal/applog/store.go:337-364 | while an export copies, no file of its snapshot is deleted and each still begins with the snapshot's bytes |
| ArchiveExport.ExportExact | internal/applog/store.go:312-394 | a finished export holds exactly the snapshot's bytes, file by file, and every earlier record but skipped and pruned ones |
| ArchiveExport.SnapshotTaken | internal/applog/store.go:366-394 | the snapshot of an export is the whole directory of one moment of the run, when the export held mu |
| ArchiveExport.OffForGood | internal/applog/store.go:159-166 | in every run, once the archive is closed or its writes are disabled no file is made or changed again and every later record is skipped |
| ArchiveExport.ShutIsFinal | internal/applog/store.go:239-261 | after Close or disableWrites no file is open and nothing is written any more |
| ArchiveExport.InsideMuMoves | internal/applog/store.go:159-203 | a thread that holds mu can always move |
| ArchiveExport.NoDeadlock | internal/applog/store.go:404-410 | archiveMu before mu admits no deadlock |
| LogPipeline.RunInv | internal/applog/async.go:73-147 | queue, archive and their joints keep their invariants in every run |
| LogPipeline.ExportCoversAccepted | internal/applog/async.go:142-147 | every record accepted before AsyncStore.Export was called is in the exported bytes unless it was pruned or archive writes were off |
| LogPipeline.CloseSettlesAccepted | internal/applog/async.go:157-172 | when a close has seen the worker end, every record ever accepted is in its archive file, or the file has been pruned, or archive writes were off |
| LogPipeline.RecordMoves | internal/applog/async.go:80-91 | in every run the worker with a record in hand can begin its write, or the archive can move, or the record is handed over |
| StatusStore.Store.constructor | internal/status/store.go:41-61 | placeholder rows in configuration order |
| StatusStore.Store.NextRevision | internal/status/store.go:66-68 | a revision one higher than the last |
| StatusStore.Store.Record | internal/status/store.go:101-116 | the rows and listing order after a result of some revision |
| StatusStore.Store.RecordSuccess | internal/status/store.go:71-80 | a connected row with that output is merged |
| StatusStore.Store.RecordFailure | internal/status/store.go:84-96 | a disconnected row with the safe output and the error is merged |
| StatusStore.Store.Snapshot | internal/status/store.go:119-130 | the rows of the known ports in listing order |
| StatusStore.LastOfHighestWins | internal/status/store.go:101-116 | after any calls a port shows the last call among those of highest revision |
| StatusStore.ArrivalOrderIrrelevant | internal/status/store.go:101-116 | with distinct revisions the rows do not depend on the order of arrival |
| StatusStore.PlaceholdersOrder | internal/status/store.go:47-58 | a new store lists each configured port once, in configuration order |
| StatusStore.ListingOrder | internal/status/store.go:101-116 | after any calls every known port is listed once, configured ports first |
| StatusStore.SnapshotComplete | internal/status/store.go:119-130 | a snapshot has one row for each listed port |
| StatusStore.SuccessShown | internal/status/store.go:71-116 | a success shows the configured tool as connected with its output and no error, unless a newer result is known; other rows stay |
| StatusStore.FailureShown | internal/status/store.go:84-116 | a failure shows it as disconnected, in its safe state and with the error, unless a newer result is known; other rows stay |
| StatusStore.PlaceholderShown | internal/status/store.go:41-61 | before any result enabled tools are shown in their safe state as not yet refreshed, disabled ones off and without error |
| FleetRefresh.FbsServer.HandleResult | internal/fbs/server.go:147-194 | a revision drawn after the device call, the row recorded under it, and what FBS is told; with a recorder the row then shows the same output as FBS was told, connected exactly if the call succeeded; without one FBS is answered all the same |
| FleetRefresh.FbsServer.RecordSuccess | internal/fbs/server.go:173-180 | with a recorder the success is merged under the next revision, without one nothing happens |
| FleetRefresh.FbsServer.RecordFailure | internal/fbs/server.go:182-194 | with a recorder the failure is merged under the next revision, without one nothing happens |
| FleetRefresh.AdminServer.StatusSnapshot | internal/admin/server.go:488-510 | a refresh starts exactly when one is asked for and none is running, under a fresh revision |
| FleetRefresh.AdminServer.PublishDisabled | internal/admin/server.go:543-555 | disabled tools are recorded, enabled ones counted |
| FleetRefresh.AdminServer.PublishProbe | internal/admin/server.go:583-603 | a deferred probe changes no row, any other is recorded under the refresh's revision |
| FleetRefresh.AdminServer.RefreshDone | internal/admin/server.go:521-525 | the flag goes down |
| FleetRefresh.FleetStep | internal/admin/server.go:488-533 | every step of handlers and refreshes keeps the invariant |
| FleetRefresh.SingleFlight | internal/admin/server.go:488-525 | at most one refresh is collecting, in every run |
| FleetRefresh.Persists | internal/status/store.go:101-116 | revisions of rows and of drawn results never go back |
| FleetRefresh.FbsResultOutlivesRefresh | internal/fbs/server.go:173-194 | an FBS result drawn after a refresh started is never replaced by that refresh |
| FleetRefresh.FbsResultShown | internal/fbs/server.go:173-194 | in every run the row of a tool is the result an FBS handler recorded, until a result with a later-drawn revision replaces it |
| FleetRefresh.ProbeShown | internal/admin/server.go:583-603 | a probe shows what the device answered, its output or the safe state and the error, unless it was deferred or something newer is known |
| FleetRefresh.DisabledShown | internal/admin/server.go:543-555 | a refresh shows disabled tools as off and without error, unless something newer is known |
| FleetRefresh.DisabledOnly | internal/admin/server.go:543-555 | publishing disabled tools leaves the rows of all other ports alone |
| FleetRefresh.EnabledCounted | internal/admin/server.go:543-547 | the count is the number of enabled tools |
| WorkerPool.JobsStep | internal/admin/server.go:571-619 | every job sent is probed, held by exactly one worker, or lost |
| WorkerPool.ProbedAtMostOnce | internal/admin/server.go:571-619 | no tool is probed twice and at most 32 probes run at once |
| WorkerPool.NeverStuck | internal/admin/server.go:608-622 | sender and workers cannot wait for each other for ever |
| WorkerPool.NilMeansAllProbed | internal/admin/server.go:621-624 | a nil result means every enabled tool was probed exactly once |
| WorkerPool.ReturnedExactly | internal/admin/server.go:557-624 | with nothing to probe the refresh returns nil at once; any other returns when every worker has gone, with nil if and only if the context is not over |
| WorkerPool.UnprobedMeansCancelled | internal/admin/server.go:575-578 | a tool that was not probed means that the context was over and an error was returned |
| GatewayConfig.ValidateTools | internal/config/config.go:160-176 | nil exactly when every tool is valid and no port repeats, else the complaint about the first tool that fails after all before it passed |
| GatewayConfig.FailsOnce | internal/config/config.go:160-176 | there is only one such first complaint |
| GatewayConfig.Validate | internal/config/config.go:157-179 | nil exactly when tools, ports and TLS material are in order, else the first complaint about the tools, or that about the TLS material |
| ConfigStore.NextId | internal/configstore/store.go:326-335 | one more than every stored id, and the least such |
| ConfigStore.CountFindsSole | internal/configstore/store.go:329-347 | the name counter is one exactly for names stored once |
| ConfigStore.LookupResolves | internal/configstore/store.go:338-354 | the maps lead each tool to the row it continues, in whatever order the query returned the rows |
| ConfigStore.Store.BuildIdentities | internal/configstore/store.go:323-335 | the maps and the next id after reading the stored rows in any order |
| ConfigStore.Store.Assign | internal/configstore/store.go:338-360 | the row of one tool: id and creation time taken over or fresh |
| ConfigStore.Store.InsertTools | internal/configstore/store.go:337-366 | all rows are inserted, or a constraint fails |
| ConfigStore.Store.Replace | internal/configstore/store.go:275-380 | all or nothing: the new database, or the old one untouched, independent of the order of the query |
| ConfigStore.Store.Load | internal/configstore/store.go:192-258 | uninitialised, rejected, or the configuration in stored order |
| ConfigTheorems.FreshIds | internal/configstore/store.go:326-360 | a fresh id differs from every stored and every other assigned id |
| ConfigTheorems.SameIdExactly | internal/configstore/store.go:337-360 | two tools get the same id if and only if they continue the same stored row |
| ConfigTheorems.RowsConstrainedExactly | internal/configstore/store.go:150-176 | the new rows meet the schema if and only if the tools are storable and pairwise separate |
| ConfigTheorems.CommitsExactly | internal/configstore/store.go:275-370 | a replacement commits if and only if the configuration is valid, storable and separate |
| ConfigTheorems.CollisionRollsBack | internal/configstore/store.go:341-360 | a valid configuration whose two tools continue one row is rolled back |
| ConfigTheorems.AcceptedExactly | internal/config/config.go:157-299 | a replacement commits if and only if every tool is in order, ports and continued rows are distinct, TLS material is there when needed and the safe state is empty, on or off, all told in terms of the given configuration |
| ConfigTheorems.IdentityExactly | internal/configstore/store.go:323-360 | each tool takes over id and creation time of the only stored row of its name, else of the row at its port, else gets an id above all stored ones |
| ConfigTheorems.ReplaceKeeps | internal/configstore/store.go:275-366 | a commit leaves a database in normal form |
| ConfigTheorems.LoadAccepts | internal/configstore/store.go:253-257 | re-validation never rejects a database in normal form |
| ConfigTheorems.LoadAfterReplace | internal/configstore/store.go:192-258 | after a commit, Load returns the normal form of the configuration |
| ConfigTheorems.LoadedLiterally | internal/config/config.go:139-151 | what is loaded, column by column: 0.0.0.0 for an empty bind address, 3000 ms for a timeout that is not positive, off for an empty safe state, trimmed and lowered texts, everything else as given |
| ConfigTheorems.LoadsLastCommitted | internal/configstore/store.go:192-380 | over every history of replacements, Load returns the normal form of the last one that committed |
| ConfigTheorems.RestoreKeepsRows | internal/configstore/store.go:337-366 | storing what was loaded commits and keeps every column but the update time |
| Text.TrimTakesSpaces | internal/configstore/store.go:421-422 | trimming takes off spaces at both ends and nothing else |

## Left out

- HTTP transport, TLS, DNS, request tracing and response decoding: a send is an arbitrary answer or error.
- SHA-256 and random client nonces: the hash is an arbitrary function, the client nonce an input.
- Real time: clock readings are inputs; only the send bounds assume that they do not run backwards within a call.
- The order of two FBS results for one device: the code draws the revision after the slot is released, so nothing is promised.
- Which error a pre-empted probe returns: a cancelled read of an error body is reported as an HTTP error.
- AuthLoop.GetStatus: what an error is made of is an input; the error values themselves are not modelled.
- DigestHeader.DigestSession.NextAuthorizationHeader: strings are sequences of Unicode characters; invalid UTF-8, which the splitter would replace, is not modelled.
- DigestChallenge.ReadChallenge: letter case is folded for ASCII only, as in all of module Text.
- DigestChallenge.NewDigestSession: letter case is folded for ASCII only, as in all of module Text.
- AsyncLog.AsyncStore.Turn: the once-a-minute warning about dropped records is not modelled.
- LogArchive.Store.Write: directories, permissions, fsync and file handles are not modelled; a file that is gone counts as removed.
- LogArchive.Store.CreateLogFileLocked: the name made from time, process id and sequence number is an arbitrary function of the sequence number.
- ArchiveExport.ExportExact: the header line and the separators between files are not part of the exported bytes of the model.
- ArchiveRefinement.WriteIsSteps: the names still to come are taken to be new, as the time, process id and growing sequence number in them make them; a name given again after its file was removed is not modelled.
- StatusStore.Store.NextRevision: revisions are unbounded, the 64-bit counter is not.
- ConfigStore.Store.Replace: ids are unbounded; SQLite is two tables with their constraints and an atomic commit; a failing statement is any constraint failure or the commit; the YAML mirror is left out.
- ConfigStore.Store.Load: configurations are values, so the independence of the clone from its source is built in.
- Validation of enabled tools only (internal/config/config.go:181-207): it repeats validation on a filtered list.
- HTTP routing, headers, JSON, the web page, installers, updaters, signature verification and start-up wiring: thin branches or foreign code without shared state.
