# Verified model of Grove Storage

Grove Storage keeps the metadata of files in a database and their bytes at an S3-compatible
provider. The two change in separate steps, and a crash or a lost reply can fall between any two of
them. This project models the parts of the server where that matters and proves what they promise.

**The upload lifecycle.** `SingleUpload.dfy` and `Multipart.dfy` are state machines: a state holds
the file, lease, upload, location and part rows, the provider's session and object, the clock and a
program counter per request; `Next` is one database transaction or one provider call; `Run` is any
interleaving. `MultipartInvariant.dfy` proves what every step keeps, `MultipartSafety.dfy` what holds
in every run, `MultipartProgress.dfy` what an upload can always still do, `MultipartHazards.dfy` the runs that end unsafe once a provider call outlives its
caller, and `CompletionFence.dfy` joins the completion's lease with the heartbeat that renews it.
`SingleService.dfy` and `MultipartService.dfy` are the request handlers and reconciler
jobs as programs over a shared `World` (`MultipartWorld.dfy`), in which arbitrary steps of others happen before every call
and every call may fail with or without its effect. `Completion.dfy` is the recovery decision,
`Cleanup.dfy` physical cleanup with the paged sweep of a key.

**Time and bounded resources.** `Heartbeat.dfy` (renewal loop and lease), `RecoveryClaims.dfy` (the
durable claim of recovery against every statement that writes a row), `Spool.dfy` (the receive loop),
`SpoolBudget.dfy`, `Geometry.dfy` (multipart geometry), `Retention.dfy`.

**Transformations that keep meaning.** `CanonicalQuery.dfy`, `Reconcile.dfy`, `Relocation.dfy`,
`Migration.dfy`, `ExtendedValue.dfy`; and `Registry.dfy` and `ClientCache.dfy` for stable physical
addressing. `Text.dfy`, `Sorting.dfy`, `Lifecycle.dfy` and `Wrappers.dfy` are shared vocabulary.

`dafny verify dfyconfig.toml` checks everything.

## Assumptions

- Each database transaction and each provider call is one atomic step. A call may be applied
  although its caller sees an error, and a provider call abandoned by its caller may take effect
  later. The main theorems speak of *punctual* runs: those in which such late effects arrive only
  while they are harmless. What harmless means is defined by conditions on the current rows and is
  proved exact in both directions for relay PUT, Complete and session creation. Relay PUTs that
  never outlive their caller produce only such runs (`SingleUpload.SettledCallsArePunctual`). So do
  multipart calls if a session opens only while its create request is still in that call or has
  stopped in it, within the create lease, and Complete takes effect only under its own unexpired
  claim (`MultipartSafety.PromptRunsAreSafe`). Settling within the lease is not enough for the create
  call: its compensation may be over before it lands.
- In the multipart machine a key has at most one session over its life, opened by one create call.
  "Complete at most once" and "every session has its location row" are therefore about that session;
  duplicates that a retried create call opens behind a lost reply are the subject of `Cleanup.dfy`,
  where a key has any number of sessions.
- A relay claim is a row lock: exclusive, released when its transaction ends, and finalize and
  reclaim wait for it.
- `MultipartSafety.PromptRunsAreSafe`, `HeartbeatsKeepCompletionHarmless` and the theorems of
  `CompletionFence.dfy` assume that the provider's multipart ETag equals the composite one, ignoring
  case; the other theorems do not.
- A heartbeat starts with the full lease its claim has just written, and database and timers read
  the same clock.
- In the multipart programs a provider effect that would be harmful does not happen.
  `MultipartWorld.World.suppressed` remembers a refused effect of the program's own, and
  `CommitMultipart` proves that there is none while its lease holds.
- A recovery pass acts within the pass timeout of having picked a row up, and that timeout is
  shorter than the lease (backend/crates/api/src/reconciler/schedule.rs:4).
- A part's digest determines its length. Encryption and hashing are functions of which only
  decrypt-after-encrypt is used; row serialization is injective.
- In `Heartbeat.dfy` and `Spool.dfy` timers fire when due, up to the lag stated there.

## Where the code and its documentation part

- A late PUT after its claim ended can replace committed bytes: `AbandonedPutCanReplaceCommittedBytes`,
  with the exact conditions in `LandingIsSafeExactlyWhenHarmless` and
  `SafeFromNowOnExactlyWhenNoneStraggles`.
- Cleanup with a known upload id aborts only that session, so a duplicate opened by a retried create
  call survives: `KnownIdIsEnoughExactlyWhenAlone`.
- Claims of an upload row by one recovery job are always the retry delay apart
  (`RecoveryClaims.ClaimsAreSpaced`), but claims of different jobs are not: a cleanup claim can follow
  a completion claim at once, exactly when the row is moved to cleaning within the delay
  (`EarlierClaimExactlyWhenMovedToCleaning`).
- The heartbeat renews every third of the TTL. Isolated failed renewals are survived if ticks are at
  most 5 ms late and each renewal is over within a period of its tick's due time; beyond that a late
  tick moves the schedule, and they are survived if and only if twice the lateness and one renewal fit
  into a period: `Heartbeat.LeaseHoldsExactlyWhen`, and for Complete itself
  `CompletionFence.HeartbeatKeepsCompleteHarmlessExactlyWhen`.
- Not every session has its location row through initialization failures: a create call that was
  given up on can land after its compensation swept the key and released the reservation:
  `AbandonedCreateLosesItsSession`, with the exact conditions in
  `LateCreateIsSafeExactlyWhenHarmless` and `NoSessionAppearsExactlyWhenNoCallIsLate`.
- An open upload can lose its session: a Complete whose caller stopped can land after a recovery pass
  reopened the row: `AbandonedCompleteLosesTheSession`, with the exact condition in
  `LateCompleteIsSafeExactlyWhenHarmless`.
- The idle limit also cuts streams that were never idle, when one write takes as long as the limit:
  `SlowWriteEndsAsIdle`, with the exact condition in `IdleLimitIsFairExactlyWhen`.
- Snapshot validation keys files by id, so of repeated ids only the last row is checked:
  `ValidatedIsOneToOneExactlyWhen`, `RepeatedIdsAreAccepted`.
- Rewriting a `#anchor` reference, or a name with a tilde, leads out of the embedded schema:
  `ReferenceStaysHomeExactlyWhenPointer`, `AnchorLeadsToASibling`, `NameLeadsHomeExactlyWhenPlain`. The
  text of a `$ref` that is itself the target of a pointer is rewritten too, which `Relocation.Image`
  states.

## Model

| member | source | states |
|---|---|---|
| `SingleUpload.RelayPublishIsSafe` | backend/crates/api/src/lease_relay.rs:137-209 | In every punctual run of PUTs, commits, observed commits, reclaim, delete, sweep and crashes: a recorded measurement is the provider's object while the file lives, an active file's object matches its ETag and declaration, and no object is without its location row. |
| `SingleUpload.ObservationNeverGoesStale` | backend/crates/object-service/src/single_commit.rs:37-57 | What a relay commit saw before finalize is still the provider's object however long it waits, so finalizing activates exactly that. |
| `SingleUpload.RacingCommitsAgree` | backend/crates/object-service/src/single_commit.rs:30-67 | At most one step activates the file, its measurement passed the gate, and any two successful answers, at any two moments, carry the ETag that step stored. |
| `SingleUpload.LandingIsSafeExactlyWhenHarmless` | backend/crates/api/src/lease_relay.rs:169-204 | A PUT that outlived its claim may land if and only if nothing else is recorded or about to be, the location is there and no sweep has deleted: then every punctual continuation is safe, otherwise some is not. |
| `SingleUpload.SafeFromNowOnExactlyWhenNoneStraggles` | backend/crates/api/src/lease_relay.rs:185-204 | From a reachable state everything that can happen without a further abandoned call is safe if and only if no PUT has been left straggling; a straggling one can outlive the cleanup of its file. |
| `SingleUpload.AbandonedPutCanReplaceCommittedBytes` | backend/crates/api/src/lease_relay.rs:188-204 | The condition is needed: a concrete run in which an abandoned PUT replaces committed bytes. |
| `SingleUpload.SettledCallsArePunctual` | backend/crates/infra/src/s3_io.rs:54-71 | From any state without abandoned PUTs, if no provider PUT outlives its caller, every run is punctual, so the results on punctual runs hold outright. |
| `SingleUpload.ClaimExcludesOthers` | backend/crates/db/src/files/relay_upload.rs:12-51 | While an actor holds the row claim, no run of others takes it, records, finalizes, reclaims or deletes. |
| `SingleUpload.NextKeepsInv` | backend/crates/db/src/files/commit.rs:11-41 | Every atomic step of every actor keeps the upload invariant; finalize moves only a pending file and only once. |
| `SingleUpload.RunSettles` | backend/crates/db/src/files/commit.rs:18-29 | Along every punctual run measurements, activations and terminal states are never revised. |
| `SingleUpload.RecordingFillsTheLease` | backend/crates/db/src/files/relay_upload.rs:54-67 | A recorded measurement fills the lease, gives the claim back and touches nothing else. |
| `SingleUpload.ActivationTouchesOnlyTheFile` | backend/crates/db/src/files/commit.rs:11-41 | An activation writes the file, its lease and the caller's answer, and touches nothing else. |
| `SingleUpload.DirectUploadActivates` | backend/crates/object-service/src/single_commit.rs:37-57 | Bytes that a client put directly and that meet the declaration become the active file with their ETag. |
| `SingleUpload.LostCommitRepliesTakeEffect` | backend/crates/db/src/files/commit.rs:18-41 | A finalize takes effect whether or not its caller hears of it; one without effect changes no row and no object. |
| `SingleService.Upload` | backend/crates/api/src/lease_relay.rs:64-209 | A relay PUT under arbitrary interference answers 200 exactly if it has recorded its measurement, and then for bytes that meet the declaration and are the recorded and published ones; every other answer has its own reason in what the last step found or how the provider or the database answered it; every exit gives the claim back. |
| `SingleService.Judge` | backend/crates/api/src/lease_relay.rs:149-183 | Length, then declared MD5, then immutability of an earlier measurement, each with its own refusal. |
| `SingleService.Publish` | backend/crates/api/src/lease_relay.rs:185-200 | A successful provider PUT leaves exactly the measured bytes at the key; a failed one gives the claim back. |
| `SingleService.Record` | backend/crates/db/src/files/relay_upload.rs:54-67 | A successful record makes the measurement durable; a failed one leaves the caller without a claim. |
| `SingleService.ObserveUpload` | backend/crates/object-service/src/single_commit.rs:37-47 | A commit passes its gate only with an observation; a relay upload can fail it only by not being there. |
| `SingleService.FinalizeCommit` | backend/crates/db/src/files/commit.rs:11-41 | Waits while a relay claim holds the row, as long as its caller does; winning means this observation's ETag activated the file, which nothing had activated before. |
| `SingleService.Commit` | backend/crates/object-service/src/single_commit.rs:32-67 | Answers a success exactly if it has one: `transitioned` exactly for its own finalize of a pending file, otherwise the ETag it reloads of an active one; from an observation that met the declaration. Each refusal is the gate's, a file that is not active, a failed call, or a lock held for as long as its caller waits. |
| `SingleService.ObserveCommit` | backend/crates/api/src/reconciler.rs:545-574 | The reconciler's commit: true exactly if this step activated the file, false if the gate refused or the file was no longer pending, none if a call failed or the lock was held. |
| `SingleService.CleanupThenFinalize` | backend/crates/object-service/src/cleanup.rs:15-27 | A released upload has neither location nor, on the relay, object; a physical error is the delete's and never reaches the metadata, a metadata error is the database's, and a release says whether there was a location. |
| `MultipartSafety.EveryCrashPointIsRecoverable` | backend/crates/object-service/src/multipart_commit.rs:29-46 | In every punctual run, crashes and lost replies anywhere: a claimed completion has the object its row expects or an open session and no object; an open upload has an open session and no object; objects and sessions have their location row; Complete took effect at most once; recovery gave nothing up. |
| `MultipartSafety.PromptRunsAreSafe` | backend/crates/api/src/lease.rs:37-39 | If sessions open only while the create call runs, or after it stopped there, within the create lease, Complete takes effect only under the row's unexpired claim of the same parts, and the provider's multipart ETag is the composite one, every run is punctual, hence safe. |
| `MultipartSafety.RecoveryDecidesRight` | backend/crates/api/src/reconciler/native_completion.rs:56-143 | In every reachable state a recovery pass, however stale its observation, leaves the row alone, activates it with the object that is there, or reopens it over an open session with no object. |
| `MultipartSafety.RecoverySettles` | backend/crates/object-policy/src/completion.rs:16-32 | A pass that gets through on an abandoned row activates exactly the prepared size and ETag if the object is there, otherwise accepts parts again with the ledger kept. |
| `Completion.Decision` | backend/crates/object-policy/src/completion.rs:16-32 | Finalize if and only if size and ETag match, reopen if and only if a multipart object is absent, and an observation error is never a decision. |
| `MultipartInvariant.DecisionIsSound` | backend/crates/db/src/files/completion.rs:221-311 | The lease fence makes any decision computed within the pass right for the row it finds. |
| `MultipartInvariant.NextKeepsInv` | backend/crates/db/src/files/completion.rs:20-191 | Every step of creation, part claims, completion, recovery, cleanup and the outside world keeps the multipart invariant. |
| `MultipartSafety.LeaseIsAFence` | backend/crates/db/src/files/completion.rs:221-253 | In every run of others with the owner's own renewals in between, as long as the row never says that the owner's lease has run out, the completion is still the owner's at the end, unless the file was activated. |
| `MultipartSafety.HeartbeatsKeepCompletionHarmless` | backend/crates/api/src/lease.rs:40-107 | While the owner's renewals keep the lease in force, its Complete is harmless whenever it takes effect. |
| `CompletionFence.HeartbeatKeepsTheLease` | backend/crates/api/src/lease.rs:109-126 | When the renewal transactions of a run are those of a heartbeat whose grants reach to the end of the next renewal, the row never says that the owner's lease has run out, whoever else acts meanwhile. |
| `CompletionFence.CompleteUnderHeartbeatIsHarmless` | backend/crates/object-service/src/multipart_commit.rs:26-29 | From the claim on, under a steady heartbeat, or one with bounded lateness and renewal time and isolated failures, Complete is harmless whenever it takes effect, if for the latter two periods, the lateness and one renewal fit into the lease. |
| `CompletionFence.HeartbeatKeepsCompleteHarmlessExactlyWhen` | backend/crates/api/src/lease.rs:13-48 | That condition is exact: with less, within the same bounds, one failed renewal lets a recovery pass reopen the row under the running call. |
| `MultipartSafety.LateCompleteIsSafeExactlyWhenHarmless` | backend/crates/object-service/src/multipart_commit.rs:26-29 | A Complete that outlived its caller may take effect if and only if the upload is given up, or its row expects this object and no recovery that saw none can still reopen it. |
| `MultipartSafety.LateCreateIsSafeExactlyWhenHarmless` | backend/crates/object-service/src/multipart_create.rs:13-25 | A late session may open if and only if its location row is there and no cleanup has passed the point where it closes sessions. |
| `MultipartHazards.AbandonedCreateLosesItsSession` | backend/crates/api/src/native/multipart_create.rs:60-106 | The condition is needed: a create call given up on, a sweep of the key that finds nothing and the released reservation leave, once the call lands, a session without location row, with the create lease still in force. |
| `MultipartHazards.AbandonedCompleteLosesTheSession` | backend/crates/api/src/reconciler/s3_completion.rs:94-112 | The condition is needed: a Complete that lands after a recovery pass reopened its row leaves an upload that accepts parts with its session gone. |
| `MultipartHazards.NoSessionAppearsExactlyWhenNoCallIsLate` | backend/crates/object-service/src/multipart_create.rs:18-37 | Once the create request has ended without a session, no run at all opens one, if and only if its create call is not still under way. |
| `MultipartSafety.ClaimExcludesCompletion` | backend/crates/db/src/files/completion.rs:51-60 | While any part claim is outstanding the part is held by one actor and no completion can be claimed. |
| `MultipartSafety.CompletionExcludesClaims` | backend/crates/db/src/files/multipart.rs:35-83 | While a completion is claimed no part can be, and its snapshot is what the ledger says, with the composite ETag and total size of exactly that snapshot. |
| `MultipartSafety.LedgerIsFrozenWhileCompleting` | backend/crates/api/src/lease_relay.rs:272-359 | From claim until finalize or reopen no interleaving changes the part ledger. |
| `MultipartSafety.FinishRecordsOwnClaim` | backend/crates/db/src/files/multipart.rs:122-157 | A finished part records what its own claimant measured and touches no other row. |
| `MultipartSafety.RacingCommitsAgree` | backend/crates/db/src/files/completion.rs:149-191 | At most one step activates the file, and all answers at any moments name the ETag it stored. |
| `MultipartSafety.PlannedIsWellformed` | backend/crates/api/src/native/multipart.rs:236-251 | A native list that passes the size gate has exactly the declared total, for every accepted declaration. |
| `MultipartService.Initialize` | backend/crates/object-service/src/multipart_create.rs:18-37 | Success hands out an upload whose session id is on record; failure at any step leaves, at its return, nothing a client could resume and no session without a location row; what an abandoned create call can still do is `NoSessionAppearsExactlyWhenNoCallIsLate`. |
| `MultipartService.CreateVendorUpload` | backend/crates/object-service/src/multipart_create.rs:18-22 | The create call ends as returned, or to be compensated; answered within the create lease, it never has to be refused. |
| `MultipartService.GiveUp` | backend/crates/api/src/native/multipart_create.rs:60-106 | Compensation closes the session first and only then gives the reservation up; otherwise the location stays for the reconciler. |
| `MultipartService.UploadPart` | backend/crates/api/src/lease_relay.rs:214-363 | Makes exactly the calls claim, renewals, forward and record or release, in this order; success means the ledger holds exactly the measured digest, and every other reply says what its last step found; every exit releases the actor. |
| `MultipartService.ForwardPart` | backend/crates/api/src/lease.rs:144-158 | Forwarding under a heartbeat makes all its renewals and ends with the provider's answer, or stops at the renewal that found the claim gone. |
| `MultipartService.PrepareCompletion` | backend/crates/api/src/native/multipart.rs:116-202 | Ready means the completion of exactly this list is durably claimed before any physical commit; taken over means the file or its lease was no longer open; every refusal says what made the list unusable, the direct path after reading the provider's own list. |
| `MultipartService.AwaitComplete` | backend/crates/api/src/native/multipart.rs:204-232 | An ETag is handed on only if it is the composite of the prepared list; while this program owns the completion and its lease holds, every answer of the provider is admissible, so none is replaced. |
| `MultipartService.CommitMultipart` | backend/crates/object-service/src/multipart_commit.rs:29-46 | Makes its calls in order: prepare, renewals, complete, finalize, reload. Answers a success exactly if it has an ETag to answer, and that it transitioned exactly if one of its steps activated the file; the ETag is the one that activated it and, while active, the object's, with the stored size. Lost ownership, a refusal and a failure each say what the last step found. With the lease in force throughout, no effect of this program ever has to be refused. |
| `MultipartService.FinalizeCompletion` | backend/crates/db/src/files/completion.rs:149-191 | True exactly if the row was one this ETag activates, and then it is activated and answered; false if it was not; no answer exactly if the call failed. |
| `MultipartService.Recover` | backend/crates/api/src/reconciler/native_completion.rs:13-146 | One recovery attempt under arbitrary interference. Skipped: nothing to take over. Observation failed: the pass ends with the failed look. Otherwise its last step is the decision, right for the row at that moment, and the reply tells what became of it: activated with the prepared size and ETag and the object there, reopened with the session open and no object, or left alone; a pass in time on an abandoned row always settles it. |
| `MultipartService.CleanupThenFinalize` | backend/crates/object-service/src/cleanup.rs:15-27 | Abort and delete are both called, the release only after both worked; each error is the call's that failed. When metadata is released the provider has neither session nor object of this upload and the location row is gone. |
| `MultipartProgress.EveryUploadCanBeCleanedUp` | backend/crates/object-service/src/cleanup.rs:15-27 | No upload is ever stuck: from every reachable state, whatever requests and passes are under way, some punctual continuation of lease expiry, recovery, reclaim, delete and sweep leaves neither session nor object nor location row. |
| `MultipartProgress.PreparedUploadActivates` | backend/crates/object-service/src/multipart_commit.rs:26-46 | A list that can be prepared and that the session holds becomes the active file, with exactly the computed ETag and size and the object assembled from it. |
| `MultipartProgress.UploadedPartIsStored` | backend/crates/db/src/files/multipart.rs:35-157 | A part that is claimed, taken and recorded is in ledger and session with its digest, and no other part is touched. |
| `MultipartProgress.CancelUndoesTheClaim` | backend/crates/db/src/files/multipart.rs:161-205 | A claim whose part was refused is undone: ledger and session are what they were. |
| `MultipartProgress.FailedCreateIsUndone` | backend/crates/api/src/native/multipart_create.rs:60-106 | A create call without effect leaves nothing at the provider or on record after its compensation. |
| `MultipartProgress.RenewalsFillTheLease` | backend/crates/db/src/files/completion.rs:112-147 | Every renewal that its row admits makes the lease full again, and none takes from it. |
| `MultipartProgress.S3IsReclaimedOnlyWhenCleanedUp` | backend/crates/db/src/s3_registry/uploads.rs:765-811 | In every punctual run an S3 upload that was given up stays pending until its cleanup is over: once reclaimed, no session, object or location row is left. |
| `MultipartProgress.FailedS3CreateIsHandedToCleanup` | backend/crates/api/src/s3/multipart.rs:147-155 | An S3 create call without a good answer, applied or not, leaves the upload to cleanup and never publishes it. |
| `MultipartProgress.LateCommitAnswersTheWinner` | backend/crates/object-service/src/multipart_commit.rs:26-46 | A commit that comes after the activation, at once or outrun in its claim, answers with the ETag of the activation. |
| `MultipartProgress.OutrunCommitAnswersTheWinner` | backend/crates/object-service/src/multipart_commit.rs:40-46 | The same for a commit that is outrun in its finalize. |
| `Cleanup.AbortThenDeleteLeavesNothing` | backend/crates/infra/src/s3_io.rs:35-52 | Sweeping the key and then deleting leaves neither session nor object, whatever Complete and UploadPart calls land before, between and after. |
| `Cleanup.KnownIdIsEnoughExactlyWhenAlone` | backend/crates/infra/src/s3_io.rs:44-48 | Aborting the one id on record is enough if and only if no other session is open on the key. |
| `Cleanup.DeleteFirstIsEnoughExactlyWhenNoSession` | backend/crates/infra/src/s3_io.rs:44-51 | The opposite order works if and only if no session is open on the key. |
| `Cleanup.AbortByKey` | backend/crates/storage-provider/src/s3.rs:667-718 | For every reply sequence it lists page after page from the marker the last page gave, none twice and at most 1,000, aborts all sessions of exactly this key page by page, and ends at the last page, at a limit, or at the call that failed, as its answer says; against marker-ordered listings success means no session open at the start remains, while others open, complete and drop sessions. |
| `Cleanup.AbortPage` | backend/crates/storage-provider/src/s3.rs:700-708 | Every listed session of the key is aborted in order, no other is, and the first failure ends the page and is the only reason for failing. |
| `Cleanup.CleanupBackendUpload` | backend/crates/infra/src/s3_io.rs:33-52 | Both steps are attempted and the first failure is the answer; success means the object is gone, and so is the session on record or every earlier session of the key. |
| `Cleanup.Provider.Abort` | backend/crates/storage-provider/src/s3.rs:635-665 | A successful abort, or one of a session already gone, leaves that session closed. |
| `Heartbeat.RunWithHeartbeat` | backend/crates/api/src/lease.rs:109-126 | Returns the operation's end if it finishes first, None only on a lost renewal; a database error is not a loss; no tick starts after the operation is done. |
| `Heartbeat.TicksDoNotBurst` | backend/crates/api/src/lease.rs:114-115 | Consecutive ticks are a period apart for any timing; missed ticks are never made up for. |
| `Heartbeat.LeaseNeverLapses` | backend/crates/api/src/lease.rs:13-48 | With a full lease at the start, ticks on time, renewals within a third of the TTL and no two consecutive failures, the lease row is never past expiry while the operation runs. |
| `Heartbeat.TwoFailuresLapse` | backend/crates/api/src/lease.rs:47-48 | At the production numbers one failed renewal is within these conditions and two consecutive ones let the lease lapse. |
| `Heartbeat.LeaseHoldsExactlyWhen` | backend/crates/api/src/lease.rs:109-126 | With ticks at most lat late, renewals within rt, lat + rt within the period and isolated failures, every run keeps the lease in force if and only if two periods, lat (twice, once lateness exceeds the timer tolerance and moves the schedule) and rt fit into the TTL. |
| `RecoveryClaims.HeartbeatKeepsRecoveryOut` | backend/crates/db/src/upload_recovery.rs:46-62 | Under a steady heartbeat no recovery claim of the row it renews succeeds at any moment of the run. |
| `RecoveryClaims.ClaimsAreSpaced` | backend/crates/db/src/upload_recovery.rs:31-63 | At the production numbers two successful claims of a row by the same job are at least the retry delay apart, and the 10 s I/O bound ends before the second, whatever claims, prepares, reopens, moves to cleaning, renewals and releases come between, as long as none of their transactions has waited for the file lock for more than the lease less the delay. |
| `RecoveryClaims.ClaimsAreSpacedExactlyWhen` | backend/crates/db/src/files/completion.rs:69-105 | That bound is exact for every TTL: over all histories claims of one job are spaced if and only if the delay and the longest wait fit into the lease that every prepare, reopen and renewal writes. |
| `RecoveryClaims.EarlierClaimExactlyWhenMovedToCleaning` | backend/crates/db/src/s3_registry/uploads.rs:952-1005 | For every history in time order after a claim by any job: a further claim can succeed within the retry delay if and only if the row is moved to cleaning within it. |
| `RecoveryClaims.DiscardedRowIsCleanedAtOnce` | backend/crates/db/src/files/completion.rs:284-311 | An example on both surfaces: a completion pass that finds another object, and a cleanup claim at the same instant. |
| `Spool.Receive` | backend/crates/api/src/spool.rs:122-249 | For all chunks, timings and write and flush outcomes: over by start + window + ceil(size/rate); success exactly after everything up to the end was written and flushed, at most the declared number; a progress check that counted exactly what was written passed within the last window before every item taken, at its tick; too slow means the rate was broken at a tick; every item was taken before the idle deadline then in force, and idle means that the next could not be, because it was not ready or the last write took too long; each other failure is the item's that caused it. |
| `Spool.RateIsEnforced` | backend/crates/api/src/spool.rs:164-176 | Whatever item is taken, what was sent before it averages the minimum rate up to a window before: no stream that falls further behind gets an item through. |
| `Spool.TrickleEndsAsTooSlow` | backend/crates/api/src/spool.rs:164-172 | At the production limits three bytes in 45 s, with 50 s to the deadline, can only end as too slow. |
| `Spool.IdleLimitIsFairExactlyWhen` | backend/crates/api/src/spool.rs:151-207 | Over all receptions, against their own total deadline: those that end as idle had a stream with nothing more to offer in time, if and only if every write is shorter than the limit, because its deadline runs while a chunk is written and is polled before the stream. |
| `Spool.SlowWriteIsCutAsIdle` | backend/crates/api/src/spool.rs:151-162 | For every limit, and any declaration that leaves the write enough time: a stream whose first write takes as long as the idle limit, and whose second chunk is ready before, can only end as Idle. |
| `Spool.SlowWriteEndsAsIdle` | backend/crates/api/src/spool.rs:158-162 | At the production limits: a 40 s write in a transfer of at most 50 s can only end as Idle. |
| `Spool.ReceiveUntil` | backend/crates/api/src/spool.rs:151-231 | The loop: deadline before idle before progress before data. |
| `Spool.CheckProgress` | backend/crates/api/src/spool.rs:164-176 | Passes if and only if the window's bytes reach the minimum rate. |
| `Spool.TotalDeadlineIsGenerous` | backend/crates/api/src/spool.rs:138-145 | A transfer that averaged the minimum rate has a whole window left before the deadline. |
| `Spool.TakeChunk` | backend/crates/api/src/spool.rs:187-217 | Too large, past the deadline, a write error, or everything so far written, in that order. |
| `Spool.NextTickIsWithinAPeriod` | backend/crates/api/src/spool.rs:147-148 | A skipping interval ticks again within one period. |
| `Spool.NextTickExactly` | backend/crates/api/src/spool.rs:147-148 | One period later after a tick on time, and after a late one at the first multiple of the period still to come. |
| `SpoolBudget.Budget.TryAcquire` | backend/crates/api/src/spool.rs:41-50 | Both a slot and the rounded-up units, exactly when both are free and the size is representable; otherwise nothing changes. |
| `SpoolBudget.Budget.Release` | backend/crates/api/src/spool.rs:27-30 | A dropped permit gives back exactly its slot and units. |
| `SpoolBudget.Budget.Reservations` | backend/crates/api/src/spool.rs:52-58 | Reports live permits without underflow; their declared bytes fit the reported and configured bytes. |
| `SpoolBudget.LiveTransfersFitTheBudget` | backend/crates/api/src/spool.rs:21-59 | Over any sequence of requests and drops, live declared bytes never exceed the budget nor permits the slots. |
| `SpoolBudget.ReleaseGivesBackItsUnits` | backend/crates/api/src/spool.rs:27-30 | Removing any live permit lowers the held units by its own. |
| `CanonicalQuery.CanonicalizeQuery` | backend/crates/s3-protocol/src/signing.rs:38-51 | The loop, sort and join compute the canonical form. |
| `CanonicalQuery.CanonicalIsACompleteInvariant` | backend/crates/s3-protocol/src/signing.rs:35-51 | Equal canonical forms if and only if equal multisets of pairs without the signature. |
| `CanonicalQuery.CanonicalIsIdempotent` | backend/crates/s3-protocol/src/signing.rs:35-51 | Canonicalizing twice changes nothing. |
| `CanonicalQuery.PairsOfCanonical` | backend/crates/s3-protocol/src/signing.rs:39-50 | Reading the canonical form gives the sorted signed pairs back. |
| `CanonicalQuery.PairsAreWhatThePiecesRead` | backend/crates/s3-protocol/src/signing.rs:39-45 | A pair is signed as often as some non-empty piece reads as it: up to its first equals sign and after, or whole with an empty value; the signature never. |
| `CanonicalQuery.CanonicalListsUpwards` | backend/crates/s3-protocol/src/signing.rs:45-50 | The canonical form lists exactly the signed pairs as key=value, upwards by key and then by value in byte order. |
| `CanonicalQuery.ClassifySeesOnlyTheCanonicalQuery` | backend/crates/s3-protocol/src/operation.rs:44-137 | The canonical query classifies as the raw one for every method and flag. |
| `CanonicalQuery.EqualCanonicalClassifiesEqually` | backend/crates/s3-protocol/src/operation.rs:44-122 | Queries one signature covers classify to the same operation or error. |
| `CanonicalQuery.ObjectRequestExactlyWhen` | backend/crates/s3-protocol/src/operation.rs:44-122 | Put, Get, Head, Delete, CreateMultipart and MethodNotAllowed each if and only if verb and signed pairs are such, without reference to how they are read. |
| `CanonicalQuery.PartRequestExactlyWhen` | backend/crates/s3-protocol/src/operation.rs:89-101 | UploadPart if and only if PUT names one upload and one part number within range, and nothing unsupported, repeated or contradicting. |
| `CanonicalQuery.CompleteRequestExactlyWhen` | backend/crates/s3-protocol/src/operation.rs:102-102 | CompleteMultipart if and only if POST names one upload and no part. |
| `CanonicalQuery.AbortRequestExactlyWhen` | backend/crates/s3-protocol/src/operation.rs:103-103 | AbortMultipart if and only if DELETE names one upload and no part. |
| `CanonicalQuery.RefusedExactlyWhen` | backend/crates/s3-protocol/src/operation.rs:49-115 | InvalidArgument and NotImplemented each if and only if the request is such, with their precedence. |
| `CanonicalQuery.ParsedExactlyWhen` | backend/crates/s3-protocol/src/operation.rs:92-95 | A number is decimal digits after at most one sign, within 32 bits. |
| `CanonicalQuery.KeyReadsTheSame` | backend/crates/s3-protocol/src/operation.rs:124-137 | Flag, repetition and value of a key read the same from the canonical query. |
| `ExtendedValue.RoundTrip` | backend/crates/storage-provider/src/s3.rs:275-292 | Every byte string comes back from its RFC 5987 encoding; encodings are injective. |
| `ExtendedValue.Encode` | backend/crates/storage-provider/src/s3.rs:276-292 | The push loop computes the encoding. |
| `ExtendedValue.AttrCharExactly` | backend/crates/storage-provider/src/s3.rs:279-283 | The characters left alone are exactly letters, digits and the twelve marks of RFC 5987. |
| `ExtendedValue.EncodedByte` | backend/crates/storage-provider/src/s3.rs:284-289 | Any other byte is a percent sign and its two hexadecimal digits in capitals. |
| `Reconcile.ReconcileParts` | backend/crates/s3-protocol/src/completion.rs:30-64 | The loops compute the specified verdict, with its precedence of refusals. |
| `Reconcile.BuildIndex` | backend/crates/s3-protocol/src/completion.rs:43-46 | The index holds, per number, the last ledger row. |
| `Reconcile.SucceedsExactlyWhen` | backend/crates/s3-protocol/src/completion.rs:30-64 | Success if and only if non-empty, in range, strictly ascending, matching, sized and big enough; the result keeps client order with ledger data. |
| `Reconcile.RefusedExactlyWhen` | backend/crates/s3-protocol/src/completion.rs:30-64 | Each refusal if and only if its condition holds: empty, out of range or unmatched; not ascending; a small part before the last, with their precedence. |
| `Reconcile.OnlyQuotesAreTrimmed` | backend/crates/s3-protocol/src/completion.rs:49-51 | Of the client's ETag only quotes at the two ends are trimmed. |
| `Reconcile.OnlyListedRowsMatter` | backend/crates/s3-protocol/src/completion.rs:43-54 | Unlisted ledger rows are ignored. |
| `Reconcile.LedgerOrderDoesNotMatter` | backend/crates/s3-protocol/src/completion.rs:43-46 | With unique numbers the order of ledger rows is irrelevant. |
| `Reconcile.ResultIsAFixedPoint` | backend/crates/s3-protocol/src/completion.rs:47-63 | The result sent back against itself is accepted and unchanged. |
| `Reconcile.AcceptedIsPreparable` | backend/crates/api/src/s3/multipart.rs:427-458 | An accepted list is one the completion claim may prepare. |
| `Geometry.PartsTileTheFile` | backend/crates/object-policy/src/multipart.rs:9-31 | For every accepted declaration and part size: count in 1..=10,000, no overflow or lossy cast, and every byte of the file in exactly one part. |
| `Geometry.PartIsInPlace` | backend/crates/object-policy/src/multipart.rs:14-26 | Each part is non-empty, ends where the next starts or at the declared size, and only the last may be short. |
| `Geometry.CountIsCeiling` | backend/crates/object-policy/src/validation.rs:16-41 | Classification as multipart bounds the part count, so the i32 cast is exact. |
| `Geometry.ClassifiedExactlyWhen` | backend/crates/object-policy/src/validation.rs:16-41 | Every verdict if and only if its condition on plain numbers holds, with the precedence of the multipart limits. |
| `Geometry.VerifiedPartsSumToTheDeclaration` | backend/crates/api/src/native/multipart.rs:236-251 | Sizes that pass the per-part gate sum to the declared size. |
| `Relocation.RelocationCommutesWithResolution` | backend/crates/api/src/openapi.rs:50-76 | For every schema, plain name and pointer, resolving the rewritten reference in the document gives the image of what the original resolved to, or fails with it. |
| `Relocation.SubschemasResolveToTheirRelocation` | backend/crates/api/src/openapi.rs:55-60 | A reference to anything but a bare string resolves to its relocation; dangling ones stay dangling. |
| `Relocation.ResolveRelocated` | backend/crates/api/src/openapi.rs:61-71 | Relocation commutes with every path down the tree. |
| `Relocation.RelocationKeepsEverythingElse` | backend/crates/api/src/openapi.rs:50-76 | Position by position: objects keep their keys, arrays their length, scalars their value; only the text of a local reference changes, to the pointer below the schema's own name. |
| `Relocation.RelocationChangesNothingExactlyWithoutReferences` | backend/crates/api/src/openapi.rs:50-76 | A schema is left as it is if and only if no local reference stands anywhere in it. |
| `Relocation.NameLeadsHomeExactlyWhenPlain` | backend/crates/api/src/openapi.rs:46-48 | A name leads to its own entry if and only if it has neither slash nor tilde. |
| `Relocation.ReferenceStaysHomeExactlyWhenPointer` | backend/crates/api/src/openapi.rs:56-60 | A rewritten reference stays in its schema's subtree if and only if its fragment was a pointer; an anchor names a sibling. |
| `Relocation.AnchorLeadsToASibling` | backend/crates/api/src/openapi.rs:56-60 | An anchor `#Bar` in schema Foo is rewritten to the entry of schema FooBar. |
| `Relocation.ReferencesNeverReachASibling` | backend/crates/api/src/openapi.rs:98-103 | Every local reference in an embedded schema is the rewriting of one at the same place, and pointers stay below the schema's own name. |
| `Migration.Validate` | backend/crates/api/examples/filegate_migration.rs:163-231 | Accepts if and only if the snapshot meets the declarative conditions; each refusal points at a row that breaks its own. |
| `Migration.ValidateFiles` | backend/crates/api/examples/filegate_migration.rs:206-229 | The map and set loops decide exactly the file and location conditions. |
| `Migration.ValidatedLocationsAreTheActiveIds` | backend/crates/api/examples/filegate_migration.rs:206-229 | Accepted: location ids are distinct and exactly the ids whose last file row is active. |
| `Migration.ValidatedIsOneToOneExactlyWhen` | backend/crates/api/examples/filegate_migration.rs:206-229 | Accepted: locations and active rows are one to one if and only if no active row is followed by one of the same id. |
| `Migration.RepeatedIdsAreAccepted` | backend/crates/api/examples/filegate_migration.rs:206-229 | A concrete accepted snapshot with two active rows of one id that is not one to one. |
| `Migration.Reencrypt` | backend/crates/api/examples/filegate_migration.rs:309-323 | In place: succeeds if and only if every row decrypts; up to the first that does not, rows are re-encrypted, the rest untouched. |
| `Migration.ReencryptionKeepsTheComparison` | backend/crates/api/examples/filegate_migration.rs:309-356 | Comparable under the target key after re-encryption equals comparable under the source key before. |
| `Migration.CompareLines` | backend/crates/api/examples/filegate_migration.rs:325-356 | The loop and sort compute the comparable lines, failing if a column or secret is missing. |
| `Migration.ComparisonIsMultisetEquality` | backend/crates/api/examples/filegate_migration.rs:371-376 | The row comparison accepts if and only if the projected rows agree as multisets. |
| `Migration.ComparisonAcceptsExactlyWhenTablesAgree` | backend/crates/api/examples/filegate_migration.rs:371-376 | The comparison accepts if and only if the rows can be paired off so that each pair agrees on every named column, and on the digest of the decrypted credential instead of the encrypted columns. |
| `Migration.SameProjectionExactlyWhenTheyAgree` | backend/crates/api/examples/filegate_migration.rs:331-351 | Two rows are cut down to the same row if and only if they agree on what is compared. |
| `Migration.ComparableExactlyWhenReadable` | backend/crates/api/examples/filegate_migration.rs:331-351 | The comparison has an answer if and only if every row has every named column and its credential can be decrypted. |
| `Migration.ColumnRoundTrip` | backend/crates/api/examples/filegate_migration.rs:284-290 | A bytea column read back is the bytes written. |
| `Retention.PruneStream` | backend/crates/management-service/src/retention.rs:38-69 | Terminates, whatever younger rows arrive meanwhile, and those stay; it runs batch after batch of at most 1,000 while they go through and leave more, and stops clean exactly when nothing is left to delete, otherwise at the batch that failed; removed rows are always the oldest the guard lets go; a clean end equals one deletion up to the last cutoff; the count is right but for a lost reply. |
| `Retention.Run` | backend/crates/management-service/src/retention.rs:36-91 | Every stream is pruned on its own whether or not another failed. |
| `Retention.BatchDeletesTheOldest` | backend/crates/db/src/retention.rs:157-178 | A batch removes the first eligible rows in time order, up to the limit. |
| `Retention.EarlierBatchesDoNotMatter` | backend/crates/db/src/retention.rs:164-171 | Batches with older cutoffs do not change the final result. |
| `Retention.BatchLeaves` | backend/crates/db/src/retention.rs:143-154 | The reported oldest remaining row is absent exactly when nothing eligible is left. |
| `Registry.AddressingIsStable` | backend/crates/db/src/registry.rs:81-158 | In every history of reservations, replacements, rotations, releases and deletions, a location's storage exists and keeps the address it was reserved under. |
| `Registry.NextKeepsInv` | backend/crates/db/src/registry.rs:104-158 | Every statement of every transaction keeps addresses stable and locks exclusive. |
| `Registry.CheckBeforeLockWouldMoveLocations` | backend/crates/db/src/registry.rs:126-135 | The order matters: a check before the lock would move a reserved location. |
| `Registry.Database.UpdateStorage` | backend/crates/db/src/registry.rs:116-158 | Each outcome is what the last statement found: updated stores the row, only it, and no location has another address; not found; the lock held by somebody else for as long as its caller waits; or an address change with locations present, which changes nothing. The row is never left locked. |
| `Registry.ReservationIsRecorded` | backend/crates/db/src/files/create.rs:60-95 | A reservation is recorded at the address its storage has, and touches no other row. |
| `Registry.DeletedExactlyWhenUnused` | backend/crates/db/src/registry.rs:185-200 | A storage is deleted if and only if nobody holds its row and no location is left on it. |
| `ClientCache.Cache.Get` | backend/crates/storage-provider/src/s3.rs:103-115 | Always the client a fresh build gives for the requested spec and address; other entries are untouched. |
| `ClientCache.CacheIsTransparent` | backend/crates/storage-provider/src/s3.rs:75-116 | After any sequence of requests the answer is that of a fresh client. |
| `ClientCache.BuiltForItsAddress` | backend/crates/storage-provider/src/s3.rs:119-150 | The internal address is the endpoint, the public one the public endpoint; everything else is the spec's. |

## Left out

- Direct presigned bytes: parts and objects put by clients are arbitrary environment steps; byte-level results are for relay and server-driven effects, as the code accepts that window until URL expiry.
- Single S3 PUT completion (if-none-match, logical key replacement and displaced files): its rows are not in the multipart machine, which covers multipart uploads of both surfaces.
- SingleService.CleanupThenFinalize: says nothing about the object of a direct upload, because its client may put bytes again until the URL expires.
- Retry delays inside the upload machines: recovery and cleanup there may start at any time their row allows; the delay itself is in `RecoveryClaims.dfy`, for upload rows; the same delay of files without an upload row (backend/crates/db/src/files/recovery.rs) is not modelled.
- Heartbeat.RunWithHeartbeat: the operation ends at some time; a provider call that never ends is not modelled.
- MultipartService.CommitMultipart: a given number of renewals precedes the reply; when renewals of a heartbeat keep the lease in force is `CompletionFence.dfy`.
- MultipartService.UploadPart: likewise a given number of renewals; their timing is not modelled for parts.
- MultipartService.Initialize: an abandoned create call may still open a session after it returned, as the code's may.
- Cleanup.Provider.List: a page is honest about open sessions of the swept key; prefix filtering of other keys and SDK retries are not modelled.
- Relocation.RelocationCommutesWithResolution: the JSON tree is a value, not rewritten in place, as it is owned by the function that rewrites it; percent-encoding of pointer fragments (section 6 of RFC 6901) is not modelled.
- Retention.PruneStream: rows do not change while a stream is pruned, and rows that arrive are younger than every cutoff; the guard between sessions and tokens is a flag.
- Spool.Receive: the checksums of the received bytes and removal of the temporary file; integer widths of byte counts.
- SpoolBudget.Budget.Release: names the permit by its place among the live ones.
- CanonicalQuery.CanonicalizeQuery: the sort is a function with a proved specification, not an in-place algorithm; characters are code points, whose order is that of UTF-8 bytes.
- Reconcile.ReconcileParts: part sizes are unbounded integers; the checked total and its limit belong to the S3 handler.
- Registry.Database.UpdateStorage: clients and their references are not modelled.
- list_parts pagination, HTTP routing, authentication, management commands, metrics, logging and the web console.
- Fair scheduling of reconciler jobs and batch limits of scans.
