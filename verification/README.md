# Verified model of the devnet upload tooling and the bounty escrow

A Dafny model of the parts of this repository whose correctness is not visible
from reading one function at a time:

- the crash-safe chunk uploader, the directory lease that keeps two uploaders
  apart, and the `apply` and `release` commands that end a dead uploader's lease;
- the single-flight RPC scheduler, its request ledger and the confirmation poller;
- the on-chain escrow program over a ledger of token accounts;
- the algorithms these rest on: payload search and chunk partition, base-58
  encoding, the telemetry store, the Windows command-line parser.

`dafny verify dfyconfig.toml` checks the whole project. Every lemma is marked
`{:induction false}`: each induction is written out.

## How the modules fit together

**Uploader.** `ChunkRecords` holds the record statuses and the check every saved
list passes; `UploadPlan` cuts the binary; `ValidationSnapshot` is the check a
window starts with. `ThrottledUploader.UploadWindow` is the upload code itself,
one method for each stretch between two system calls, over the adversarial
`Network.Chain`: calls fail at will, and a write once handed over lands at any
later moment or never. Whatever it does to the outside world, whatever it is told, and
whatever lands in between, is recorded in a log (`WindowLog`), and `Valid()` says that
the log is possible by the rules of `UploadTrace`: only allowed transitions are saved,
SENT only behind a confirmed front and before its send, CONFIRMED only for a chunk that
matches; and that every save follows from what was just told (`WindowAnswers`): the
signature made, the status reported, the bytes read, the clock's two readings. How a
window ended, or why it was given up, is then a statement about its records and its log.
`UploadConvergence` is one whole execution, plan, snapshot check and window, and what
any number of executions without faults comes to. `ConcurrentUploads` takes any number
of processes, each free to crash between any two system calls, whose uploader steps
follow the rules of `UploadTrace` and whose `apply` steps are exactly the `Reconciles`
rewrites, and proves safety over every interleaving; `RecordShapes` says when the
snapshot check accepts every state they can reach. `WindowSteps` proves that the log of
an `UploadWindow` is a run of one of these processes and the network.

**Lease.** `LeaseEvidence` has the data; a hash is written as the one value it is
the digest of. `LeaseReconciliation` and `LeaseReceipts` hold the checks,
`LeaseDecision` the verdict, `LeaseStore` the two commands as methods of an object
that holds the state file and the lease directories, `LeaseCollection` what is read
from the chain. `LeaseRoundTrip` and `LeaseReplay` prove what the receipts are for.
`LeaseAnswers`, `LeaseRefusals` and `LeaseCommands` say when each verdict, refusal and
command result is given, in the fields of what was read and without the functions that
compute it; `LeaseWitness` says the same of collected evidence in terms of the chain.
`LeaseSteps` closes the circle: collecting with a safe verdict, applying and
releasing are steps that `ConcurrentUploads` allows.

**Scheduler.** `SchedulerLog` says what a lawful run looks like from outside and
what follows for any two of its events; `RpcScheduler` is the scheduler as a step
system that takes its clock readings as parameters, with a proof that all of its
runs are lawful; `SchedulerObject.Scheduler` is the same as the object with fields
that it is, each method proved equal to its step. `ConfirmationPoller` waits for a
signature through requests that behave as `SchedulerLog.AttemptsOfOneRequest`
proves the scheduler's do. `SchedulerProgress` adds what an outside log cannot show:
that the log tells the true endings and answers, and that no request or waiter is stuck.

**Escrow.** `TokenLedger` is the checked token transfer, `EscrowRules` the status
rules, `EscrowProgram` the five instructions with their account checks (a function
and, proved equal to it, the handlers of an object that updates accounts in place),
`EscrowAudit` every run among other people's transactions. `EscrowParties` says exactly
when each instruction succeeds, and traces every signer and payee of a run to the call
that opened the escrow.

**The rest.** `Telemetry`, `TelemetryExtension`, `TelemetryStore` and `TelemetryRecords`
are the telemetry store and what each of its operations leaves in the snapshot;
`CommandLine` is the command-line parser and `CommandGrammar` a grammar that it agrees
with on every line; `Base58` the encoding and its decoder.

Two properties one might expect do not hold, and the model says exactly when they do:

- A planned chunk that the buffer already holds may be confirmed ahead of an unsent
  one, and the next window then refuses to start. So repeated windows need not finish
  an upload, even without faults: `UploadConvergence.ZeroTailBlocks` has three chunks
  and a limit of one. `UploadConvergence.WindowsConverge`: n windows finish exactly when
  the first is accepted, no matching chunk lies behind more lacking ones than the limit,
  and at most n times the limit is pending. `RecordShapes.NeverRefused`: over all runs
  with crashes and reconciliations, no state that the check refuses is reachable exactly
  when the chunks that the buffer held at first came before the others.
- `encodeBase58` of no bytes is `"1"`, which decodes to one zero byte. Its method
  ensures that decoding gives the bytes back if and only if there is at least one.

The check after `apply` has written the state file can fail only if the clock gave
an empty time stamp (`LeaseStore.AppliedStateIsValid`): every other rollback comes
from the disk.

## Model

| member | source | states |
|---|---|---|
| `ChunkRecords.ValidateChunkRecords` | scripts/devnet/state.mjs:17-40 | accepts exactly the lists that are numbered in order, adjoin, and share no signature; otherwise names the first bad record and a true fault of it |
| `ChunkRecords.RangesInOrder` | scripts/devnet/state.mjs:17-40 | in an accepted list no two ranges overlap and they come in order |
| `UploadPlan.DeriveMaxWritePayload` | scripts/devnet/upload-plan.mjs:20-35 | for every monotone size function the result is the greatest payload that fits the packet limit |
| `UploadPlan.PlanBufferUpload` | scripts/devnet/upload-plan.mjs:37-51 | succeeds exactly when every piece fits a transaction; the chunks partition the binary, flags and counts are true of the buffer |
| `UploadPlan.PlanWithDerivedPayload` | scripts/devnet/upload-plan.mjs:20-51 | without a given limit planning succeeds exactly when the lengths agree and a write of one byte fits, and cuts by the greatest payload that fits; a derived limit of 0 is refused |
| `UploadPlan.InitialRecordsAreValid` | scripts/devnet/state-migration-command.mjs:101-117 | the records made from a plan pass the record check |
| `UploadPlan.RemainingWritesComplete` | scripts/devnet/upload-plan.mjs:37-51 | writing the non-matching chunks in any order turns the buffer into the binary |
| `ValidationSnapshot.ValidateConfirmedValidationSnapshot` | scripts/devnet/upload-validation-snapshot.mjs:106-143 | accepts exactly when records and plan agree, the confirmed chunks match and form a front; returns their indexes |
| `UploadTrace.SavedStatesAreValid` | scripts/devnet/throttled-uploader.mjs:153-163 | rewriting one record by an allowed transition, with a signature of its own, keeps every saved list valid |
| `UploadTrace.LegalIsInOrder` | scripts/devnet/throttled-uploader.mjs:40-80 | whenever a SENT record is saved every earlier chunk is confirmed and no later one is under way |
| `UploadTrace.ReconciledRecordsAreValid` | scripts/devnet/upload-execution-lease.mjs:1203-1209 | a reconciled list of records is valid again |
| `ThrottledUploader.ReconcileChunk` | scripts/devnet/throttled-uploader.mjs:33-38 | CONFIRMED exactly with matching bytes, no error, and a finalized or expired signature; FAILED exactly on a status with an error; never anything but these and UNKNOWN |
| `WindowAnswers.SavedAsTold` | scripts/devnet/throttled-uploader.mjs:65-76 | at any save of a record that was not planned, in any window: FAILED exactly when the status reported before carries an error, CONFIRMED exactly when it does not, the bytes read match, and the status is final or the chunk was sent by an earlier window, UNKNOWN otherwise; and no call had failed until then |
| `WindowAnswers.NothingSent` | scripts/devnet/throttled-uploader.mjs:165-212 | a window that has sent nothing finds every open record left by an earlier one |
| `ThrottledUploader.UploadWindow.Observe` | scripts/devnet/throttled-uploader.mjs:59-69 | after a send: the verdict and the duration follow from the reported status, the bytes and the clock; no verdict exactly when one of the calls failed |
| `ThrottledUploader.UploadWindow.Recheck` | scripts/devnet/throttled-uploader.mjs:186-190 | on resuming: the verdict follows from the status, asked for if there is a signature, and the bytes |
| `ThrottledUploader.UploadWindow.Persist` | scripts/devnet/throttled-uploader.mjs:153-163 | saves exactly an allowed transition that leaves the list valid, and otherwise leaves the disk alone |
| `ThrottledUploader.UploadWindow.Hand` | scripts/devnet/throttled-uploader.mjs:47-58 | sends only the chunk whose SENT record was saved last |
| `ThrottledUploader.UploadWindow.UploadChunk` | scripts/devnet/throttled-uploader.mjs:44-76 | one chunk costs at most one send and changes one record, in order; the window is stopped exactly with the record FAILED, UNKNOWN, or SENT and its send refused for the rate, and given up only after a failed call or a repeated signature |
| `ThrottledUploader.UploadWindow.RunSequentialUpload` | scripts/devnet/throttled-uploader.mjs:40-80 | at most the window's limit of sends; wherever the loop ends, everything before is confirmed, the confirmed and skipped indexes are exactly the planned and the matching ones before, nothing after changed, and the status is that of the chunk it stopped at; it is given up only after a failure |
| `ThrottledUploader.UploadWindow.ScanRecords` | scripts/devnet/throttled-uploader.mjs:165-212 | resuming sends nothing, and gives exactly the chunks still to run, or the record that ended the window and its status, or a failed call, an unsafe policy or a record that disagrees with plan or snapshot |
| `ThrottledUploader.UploadWindow.RunPersistedSequentialUpload` | scripts/devnet/throttled-uploader.mjs:136-225 | every save follows from what was told before it; CONFIRMED_FAILURE, UNKNOWN and RATE_LIMITED are reported exactly when the first unsettled record is FAILED, UNKNOWN, or SENT with its send refused for the rate; an aborted window has a cause; COMPLETE means the whole buffer equals the binary; saved states are gap-free if and only if the plan has no stray match; a window that runs to its end sent exactly the first lacking chunks up to its limit and wrote exactly their bytes, and without faults it does run to its end |
| `ThrottledUploader.EndingTold` | scripts/devnet/throttled-uploader.mjs:136-225 | of the ways a window can end, each status goes with the first record on disk that is neither planned nor confirmed, and with none of them when it is COMPLETE or WINDOW_LIMIT |
| `ThrottledUploader.CompleteBuffer` | scripts/devnet/throttled-uploader.mjs:214-224 | all records confirmed and backed means the buffer is the binary |
| `ThrottledUploader.MatchedFrontHasNoStray` | scripts/devnet/throttled-uploader.mjs:200-212 | matching chunks that form a prefix are enough for the gap-free shape |
| `ThrottledUploader.NextSnapshotAccepts` | scripts/devnet/upload-validation-snapshot.mjs:112-135 | every list of records in shape and backed by the buffer passes the check, whatever has landed since; `RecordShapes` shows which states those are |
| `ThrottledUploader.StrayMatchBlocksNextWindow` | scripts/devnet/throttled-uploader.mjs:206-210 | without the prefix hypothesis the scan saves a state that the next window refuses |
| `UploadConvergence.ExecuteUploadWindow` | scripts/devnet/upload-execution-command.mjs:494-719 | plans from the buffer, checks the records and runs the window; a refused plan or snapshot changes nothing, an accepted window does as it was told and its status is that of its first unsettled record, COMPLETE means the buffer is the binary, and without faults it is the window step of `WindowsConverge` |
| `UploadConvergence.CutIsDetermined` | scripts/devnet/upload-plan.mjs:37-51 | plans for two states of the buffer differ in their match flags only |
| `UploadConvergence.NextWindowStarts` | scripts/devnet/upload-validation-snapshot.mjs:112-135 | after an accepted window without faults the next check accepts exactly when no matching chunk lay behind more lacking ones than the limit |
| `UploadConvergence.StaysSettled` | scripts/devnet/throttled-uploader.mjs:136-225 | after a window without faults nothing is open, all that was sent has landed and every signature is known, as before it |
| `UploadConvergence.WindowsConverge` | scripts/devnet/upload-execution-command.mjs:494-719 | the last of n windows without faults reports COMPLETE exactly when the first was accepted, no matching chunk lay behind more lacking ones than the limit, and at most n times the limit was pending; the buffer is then the binary |
| `UploadConvergence.BlockedForGood` | scripts/devnet/upload-validation-snapshot.mjs:128-131 | otherwise every window after the first is refused and nothing changes any more |
| `UploadConvergence.ZeroTailBlocks` | scripts/devnet/throttled-uploader.mjs:206-210 | a binary that ends in a zero byte, on a fresh buffer, one byte a chunk and one chunk a window, is never finished |
| `RecordShapes.ReconciledKeepsShape` | scripts/devnet/upload-execution-lease.mjs:1203-1209 | closing open records keeps a confirmed front, at most one other record and a planned rest |
| `RecordShapes.StepShapes` | scripts/devnet/throttled-uploader.mjs:136-225 | when the matching chunks come first, every step of every process, apply, rollback and landings included, keeps the shape |
| `RecordShapes.EveryStateIsAccepted` | scripts/devnet/upload-validation-snapshot.mjs:112-135 | then in every reachable state the snapshot check accepts the file, and a plan made from the buffer has no stray match |
| `RecordShapes.NeverRefused` | scripts/devnet/upload-validation-snapshot.mjs:112-135 | no reachable state is refused exactly when there is something to upload and the matching chunks come first |
| `WindowSteps.WindowIsARun` | scripts/devnet/throttled-uploader.mjs:136-225 | at any moment of a window, its saves and sends with the landings between them are a run of one process and the network that leads to its state file and buffer |
| `ConcurrentUploads.StepKeeps` | scripts/devnet/upload-execution-lease.mjs:95-130 | every step of every process, crashes and late writes included, keeps the invariant |
| `ConcurrentUploads.MutualExclusion` | scripts/devnet/upload-execution-lease.mjs:95-130 | in every reachable state at most one live process is past lease acquisition |
| `ConcurrentUploads.HandedAtMostOnce` | scripts/devnet/throttled-uploader.mjs:40-80 | over every run each chunk is handed to send at most once, by whichever process, and its record is then not PLANNED |
| `ConcurrentUploads.ConfirmedIsWritten` | scripts/devnet/throttled-uploader.mjs:33-80 | in every reachable state the file is valid and each CONFIRMED range of the buffer equals the binary |
| `ConcurrentUploads.CompleteIsWritten` | scripts/devnet/upload-execution-command.mjs:494-719 | once a process is about to report COMPLETE the whole buffer equals the binary, then and ever after |
| `ConcurrentUploads.WindowsStartSettled` | scripts/devnet/upload-execution-lease.mjs:1301-1416 | a lease is only given up with nothing open, so every window starts without SENT or UNKNOWN records |
| `ConcurrentUploads.NothingReturnsToPlanned` | scripts/devnet/upload-execution-lease.mjs:1225-1238 | no step, rollback of an apply included, takes a record back to PLANNED |
| `ConcurrentUploads.SentIsForGood` | scripts/devnet/throttled-uploader.mjs:12-26 | a chunk that was ever sent is never PLANNED again in any run |
| `LeaseReconciliation.ValidateStoredPlan` | scripts/devnet/upload-execution-lease.mjs:169-202 | accepts exactly the states of the expected identity whose records are valid, cover the binary and have the expected fingerprint |
| `LeaseReconciliation.FindTerminal` | scripts/devnet/upload-execution-lease.mjs:204-209 | finds the terminal outcome of an execution exactly when there is only one |
| `LeaseReconciliation.EvaluateChunkProofs` | scripts/devnet/upload-execution-lease.mjs:262-341 | computes the specified result, refusal included, for every evidence list |
| `LeaseReconciliation.AcceptedExactly` | scripts/devnet/upload-execution-lease.mjs:262-341 | evidence is accepted exactly when there is one piece for each target and each is a finalized, error-free, matching write; what is reported is that evidence, in order |
| `LeaseReceipts.AppliedReceiptTargets` | scripts/devnet/upload-execution-lease.mjs:351-384 | accepts exactly one receipt whose distinct transitions fit the records, and gives their targets |
| `LeaseReceipts.ReconstructReceiptPreState` | scripts/devnet/upload-execution-lease.mjs:402-429 | gives the state before the receipt exactly when that is a valid plan state with the recorded hash and exactly the named records open |
| `LeaseDecision.ReconcileUploadLease` | scripts/devnet/upload-execution-lease.mjs:476-609 | the specified verdict, or the first check that fails, for every input; `LeaseAnswers` and `LeaseRefusals` say what these are |
| `LeaseAnswers.SafeExactly` | scripts/devnet/upload-execution-lease.mjs:476-609 | a lease is safe to release exactly when the owner is dead, lease, file hash, identity, stored plan, chain and buffer are as expected, the execution ended once, and either it has no receipt, every open record is proved, and something is open or the outcome was known, or nothing is open and its one receipt is in order, proved again and vouched for by the state before it |
| `LeaseRefusals.RefusalsAreTrue` | scripts/devnet/upload-execution-lease.mjs:476-609 | each refusal is true of what was read: an active owner and a changed file exactly when they are, every other reason with the field, the receipt or the piece of evidence to blame |
| `LeaseRefusals.VerdictSays` | scripts/devnet/upload-execution-lease.mjs:562-609 | every part of a verdict from what was read: one proposal for each open record with the slot and fee of its transaction, the verified transactions, the fingerprint of the chain, the hash of all the evidence, and readiness exactly with nothing open |
| `LeaseDecision.VerifiedAppliedReceipt` | scripts/devnet/upload-execution-lease.mjs:386-400 | every transition of the receipt agrees with the evidence in status, signature, slot, fee and both digests |
| `LeaseRoundTrip.ProposalsCloseAll` | scripts/devnet/upload-execution-lease.mjs:262-341 | accepted evidence proposes exactly the transitions that close the open records |
| `LeaseRoundTrip.BackwardUndoesForward` | scripts/devnet/upload-execution-lease.mjs:411-416 | undoing closing transitions restores every record, and after them nothing is open |
| `LeaseRoundTrip.ForwardUndoesBackward` | scripts/devnet/upload-execution-lease.mjs:411-416 | redoing a fitting receipt's transitions restores the records it was found on |
| `LeaseRoundTrip.ApplyThenReconstruct` | scripts/devnet/upload-execution-lease.mjs:402-429 | the reconstruction of an applied state is exactly the state before the apply |
| `LeaseReplay.NextReconcileSettles` | scripts/devnet/upload-execution-lease.mjs:531-608 | on an unchanged chain the next reconcile after an apply is safe, with the same on-chain fingerprint and transactions, no transitions, ready for release |
| `LeaseReplay.ReceiptIsSound` | scripts/devnet/upload-execution-lease.mjs:534-581 | safe with a receipt means a prior valid state with the recorded hash, whose open records are exactly the receipt's, each proven now; the state differs from it by the receipt alone |
| `LeaseReplay.ReleaseReadyWhenNoneOpen` | scripts/devnet/upload-execution-lease.mjs:591-600 | a safe verdict is ready for release exactly when no record is open |
| `LeaseReplay.VerdictIsStable` | scripts/devnet/upload-execution-lease.mjs:229-260 | looking at the same chain later gives the same verdict, evidence hash included |
| `LeaseStore.Store.ApplyUploadReconciliation` | scripts/devnet/upload-execution-lease.mjs:1164-1254 | result and file are the specified ones for every request, clock and disk fault; only the state file can change |
| `LeaseCommands.ApplyAnswers` | scripts/devnet/upload-execution-lease.mjs:1164-1254 | each answer of an apply, refusals, rollbacks and ALREADY_APPLIED included, is given exactly when a condition on what was read holds |
| `LeaseCommands.ApplyWrites` | scripts/devnet/upload-execution-lease.mjs:1203-1238 | the file after an apply has exactly the open records CONFIRMED and one receipt with the acknowledged hash; otherwise it is the file found, unless putting it back failed |
| `LeaseStore.Store.WriteApplied` | scripts/devnet/upload-execution-lease.mjs:1224-1239 | writes the applied state, or puts the original back whenever saving or the check after it fails |
| `LeaseStore.ConfirmChunks` | scripts/devnet/upload-execution-lease.mjs:1203-1209 | closes the records; none of the per-transition checks can fail |
| `LeaseStore.AppliedStateIsValid` | scripts/devnet/upload-execution-lease.mjs:630-636 | the check after the write fails exactly when the time stamp is empty |
| `LeaseStore.ApplyClosesOpenRecords` | scripts/devnet/upload-execution-lease.mjs:1164-1254 | an apply confirms exactly the open records, each proven, and leaves every other record and field alone |
| `LeaseStore.SecondApplyIsRecognised` | scripts/devnet/upload-execution-lease.mjs:1173-1187 | a second apply with the old hash on an unchanged chain answers ALREADY_APPLIED and changes nothing |
| `LeaseStore.Store.ReleaseUploadLease` | scripts/devnet/upload-execution-lease.mjs:1301-1416 | result, lease directory and archive are the specified ones; the state file never changes |
| `LeaseCommands.ReleaseAnswers` | scripts/devnet/upload-execution-lease.mjs:1301-1416 | each answer of a release is given exactly when a condition on what was read holds |
| `LeaseCommands.ReleaseMoves` | scripts/devnet/upload-execution-lease.mjs:1378-1416 | a release moves the directory with its receipt, a failed move leaves the receipt behind, and nothing else changes either place |
| `LeaseStore.ReleaseNeedsNothingOpen` | scripts/devnet/upload-execution-lease.mjs:1316-1323 | a release needs a dead owner and no open record, and moves exactly this lease |
| `LeaseStore.ApplyThenReleaseTwice` | scripts/devnet/upload-execution-lease.mjs:1301-1416 | after an apply the lease can be released with the next verdict's hash, and releasing again is idempotent |
| `LeaseCollection.ReconciliationProofRecords` | scripts/devnet/upload-execution-command.mjs:65-100 | the open records, or else the records the one receipt names, or nothing |
| `LeaseCollection.ConfirmedChunksMatch` | scripts/devnet/upload-execution-command.mjs:102-114 | true exactly when every CONFIRMED range of the account has the recorded digest |
| `LeaseCollection.CollectLeaseReconciliationInput` | scripts/devnet/upload-execution-command.mjs:286-468 | collects exactly the specified evidence, or refuses state, plan or snapshot |
| `LeaseWitness.CollectedExactly` | scripts/devnet/upload-execution-command.mjs:286-468 | evidence is collected exactly for a file of this upload and a sound snapshot of the chain that is no older than the transactions |
| `LeaseWitness.CollectedProvesExactly` | scripts/devnet/upload-execution-command.mjs:286-468 | collected evidence proves the open records exactly when each one's transaction is final, without error, one write of its bytes of the binary to this buffer, and the buffer holds them |
| `LeaseWitness.SafeWhenShown` | scripts/devnet/upload-execution-lease.mjs:476-609 | with records open, a verdict on collected evidence is safe exactly when the owner is dead, the lease is this upload's, confirmed ranges have their digests, the execution ended once without a receipt, and every open write is shown on chain |
| `LeaseCollection.SafeMeansWritten` | scripts/devnet/upload-execution-command.mjs:102-114 | on collected evidence a safe verdict means every CONFIRMED or open record has the binary's bytes in the buffer |
| `LeaseCollection.CollectedAfterApply` | scripts/devnet/upload-execution-command.mjs:286-468 | collecting after an apply on an unchanged chain succeeds and differs by the new state hash and slots only |
| `LeaseCollection.CollectApplyCollect` | scripts/devnet/upload-execution-lease.mjs:1164-1254 | collect, apply, collect: same fingerprint, nothing proposed, ready for release, and the old hash is recognised |
| `LeaseCollection.ApplyConfirmsOnlyWritten` | scripts/devnet/upload-execution-lease.mjs:1164-1254 | after an apply on collected evidence every CONFIRMED record has its bytes in the buffer |
| `LeaseSteps.CollectedIsAStep` | scripts/devnet/upload-execution-command.mjs:286-468 | the open chunks of a safe verdict match the buffer, so a process may collect them as evidence |
| `LeaseSteps.AppliedIsAStep` | scripts/devnet/upload-execution-lease.mjs:1164-1254 | the records an apply writes are what a process that checked the lease with that evidence may write |
| `LeaseSteps.ReleasedIsAStep` | scripts/devnet/upload-execution-lease.mjs:1301-1416 | a lease is released only from a state from which a process may release it |
| `SchedulerLog.StartsInOrder` | scripts/devnet/rpc-request-scheduler.mjs:101-108 | any two starts of a lawful run are at least the gap apart and follow the order of acceptance |
| `SchedulerLog.OneAttemptAtATime` | scripts/devnet/rpc-request-scheduler.mjs:188-207 | between any two starts the earlier attempt ended |
| `SchedulerLog.RetriesBackOff` | scripts/devnet/rpc-request-scheduler.mjs:175-183 | a retry follows a temporary failure of the attempt before it by at least its backoff |
| `SchedulerLog.SuccessResolves` | scripts/devnet/rpc-request-scheduler.mjs:164-199 | an observed attempt that ends in success, with the clock in order, is followed at once by the resolution of its promise |
| `SchedulerLog.ResolvedBySuccess` | scripts/devnet/rpc-request-scheduler.mjs:164-199 | a promise is resolved only directly after a success of its own request |
| `SchedulerLog.TemporaryFailureIsRetried` | scripts/devnet/rpc-request-scheduler.mjs:164-186 | a temporary failure of a retriable request with attempts left, before any abort, is not settled before its next attempt begins or an abort, its guard or a refusal comes in the way |
| `SchedulerLog.StoppedIsRejected` | scripts/devnet/rpc-request-scheduler.mjs:110-134 | a request that its guard or a refusal stopped starts nothing any more and is rejected |
| `SchedulerLog.GuardsAreAsked` | scripts/devnet/rpc-request-scheduler.mjs:110-118 | every attempt of a guarded request was allowed by its guard, asked for that attempt |
| `SchedulerLog.RejectionsHaveCauses` | scripts/devnet/rpc-request-scheduler.mjs:110-207 | no promise is rejected without an abort, a guard, a refusal or a failed last attempt before it |
| `SchedulerLog.AttemptsAreFew` | scripts/devnet/rpc-request-scheduler.mjs:110-113 | reads get at most three attempts, writes and sends one, none twice |
| `SchedulerLog.NothingAfterAbort` | scripts/devnet/rpc-request-scheduler.mjs:78-85 | after an abort nothing is accepted and no attempt starts |
| `SchedulerLog.SettledForGood` | scripts/devnet/rpc-request-scheduler.mjs:188-207 | each promise settles at most once and nothing of its request starts afterwards |
| `SchedulerLog.WokenWhenDrained` | scripts/devnet/rpc-request-scheduler.mjs:254-261 | close and abort return only when every request accepted before has settled |
| `SchedulerLog.AttemptsOfOneRequest` | scripts/devnet/rpc-request-scheduler.mjs:110-186 | the attempts of one request keep its deadline, earliest time and backoffs, whatever else is scheduled |
| `RpcScheduler.StepKeeps` | scripts/devnet/rpc-request-scheduler.mjs:58-207 | every step keeps the books, the phase facts and the absence of lost wake-ups |
| `RpcScheduler.RunsAreLawful` | scripts/devnet/rpc-request-scheduler.mjs:110-261 | every run, with any readings, endings, guard answers, aborts and closes, is lawful, and leaves no settlement due |
| `RpcScheduler.RequestsAreConserved` | scripts/devnet/rpc-request-scheduler.mjs:188-237 | accepted equals settled plus queued plus active, disjointly; a queued request has an active one before it |
| `SchedulerProgress.EveryRequestCanBeServed` | scripts/devnet/rpc-request-scheduler.mjs:110-207 | in whatever phase a run leaves a request, before any abort, enough time, an allowing guard and a success resolve it |
| `SchedulerProgress.AcceptedAsAsked` | scripts/devnet/rpc-request-scheduler.mjs:211-239 | a request is accepted exactly while there is room and nothing closed the scheduler, and as it was asked for |
| `SchedulerProgress.GuardIsTold` | scripts/devnet/rpc-request-scheduler.mjs:110-118 | the log tells a guard's true answer |
| `SchedulerProgress.StartIsTold` | scripts/devnet/rpc-request-scheduler.mjs:114-163 | an attempt begins exactly when nothing aborted, the clock is in order, there is room before the deadline and the ledger admits it |
| `SchedulerProgress.EndIsTold` | scripts/devnet/rpc-request-scheduler.mjs:164-185 | the log tells the true ending of an attempt, when it was read, and whether the clock failed |
| `SchedulerProgress.NothingAcceptedAfterClosing` | scripts/devnet/rpc-request-scheduler.mjs:211-261 | after a close or an abort nothing is accepted in any run |
| `SchedulerProgress.NoWaiterIsLost` | scripts/devnet/rpc-request-scheduler.mjs:254-261 | whoever closes or aborts is woken by the time the scheduler is idle |
| `SchedulerObject.Scheduler.Schedule` | scripts/devnet/rpc-request-scheduler.mjs:211-239 | accepts exactly when open and within capacity, and takes the request at once when idle |
| `SchedulerObject.Scheduler.MarkAborted` | scripts/devnet/rpc-request-scheduler.mjs:78-85 | rejects the whole queue in order, once, and wakes the waiters of an idle scheduler |
| `SchedulerObject.Scheduler.Pump` | scripts/devnet/rpc-request-scheduler.mjs:188-193 | takes the head of the queue, or wakes whoever waits for idleness |
| `SchedulerObject.Scheduler.WaitForRequestStartGap` | scripts/devnet/rpc-request-scheduler.mjs:92-108 | one round of waiting equals the step: ready only at or after the gap and the request's earliest time |
| `SchedulerObject.Scheduler.Attempt` | scripts/devnet/rpc-request-scheduler.mjs:117-163 | from the last abort check to the start, with the deadline check, every clock failure and a refusal by the ledger or a subscriber, equals the step |
| `SchedulerObject.Scheduler.WaitForCoolOff` | scripts/devnet/rpc-request-scheduler.mjs:240-253 | one round of a cool-off reads the clock as the step says and ends it only when its time is over |
| `SchedulerObject.Scheduler.AttemptEnded` | scripts/devnet/rpc-request-scheduler.mjs:164-185 | settles, aborts or backs off exactly as the step says, clock failures included; `SchedulerLog.SuccessResolves` and `TemporaryFailureIsRetried` say what that is |
| `SchedulerObject.Scheduler.Close` | scripts/devnet/rpc-request-scheduler.mjs:254-257 | closes and returns at once only when idle |
| `ConfirmationPoller.ConfirmSignature` | scripts/devnet/upload-execution-command.mjs:954-983 | terminates; a status is returned exactly when the chain's last reply was that status, with an error or finalized, and none before was; a failure exactly when the last reply was thrown; none only when time or the deadline ran out; attempts are spaced and bounded |
| `ConfirmationPoller.AttemptsAreBounded` | scripts/devnet/upload-execution-command.mjs:954-983 | at most floor((timeout - request timeout) / 2000) + 1 attempts, none if the timeout is below the request timeout |
| `ConfirmationPoller.AttemptsAreSpaced` | scripts/devnet/upload-execution-command.mjs:963-972 | any two status attempts, retries included, start at least 2000 ms apart |
| `ConfirmationPoller.MoreArePolled` | scripts/devnet/upload-execution-command.mjs:958-972 | the spacing carries over from one request to the next and through a request's own retries |
| `RpcLedger.Ledger.Append` | scripts/devnet/rpc-request-ledger.mjs:116-142 | records unless the clock ran backwards; the kept entries stay the largest of all completed, sorted, and every count stays true |
| `RpcLedger.KeptIsDetermined` | scripts/devnet/rpc-request-ledger.mjs:131-138 | the same requests completed in another order leave the same entries |
| `RpcLedger.Ledger.Begin` | scripts/devnet/rpc-request-ledger.mjs:145-158 | valid metadata gets the next number, anything else none |
| `RpcLedger.Ledger.Summarize` | scripts/devnet/rpc-request-ledger.mjs:219-228 | the summary is true of all completions and passes the safety check exactly while the total is a safe integer |
| `TokenLedger.TransferConserves` | programs/oss-bounty-escrow/src/lib.rs:83-94 | a transfer moves exactly the amount, to the same account nothing, and changes no total |
| `TokenLedger.TransferNeverOverflows` | programs/oss-bounty-escrow/src/lib.rs:83-94 | within the supply a transfer never overflows |
| `EscrowRules.OneSettlement` | programs/oss-bounty-escrow/src/rules.rs:89-115 | at every moment exactly one of release and refund is open to a funded escrow, neither to any other |
| `EscrowProgram.Bank.Initialize` | programs/oss-bounty-escrow/src/lib.rs:19-64 | the handler with its account constraints does what the instruction function says, or changes nothing |
| `EscrowProgram.Bank.CancelEscrow` | programs/oss-bounty-escrow/src/lib.rs:66-76 | likewise for cancelling |
| `EscrowProgram.Bank.Fund` | programs/oss-bounty-escrow/src/lib.rs:78-106 | likewise for funding |
| `EscrowProgram.Bank.ReleaseEscrow` | programs/oss-bounty-escrow/src/lib.rs:108-148 | likewise for releasing |
| `EscrowProgram.Bank.RefundEscrow` | programs/oss-bounty-escrow/src/lib.rs:150-190 | likewise for refunding |
| `EscrowParties.InitializeSucceeds` | programs/oss-bounty-escrow/src/lib.rs:19-64 | an escrow is opened exactly with fresh derived addresses, a real mint, a reference, an amount, time left and parties |
| `EscrowParties.CancelSucceeds` | programs/oss-bounty-escrow/src/lib.rs:66-76 | cancelled exactly by its sponsor and before it is funded |
| `EscrowParties.FundSucceeds` | programs/oss-bounty-escrow/src/lib.rs:78-106 | funded exactly by its sponsor, once, before expiry, from an account of the sponsor that holds the amount |
| `EscrowParties.ReleaseSucceeds` | programs/oss-bounty-escrow/src/lib.rs:108-148 | released exactly by its maintainer, while funded, before expiry, to an account of its contributor |
| `EscrowParties.RefundSucceeds` | programs/oss-bounty-escrow/src/lib.rs:150-190 | refunded exactly by its sponsor, while funded, from expiry on, to an account of the sponsor |
| `EscrowParties.ErrorsAreTrue` | programs/oss-bounty-escrow/src/rules.rs:39-122 | each error is true of the instruction that gave it |
| `EscrowParties.EscrowsWereOpened` | programs/oss-bounty-escrow/src/lib.rs:36-49 | every escrow of a run was opened by a call of that run, and holds exactly that call's sponsor, maintainer, contributor, mint, vault, reference, amount, expiry and time |
| `EscrowParties.OnlyPartiesAct` | programs/oss-bounty-escrow/src/lib.rs:66-190 | every successful release of a run is signed by the maintainer and pays the contributor of the call that opened the escrow; every cancel, funding and refund is signed by its sponsor |
| `EscrowParties.OnlyOwnEscrowChanges` | programs/oss-bounty-escrow/src/lib.rs:66-190 | an instruction sets the status of its own escrow, keeps its terms and touches no other |
| `EscrowParties.FundingPays` | programs/oss-bounty-escrow/src/lib.rs:78-106 | a funding moves exactly the opened amount from the sponsor's account into the vault |
| `EscrowAudit.VaultsAreAccounted` | programs/oss-bounty-escrow/src/lib.rs:78-190 | in every run each vault holds its unsolicited credits plus the recorded amount exactly while its escrow is funded |
| `EscrowAudit.TokensAreConserved` | programs/oss-bounty-escrow/src/lib.rs:78-190 | in every run the accounts of each mint together hold its supply |
| `EscrowAudit.HistoriesAreLawful` | programs/oss-bounty-escrow/src/rules.rs:39-122 | each sponsor and reference is initialized once, then cancelled, or funded once before expiry and settled at most once: released before or refunded from expiry on, for the recorded amount |
| `EscrowAudit.FundedCanBeSettled` | programs/oss-bounty-escrow/src/lib.rs:108-190 | on a funded escrow release succeeds exactly before expiry and refund exactly from expiry on, whatever happened before |
| `EscrowAudit.SettlementPays` | programs/oss-bounty-escrow/src/lib.rs:108-190 | a settlement pays exactly the recorded amount, to an account of the contributor or of the sponsor |
| `EscrowAudit.TermsNeverChange` | programs/oss-bounty-escrow/src/lib.rs:36-49 | an escrow's terms never change and its events are only added to |
| `EscrowAudit.OutsideCreditsVaults` | programs/oss-bounty-escrow/src/lib.rs:193-304 | nobody else can take from a vault; what others add is counted as a credit |
| `Base58.EncodeBase58` | scripts/devnet/upload-execution-command.mjs:859-876 | the text has the value of the bytes and as many leading ones as leading zero bytes; it decodes to the bytes exactly when there is at least one |
| `Base58.DecodeCharacterised` | scripts/devnet/upload-execution-command.mjs:859-876 | the plain decoder gives bytes for a text exactly when the text encodes them |
| `Base58.EncodingUnique` | scripts/devnet/upload-execution-command.mjs:859-876 | different bytes have different texts, but for no bytes and one zero byte, which share one |
| `Base58.EmptyInputNotInverted` | scripts/devnet/upload-execution-command.mjs:859-876 | no bytes encode to one character that decodes to a zero byte |
| `CommandLine.ParseWindowsCommandLine` | scripts/devnet/upload-process-classifier.mjs:165-212 | terminates on every string and gives the specified arguments; `CommandGrammar` says what these are |
| `CommandGrammar.LineIsRead` | scripts/devnet/upload-process-classifier.mjs:165-212 | a line spelled by the grammar, backslash runs, turns and doubled quotes included, is read as exactly what its spelling means |
| `CommandGrammar.EveryLineIsLined` | scripts/devnet/upload-process-classifier.mjs:165-212 | every line has such a spelling, so parser and grammar agree on all input |
| `CommandLine.QuotingRoundTrip` | scripts/devnet/upload-process-classifier.mjs:165-212 | every argument list, quoted by the C runtime's rules and joined, is read back |
| `CommandLine.QuotedListRoundTrip` | scripts/devnet/upload-process-classifier.mjs:165-212 | the same when every argument is quoted whether it needs it or not |
| `Telemetry.ComputedMinimumGap` | scripts/devnet/upload-execution-telemetry.mjs:244-251 | the loop gives the least difference between neighbours, none below two values |
| `Telemetry.MinimumGapIsLeast` | scripts/devnet/upload-execution-telemetry.mjs:244-251 | that difference is a lower bound and is attained |
| `Telemetry.ComputedMinimumConfirmationGap` | scripts/devnet/upload-execution-telemetry.mjs:253-264 | the least gap between neighbouring polls of the same chunk, none if no chunk was polled twice |
| `Telemetry.ComputeMissing` | scripts/devnet/upload-execution-telemetry.mjs:297-339 | lists exactly what a finished snapshot lacks |
| `Telemetry.NothingMissingWhenComplete` | scripts/devnet/upload-execution-telemetry.mjs:297-339 | nothing is missing exactly when each expected chunk has one successful send with one successful request inside and two polls, every request ended and every gap is at or above policy |
| `TelemetryExtension.ExtendsTransitive` | scripts/devnet/upload-execution-telemetry.mjs:440-462 | an extension of an extension is an extension, over nested lists and objects with the skipped fields |
| `TelemetryExtension.ExtendsReflexive` | scripts/devnet/upload-execution-telemetry.mjs:440-462 | every value with distinct keys extends itself |
| `TelemetryStore.Store.Persist` | scripts/devnet/upload-execution-telemetry.mjs:596-603 | replaces the snapshot exactly when the records are valid, linked, extend it and keep COMPLETE; every snapshot held extends all earlier ones |
| `TelemetryStore.Store.RecordRpcStart` | scripts/devnet/upload-execution-telemetry.mjs:618-655 | adds the request and its poll, or nothing |
| `TelemetryStore.Store.RecordRpcEntry` | scripts/devnet/upload-execution-telemetry.mjs:656-725 | completes the open request or adds a whole one, or nothing; refuses an entry whose duration is not the time between its start and end |
| `TelemetryStore.Store.RecordPreSignCooldown` | scripts/devnet/upload-execution-telemetry.mjs:726-759 | adds the chunk's send record, or nothing |
| `TelemetryStore.Store.RecordSendStart` | scripts/devnet/upload-execution-telemetry.mjs:760-770 | fills in the start of a send once |
| `TelemetryStore.Store.RecordSendFinish` | scripts/devnet/upload-execution-telemetry.mjs:771-786 | fills in the end of a started send once |
| `TelemetryStore.Store.Finish` | scripts/devnet/upload-execution-telemetry.mjs:787-803 | fixes the end and the expected chunks once |
| `TelemetryRecords.StartIsRecorded` | scripts/devnet/upload-execution-telemetry.mjs:618-655 | a kept start is the given request, higher than all before it, and its poll |
| `TelemetryRecords.EntryIsRecorded` | scripts/devnet/upload-execution-telemetry.mjs:656-725 | a kept entry ends the one open request it repeats with the end and outcome it gives, or is added whole; it applies exactly then and with a true duration |
| `TelemetryRecords.CooldownIsRecorded` | scripts/devnet/upload-execution-telemetry.mjs:726-759 | a kept cooldown is the given send record, for a higher chunk than all before |
| `TelemetryRecords.SendStartIsRecorded` | scripts/devnet/upload-execution-telemetry.mjs:760-770 | a kept start goes to the send of that chunk, which had none |
| `TelemetryRecords.SendFinishIsRecorded` | scripts/devnet/upload-execution-telemetry.mjs:771-786 | a kept end and its success go to the send of that chunk, which had begun and not ended |
| `TelemetryRecords.EndIsRecorded` | scripts/devnet/upload-execution-telemetry.mjs:787-803 | a kept finish has the given time and expected chunks, and applies exactly when neither was set to something else |
| `TelemetryStore.RefreshedPersists` | scripts/devnet/upload-execution-telemetry.mjs:425-469 | whether a snapshot is kept depends on its records alone, not on the fields computed from them |
| `TelemetryStore.CompleteMeansComplete` | scripts/devnet/upload-execution-telemetry.mjs:341-396 | the verdict of a valid snapshot is COMPLETE exactly when its records show a complete execution |
| `TelemetryStore.HistoryKeepsRecords` | scripts/devnet/upload-execution-telemetry.mjs:440-469 | whatever was recorded at one time, requests, sends, polls, policy and expected chunks, every later snapshot keeps, in the same place; COMPLETE stays COMPLETE |

## Left out

- Hashing, signatures, address derivation and JSON: a hash stands for the one value it is the digest of, a state file is a state plus whether its layout is the canonical one.
- Times are integers; the floating-point tolerance of telemetry durations and the time stamps that follow from elapsed times are not modelled.
- The chain never forks: a range of the buffer that held the binary's bytes keeps them, and only handed writes change the buffer.
- `ConcurrentUploads` takes a dead process to be found active at will, and a live one always; host names and process signals behind that answer are not part of the model.
- The operation lock and the lease directory are single atomic steps of `ConcurrentUploads`; `LeaseStore` has the commands' logic without interleaving.
- The checks of the uploader's checkpoint against its expected identities, the age and identity fields of a validation snapshot, and the rate policy's numeric bounds beyond those that matter for termination.
- Delays: inter-chunk sleeps and pre-sign cool-downs; of the scheduler's `waitForCoolOff` only the clock readings.
- Pre-selection recovery of a lease: only that it needs a dead owner is kept, as a step of `ConcurrentUploads`; its evidence files are long field-by-field comparisons.
- LeaseStore.Store.ReleaseUploadLease: does not model that a release also needs the telemetry file in the lease directory to be the one its terminal outcome names, before and after the rename; and nothing of what the commands print.
- ThrottledUploader.UploadWindow.RunSequentialUpload: its result leaves out the list of confirmation durations; they are those of the records it saves.
- TelemetryStore.Store.RecordRpcEntry: takes the duration to be exact, where the source allows for floating-point error.
- What ledger subscribers do, and a start observer that calls back into the scheduler; that a subscriber or an observer fails is modelled.
- UploadConvergence.WindowsConverge: is about windows that start with nothing open or failed and with all that was sent landed (`Settled`), which each such window leaves again; what may happen otherwise is in `ConcurrentUploads`.
- A timed-out operation may go on after its attempt has ended: the scheduler's claims are about attempts.
- Token accounts cannot be frozen, delegated or closed, rent is not modelled, and program addresses do not sign as sponsors or maintainers.
- State migration, buffer preparation, faucet planning, deployment, the business-flow driver, validator supervision and command-line options.
- Version 1 telemetry snapshots, which lack the request timeout count.
