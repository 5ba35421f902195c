# Verification of the governed writes, the reverse probe, and pruning

This project models the parts of the repository in which a mistake would write twice, lose a file or lie in a receipt,
and proves what they promise. `dafny verify dfyconfig.toml` checks all of it.

**Bulk Incident apply** (`Bulk*.dfy`). Planning binds 3 to 25 Incident PATCHes to a hash, a confirmation token and an
idempotency key. Applying checks everything without writing, marks the key, consumes the token, and then patches target
by target with a recheck before each PATCH and a durable receipt after it. `BulkProtocol` is this as a step machine: any
number of handlers, each SQL statement, upstream request and upstream response a step of its own, with crashes, failing
or ambiguous store statements, expiring rows, revoked tokens and PATCHes that take effect after the daemon gave up on
them. `BulkInvariant` and `BulkSafety` hold the invariant, `BulkTheorems` what follows for every run. `BulkObjects` and
`BulkHandler` are the same code as it is written, updating receipt and store objects, and `BulkRefinement` proves that
the two agree: the methods end where the machine's handler ends, and that lone run is a run of the machine.
`BulkLone` is one handler without interference. `BulkAdmission` says, of plan, row, token and targets themselves, exactly
which calls get past the checks and how every other is answered, `BulkHistory` what each handler behind the checks has
seen in a run, `BulkEndings` how a call takes its key and reports, `BulkEvidence` what reads and answers the results and
times of a receipt go back to. `BulkPlanning` and `BulkIssuing` are the planning side, and `BulkPreview` says what a
preview holds of its request and why a request is rejected. `BulkReplay` says when a call replays, `BulkOutcomes` how far
records lag and which answers a call can give, `BulkCalls` what this means for the imperative call inside any run, and
`BulkWitness` builds the runs that show what is not promised.

**Single-write applies** (`Single*.dfy`). The change, knowledge, resource-plan and catalog handlers differ in whether the
apply marker is exclusive, whether an upstream error gives it back, and whether the token is consumed before or after the
write. One machine takes that discipline as a parameter (`Lease`, `Kept`, `ConsumeFirst`) and has different theorems for
each; `SingleHandlers` is the imperative code, tied to the machine as above. `SingleAdmission` says which token and which
key let a lone call write, consume or replay, `SingleHistory` the same of every run, and that a catalog key in use keeps
submits out whatever their tokens. `SingleSequence` and `SingleEffects` give the
exact conditions under which a second write happens, with runs built on `SingleRuns`; `SingleCalls` says what all this
means for the imperative calls inside any run.

**Field governance** (`Governance.dfy`), **the reverse relationship probe** (`Probe.dfy`), **pruning** (`Prune.dfy`),
**projection into cache rows** (`Projection.dfy`) and **the ancestors of a table** (`Ancestors.dfy`) stand alone.
`Ordering` holds the order of sys_ids, `Wrappers` the usual `Option` and `Result`.

## What the proofs found

- A bulk terminal error proves that no PATCH was acknowledged. It proves that none was sent only when the failure was not
  the upstream's: after an upstream error on the first target that PATCH is out and may still take effect
  (`BulkTheorems.TerminalErrorBoundsEffects` gives both directions, `BulkWitness.TerminalErrorTakesEffect` a run). The
  public code `UPSTREAM_ERROR` does not tell the two apart, because a read that fails with an unlisted code is reported
  under it too (`BulkWitness.UpstreamMessageWithoutAWrite`, `BulkTheorems.UpstreamMessageExactly`).
- A bulk call that marked its key and whose token update took effect without saying so has spent its token, sent nothing
  and is refused; only new planning helps (`BulkEndings.AcquiringIsExact`).
- Durable progress lags by at most one PATCH: between the send and the save it calls one target NotAttempted that has been
  sent, and may have been acknowledged (`BulkOutcomes.UnsavedPatchIsTheOnlyLag`, `BulkWitness.ProgressLagsBehind`).
- The single-Incident marker is a lease. On an unexpired row it bounds acknowledged PATCHes, not PATCHes with an effect: an
  upstream error after which the PATCH did land releases it for a second one
  (`SingleEffects.ReleasedRetryHasASecondEffect`), and nothing else does (`SingleEffects.TwoEffectsNeedARelease`,
  `SingleEffects.SecondEffectExactly`).
- The marker of the other applies is `COALESCE`, which succeeds for everybody. Two attempts that both looked before either
  marked can both write (`SingleSequence.OverlappingAttemptsBothWrite`; the update applies wait for a read in between), and
  two writers must have overlapped so (`SingleSafety.TwoWritersOverlapped`). One after the other they write once if no lookup of the key fails
  (`SingleSequence.SequentialAttemptsWriteOnce`); a failed lookup is taken for "no row" and writes again
  (`SingleSequence.FailedLookupWritesAgain`).
- A catalog key in use lets nobody submit, whatever token a call brings: two submits of one key, one after the other,
  write once within the first one's window (`SingleHistory.SequentialSubmitsOnce`, `SingleCalls.SubmitTwice`).
- Row de-duplication in the probe loses one possible hit and no other: the start itself, when it is a Business Application
  with an allowed row to a plain node and none to itself (`Probe.DedupLosesOnlyTheStart`, `Probe.StartCanBeLost`). The
  probe starts from a server, so this does not happen there.
- The store half of a prune is twelve autocommitted statements. After a failure in the middle the file is restored but the
  rows already deleted stay deleted (`Prune.FailedPruneLosesEntries`; `Prune.FailedPruneRestores` says exactly when
  nothing has changed). After a crash while the file stands aside, a clean retry deletes the rows and leaves the
  `.pruning` file for good (`Prune.CrashLeavesAnOrphan`).
- `prune_record` finds the vault file through the record's *number*, and numbers are shared: an approval is stored under
  its change's number. Pruning the approval row removes the change's markdown while the change's row stays, and leaves the
  approval's own markdown while its row goes (`Prune.SharedNumberLosesMarkdown`). `Prune.OthersKeepTheirMarkdown` and
  `Prune.OwnMarkdownGoesExactly` give the exact conditions.
- Relationship rows do not depend on the iteration order of `references`. Reference rows do, exactly when two kept fields
  name one sys_id with different data (`Projection.ReferencesDependOnOrderExactly`, `Projection.TwoNamesForOneUser`).
- Plan-time and apply-time governance agree, but for a task whose `change_request` field, which planning adds, is not
  allowlisted (`Governance.PlanAndApplyAgree`, `Governance.UnlistedParentIsRejectedLate`).

## Modelling choices

- A hash is its preimage (`OpHash(targets)`, `Digest`): distinct inputs, distinct hashes. Times are natural numbers read
  from one clock that any step may find advanced; the imperative methods read one clock value per call.
- An SQL statement is one atomic step that commits, fails, or fails after taking effect. An audit append is one answer
  taken together with the local step beside it. `lookup_idempotency`'s deletion of an expired row is the event `Purge`.
- Upstream answers every read and write as it likes, so edits by others need no event of their own. `UpstreamApplies` is a
  PATCH that takes effect without an acknowledgement having arrived.
- The daemon runs its handlers on one thread and yields only at `await`; interleaving between any two statements allows
  more runs than that, so what is proved for all of them holds for its runs.
- `SqliteConfirmationStore` and `SqliteIdempotencyStore` are modelled from their code in `crates/snow_mcp/src/planner`.
- The probe's neighbour queries return every incident row, in any order and with any repetition, and whether a node is a
  Business Application depends on the node alone.

## Model

| member | source | states |
|---|---|---|
| BulkModel.CountOfFit | crates/snow_daemon/src/incident_bulk_write.rs:1160-1176 | Over results Applied^a Failed^f NotAttempted^*, counting by status gives a, f and the rest. |
| BulkModel.InitialShape | crates/snow_daemon/src/incident_bulk_write.rs:1083-1112 | A fresh receipt has every planned target, in order, not attempted. |
| BulkModel.AppliedShape | crates/snow_daemon/src/incident_bulk_write.rs:1114-1139 | Marking target i applied, when exactly the i before it are, extends the applied prefix by one and keeps counts right. |
| BulkModel.FailedShape | crates/snow_daemon/src/incident_bulk_write.rs:1141-1149 | Marking target i failed puts one failure behind the applied prefix and leaves the rest not attempted. |
| BulkModel.ClearingIsIdle | crates/snow_daemon/src/incident_bulk_write.rs:1151-1158 | Clearing the targets behind an applied prefix changes no result: they were untouched already. |
| BulkModel.RecountKeepsFit | crates/snow_daemon/src/incident_bulk_write.rs:1160-1176 | Recounting a well-shaped receipt gives counts that sum to the targets, and Success exactly when all are applied. |
| BulkModel.ReplayIgnoresConsumption | crates/snow_daemon/src/incident_bulk_write.rs:1046-1081 | Replay accepts a token exactly when it would have been valid unconsumed. |
| BulkObjects.BulkReceipt.Recount | crates/snow_daemon/src/incident_bulk_write.rs:1160-1176 | The in-place recount ends in the specified receipt and changes nothing but counts and status. |
| BulkObjects.BulkReceipt.MarkApplied | crates/snow_daemon/src/incident_bulk_write.rs:1114-1139 | In-place marking ends in the receipt with that one target applied and recounted. |
| BulkObjects.BulkReceipt.MarkNotAttemptedAfter | crates/snow_daemon/src/incident_bulk_write.rs:1151-1158 | The loop clears exactly the targets behind the index. |
| BulkObjects.BulkReceipt.MarkFailedAndRemaining | crates/snow_daemon/src/incident_bulk_write.rs:1141-1149 | In-place marking ends in one failed target with everything behind it cleared. |
| BulkObjects.BulkStore.LookupIdempotency | crates/snow_daemon/src/incident_bulk_write.rs:1407-1454 | Returns the live row, deletes an expired one, touches no other key. |
| BulkObjects.BulkStore.PutPlan | crates/snow_daemon/src/incident_bulk_write.rs:1356-1366 | Inserts a plan under a new id and fails under a taken one. |
| BulkObjects.BulkStore.ReserveIdempotency | crates/snow_daemon/src/incident_bulk_write.rs:1389-1405 | Inserts an unmarked row under a new key and fails under a taken one. |
| BulkObjects.BulkStore.MarkApplyStarted | crates/snow_daemon/src/incident_bulk_write.rs:1456-1462 | Compare-and-set: succeeds only on an unmarked row without an outcome. |
| BulkObjects.BulkStore.ClearApplyStarted | crates/snow_daemon/src/incident_bulk_write.rs:1464-1470 | Takes the mark off a row without an outcome, and off no other. |
| BulkObjects.BulkStore.SaveProgress | crates/snow_daemon/src/incident_bulk_write.rs:1472-1478 | Replaces the progress of one row; on a purged row it reports success and changes nothing. |
| BulkObjects.BulkStore.SaveFinalReceipt | crates/snow_daemon/src/incident_bulk_write.rs:1480-1491 | Sets receipt and progress of one row together. |
| BulkObjects.BulkStore.SaveTerminalError | crates/snow_daemon/src/incident_bulk_write.rs:1493-1499 | Sets the terminal error of one row. |
| BulkObjects.ConfirmationStore.MarkConsumed | crates/snow_mcp/src/planner/confirmation.rs:226-236 | The update consumes an unconsumed, unrevoked token and reports whether it did. |
| BulkObjects.ConfirmationStore.Issue | crates/snow_mcp/src/planner/confirmation.rs:150-185 | Inserts an unconsumed, unrevoked token with its binding. |
| BulkInvariant.PreflightKeeps | crates/snow_daemon/src/incident_bulk_write.rs:349-517 | Every preflight move keeps the handler's invariant and leaves its row as it was. |
| BulkInvariant.AcquireKeeps | crates/snow_daemon/src/incident_bulk_write.rs:519-538 | Marking, consuming and clearing keep it: ownership begins with a successful mark on a free row and ends only before entry. |
| BulkInvariant.FailureConcludes | crates/snow_daemon/src/incident_bulk_write.rs:548-593 | A stop at target i leaves i applied, one failed, and counters of sent and acknowledged PATCHes that match. |
| BulkInvariant.LostCoherenceConcludes | crates/snow_daemon/src/incident_bulk_write.rs:595-636 | A lost local coherence at target i leaves i + 1 applied and none failed, with the receipt marked incoherent. |
| BulkInvariant.LoopKeeps | crates/snow_daemon/src/incident_bulk_write.rs:539-642 | Every loop move keeps the invariant tying pc, receipt, counters and durable progress. |
| BulkInvariant.ConcludeKeeps | crates/snow_daemon/src/incident_bulk_write.rs:644-726 | The final recount classifies the outcome in agreement with what was sent and acknowledged. |
| BulkInvariant.OutcomeKeeps | crates/snow_daemon/src/incident_bulk_write.rs:685-751 | Saving the outcome puts exactly that outcome on a row that had none. |
| BulkInvariant.StepKeeps | crates/snow_daemon/src/incident_bulk_write.rs:344-751 | One move of one handler keeps its own invariant, never overwrites a recorded outcome, and writes only to a row it owns or is just marking. |
| BulkSafety.OthersKeepTheirRows | crates/snow_daemon/src/incident_bulk_write.rs:1456-1478 | A move of one handler changes no row that another owns. |
| BulkSafety.MoveKeepsExclusive | crates/snow_daemon/src/incident_bulk_write.rs:519-544 | Ownership of a key and entry by a token stay unique across any move. |
| BulkSafety.CrashedFits | crates/snow_daemon/src/incident_bulk_write.rs:539-642 | A crash at any point leaves a row that still tells the truth about what its owner did. |
| BulkSafety.RowsKeep | crates/snow_daemon/src/incident_bulk_write.rs:1389-1454 | Fresh keys and purged rows keep the invariant. |
| BulkSafety.StepKeepsInv | crates/snow_daemon/src/incident_bulk_write.rs:344-751 | Every event of the system keeps the whole invariant. |
| BulkSafety.ReachableInv | crates/snow_daemon/src/incident_bulk_write.rs:344-751 | Every state of every run satisfies it. |
| BulkTheorems.OneEntryPerKeyAndToken | crates/snow_daemon/src/incident_bulk_write.rs:519-544 | In every run at most one handler per key, and at most one per token, ever enters the PATCH loop. |
| BulkTheorems.AtMostOnePatchPerTarget | crates/snow_daemon/src/incident_bulk_write.rs:547-642 | In every run two PATCHes to one record have different keys and different tokens. |
| BulkTheorems.WriteAheadBound | crates/snow_daemon/src/incident_bulk_write.rs:539-642 | While the row lives, durable progress with a targets applied bounds the PATCHes issued by a + 1, to targets 0..=a only; no progress, no PATCH. |
| BulkTheorems.ProgressIsTruthful | crates/snow_daemon/src/incident_bulk_write.rs:1083-1176 | Durable progress has the receipt shape and counts that sum to the targets, and what it calls applied was acknowledged; how far the rest lags is the next two rows. |
| BulkOutcomes.UnsavedPatchIsTheOnlyLag | crates/snow_daemon/src/incident_bulk_write.rs:547-642 | Progress calls a target NotAttempted though its PATCH is out iff no failure is recorded, it is the first not applied, and one PATCH more was sent than is saved. |
| BulkOutcomes.UnsavedAcknowledgementIsTheOnlyLag | crates/snow_daemon/src/incident_bulk_write.rs:547-642 | Progress calls an acknowledged target anything but Applied iff it is the first not applied and one acknowledgement more was received than is saved. |
| BulkWitness.ProgressLagsBehind | crates/snow_daemon/src/incident_bulk_write.rs:569-642 | A run from the first plan on in which durable progress says NotAttempted of a target whose PATCH is sent and acknowledged. |
| BulkTheorems.FinalReceiptIsTruthful | crates/snow_daemon/src/incident_bulk_write.rs:547-751 | A stored receipt: Applied exactly if acknowledged, NotAttempted only if nothing was sent, Failed with a PATCH out exactly if its own error is the upstream's. |
| BulkOutcomes.FinalReceiptIsShaped | crates/snow_daemon/src/incident_bulk_write.rs:685-751 | A stored receipt is the stored progress, has the receipt shape and counts that sum to the targets, and is Partial iff its call failed. |
| BulkTheorems.OutcomeIsExact | crates/snow_daemon/src/incident_bulk_write.rs:644-751 | A reported outcome is a terminal error iff failed with nothing acknowledged, partial iff failed with something acknowledged, success iff no failure, and then all targets are acknowledged and the cache coherent. |
| BulkOutcomes.FourAnswers | crates/snow_daemon/src/incident_bulk_write.rs:539-751 | A call that entered the loop answers with a pending resolution, a terminal error, a partial failure or a success, and nothing else. |
| BulkOutcomes.PendingExactly | crates/snow_daemon/src/incident_bulk_write.rs:541-751 | It answers pending iff one of its store statements or audit appends behind the consumed token failed. |
| BulkTheorems.LostCoherenceIsPartial | crates/snow_daemon/src/incident_bulk_write.rs:595-636 | A local-coherence failure is never reported as zero writes nor as success, wherever it happens. |
| BulkTheorems.TerminalErrorBoundsEffects | crates/snow_daemon/src/incident_bulk_write.rs:645-700 | A terminal error means nothing acknowledged; a late effect is possible iff the failure was the upstream's, and then only of the first target. |
| BulkTheorems.TerminalErrorSentExactly | crates/snow_daemon/src/incident_bulk_write.rs:645-700 | Behind a terminal error a PATCH was sent iff it is the first and the failure was the upstream's. |
| BulkTheorems.UpstreamMessageExactly | crates/snow_daemon/src/incident_bulk_write.rs:649-657 | The failures reported as UPSTREAM_ERROR: the upstream's, a lost coherence, and the five read codes without a message of their own. |
| BulkTheorems.PublicErrorsExactly | crates/snow_daemon/src/incident_bulk_write.rs:648-657 | Number and message of the stored error for each failure code. |
| BulkTheorems.TerminalAnswerNamesTheFailure | crates/snow_daemon/src/incident_bulk_write.rs:644-700 | In every run each number and message of a terminal answer stands for exactly the failures it is meant for. |
| BulkWitness.TerminalErrorTakesEffect | crates/snow_daemon/src/incident_bulk_write.rs:576-700 | A run in which the PATCH behind a terminal error takes effect. |
| BulkWitness.UpstreamMessageWithoutAWrite | crates/snow_daemon/src/incident_bulk_write.rs:548-557 | A run with a terminal UPSTREAM_ERROR, after a recheck that did not find its Incident, and nothing sent. |
| BulkTheorems.OutcomeIsWriteOnce | crates/snow_daemon/src/incident_bulk_write.rs:1456-1499 | Over whole runs a row never holds both outcomes, and a recorded one never changes while the row lives. |
| BulkTheorems.ReplayIsFaithful | crates/snow_daemon/src/incident_bulk_write.rs:414-456 | A replaying handler sent nothing and answers with the stored error, or the stored receipt with only the replay flag set. |
| BulkReplay.FinishedRowReplays | crates/snow_daemon/src/incident_bulk_write.rs:414-448 | On a finished row of an admitted plan the third move answers: with the stored outcome iff the token can be read and is bound, unexpired and unrevoked, consumed or not; otherwise with a refusal; nothing is sent or changed. |
| BulkReplay.StoredOutcomeIsReturned | crates/snow_daemon/src/incident_bulk_write.rs:422-448 | The stored terminal error, else the stored receipt with only the replay flag set. |
| BulkReplay.NoOutcomeNoReplay | crates/snow_daemon/src/incident_bulk_write.rs:414-456 | A call that starts on a row without an outcome, or on none, never answers with a replay. |
| BulkTheorems.PreflightTouchesNothing | crates/snow_daemon/src/incident_bulk_write.rs:349-517 | Until the mark, a move changes nothing but its own handler. |
| BulkTheorems.RefusalProvesZeroWrites | crates/snow_daemon/src/incident_bulk_write.rs:349-538 | A handler that denied, refused, failed internally or replayed has sent nothing, nothing of it can take effect, and no row carries its mark. |
| BulkTheorems.NoBlindWrite | crates/snow_daemon/src/incident_bulk_write.rs:547-575 | Before every PATCH the handler's last move was a read of that target which found the planned stamp. |
| BulkTheorems.MoveLowersRank | crates/snow_daemon/src/incident_bulk_write.rs:344-751 | Every move brings its handler nearer to an answer. |
| BulkTheorems.HandlersStop | crates/snow_daemon/src/incident_bulk_write.rs:344-751 | In every run a handler makes at most 500 moves: the code neither waits nor retries for ever. |
| BulkHandler.ProcessTarget | crates/snow_daemon/src/incident_bulk_write.rs:547-642 | One loop iteration on the receipt, store and client objects ends where the machine's moves end. |
| BulkHandler.SettleTarget | crates/snow_daemon/src/incident_bulk_write.rs:595-642 | From the acknowledgement on: the post-write stamp, read only when the answer lacks it, and what follows. |
| BulkHandler.CohereTarget | crates/snow_daemon/src/incident_bulk_write.rs:623-642 | After the observed stamp: applied and saved, or counted as applied and stopped, as the machine does. |
| BulkHandler.RunTargets | crates/snow_daemon/src/incident_bulk_write.rs:547-642 | The whole loop agrees with the machine, PATCHes being the planned ones in canonical order. |
| BulkHandler.ReportOutcome | crates/snow_daemon/src/incident_bulk_write.rs:644-751 | The response and the stored outcome are the machine's. |
| BulkHandler.AcquireKey | crates/snow_daemon/src/incident_bulk_write.rs:519-538 | Mark, consume, and clear on refusal, as the machine does. |
| BulkHandler.CheckBindings | crates/snow_daemon/src/incident_bulk_write.rs:414-478 | Key lookup, replay and token lookup answer as the machine does. |
| BulkHandler.CheckTargets | crates/snow_daemon/src/incident_bulk_write.rs:482-517 | The read-only pass over all targets stops at the first that is unreadable or has drifted. |
| BulkHandler.HandleApply | crates/snow_daemon/src/incident_bulk_write.rs:344-751 | A whole call gives the response, rows, token and PATCHes of the machine's lone run; one that is not admitted sends no PATCH, changes no row and no token, and is answered for the first condition it fails; an admitted one is never denied and never replays. |
| BulkAdmission.PlanAnswers | crates/snow_daemon/src/incident_bulk_write.rs:350-412 | The plan check passes iff the tools are enabled and the plan is stored, unexpired, within both limits of 3 to 25, matched by the supplied sys_id and stamp of every target in order, and of the same actor, requester and environment; else the first that fails names the answer. |
| BulkAdmission.KeyAnswers | crates/snow_daemon/src/incident_bulk_write.rs:414-462 | The key passes iff its row is live, of the plan's hash, and without outcome and mark; an outcome leads to its replay, a mark to a pending answer. |
| BulkAdmission.ReplayAnswers | crates/snow_daemon/src/incident_bulk_write.rs:1046-1081 | A stored outcome is given out iff the token is there, unrevoked, unexpired and bound to plan, caller, tool and environment; else the named refusal. |
| BulkAdmission.TokenAnswers | crates/snow_daemon/src/incident_bulk_write.rs:464-478 | The token passes iff unrevoked, unexpired, unconsumed and so bound; else the named refusal. |
| BulkAdmission.ReadAnswers | crates/snow_daemon/src/incident_bulk_write.rs:480-517 | Each target must be readable and carry its planned stamp; behind the last the attempt is audited. |
| BulkAdmission.ConsumeAnswers | crates/snow_mcp/src/planner/confirmation.rs:187-224 | The select behind the mark accepts exactly such a token and names the refusal otherwise, consumption before expiry. |
| BulkAdmission.UpdateAnswers | crates/snow_mcp/src/planner/confirmation.rs:226-238 | The update turns an unconsumed, unrevoked token only, and lets the call in exactly when it did and says so. |
| BulkAdmission.AdmissionIsExact | crates/snow_daemon/src/incident_bulk_write.rs:344-517 | A lone call comes to mark its key iff plan, row, token and every target pass; otherwise the first failing condition names its answer; either way nothing is sent and neither row nor token changed. |
| BulkAdmission.CallAnswers | crates/snow_daemon/src/incident_bulk_write.rs:344-751 | However long it runs, a call that is not admitted keeps that answer and has no effect; an admitted one is never denied and never replays. |
| BulkHistory.PlanWasSeen | crates/snow_daemon/src/incident_bulk_write.rs:363-412 | In every run a handler behind the plan check saw its plan stored, unexpired, within the limits and fitting request and caller. |
| BulkHistory.KeyWasSeen | crates/snow_daemon/src/incident_bulk_write.rs:414-462 | In every run a handler behind the key check saw a live row of its plan without outcome and mark. |
| BulkHistory.TokenWasSeen | crates/snow_daemon/src/incident_bulk_write.rs:464-478 | In every run a handler behind the token check saw its token live, unconsumed and bound to its plan and caller. |
| BulkHistory.TargetWasSeen | crates/snow_daemon/src/incident_bulk_write.rs:480-498 | In every run a handler behind the preflight read each target and found its planned stamp. |
| BulkHistory.ActingCallsWereAdmitted | crates/snow_daemon/src/incident_bulk_write.rs:344-545 | A handler that marked its key or sent a PATCH has all four moments behind it. |
| BulkHistory.ConsumedTokenWasSeen | crates/snow_daemon/src/incident_bulk_write.rs:532-538 | A handler in the loop selected its token and found it live, unconsumed and bound. |
| BulkHistory.ReplayWasAllowed | crates/snow_daemon/src/incident_bulk_write.rs:422-448 | A replay was let out by a look at the token that found it unrevoked, unexpired and bound. |
| BulkEndings.UnmarkedEndsPending | crates/snow_daemon/src/incident_bulk_write.rs:519-531 | A mark that is not confirmed ends in a pending answer, with the mark there or not. |
| BulkEndings.ReleaseEnds | crates/snow_daemon/src/incident_bulk_write.rs:532-538 | A key whose token is not consumed is given back unless that statement fails; the call is refused, or pending. |
| BulkEndings.AcquiringIsExact | crates/snow_daemon/src/incident_bulk_write.rs:519-544 | Behind the mark the call enters the loop iff the token stands at its select and the update commits; an update that took effect unheard spends the token and refuses the call. |
| BulkEndings.ConcludingIsExact | crates/snow_daemon/src/incident_bulk_write.rs:644-751 | From the end of the loop: a stored terminal error iff failed with nothing applied, a stored receipt otherwise, and pending iff the audit or the store fails, with what each leaves on the row. |
| BulkEvidence.AppliedWasSeen | crates/snow_daemon/src/incident_bulk_write.rs:547-642 | In every run each result called Applied rests on a read of that target, from which its before-hashes are taken, and on the PATCH answer or read that stamps it. |
| BulkEvidence.StoredReceiptRestsOnReads | crates/snow_daemon/src/incident_bulk_write.rs:1114-1139 | So does each Applied result of a stored receipt. |
| BulkEvidence.FailedWasSeen | crates/snow_daemon/src/incident_bulk_write.rs:548-593 | The failed result goes back to a failed read, a read of another stamp, or a PATCH without acknowledgement, and carries the stamp last read. |
| BulkEvidence.StoredReceiptIsTimed | crates/snow_daemon/src/incident_bulk_write.rs:518-545 | A stored receipt starts at the time of the mark on its row and completes between then and now. |
| BulkRefinement.MoveIsCellStep | crates/snow_daemon/src/incident_bulk_write.rs:344-751 | In any reachable state one move of the machine is one step of the lone run. |
| BulkRefinement.LoneRunIsARun | crates/snow_daemon/src/incident_bulk_write.rs:344-751 | From any reachable state the lone run of a handler extends the run, whatever the outside answers. |
| BulkCalls.PatchesAreOnce | crates/snow_daemon/src/incident_bulk_write.rs:547-642 | In a reachable state a call has patched no record twice, and none that another call patched under its key or its token. |
| BulkCalls.ApplyInRun | crates/snow_daemon/src/incident_bulk_write.rs:344-751 | The imperative call made at any reachable state ends, with its response and its PATCHes, where a longer run ends, and patches each record once. |
| BulkRefinement.SmoothCallSucceeds | crates/snow_daemon/src/incident_bulk_write.rs:344-751 | An admissible call that nothing disturbs applies every target and stores the Success receipt it returns. |
| BulkPlanning.NormalizePatch | crates/snow_daemon/src/incident_bulk_write.rs:849-916 | The loop gives the fieldwise normalisation, or the error of the first field that has one. |
| BulkPlanning.NormalizeIsFieldwise | crates/snow_daemon/src/incident_bulk_write.rs:849-916 | A patch normalises iff each field does, and then to exactly the normalised fields. |
| BulkPlanning.ConfiguredBulkTargetLimit | crates/snow_daemon/src/incident_bulk_write.rs:918-942 | A limit exists iff both policies set one of at least 3 and the lesser is at most 25; it is the lesser. |
| BulkPlanning.PlanTargets | crates/snow_daemon/src/incident_bulk_write.rs:195-256 | The planning loop refuses the first bad or repeated record and otherwise plans each target. |
| BulkPlanning.BuildPlan | crates/snow_daemon/src/incident_bulk_write.rs:163-274 | A plan that is built is well-formed and hashed over its canonical targets; otherwise the specified error. |
| BulkIssuing.HandlePlan | crates/snow_daemon/src/incident_bulk_write.rs:163-341 | A rejected request leaves no trace; an accepted one stores exactly the requested targets, issues the token and reserves the key in that order, a failure leaving what came before it. |
| BulkIssuing.PlanningIsARun | crates/snow_daemon/src/incident_bulk_write.rs:275-311 | Whatever came of its statements, the records a planning call leaves are those of a run of the step machine. |
| BulkPlanning.PlannedIsFieldwise | crates/snow_daemon/src/incident_bulk_write.rs:195-256 | Successful planning is each target planned on its own, all to different records. |
| BulkPlanning.FieldwisePlansTogether | crates/snow_daemon/src/incident_bulk_write.rs:195-256 | Targets that each plan, to different records, plan together. |
| BulkPlanning.PlanAllSucceeds | crates/snow_daemon/src/incident_bulk_write.rs:195-256 | Planning succeeds iff every target plans and no two resolve to one record. |
| BulkPlanning.InsertSorts | crates/snow_daemon/src/incident_bulk_write.rs:257 | Insertion into an ascending list keeps it ascending and adds just that target. |
| BulkPlanning.SortSorts | crates/snow_daemon/src/incident_bulk_write.rs:257 | Sorting distinct records gives an ascending permutation. |
| BulkPlanning.PreviewIsCanonical | crates/snow_daemon/src/incident_bulk_write.rs:179-264 | Every preview is strictly ascending, within both limits and 3 to 25, with non-empty patches over doubly allowed fields. |
| BulkPlanning.CanonicalPlanning | crates/snow_daemon/src/incident_bulk_write.rs:195-264 | Requests that resolve to the same records with the same patches have the same preview, hence the same hash. |
| BulkPlanning.PermutedTargetsAreTheSame | crates/snow_daemon/src/incident_bulk_write.rs:195-264 | Permuting the targets changes nothing that planning sees. |
| BulkPlanning.RenamedTargetsAreTheSame | crates/snow_daemon/src/incident_bulk_write.rs:788-847 | Naming targets by number instead of sys_id changes nothing when both read the same record. |
| BulkPlanning.EffectivePatchIsDisjointUnion | crates/snow_daemon/src/incident_bulk_write.rs:206-217 | The merged patch is a disjoint union: sizes add up and no value is overridden. |
| BulkPlanning.SharingIsDistributing | crates/snow_daemon/src/incident_bulk_write.rs:191-224 | Moving a shared field into every target succeeds iff sharing it does, with the same preview. |
| BulkPlanning.ValidateSuppliedTokens | crates/snow_daemon/src/incident_bulk_write.rs:987-1009 | Accepts exactly the plan's own token list. |
| BulkPlanning.AcceptedTokensAreCanonical | crates/snow_daemon/src/incident_bulk_write.rs:987-1009 | That list is characterised as the planned tokens, each once, in ascending order of sys_id. |
| BulkPreview.SelectorIsNamed | crates/snow_daemon/src/incident_bulk_write.rs:788-801 | A target has a selector iff it names a well-formed number or a 32-digit sys_id and not both; the number as it stands, the sys_id in lower case. |
| BulkPreview.ValueIsNormal | crates/snow_daemon/src/incident_bulk_write.rs:849-916 | Each value becomes a trimmed lower-case sys_id, the raw value of a state choice without any mention of cancelling, or the journal text itself, non-blank and at most 16000 characters; else its own error. |
| BulkPreview.TargetIsPlannedFrom | crates/snow_daemon/src/incident_bulk_write.rs:195-256 | A planned target carries number and stamp as its selector's read gave them, the sys_id in lower case, and the disjoint shared and own values in normal form. |
| BulkPreview.PreviewIsExact | crates/snow_daemon/src/incident_bulk_write.rs:163-264 | A preview is the requested targets, one for one up to order, each so planned. |
| BulkPreview.FirstBadFieldDecides | crates/snow_daemon/src/incident_bulk_write.rs:849-916 | A patch is rejected for its first bad field in the fixed order, with that field's error. |
| BulkPreview.TargetIsRejectedFor | crates/snow_daemon/src/incident_bulk_write.rs:195-237 | The first of selector, values, overlap, emptiness, policy and read that fails names the error of a target. |
| BulkPreview.RequestIsRejectedFor | crates/snow_daemon/src/incident_bulk_write.rs:175-257 | The first of limits, count, shared values and bad or repeated target names the error of a request. |
| BulkIssuing.HandedOutIsAdmitted | crates/snow_daemon/src/incident_bulk_write.rs:258-311 | What planning hands out admits the apply it was made for, exactly for the same caller and environment, with the planned stamps, until each record expires. |
| BulkIssuing.EffectsInOrder | crates/snow_daemon/src/incident_bulk_write.rs:275-311 | No token without the stored plan, no key without both. |
| Ordering.LessIsLexicographic | crates/snow_daemon/src/incident_bulk_write.rs:257 | The order of sys_ids is the lexicographic one. |
| Ordering.AscendingIsUnique | crates/snow_daemon/src/incident_bulk_write.rs:257 | Two strictly ascending lists with the same elements are equal: the sort has one answer. |
| SingleSafety.ReservingPlans | crates/snow_daemon/src/change_write.rs:123-155 | Reserving a key nobody has named, at any point of any run, is the point from which the theorems on that key hold. |
| SingleSafety.LeaseIsExclusive | crates/snow_daemon/src/change_write.rs:509-600 | In every interleaving on an unexpired row at most one handler holds the single-Incident marker. |
| SingleSafety.OneAcknowledgedPatch | crates/snow_daemon/src/change_write.rs:509-600 | On an unexpired row at most one PATCH per key is ever acknowledged, releases and retries included. |
| SingleSafety.AcknowledgementKeepsTheLease | crates/snow_daemon/src/change_write.rs:556-600 | After an acknowledgement, lost local coherence included, the marker stays and no other handler of the key is about to send or waiting. |
| SingleEffects.TwoEffectsNeedARelease | crates/snow_daemon/src/change_write.rs:536-600 | Of two writes under one key that took effect on an unexpired row, one was answered with an upstream error and released the marker. |
| SingleEffects.FreeExactlyWhenReleased | crates/snow_mcp/src/planner/idempotency.rs:148-162 | After a send the marker can be taken again iff every sender has released it, nobody holds it and no receipt is stored. |
| SingleEffects.SecondEffectExactly | crates/snow_daemon/src/change_write.rs:536-600 | After a send, a fresh undisturbed attempt leads to a second write with effect iff the marker was released by every sender, is held by nobody and no receipt is stored. |
| SingleEffects.ReleasedRetryHasASecondEffect | crates/snow_daemon/src/change_write.rs:558-580 | A run with two writes in effect under one key: the first answered with an upstream error, the retry sent after the release. |
| SingleSafety.TwoWritersOverlapped | crates/snow_daemon/src/knowledge_write.rs:224-337 | Two handlers of one key that both looked it up and both wrote each looked before the other marked. |
| SingleSequence.SendGate | crates/snow_daemon/src/change_write.rs:349-556 | Whatever others do in between, a handler comes to write iff its lookup failed or found the key without mark and receipt, its second look found no receipt, its token is unspent, and its statements pass; only a single Incident is kept out by a later mark. |
| SingleSequence.OverlappingAttemptsBothWrite | crates/snow_daemon/src/change_write.rs:349-600 | A run in which two overlapping attempts under one key both write with effect. |
| SingleSafety.LaterAttemptDoesNotWrite | crates/snow_daemon/src/resource_plan_write.rs:364-558 | After an attempt has written, lost response or not, one that arrives later writes only without having seen the key unmarked. |
| SingleSequence.MarkedKeyAnswers | crates/snow_daemon/src/change_write.rs:349-382 | On a marked, unexpired key a lookup that succeeds ends in a replay, a conflict or a pending answer, and only one that fails goes on. |
| SingleSequence.SequentialAttemptsWriteOnce | crates/snow_daemon/src/resource_plan_write.rs:364-558 | If no lookup of the key fails, of two attempts of which one ended before the other arrived at most one writes, lost response or not. |
| SingleSequence.FailedLookupWritesAgain | crates/snow_daemon/src/knowledge_write.rs:224-337 | A run in which an attempt whose lookup fails writes after another has already written. |
| SingleAdmission.TokenAnswers | crates/snow_daemon/src/change_write.rs:509-533 | In every discipline the token check passes iff the token is there, unrevoked, unexpired, unconsumed and bound to the request's actor, requester, hash and environment. |
| SingleAdmission.ReviewAnswers | crates/snow_daemon/src/change_write.rs:419-508 | A failed review or read in front of the token denies the call. |
| SingleAdmission.ReplayAnswers | crates/snow_daemon/src/change_write.rs:1434-1463 | A stored receipt is given out iff the token stands, consumed or not; else a refusal. |
| SingleAdmission.SpentAnswers | crates/snow_daemon/src/change_write.rs:512-533 | Behind a consumed token a single-Incident call answers with the row's receipt, pending or a refusal. |
| SingleAdmission.ConsumeAnswers | crates/snow_mcp/src/planner/confirmation.rs:187-238 | Consuming is a select that finds the token unspent and an update that turns it. |
| SingleAdmission.LookupAnswers | crates/snow_daemon/src/change_write.rs:349-418 | The first look at a key: a live row answers for itself, a failed look finds nothing. |
| SingleAdmission.RecordAnswers | crates/snow_mcp/src/planner/idempotency.rs:189-219 | The recording check: conflict for another hash, replay for a receipt, and a live row without one is pending to a catalog submit and free to the others. |
| SingleAdmission.ReplaceAnswers | crates/snow_mcp/src/planner/idempotency.rs:219-230 | An expired row is deleted and an empty one inserted for the window. |
| SingleAdmission.MarkAnswers | crates/snow_daemon/src/change_write.rs:535-556 | Compare-and-set for a single Incident; for the rest the first mark stays and every mark succeeds. |
| SingleAdmission.WriteAnswers | crates/snow_daemon/src/change_write.rs:556-600 | One write, and where each answer to it leads. |
| SingleAdmission.ClosingAnswers | crates/snow_daemon/src/change_write.rs:570-645 | Giving the marker back, wording a lost one, storing the receipt. |
| SingleAdmission.UnspentTokenIsNeeded | crates/snow_daemon/src/change_write.rs:349-645 | A lone call without an unspent token writes, consumes and marks nothing, and gives a receipt out only to a token that still stands. |
| SingleAdmission.OnlyTheTokenDecides | crates/snow_daemon/src/change_write.rs:349-556 | When nothing goes wrong on an open key, the call comes to mark it iff its token is unspent, and is refused if it does not stand. |
| SingleAdmission.CatalogOnAKeyInUse | crates/snow_daemon/src/catalog_write.rs:303-356 | On a key in use a catalog submit changes and consumes nothing: conflict, replay or refusal, or pending. |
| SingleAdmission.CatalogStays | crates/snow_daemon/src/catalog_write.rs:303-402 | A lone catalog submit consumes or submits only with an unspent token on a key without a live row, and leaves its own marked row for the window. |
| SingleAdmission.OnlyTokenAndKeyDecide | crates/snow_daemon/src/catalog_write.rs:303-394 | When nothing goes wrong it comes to submit iff its token is unspent and its key not in use. |
| SingleHistory.TokenWasSeen | crates/snow_daemon/src/change_write.rs:509-533 | In every run of every discipline, a handler that marks, writes or consumes looked its token up and found it unrevoked, unexpired, unconsumed and bound to its request. |
| SingleHistory.ConsumedTokenWasSeen | crates/snow_mcp/src/planner/confirmation.rs:187-238 | In every run a handler that consumed its token selected it so. |
| SingleHistory.ReplayWasAllowed | crates/snow_daemon/src/change_write.rs:1434-1463 | In every run a handler that gave a receipt out found its token standing. |
| SingleHistory.KeyWasFree | crates/snow_daemon/src/catalog_write.rs:337-356 | In every run a catalog submit that consumed or wrote found its key without a live row. |
| SingleHistory.KeyInUseAnswers | crates/snow_mcp/src/planner/idempotency.rs:189-219 | In any state a catalog submit's check of a key in use changes only its own handler, which goes on to conflict, replay or pending. |
| SingleHistory.HeldKeyKeepsSubmitsOut | crates/snow_daemon/src/catalog_write.rs:337-394 | While a key has its live row and nobody is replacing it, no call that arrives consumes or submits, whatever its token. |
| SingleHistory.SequentialSubmitsOnce | crates/snow_daemon/src/catalog_write.rs:303-402 | With one call of a key at a time, a call that arrives after a submit does not submit before that submit's row expires, whatever its token. |
| SingleSafety.OneSubmitPerToken | crates/snow_daemon/src/catalog_write.rs:303-394 | In every interleaving a confirmation token leads to at most one submit, whatever the keys. |
| SingleSafety.SubmitFollowsOwnConsume | crates/snow_daemon/src/catalog_write.rs:357-394 | Every submit comes after its own handler's successful consume. |
| SingleHandlers.IdempotencyStore.MarkApplyStarted | crates/snow_mcp/src/planner/idempotency.rs:140-146 | The unconditional mark keeps an earlier mark and succeeds regardless. |
| SingleHandlers.IdempotencyStore.TryMarkApplyStarted | crates/snow_mcp/src/planner/idempotency.rs:148-154 | The compare-and-set mark succeeds only on a row with neither mark nor receipt. |
| SingleHandlers.IdempotencyStore.ClearApplyStarted | crates/snow_mcp/src/planner/idempotency.rs:156-162 | Takes the mark off a row without a receipt. |
| SingleHandlers.ConfirmationStore.MarkConsumed | crates/snow_mcp/src/planner/confirmation.rs:226-236 | Consumes a token at most once. |
| SingleHandlers.Daemon.CheckAndRecord | crates/snow_mcp/src/planner/idempotency.rs:189-230 | Live row answers for itself, expired row is replaced, absent row is made: as the machine's steps. |
| SingleHandlers.Daemon.CheckKey | crates/snow_daemon/src/change_write.rs:349-418 | First lookup and record step as the machine's, a failed lookup falling through. |
| SingleHandlers.Daemon.CheckToken | crates/snow_daemon/src/change_write.rs:509-533 | The token check, and the second look of a single-Incident call at a spent token. |
| SingleHandlers.Daemon.MarkKey | crates/snow_daemon/src/change_write.rs:535-556 | Compare-and-set for a single Incident, with the lookup that words the answer when it is lost; unconditional for everything else. |
| SingleHandlers.Daemon.WriteUpstream | crates/snow_daemon/src/change_write.rs:556-600 | One upstream write; only a single-Incident upstream error gives the marker back. |
| SingleHandlers.Daemon.ConsumeToken | crates/snow_mcp/src/planner/confirmation.rs:187-238 | Select, checks and update as the machine's two steps. |
| SingleHandlers.Daemon.HandleApply | crates/snow_daemon/src/change_write.rs:349-645 | A whole change, knowledge or resource-plan apply ends where the machine's lone run ends; without a live, unconsumed token bound to the request it writes, consumes and marks nothing, and is refused when nothing else goes wrong. |
| SingleHandlers.Daemon.HandleCatalogSubmit | crates/snow_daemon/src/catalog_write.rs:303-402 | A whole catalog submit ends where the machine's lone run ends; without an unspent token it is refused, on a key in use it changes nothing and answers conflict, replay or pending, and a submit leaves its own row for the window. |
| SingleRefinement.LoneRunIsARun | crates/snow_daemon/src/change_write.rs:349-645 | From any state of any run the lone run of a handler extends the run. |
| SingleCalls.ApplyInLeaseRun | crates/snow_daemon/src/change_write.rs:349-645 | A single-Incident call made at any point of a run after its key was planned ends where a longer run ends; if its write is acknowledged, which it is whenever it answers so, nobody else's under the key is while the row is unexpired. |
| SingleCalls.SubmitInRun | crates/snow_daemon/src/catalog_write.rs:303-402 | A catalog call made at any point of a run ends where a longer run ends, and its submit is the only one of its token. |
| SingleCalls.SubmitTwice | crates/snow_daemon/src/catalog_write.rs:303-402 | Two catalog calls on one key, one after the other, write at most once within the first one's window, whatever their tokens and whatever goes wrong. |
| Governance.FieldGovernanceRejections | crates/snow_daemon/src/change_write.rs:1042-1085 | The list names each rejected field once, blocked ones first, and is exactly the blocked and the unlisted non-exempt keys. |
| Governance.NothingRejectedMeansAccepted | crates/snow_daemon/src/change_write.rs:995-1035 | The list is empty iff every key is unblocked and exempt or allowlisted. |
| Governance.TablesAre | crates/snow_daemon/src/change_write.rs:1101-1150 | The blocked, selector and metadata fields of each tool, by name. |
| Governance.GoverningAllowlist | crates/snow_daemon/src/change_write.rs:1087-1099 | A planning tool is governed by the list of the tool that applies its plans, the policy's own before the default's. |
| Governance.Payload.StripNonWritableSelectorFields | crates/snow_daemon/src/change_write.rs:795-811 | Removes metadata and the tool's selector and nothing else. |
| Governance.BuildPayload | crates/snow_daemon/src/change_write.rs:691-790 | The payload has the planned keys; a task's parent and an Incident's group, assignee and state are the looked-up ones, every other value is the caller's. |
| Governance.StrippedKeysStayAccepted | crates/snow_daemon/src/change_write.rs:795-811 | What stripping leaves of an accepted plan input is accepted at apply time under the same policy. |
| Governance.PlanAndApplyAgree | crates/snow_daemon/src/change_write.rs:1014-1139 | A plan with no rejection has none at apply time, except exactly `change_request` for a task whose policy does not list it. |
| Governance.UnlistedParentIsRejectedLate | crates/snow_daemon/src/change_write.rs:1014-1085 | A policy and a task accepted at plan time and rejected at apply time. |
| Probe.SeenRowsLeadBack | crates/snow_core/examples/live_ba_reverse_probe.rs:143-147 | A row already seen at the node now expanded leads back to the finished node it was seen from, so skipping it is sound. |
| Probe.StartIsFirst | crates/snow_core/examples/live_ba_reverse_probe.rs:143-147 | An unseen row that reaches the start is met only while the start itself is expanded. |
| Probe.LookKeepsFit | crates/snow_core/examples/live_ba_reverse_probe.rs:143-192 | Looking at one row, whatever branch it takes, keeps the invariant of the search. |
| Probe.PopFits | crates/snow_core/examples/live_ba_reverse_probe.rs:119-122 | Taking the front of the queue keeps it, levels in order. |
| Probe.FinishFits | crates/snow_core/examples/live_ba_reverse_probe.rs:119-195 | A node all of whose rows have been looked at joins the finished ones. |
| Probe.WalksAreFound | crates/snow_core/examples/live_ba_reverse_probe.rs:119-195 | With the queue empty, every walk within the bound through plain nodes ends at a node found no later. |
| Probe.DrainedIsExact | crates/snow_core/examples/live_ba_reverse_probe.rs:109-199 | With the queue empty, hits, first paths and row count are the specified ones. |
| Probe.ReverseRelationshipHits | crates/snow_core/examples/live_ba_reverse_probe.rs:109-199 | The search ends; it hits exactly the applications reachable within the bound through plain nodes (the start only by a row to itself); each first hit is by a shortest route; rows counted are the distinct rows at expanded nodes. |
| Probe.DedupLosesOnlyTheStart | crates/snow_core/examples/live_ba_reverse_probe.rs:143-147 | De-duplication loses nothing iff not: the start is an application without a self-loop, the bound is at least 2, and an allowed row joins it to a plain node. |
| Probe.StartCanBeLost | crates/snow_core/examples/live_ba_reverse_probe.rs:143-147 | Two nodes and one row on which the start is reachable at bound 2 and not reported. |
| Probe.KeepFirst | crates/snow_core/examples/live_ba_reverse_probe.rs:82-87 | Of the direct hits the first of each application is kept. |
| Probe.AddServices | crates/snow_core/examples/live_ba_reverse_probe.rs:89-98 | A service hit marks an application already there and is kept when it is the first word of one. |
| Probe.ProbeServer | crates/snow_core/examples/live_ba_reverse_probe.rs:82-106 | The merged report: every application within two hops once, by a shortest route, marked iff also served; the others from services. |
| Prune.StagingRoundTrip | crates/snow_core/src/helpers.rs:203-233 | Restoring a staged name gives the original iff it was text; any other comes back as "vault". |
| Prune.StatementsAdvance | crates/snow_core/src/cache/store/records.rs:387-432 | Each of the twelve statements takes the store from its described state to the next. |
| Prune.PrimaryExists | crates/snow_core/src/cache/store/records.rs:189-209 | The order of the lookup by number has a first row among any rows of that number. |
| Prune.Machine.StageMarkdownForPrune | crates/snow_core/src/helpers.rs:203-215 | Renames an existing file aside, overwriting a sibling; otherwise does nothing. |
| Prune.Machine.RestoreStagedMarkdown | crates/snow_core/src/helpers.rs:218-233 | Renames an existing staged file to the name derived from it; otherwise does nothing. |
| Prune.Machine.StorePrune | crates/snow_core/src/cache/store/records.rs:387-432 | Every statement before the failing one stays committed; success iff none fails. |
| Prune.Machine.PruneRecord | crates/snow_core/src/context.rs:896-925 | The imperative prune has the specified outcome, end state and sequence of durable states. |
| Prune.EndOfPrune | crates/snow_core/src/context.rs:896-925 | Where each combination of faults leaves disk and store. |
| Prune.OutcomeIsExact | crates/snow_core/src/context.rs:896-925 | Missing iff there is no row, Failed iff the lookup, the rename aside, a statement or the removal failed, Pruned otherwise. |
| Prune.StagedNames | crates/snow_core/src/helpers.rs:203-233 | The name of a staged file, and what each staged name is restored to. |
| Prune.MarkdownSurvives | crates/snow_core/src/context.rs:906-924 | At every durable state in which the row exists, markdown that was there is at its path or beside it (or at "vault", for a name that is no text). |
| Prune.OtherFilesStay | crates/snow_core/src/helpers.rs:203-233 | At every durable state all other files are as they were. |
| Prune.PrunedIsComplete | crates/snow_core/src/context.rs:915-919 | A completed prune leaves no row, text, relation or entry of the record, and not the file the lookup by number led to; that file's sibling survives iff it was there and the file was not. |
| Prune.OwnMarkdownGoesExactly | crates/snow_core/src/context.rs:897-919 | After a completed prune the record's own markdown is gone iff it was not there, is the file the lookup led to, or lay at the staged name of that file while it was staged. |
| Prune.FailedPruneRestores | crates/snow_core/src/context.rs:920-923 | After a store failure and a restore, files are as before iff there was none or the name is text without a sibling; rows iff the statements before the failure had nothing of the record to delete or mark. |
| Prune.RowsAreUntouched | crates/snow_core/src/cache/store/records.rs:387-432 | The first n statements change nothing iff the record has no entry in the tables they clear and, as far as they reach, its row bears this very time and it has no text and no relation. |
| Prune.FailedPruneLosesEntries | crates/snow_core/src/cache/store/records.rs:387-396 | A store on which a failing second statement brings the file back and not the deleted entry. |
| Prune.RetryAfterCrash | crates/snow_core/src/context.rs:896-925 | After a crash at any durable state a faultless retry removes the rows, and the sibling stays iff the crash caught the file aside. |
| Prune.CrashLeavesAnOrphan | crates/snow_core/src/context.rs:905-919 | A concrete crash and retry that leave the staged file behind. |
| Prune.OthersKeepTheirMarkdown | crates/snow_core/src/context.rs:896-906 | Every other row keeps its markdown iff none shares the pruned path or sits at its staged name. |
| Prune.SharedNumberLosesMarkdown | crates/snow_core/src/context.rs:897-906 | An approval and its change under one number, both with files: pruning the approval removes the change's markdown and leaves the approval's. |
| Projection.RuntimeProjection.ProjectRecord | crates/snow_core/src/helpers.rs:313-343 | The loops over children and references, in any map order, build the specified tables. |
| Projection.ProjectRuntimeDocument | crates/snow_core/src/helpers.rs:281-310 | Each kind of document gives its tables, spelled out row by row, and only an article an article row. |
| Projection.DocumentsAreSound | crates/snow_core/src/helpers.rs:281-343 | For every document and order each relationship leads from the record to a reference row filed under its own sys_id. |
| Projection.TablesAreExact | crates/snow_core/src/helpers.rs:281-343 | Every document's reference keys, the columns of each row and the relationships: an approval has exactly the rows of approver and target and one relationship; a record those of its parent, children and kept fields, the last word deciding. |
| Projection.LastFieldDecides | crates/snow_core/src/helpers.rs:334-342 | The row under a sys_id is that of the last kept field naming it, or what it was. |
| Projection.ParentRowStands | crates/snow_core/src/helpers.rs:319-342 | No reference field replaces the parent's row; only the last child with the parent's sys_id does. |
| Projection.RelationshipsAreExact | crates/snow_core/src/helpers.rs:319-342 | The relationship multiset is parent, children and each kept field once, whatever the order. |
| Projection.ReferencesDependOnOrderExactly | crates/snow_core/src/helpers.rs:334-342 | Reference rows are the same for all orders iff no two kept fields give one sys_id different rows. |
| Projection.TwoNamesForOneUser | crates/snow_core/src/helpers.rs:334-342 | A record and two orders of its references with different cached names for one user. |
| Ancestors.TableAncestors | crates/snow_core/src/context.rs:644-663 | A chain of parents without repetition, at most eight long, complete iff it stopped short or nothing new lies above it. |
| Ancestors.ChainIsCompleteExactly | crates/snow_core/src/context.rs:648-660 | A chain holds every ancestor iff its last table has no parent or one already in it. |

## Left out

- BulkTheorems.WriteAheadBound: says nothing once the row has been purged; `lookup_idempotency` deletes an expired row even under a running handler, whose later saves then change no row.
- BulkTheorems.ReplayIsFaithful: compares with the row only while it is there, for the same reason.
- BulkTheorems.FinalReceiptIsTruthful: a Failed target whose PATCH is out may or may not have taken effect; no receipt can know.
- SingleSafety.OneAcknowledgedPatch: speaks of a key from the moment it is reserved, which planning does with a fresh key before any call can name it, until its row expires; an expired row is replaced by `check_and_record`, mark and all.
- SingleSafety.TwoWritersOverlapped: per-token at-most-once is not claimed for the kept-marker applies, which consume after the write.
- BulkAdmission.AdmissionIsExact: the kill switch and the policies of the two tools are one flag, `enabled`; the kill switch has a code of its own.
- BulkIssuing.HandlePlan: starts behind the two policy checks, which are those of the apply.
- SingleHistory.SequentialSubmitsOnce: says nothing of calls of one key that run at the same time, and nothing once the row has expired.
- BulkHandler.HandleApply: the imperative call runs alone and reads one clock value; interleaving and a moving clock are in the step machine.
- SingleHandlers.Daemon.HandleApply: starts behind the loading of the plan and its expiry check; the field review and the read of the record before the write are one answer.
- SingleHandlers.Daemon.HandleCatalogSubmit: starts behind the loading of the plan and its state and expiry checks.
- Governance.BuildPayload: the Incident lookups (group, assignee, state) arrive as values, and their failures, `reject_cancel_state` and the checks on the target record are not modelled.
- Projection.ProjectRuntimeDocument: the columns of an article row, and the normalisation of the article before projection.
- Prune.Machine.PruneRecord: the cache invalidation, and loading the record from the vault instead of the row; the file path is a column of the row here.
- The `mark_plan_consumed` flag, which nothing in the bulk path reads; audit event contents, redaction and diagnostics.
- JSON encoding, JSON-RPC framing, error texts, HTTP retries, SQLite locking, ServiceNow semantics.
- The 1000-row limit of the probe's queries, the service-membership queries themselves, and hydration of the hits.
- Field governance and preview diffs of resource plans, the catalog order body and the knowledge draft's validators, which are local checks of the same kind as the ones modelled.
- CLI, TUI, DTO conversions, configuration defaults, credentials, and the facades over services not modelled here.
