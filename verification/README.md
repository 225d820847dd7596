# Artifact engine: a verified model of its transactional core

This project models, in Dafny, the parts of the artifact engine where one wrong branch would break a guarantee that has to hold over
whole runs, and proves those guarantees. Every `with self.store.transaction()` block is one atomic step that commits or rolls back; what
lies between two blocks is a separate step, so other callers, crashes and dying workers may come in between. Digests and keyed digests
are free constructors (equal digests, equal contents), generated ids and tokens are row numbers or fresh numbers, and the clock is an
input to every step, monotone only where a statement says so. Ghost or plain histories record permits, provider calls, executor calls,
claims and successes.

Each service comes in two forms: specification functions on values, about which the theorems are proved for all states and all runs, and
a class whose methods change the tables in place and are proved equal to those functions (`ensures View() == F(old(View()))`). What the
functions compute is pinned from outside: for each operation a lemma says, on the rows and budgets alone and for every reachable state,
exactly when it is taken and what it writes (`ExternalRequests`, `ExternalDecisions`, `ExternalRegistry`, `WorkflowRequests`,
`WorkflowMetering`, `ExtractionOutcome`, `PlanTrace`, `JobLeaseChanges`, `DispatchRequests`), and what a record shows is read off its log.

| part | modules |
|---|---|
| external-effect protocol: approvals, one permit, provider calls, recovery by query or manual evidence, receipt chain, shared parent workflow | `ExternalOperation`, `ExternalReceipts`, `ExternalWorld`, `ExternalCounters`, `ExternalParents`, `ExternalInvariant`, `ExternalSteps`, `ExternalEndings`, `ExternalRefusals`, `ExternalRuns`, `ExternalTheorems`, `ExternalWitnesses`, `ExternalEvidence`, `ExternalRequests`, `ExternalDecisions`, `ExternalRegistry`, `ExternalService`, `ExternalTables` |
| runtime workflow: claims, leases, metering, budgets, record logs, frozen receipt, plan validation | `RuntimeWorkflow`, `WorkflowAccounting`, `WorkflowScheduling`, `WorkflowLog`, `WorkflowRuns`, `WorkflowBalance`, `WorkflowOutcomes`, `WorkflowEventBytes`, `WorkflowFencing`, `WorkflowTheorems`, `WorkflowPlan`, `WorkflowProgress`, `WorkflowRequests`, `WorkflowMetering`, `WorkflowService` |
| continuable extraction: chained, budgeted range log, staging, terminal receipts | `ContinuableExtraction`, `ExtractionLog`, `ExtractionService`, `ExtractionOutcome` |
| plan ordering, references, checkpoints and resume | `DependencyGraph`, `PlanModel`, `PlanOrder`, `PlanValidation`, `StepReferences`, `PlanResume`, `PlanRun`, `PlanResumeClosed`, `PlanResumeOrder`, `PlanTrace` |
| at-most-once executors: job leases, dispatch activations | `JobLease`, `JobLeaseChanges`, `DynamicDispatch`, `DispatchRequests` |

`Wrappers` holds `Option` and `Result`, `Totals` sums over sequences.

Where the code does less than its tables or documents suggest, the code was followed; a lemma says exactly when it does meet the
property, and another gives a reachable input on which it does not:

- a receipt with more than 64 conflicts is refused although 80 observations are allowed, and so is a receipt written after the clock went
  back: `ExternalReceipts.SnapshotRefusedOnlyIf`, `ExternalReceipts.ObserveGood`, with `ExternalReceipts.OneConflictTooMany` and
  `ExternalReceipts.ClockBackRefuses`;
- a version 3 parent cannot be told of a failure under an error code that the version 3 error schema does not list, nor of a check that
  did not succeed and yet carries a conformance binding; the update is refused, and the claim stays active:
  `ExternalTheorems.ClaimRequestsCommitUnless`, with `ExternalWitnesses.FailureCannotBeReported`;
- a version 3 parent whose job id has more than 120 characters can be created and worked on and never ends, because the id of its receipt
  would have more than 128: `ExternalTheorems.LongNameNeverEnds`, `ExternalTheorems.ClaimRequestsCommitUnless`,
  `ExternalTheorems.ObservationsCommit`, with `ExternalWitnesses.LongNameCannotBeCancelled`;
- the claims route does not count running external operations: `ExternalTheorems.ClaimsIgnoreOperations`, with
  `ExternalWitnesses.StepsOverrun`;
- event bytes exceed the stored events after a tool event over the external-operation budget: `WorkflowEventBytes.EventBytesTrueIff`, with
  `WorkflowEventBytes.ToolEventFailureOvercounts`;
- an extraction that has collected too many or too long omissions never ends: `ExtractionService.OverfullNeverEnds`,
  `ExtractionService.StopCommitsIff`, `ExtractionService.RetryCommitsIff`, with `ExtractionService.LongOmissionNeverEnds`;
- a checkpoint need not keep the dependencies among its pending steps, and then resuming can reorder them:
  `PlanResumeOrder.ResumeKeepsDependenciesIff`, with `PlanResumeClosed.UnclosedResumeReorders`;
- a stored output that looks like a step reference is resolved again: `StepReferences.AgreementNeedsSafeStorage`;
- unguarded cancels and reconciles can overwrite a completed job: `JobLease.TerminalOverwrittenIff`, `JobLease.TerminalIsFinalIff`, with
  `JobLease.CancelMayOverwriteCompletion`;
- a dispatch that finishes rewrites its parent whatever its state: `DynamicDispatch.FinishAfterCancelUndercounts`,
  `DynamicDispatch.CompletionLeavesParentRunning`, `DynamicDispatch.DispatchesNeverComplete`, with
  `DynamicDispatch.CancelledDispatchRunsAgain` and `DynamicDispatch.DispatchesLeaveRunning`;
- a dispatch without a planned edge for its receipt never ends, nor does one whose tool is no longer registered until it is asked to stop:
  `DynamicDispatch.NeverEndsIff`, `DynamicDispatch.FinishCommitsIff`, with `DynamicDispatch.LoneDispatchNeverEnds`;
- "not executed" on a dispatch receipt may be wrong after a revocation: `DynamicDispatch.DenialIsWrongIff`, with
  `DynamicDispatch.RevokedWhileExecuting` and `DynamicDispatch.DeniedCallIsMade`.

`dafny verify dfyconfig.toml` checks the whole project.

## Model

| member | source | states |
|---|---|---|
| `ExternalTheorems.SubmissionsWithinPermits` | runtime/pdx_artifact_engine/external_operations/service.py:790-911 | over every run, with a crash allowed between commit and call: provider submissions made, plus the one still to come, never exceed the operation's permits, and permits never exceed one |
| `ExternalTheorems.OneEffectEach` | runtime/pdx_artifact_engine/external_operations/service.py:80-80 | no two submissions ever made are for one subject, under one approval, or for one workflow step |
| `ExternalTheorems.RevokedApprovalPermitsNothing` | runtime/pdx_artifact_engine/contracts/external_operations/validation.py:234-238 | once an issuer's epoch has passed an approval's, no run issues a permit under that approval again |
| `ExternalTheorems.RevocationPassesApprovals` | runtime/pdx_artifact_engine/contracts/external_operations/validation.py:648-653 | a committed revocation raises the issuer's epoch strictly past the epoch of every approval of that issuer registered so far, and touches no approval |
| `ExternalTheorems.RevocationEndsApprovals` | runtime/pdx_artifact_engine/contracts/external_operations/validation.py:234-238 | from empty tables on: after a committed revocation, whatever follows, no permit is issued for an operation under any approval of that issuer that was registered before |
| `ExternalRegistry.FreshnessTakenIff` | runtime/pdx_artifact_engine/external_operations/service.py:231-360 | freshness is taken exactly inside a window of at most thirty seconds around now, in no earlier epoch and from no earlier observation than the last |
| `ExternalRegistry.SubjectTakenIff` | runtime/pdx_artifact_engine/external_operations/service.py:231-360 | a subject is registered once, as it was sent, and never replaced |
| `ExternalRegistry.RevocationTakenIff` | runtime/pdx_artifact_engine/external_operations/service.py:231-360 | a revocation commits exactly when it names a registered approval of its issuer and a later epoch; the issuer's freshness stays |
| `ExternalRegistry.ApprovalTakenIff` | runtime/pdx_artifact_engine/external_operations/service.py:231-360 | an approval is registered exactly once, in its window, in its issuer's epoch, for its subject's operation and policy |
| `ExternalRegistry.CaseTakenIff` | runtime/pdx_artifact_engine/external_operations/service.py:913-927 | a manual case is registered exactly when the operation has none, with a receipt that shows it |
| `ExternalRegistry.WorkersCallOnce` | runtime/pdx_artifact_engine/external_operations/service.py:897-911 | a worker between commit and provider makes its one call unless it dies |
| `ExternalRegistry.QueryEndsIff` | runtime/pdx_artifact_engine/external_operations/service.py:1208-1215 | a query's last transaction clears the claim with its own fence, and no other |
| `ExternalTheorems.EveryPermitWasCovered` | runtime/pdx_artifact_engine/contracts/external_operations/validation.py:231-251 | every permit in the history was issued under the approval its operation names, as registered and of the issuer the operation names, in that issuer's epoch at the time (never past its present one), inside the approval window and inside a freshness window of at most 30 seconds |
| `ExternalRequests.PermitIssuedIff` | runtime/pdx_artifact_engine/external_operations/service.py:790-911 | over every history, an event issues a permit exactly when it is a submit by the operation's controller that the dispatch policy allows, the operation has none, its approval is in its window, its issuer's epoch and a freshness window, and its parent is active with an external call left; the permit, the counted call and the pending worker are then all that is new, and any other submit changes nothing |
| `ExternalRequests.SubmitRefusedAs` | runtime/pdx_artifact_engine/external_operations/service.py:790-866 | in every reachable state, what a first submit by its own controller is told when it is refused: the approval is out of its window or its epoch, its issuer has no freshness, the parent is over, the dispatch policy forbids it, or no external call is left, the first of these in that order |
| `ExternalRequests.NoPermitOnceOver` | runtime/pdx_artifact_engine/external_operations/service.py:814-816 | once a parent is over, no later run issues a permit for any operation of it |
| `ExternalRequests.HistoryVetted` | runtime/pdx_artifact_engine/contracts/external_operations/validation.py:196-251 | in every reachable state an approval agrees with its subject, and an operation's approval with the subject, operation, issuer and controller the operation names, so that what activation checked of these a submit finds unchanged |
| `ExternalTheorems.CallsAreConserved` | runtime/pdx_artifact_engine/external_operations/service.py:856-873 | in every reachable state a parent's external_calls is the sum of permits and queries of its operations and within budget, and recovery_query_calls the sum of queries, although claims, cancels and parent advances rewrite the same record |
| `ExternalTheorems.ReceiptsSettle` | runtime/pdx_artifact_engine/external_operations/service.py:392-441 | receipts of an operation are numbered 1 to its sequence (at most 104), digest-linked, of one identity, and an earlier receipt's consumption, observations, conflicts, confirmed outcome and parent receipt persist in every later one |
| `ExternalTheorems.OutcomesStick` | runtime/pdx_artifact_engine/external_operations/service.py:1000-1011 | over every run a confirmed outcome and a provider id never change once set, and a recorded conflict keeps reconciliation required |
| `ExternalEvidence.OutcomeIsTold` | runtime/pdx_artifact_engine/external_operations/service.py:978-1012 | in every reachable state an operation with a permit has the outcome of the first confirmed observation in its log, and as conflicts exactly the later confirmed ones with another outcome, in order; before any, the outcome of the last observation; provider id, evidence counters of operation and case, reconciliation and submission evidence follow from the log too |
| `ExternalEvidence.StepsFollowEvidence` | runtime/pdx_artifact_engine/external_operations/service.py:1386-1446 | while a parent is active, the step of each of its operations has succeeded exactly when the operation's first confirmed observation says so, and runs until there is one; no other confirmed outcome leaves the parent active |
| `ExternalEvidence.CompletionWasObserved` | runtime/pdx_artifact_engine/external_operations/service.py:1248-1272 | a completed parent has, for every external step, an operation with a permit and a recorded observation of it that confirms success before any other confirmed one |
| `ExternalDecisions.ObservationRecordedIff` | runtime/pdx_artifact_engine/external_operations/service.py:929-1042 | over every history, an observation is recorded exactly when it is new, well formed, of the operation and its provider id, from a verified provider, under the permit, within the evidence and conflict budgets, under the open case if made by hand, and in time if it came through a query, unless it would conclude a parent whose receipt id does not fit; its stored answer names the receipt and says whether it is a conflict |
| `ExternalDecisions.ObservationConcludesIff` | runtime/pdx_artifact_engine/external_operations/service.py:1386-1446 | a recorded observation moves the parent exactly when it is the operation's first confirmed one and the parent is active: the step ends, two counters go down, a failure fails the parent, and the last success ends it |
| `ExternalTheorems.QueriesAreBounded` | runtime/pdx_artifact_engine/external_operations/service.py:1117-1127 | fences strictly increase over all claims ever issued, there are at most 20, and query_execution_ms is the sum of all reservations and at most 600000, whatever workers die |
| `ExternalDecisions.QueryScheduledIff` | runtime/pdx_artifact_engine/external_operations/service.py:1044-1165 | in every reachable state a reconcile request schedules a query exactly when its key is new, it names operation, profile and sequence as they are, the operation is submitted and unresolved, no query is out, and queries, time, records, bytes and the parent's calls are left; the claim reserves the smallest of 30 seconds, the timeout and the time left, all of it charged to the operation, and one call to the parent |
| `ExternalTheorems.ClaimIsReplacedAfterDeadline` | runtime/pdx_artifact_engine/external_operations/service.py:1096-1100 | a stored query claim is replaced by another request only once its deadline has passed |
| `ExternalTheorems.ResponseIsFenced` | runtime/pdx_artifact_engine/external_operations/service.py:951-958 | an observation sent through a query changes anything only under the current claim's fence and before its deadline |
| `ExternalTheorems.ObservationsCommit` | runtime/pdx_artifact_engine/external_operations/service.py:1041-1042 | an observation its operation accepts is rolled back because of what it does to the parent exactly when it would end a parent whose job id has more than 120 characters, so that the id of its receipt is no id |
| `ExternalTheorems.ClaimRequestsCommitUnless` | runtime/pdx_artifact_engine/runtime_workflows/service.py:874-891 | a claim request on a version 3 parent is rolled back at its receipt exactly when it is an update, accepted so far, with a new outcome that did not succeed and that either carries a report which passes its own checks, or has an error code outside the list of the version 3 error schema; or when it ends a parent whose job id has more than 120 characters |
| `ExternalTheorems.LongNameNeverEnds` | runtime/pdx_artifact_engine/runtime_workflows/service.py:874-891 | over every run, a version 3 parent with such a job id stays active and has no receipt |
| `ExternalRefusals.StepReceivable` | runtime/pdx_artifact_engine/runtime_workflows/service.py:657-704 | on an active parent whose receipt could be stored, a claim request leaves one that could not be exactly under that condition on the request and the state it meets |
| `ExternalWitnesses.FailureCannotBeReported` | runtime/pdx_artifact_engine/runtime_workflows/service.py:688-696 | a reachable input: a parent created, its builder claimed, and a failure reported under the code BUILD_FAILED, which is rolled back and leaves the claim active |
| `ExternalWitnesses.LongNameCannotBeCancelled` | runtime/pdx_artifact_engine/runtime_workflows/service.py:764-781 | a reachable input: a parent with a job id of more than 120 characters is created, and its cancel is refused and changes nothing |
| `ExternalTheorems.ActivationIsIdempotent` | runtime/pdx_artifact_engine/external_operations/service.py:500-524 | after any run, the same activation returns the same operation and changes nothing, and any other request or principal under its key is a conflict |
| `ExternalDecisions.OperationOpensIff` | runtime/pdx_artifact_engine/external_operations/service.py:497-771 | in every reachable state an activation opens an operation exactly when key, subject and approval are unused, the approval is in force and agrees with the application, the plan's step is bound to it, pending, with its dependencies succeeded, and four budgets have room; the new row, its key and the parent's step and counters are all that is new, and any other request changes nothing unless it repeats the subject's own |
| `ExternalTheorems.NoFalseCompletion` | runtime/pdx_artifact_engine/runtime_workflows/service.py:835-851 | whatever event ends a version 3 parent, it is completed exactly when every step succeeded and every bound operation is confirmed succeeded without conflict or reconciliation, and blocked exactly when only the latter fails |
| `ExternalTheorems.CompletionIsFinal` | runtime/pdx_artifact_engine/runtime_workflows/service.py:835-838 | a parent frozen as completed stays so under the same receipt over every run; the receipt covers the plan and its operations stay confirmed succeeded |
| `ExternalTheorems.ActiveStepsAreShared` | runtime/pdx_artifact_engine/external_operations/service.py:752-769 | in every reachable state active_dispatches is the number of running external steps, active_steps of an active parent is its active claims and those together, and no counter of any parent is negative |
| `ExternalTheorems.ClaimsIgnoreOperations` | runtime/pdx_artifact_engine/runtime_workflows/service.py:436-452 | when the claims route pushes active_steps past max_concurrent_steps, in every reachable state: exactly when active claims alone fit the limit but claims and running external steps together do not |
| `ExternalWitnesses.StepsOverrun` | runtime/pdx_artifact_engine/runtime_workflows/service.py:436-452 | a reachable input: one operation activated and one builder claimed under a limit of one leave two active steps |
| `ExternalRuns.HappenKeeps` | runtime/pdx_artifact_engine/external_operations/service.py:497-1446 | every transaction, provider call, worker death and claim request keeps the invariant that ties operations, permits, parents, counters, receipts and workers together |
| `ExternalRuns.HappenEvolves` | runtime/pdx_artifact_engine/external_operations/service.py:497-1446 | every event leaves approvals as they are, epochs non-decreasing, histories and receipts growing, idempotency keys bound, and ended parents ended as they were |
| `ExternalReceipts.SnapshotRefusedOnlyIf` | runtime/pdx_artifact_engine/contracts/external_operations/validation.py:508-561 | on a reachable operation the chain checks refuse the next receipt exactly when it would hold a 65th conflict or the clock went back past the last recorded elapsed time |
| `ExternalReceipts.OneConflictTooMany` | runtime/pdx_artifact_engine/contracts/external_operations/validation.py:508-561 | a reachable input for the first: a success, 63 contradictions by adapters, a manual case and a contradiction under it, and the next contradiction, which passes every check of observe, is refused |
| `ExternalReceipts.ClockBackRefuses` | runtime/pdx_artifact_engine/external_operations/service.py:1117-1158 | a reachable input for the second: after a query made one second into an operation, a query request inside the first second passes every check and has its receipt refused |
| `ExternalReceipts.MonotoneClockSuffices` | runtime/pdx_artifact_engine/external_operations/service.py:1056-1056 | with a clock that does not go back, the elapsed-time condition holds |
| `ExternalReceipts.ActivationGood` | runtime/pdx_artifact_engine/external_operations/service.py:770-771 | the first receipt of a new operation is never refused |
| `ExternalReceipts.PermitGood` | runtime/pdx_artifact_engine/external_operations/service.py:867-905 | issuing the permit keeps the operation coherent with its receipts, and its snapshot is never refused |
| `ExternalReceipts.CaseGood` | runtime/pdx_artifact_engine/external_operations/service.py:913-927 | at most one manual case for ever; registering it keeps the operation in order |
| `ExternalReceipts.AttachGood` | runtime/pdx_artifact_engine/external_operations/service.py:1232-1246 | attaching the parent's receipt is never refused on an operation without one |
| `ExternalReceipts.AdmissibleObservation` | runtime/pdx_artifact_engine/contracts/external_operations/validation.py:256-309 | recording an observation that is new and passes every check leaves a coherent operation, whose receipt is refused exactly on a 65th conflict |
| `ExternalReceipts.ObserveGood` | runtime/pdx_artifact_engine/external_operations/service.py:929-1042 | an admissible observation is refused exactly when it would be the 65th conflict; a replay changes nothing; a response through a query was sent under the current claim |
| `ExternalReceipts.ReserveGood` | runtime/pdx_artifact_engine/external_operations/service.py:1117-1158 | a query reservation keeps fences, reservations and receipts in step |
| `ExternalReceipts.ClearClaimGood` | runtime/pdx_artifact_engine/external_operations/service.py:1208-1215 | a query worker clears its own claim and no other |
| `ExternalReceipts.ChainIsNumbered` | runtime/pdx_artifact_engine/contracts/external_operations/validation.py:516-543 | a chain accepted link by link has as many receipts as its last sequence number, each carrying the digest of the one before |
| `ExternalReceipts.ChainSettles` | runtime/pdx_artifact_engine/contracts/external_operations/validation.py:544-561 | what any receipt of a chain settles, its last receipt repeats |
| `ExternalParents.OpenExternalKept` | runtime/pdx_artifact_engine/external_operations/service.py:752-769 | activating an external step keeps the parent's schedule, log and ending in order |
| `ExternalParents.AdvanceParentKept` | runtime/pdx_artifact_engine/external_operations/service.py:1386-1446 | advancing a parent on a resolved operation keeps its schedule, log and ending in order |
| `ExternalParents.ReceiptValidates` | runtime/pdx_artifact_engine/contracts/external_operations/validation.py:386-437 | the receipt of a parent that ends passes the validator, schema bounds on its id, reports, error code and counters included, exactly when its id fits, reports go with succeeded checks only and the error code is a listed one |
| `ExternalEndings.ReportsMatchUnless` | runtime/pdx_artifact_engine/runtime_workflows/service.py:623-655 | the former fails exactly when a claim that did not succeed carries a report |
| `ExternalEndings.SettleKeeps` | runtime/pdx_artifact_engine/runtime_workflows/service.py:874-894 | a parent's ending commits, keeping the invariant, or is rolled back exactly when its receipt id does not fit, its reports do not match or its error code is not listed |
| `ExternalCounters.StepCounted` | runtime/pdx_artifact_engine/runtime_workflows/service.py:657-704 | a claim request keeps the sharing of active_steps between claims and external steps, lets no counter turn negative, and freezes the counters it leaves |
| `ExternalCounters.AdvanceCounted` | runtime/pdx_artifact_engine/external_operations/service.py:1398-1443 | so does advancing a parent on a resolved operation |
| `ExternalEndings.StepNeedsReadiness` | runtime/pdx_artifact_engine/runtime_workflows/service.py:839-851 | no claim request completes a parent whose operations are not ready, nor blocks one whose operations are |
| `ExternalEndings.AttachAllGood` | runtime/pdx_artifact_engine/external_operations/service.py:1232-1246 | every operation of an ending parent takes the receipt, and no other is touched |
| `ExternalSteps.CallKeepsParents` | runtime/pdx_artifact_engine/external_operations/service.py:856-873 | one call counted on the parent and on its operation keeps the conservation of calls for every parent |
| `ExternalSteps.SubmitKeeps` | runtime/pdx_artifact_engine/external_operations/service.py:790-911 | a submit keeps the invariant |
| `ExternalSteps.ReconcileKeeps` | runtime/pdx_artifact_engine/external_operations/service.py:1044-1165 | a reconcile request keeps the invariant |
| `ExternalSteps.ActivationKeeps` | runtime/pdx_artifact_engine/external_operations/service.py:497-771 | an activation keeps the invariant |
| `ExternalService.OperationRecord.TakeSnapshot` | runtime/pdx_artifact_engine/external_operations/service.py:392-441 | sequence and latest receipt move to the next receipt, or nothing does and the validator's reason is returned |
| `ExternalService.OperationRecord.IssuePermit` | runtime/pdx_artifact_engine/external_operations/service.py:867-905 | the record after issuing the permit, field by field |
| `ExternalService.OperationRecord.ReserveQuery` | runtime/pdx_artifact_engine/external_operations/service.py:1117-1158 | the record after reserving a query: whole allowance charged, fence raised, claim stored |
| `ExternalService.OperationRecord.ChargeEvidence` | runtime/pdx_artifact_engine/external_operations/service.py:978-997 | a manual observation is charged to the case, any other to the operation |
| `ExternalService.OperationRecord.Conclude` | runtime/pdx_artifact_engine/external_operations/service.py:1000-1008 | the first confirmed outcome stays, a contradicting one becomes a conflict, an unconfirmed one after it is kept as evidence only |
| `ExternalService.OperationRecord.Append` | runtime/pdx_artifact_engine/external_operations/service.py:978-1011 | the record after an admissible observation |
| `ExternalService.OperationRecord.ObserveRecord` | runtime/pdx_artifact_engine/external_operations/service.py:948-1012 | the whole of observe on one record, with every error condition in order |
| `ExternalService.ParentCompletionReady` | runtime/pdx_artifact_engine/external_operations/service.py:1248-1272 | true exactly when every bound step has an operation that is confirmed succeeded without conflict or reconciliation |
| `ExternalService.ParentStepReceipts` | runtime/pdx_artifact_engine/external_operations/service.py:1310-1384 | one row for each operation of the parent, then one for each bound step without an operation |
| `ExternalService.ValidateClaimRows` | runtime/pdx_artifact_engine/contracts/external_operations/validation.py:394-403 | claim rows are valid exactly when each step occurs once and is planned with that kind |
| `ExternalService.ValidateExternalRows` | runtime/pdx_artifact_engine/contracts/external_operations/validation.py:394-431 | the same of external rows, which must also show the bound operation and, if successful, its confirmed outcome |
| `ExternalService.ValidateParentReceipt` | runtime/pdx_artifact_engine/contracts/external_operations/validation.py:386-437 | parent_receipt as a predicate on the whole receipt |
| `ExternalService.AttachParentTerminal` | runtime/pdx_artifact_engine/external_operations/service.py:1232-1246 | all rows of the parent take the receipt, or the first refusal stops the whole transaction |
| `ExternalTables.OperationTables.AssertIssuerFreshness` | runtime/pdx_artifact_engine/contracts/external_operations/validation.py:654-671 | an issuer's freshness moves forward within 30 seconds of now and its epoch never back; otherwise nothing changes |
| `ExternalTables.OperationTables.RevokeAuthorization` | runtime/pdx_artifact_engine/contracts/external_operations/validation.py:648-653 | the issuer's epoch moves strictly forward, for the issuer of the approval only |
| `ExternalTables.OperationTables.InsertOperation` | runtime/pdx_artifact_engine/external_operations/service.py:740-771 | a new row, its idempotency key and the four parent counters, or nothing |
| `ExternalTables.OperationTables.Activate` | runtime/pdx_artifact_engine/external_operations/service.py:497-771 | the whole tables after activate, and every refusal with the tables unchanged |
| `ExternalTables.OperationTables.PermitSubmission` | runtime/pdx_artifact_engine/external_operations/service.py:856-905 | the writes of submit: permit, counter, history and the worker left behind |
| `ExternalTables.OperationTables.SubmitOperation` | runtime/pdx_artifact_engine/external_operations/service.py:790-905 | the whole tables after submit; a second submit issues nothing |
| `ExternalTables.OperationTables.CallProvider` | runtime/pdx_artifact_engine/external_operations/service.py:906-911 | a worker left by a commit calls at most once |
| `ExternalTables.OperationTables.AdvanceRows` | runtime/pdx_artifact_engine/external_operations/service.py:1398-1443 | step, counters, state and error of the parent of a resolved operation |
| `ExternalTables.OperationTables.SettleParent` | runtime/pdx_artifact_engine/runtime_workflows/service.py:874-894 | the parent, its validated receipt and its operations move together or not at all |
| `ExternalTables.OperationTables.AdvanceAndSettle` | runtime/pdx_artifact_engine/external_operations/service.py:1386-1446 | _advance_parent with the receipt it freezes |
| `ExternalTables.OperationTables.ServeClaim` | runtime/pdx_artifact_engine/runtime_workflows/service.py:835-894 | a claim request on a version 3 parent with the ending it may bring |
| `ExternalTables.OperationTables.ObserveOperation` | runtime/pdx_artifact_engine/external_operations/service.py:929-1042 | the whole tables after observe; an error leaves them as they were |
| `ExternalTables.OperationTables.RegisterManualCase` | runtime/pdx_artifact_engine/external_operations/service.py:913-927 | the whole tables after registering a manual case |
| `ExternalTables.OperationTables.ReserveCall` | runtime/pdx_artifact_engine/external_operations/service.py:1101-1158 | a reserved query is charged to the operation and to its parent |
| `ExternalTables.OperationTables.ReconcileOperation` | runtime/pdx_artifact_engine/external_operations/service.py:1044-1166 | the whole tables after reconcile up to its first commit, with every refusal in order |
| `ExternalTables.OperationTables.ClearQuery` | runtime/pdx_artifact_engine/external_operations/service.py:1208-1215 | the last transaction of reconcile |
| `WorkflowTheorems.ClaimsAreAccounted` | runtime/pdx_artifact_engine/runtime_workflows/service.py:436-481 | over every run under any clock: active_steps is the number of active claims, attempt counters count claims, runtime is the sum of accounted seconds, each step's attempts count its claims, and all stay within budget, committed budget failures included |
| `WorkflowTheorems.RecordsAreAccounted` | runtime/pdx_artifact_engine/runtime_workflows/service.py:587-762 | edge and artifact-byte counters are sums over recorded edges, tool events are counted, all within budget, and event bytes are the sum over event records in every state but one: a workflow ended by a tool event over the external-operation budget |
| `WorkflowTheorems.ClaimsAreFenced` | runtime/pdx_artifact_engine/runtime_workflows/store.py:56-98 | at most one active claim and one outcome per step, both of its latest attempt; keys and tokens are single-use; records are contiguous from 0 |
| `WorkflowTheorems.SuccessesExtend` | runtime/pdx_artifact_engine/runtime_workflows/service.py:685-704 | success is never undone, successes form a linear extension of the dependencies, and the workflow is completed (blocked only in version 3) exactly when all steps succeeded |
| `WorkflowTheorems.TerminalIsFrozen` | runtime/pdx_artifact_engine/runtime_workflows/service.py:835-894 | a workflow that is over never changes again, and its receipt shows its state, live counters, outcomes and edges |
| `WorkflowEventBytes.ExcessAfter` | runtime/pdx_artifact_engine/runtime_workflows/service.py:587-600 | what a request leaves counted in event bytes above the stored records is the size of its tool event, when that fits the byte budget and finds the external-operation budget spent, and nothing otherwise |
| `WorkflowEventBytes.EventBytesTrueIff` | runtime/pdx_artifact_engine/runtime_workflows/service.py:587-600 | over every run the event bytes, live or frozen, are the sum over the stored records exactly when no request brought such a tool event of some size, and exceed it by the sizes of those that did |
| `WorkflowEventBytes.ToolEventFailureOvercounts` | runtime/pdx_artifact_engine/runtime_workflows/service.py:594-600 | reachable inputs: under a plan without external operations any activation and any first tool event that fits the byte budget freeze a receipt that counts the bytes of the event, which no record holds |
| `WorkflowBalance.StepBalances` | runtime/pdx_artifact_engine/runtime_workflows/service.py:372-809 | a request either keeps the part of active_steps that is not the claims', or sets it to zero and ends the workflow with all its claims; other counters only grow, and are frozen with the receipt |
| `WorkflowOutcomes.StepOutcomes` | runtime/pdx_artifact_engine/runtime_workflows/service.py:372-809 | a request finishes a claim exactly when it is an accepted update that completes its attempt, and then is that completion; any other leaves every outcome as it was |
| `WorkflowAccounting.OpenClaimAccounted` | runtime/pdx_artifact_engine/runtime_workflows/service.py:436-481 | opening a claim keeps every counter the sum it claims to be |
| `WorkflowAccounting.MeterAccounted` | runtime/pdx_artifact_engine/runtime_workflows/service.py:345-362 | so does metering, within the runtime budget |
| `WorkflowAccounting.AppendEventAccounted` | runtime/pdx_artifact_engine/runtime_workflows/service.py:587-620 | so does an accepted event |
| `WorkflowAccounting.FinishAccounted` | runtime/pdx_artifact_engine/runtime_workflows/service.py:657-704 | so does an outcome with its edge |
| `WorkflowAccounting.ReleaseAccounted` | runtime/pdx_artifact_engine/runtime_workflows/service.py:792-806 | so does releasing an expired claim |
| `WorkflowAccounting.EndActiveTotals` | runtime/pdx_artifact_engine/runtime_workflows/service.py:132-155 | ending all active claims changes the number of active claims and no other sum |
| `WorkflowScheduling.OneHolderPerStep` | runtime/pdx_artifact_engine/runtime_workflows/service.py:421-481 | never two active claims, and never two outcomes, of one step |
| `WorkflowScheduling.ReadinessQuery` | runtime/pdx_artifact_engine/runtime_workflows/service.py:421-435 | the row-count query for dependencies holds exactly when the list has no repetition and every dependency succeeded |
| `WorkflowScheduling.FinishOrdered` | runtime/pdx_artifact_engine/runtime_workflows/service.py:685-704 | an outcome extends the order of successes |
| `WorkflowLog.FinishedLog` | runtime/pdx_artifact_engine/runtime_workflows/service.py:657-704 | an outcome is the last record of its claim and its receipt repeats it |
| `WorkflowLog.FinishEnded` | runtime/pdx_artifact_engine/runtime_workflows/service.py:695-704 | a workflow that ends with an outcome gets a receipt that says what its rows say |
| `WorkflowRuns.CreateSound` | runtime/pdx_artifact_engine/runtime_workflows/service.py:157-233 | a created workflow satisfies the whole invariant |
| `WorkflowRuns.StepKept` | runtime/pdx_artifact_engine/runtime_workflows/service.py:372-809 | every request keeps schedule, log and ending, and true counters true, whatever the clock |
| `WorkflowRuns.StepContinues` | runtime/pdx_artifact_engine/runtime_workflows/service.py:372-809 | no request takes back a claim's ending, a record, an edge, a success or a receipt |
| `WorkflowRuns.RunAppends` | runtime/pdx_artifact_engine/runtime_workflows/service.py:372-809 | a run is the composition of its parts |
| `WorkflowRuns.EndedClaimIsPowerless` | runtime/pdx_artifact_engine/runtime_workflows/service.py:531-554 | a claim that stopped being active is final and its holder is refused in every later state |
| `WorkflowRuns.TokensAreDistinct` | runtime/pdx_artifact_engine/runtime_workflows/service.py:341-343 | two claims ever opened have different tokens and keys |
| `WorkflowRuns.RetryReturnsSameClaim` | runtime/pdx_artifact_engine/runtime_workflows/service.py:383-407 | an exact activation retry, however much later and under whatever current key, changes nothing and returns the same claim and token if the key of that token is still loaded, and is refused if not; another request under the idempotency key is refused |
| `WorkflowRuns.CompletionListsEveryStep` | runtime/pdx_artifact_engine/runtime_workflows/service.py:695-704 | a completed workflow lists every step once, dependencies first, under a completed receipt with its own counters |
| `WorkflowFencing.OnlyTheHolderActs` | runtime/pdx_artifact_engine/runtime_workflows/service.py:531-554 | a renewal or update changes something only with the token of an active claim under an unexpired lease, and then no other claim unless the workflow ends |
| `WorkflowRequests.ActivationIff` | runtime/pdx_artifact_engine/runtime_workflows/service.py:372-483 | an activation opens a claim exactly when key and invocation are unused, the step is planned of that kind, pending, with every dependency succeeded and none listed twice, and every attempt budget has room; it fails the workflow exactly when only room is missing; the claim starts now with no seconds, its lease from now, and the counters that go up are named |
| `WorkflowRequests.RenewalIff` | runtime/pdx_artifact_engine/runtime_workflows/service.py:508-529 | a renewal is refused exactly to who does not hold a live lease with every field the claim's, fails the workflow exactly when the seconds run are beyond the runtime budget, and otherwise charges them and extends the lease from now |
| `WorkflowRequests.UpdateIff` | runtime/pdx_artifact_engine/runtime_workflows/service.py:556-621 | what an update is refused, failed and accepted for: lease, runtime, digest, a repeated or out-of-order record, byte, event and artifact budgets, and the edge a report goes on; an accepted event or outcome moves the rows, counters and state that are named |
| `WorkflowRequests.CancelEnds` | runtime/pdx_artifact_engine/runtime_workflows/service.py:764-781 | a cancel ends an active workflow and every active claim, once, with its reason |
| `WorkflowMetering.LoopSweeps` | runtime/pdx_artifact_engine/runtime_workflows/service.py:783-809 | the reconcile loop fails the workflow exactly when the runtime budget does not cover the sum of all it charges; a claim whose lease ran out is metered exactly when the budget covers the charges up to it, and turns stale |
| `WorkflowMetering.StepMeters` | runtime/pdx_artifact_engine/runtime_workflows/service.py:345-362 | a request that meters a claim leaves it with the seconds since its start, or with what it had if that is more; every other claim keeps its seconds and a new one has none |
| `WorkflowMetering.SecondsAreLongestRun` | runtime/pdx_artifact_engine/runtime_workflows/service.py:345-362 | over every run, a claim's seconds are the longest it had run at any time it was metered, and none if it never was; the counter is their sum, within budget |
| `WorkflowPlan.DependencySearch.VisitStep` | runtime/pdx_artifact_engine/runtime_workflows/semantics.py:21-32 | the search visits what it reaches, reports every grey node it meets, and leaves the grey path as it was |
| `WorkflowPlan.FindCycles` | runtime/pdx_artifact_engine/runtime_workflows/semantics.py:18-35 | a cycle is reported exactly when there is one |
| `WorkflowPlan.EdgeFaults` | runtime/pdx_artifact_engine/runtime_workflows/semantics.py:36-94 | an edge is refused exactly when an end is unknown, both ends are one step, its producer's kind may not produce its role in that version, or it takes a decision elsewhere than to the first dispatch step |
| `WorkflowPlan.DependencyFaults` | runtime/pdx_artifact_engine/runtime_workflows/semantics.py:11-35 | no fault exactly when ids are distinct, dependencies known and the graph acyclic |
| `WorkflowPlan.BudgetFaults` | runtime/pdx_artifact_engine/runtime_workflows/semantics.py:72-84 | no fault exactly when provider, check and (from version 2 on) dispatch attempts of all steps, and the planned edges, fit the plan's budgets |
| `WorkflowPlan.ValidatePlan` | runtime/pdx_artifact_engine/runtime_workflows/semantics.py:8-109 | no fault exactly when the plan is well formed, acyclic and within its own budgets |
| `WorkflowProgress.SomeStepIsReady` | runtime/pdx_artifact_engine/runtime_workflows/semantics.py:11-35 | in every reachable state under a validated plan, an active workflow with nothing running has a ready step |
| `WorkflowProgress.NeverStuck` | runtime/pdx_artifact_engine/runtime_workflows/service.py:372-483 | and activating it opens its claim, or ends the workflow exactly when the step has used up its attempts |
| `WorkflowProgress.ClaimsByStep` | runtime/pdx_artifact_engine/runtime_workflows/service.py:436-452 | counting claims by row or by planned step gives the same number |
| `WorkflowProgress.RoomForAttempt` | runtime/pdx_artifact_engine/runtime_workflows/semantics.py:65-75 | a step with an attempt left always finds room in the global attempt budget |
| `WorkflowProgress.OnlyOwnLimitsBind` | runtime/pdx_artifact_engine/runtime_workflows/service.py:436-452 | under a validated plan an activation is exhausted exactly by concurrency or by the step's own attempts |
| `WorkflowProgress.ReleasesExactlyExpired` | runtime/pdx_artifact_engine/runtime_workflows/service.py:783-809 | a reconcile that does not end the workflow turns exactly the expired claims stale, metered, and leaves every other as it was |
| `WorkflowProgress.RecoveryUnblocks` | runtime/pdx_artifact_engine/runtime_workflows/service.py:783-809 | when every lease has run out, reconciling either ends the workflow with a receipt or leaves a ready step |
| `WorkflowService.WorkflowTables.constructor` | runtime/pdx_artifact_engine/runtime_workflows/service.py:157-233 | one pending row per planned step and all counters zero |
| `WorkflowService.WorkflowTables.FreezeReceipt` | runtime/pdx_artifact_engine/runtime_workflows/service.py:835-894 | _freeze_receipt writes once |
| `WorkflowService.WorkflowTables.EndClaims` | runtime/pdx_artifact_engine/runtime_workflows/service.py:132-155 | every active claim takes the given status |
| `WorkflowService.WorkflowTables.ExhaustBudget` | runtime/pdx_artifact_engine/runtime_workflows/service.py:132-155 | the failure that commits: state, error, claims, counters and receipt |
| `WorkflowService.WorkflowTables.MeterRuntime` | runtime/pdx_artifact_engine/runtime_workflows/service.py:345-362 | unaccounted seconds are charged once, or the workflow fails for good |
| `WorkflowService.WorkflowTables.InsertClaim` | runtime/pdx_artifact_engine/runtime_workflows/service.py:455-481 | the row of a new claim and the counters it moves |
| `WorkflowService.WorkflowTables.ActivateStep` | runtime/pdx_artifact_engine/runtime_workflows/service.py:372-483 | the whole state after _activate, and what is answered |
| `WorkflowService.WorkflowTables.RenewLease` | runtime/pdx_artifact_engine/runtime_workflows/service.py:508-529 | the whole state after renew |
| `WorkflowService.WorkflowTables.CompleteAttempt` | runtime/pdx_artifact_engine/runtime_workflows/service.py:657-704 | the whole state after _complete_attempt |
| `WorkflowService.WorkflowTables.AppendEventRecord` | runtime/pdx_artifact_engine/runtime_workflows/service.py:587-620 | the event branch of update, its budget failures committed |
| `WorkflowService.WorkflowTables.AppendOutcomeRecord` | runtime/pdx_artifact_engine/runtime_workflows/service.py:602-762 | the outcome branch of update with preflight and check edge |
| `WorkflowService.WorkflowTables.AppendRecord` | runtime/pdx_artifact_engine/runtime_workflows/service.py:573-621 | replays, sequence conflicts and new records |
| `WorkflowService.WorkflowTables.UpdateClaim` | runtime/pdx_artifact_engine/runtime_workflows/service.py:556-621 | the whole state after update: a failure after metering takes the seconds back unless it is a budget failure |
| `WorkflowService.WorkflowTables.CancelWorkflow` | runtime/pdx_artifact_engine/runtime_workflows/service.py:764-781 | the whole state after cancel |
| `WorkflowService.WorkflowTables.SelectExpired` | runtime/pdx_artifact_engine/runtime_workflows/service.py:792-795 | exactly the expired active claims, in row order |
| `WorkflowService.WorkflowTables.ReleaseClaim` | runtime/pdx_artifact_engine/runtime_workflows/service.py:797-806 | one turn of the reconcile loop |
| `WorkflowService.WorkflowTables.ReconcileClaims` | runtime/pdx_artifact_engine/runtime_workflows/service.py:783-809 | the whole state after reconcile |
| `WorkflowService.AppendFailuresAreKinds` | runtime/pdx_artifact_engine/runtime_workflows/store.py:238-251 | a failed update commits when it is a budget failure and is rolled back otherwise |
| `ContinuableExtraction.AccumulateCoverage` | packages/pdx_artifact_core/src/pdx_artifact_core/continuable_extraction.py:245-266 | the accumulator after one range, whatever its number and key |
| `ContinuableExtraction.ExtendState` | packages/pdx_artifact_core/src/pdx_artifact_core/continuable_extraction.py:213-282 | the copy of the state with one range more |
| `ContinuableExtraction.AcceptRange` | packages/pdx_artifact_core/src/pdx_artifact_core/continuable_extraction.py:145-288 | accept_extraction_range with every refusal and the idempotent replay |
| `ExtractionLog.AggregateDetermines` | packages/pdx_artifact_core/src/pdx_artifact_core/continuable_extraction.py:237-244 | equal aggregate digests mean equal artifacts and payloads in the same order |
| `ExtractionLog.OmissionsAreUnion` | packages/pdx_artifact_core/src/pdx_artifact_core/continuable_extraction.py:245-248 | accumulated omissions are exactly the union over the log |
| `ExtractionLog.OcrIsHighest` | packages/pdx_artifact_core/src/pdx_artifact_core/continuable_extraction.py:255-266 | the accumulated OCR disposition is the highest any range reported |
| `ExtractionLog.WholeUnlessIncomplete` | packages/pdx_artifact_core/src/pdx_artifact_core/continuable_extraction.py:249-254 | the accumulated disposition is complete exactly as the log's ranges allow |
| `ExtractionLog.AcceptGood` | packages/pdx_artifact_core/src/pdx_artifact_core/continuable_extraction.py:145-288 | an accepted range keeps the state a fold over a gapless log within its limits |
| `ExtractionLog.StopGood` | runtime/pdx_artifact_engine/continuable_extraction/service.py:472-520 | a stop keeps it |
| `ExtractionLog.RetryGood` | runtime/pdx_artifact_engine/continuable_extraction/service.py:421-470 | a retry keeps it, whether or not it exhausts the retry budget |
| `ExtractionLog.TerminalIsLast` | packages/pdx_artifact_core/src/pdx_artifact_core/continuable_extraction.py:198-212 | only the last range of a log can be terminal |
| `ExtractionLog.CompletionNeedsEvidence` | packages/pdx_artifact_core/src/pdx_artifact_core/continuable_extraction.py:204-278 | completed exactly when the last range is terminal and complete and no range ever was unsupported or of unknown coverage; then it carries validated evidence and no omission |
| `ExtractionLog.RevisionIsBounded` | packages/pdx_artifact_core/src/pdx_artifact_core/continuable_extraction.py:233-236 | revision equals ranges plus retries plus one for a stop, and is at most limits.ranges + limits.retries + 1 |
| `ExtractionLog.ReceiptValidIffReportable` | packages/pdx_artifact_core/src/pdx_artifact_core/continuable_extraction.py:59-92 | the receipt of a terminal state passes its validator exactly when its omissions fit the receipt schema, and says complete exactly when completed |
| `ExtractionLog.StoppableIff` | runtime/pdx_artifact_engine/continuable_extraction/service.py:41-63 | when a pending extraction can be stopped: exactly when the reason is a code and the omissions so far, with the reason's own, fit a receipt |
| `ExtractionService.OverfullNeverEnds` | runtime/pdx_artifact_engine/continuable_extraction/service.py:41-63 | over every run, an operation whose omissions are too many or too long for a receipt stays pending: no stop, no retry past the budget and no last range is accepted |
| `ExtractionService.LongOmissionNeverEnds` | runtime/pdx_artifact_engine/continuable_extraction/service.py:472-520 | reachable inputs: after one accepted range with an omission of more than 128 characters the operation is pending in every later state |
| `ExtractionService.ServeKeeps` | runtime/pdx_artifact_engine/continuable_extraction/service.py:186-520 | every request keeps every operation created fresh in order and evolves the tables |
| `ExtractionService.EveryRunIsItsLog` | runtime/pdx_artifact_engine/continuable_extraction/service.py:186-572 | over every run such an operation is a fold over its log, its revision is counted and bounded, it is completed exactly on evidence, and it has a valid receipt exactly when it is over, complete exactly when completed |
| `ExtractionService.StagedExactlyOnce` | runtime/pdx_artifact_engine/continuable_extraction/service.py:327-376 | a staged row is accepted exactly when its key occurs in the log, and there once |
| `ExtractionService.ReplayChangesNothing` | runtime/pdx_artifact_engine/continuable_extraction/service.py:289-346 | staging and accepting again, exactly as before and after any run, changes nothing |
| `ExtractionService.EndedForEver` | runtime/pdx_artifact_engine/continuable_extraction/service.py:353-369 | an ended operation keeps its row and receipt over every run |
| `ExtractionService.StopCommitsIff` | runtime/pdx_artifact_engine/continuable_extraction/service.py:472-520 | cancel, timeout and fail commit exactly under that condition |
| `ExtractionService.RetryCommitsIff` | runtime/pdx_artifact_engine/continuable_extraction/service.py:421-470 | a retry at the current revision commits exactly when the budget has one left, or the omissions with those of a spent budget fit a receipt |
| `ExtractionOutcome.DispositionIsLast` | packages/pdx_artifact_core/src/pdx_artifact_core/continuable_extraction.py:249-254 | the accumulated disposition is that of the last range that ruled out complete coverage, and complete if none did |
| `ExtractionOutcome.EndedForReason` | packages/pdx_artifact_core/src/pdx_artifact_core/continuable_extraction.py:266-277 | an extraction ended by a range ends under UNSUPPORTED_PROJECTION exactly when that last range was unsupported, under COMPLETED exactly when there is none and the last range is complete, and under INCOMPLETE_PROJECTION otherwise; its receipt reports that disposition |
| `ExtractionOutcome.ReportFollowsLog` | runtime/pdx_artifact_engine/continuable_extraction/service.py:537-572 | over every run, reason, coverage and omissions of the receipt of an operation ended by a range follow from its log |
| `ExtractionOutcome.LogIsStaged` | runtime/pdx_artifact_engine/continuable_extraction/service.py:327-376 | over every run, the log of an operation holds, field by field and with the defaults of the code, what was staged under each key |
| `ExtractionOutcome.ReceiptShowsRow` | runtime/pdx_artifact_engine/continuable_extraction/service.py:537-572 | over every run, the receipt of an operation that is over shows its source, state, log, digests, consumption and limits |
| `ExtractionOutcome.AcceptCommitsIff` | runtime/pdx_artifact_engine/continuable_extraction/service.py:327-376 | a staged range is accepted exactly when the operation waits for it at the revision it was staged for, every budget has room, it is well formed, complete only with evidence, and, if it is the last, the omissions fit a receipt |
| `ExtractionOutcome.RepeatedRangeIff` | packages/pdx_artifact_core/src/pdx_artifact_core/continuable_extraction.py:175-200 | a range under a key the log already has changes nothing if it says, field by field and with the defaults of the code, what the log says under that key, and is a conflict otherwise, whether or not the operation is over |
| `ExtractionOutcome.CreatesAndStagesOnce` | runtime/pdx_artifact_engine/continuable_extraction/service.py:186-325 | an operation is created from a valid pending document at revision zero, and a range staged for an operation, once each; the same again changes nothing and anything else under the same name is refused |
| `ExtractionOutcome.StopWrites` | runtime/pdx_artifact_engine/continuable_extraction/service.py:472-520 | a cancel, timeout or failure that commits was made at the current revision and writes its own state, reason and omission, and nothing else |
| `ExtractionOutcome.StopIff` | runtime/pdx_artifact_engine/continuable_extraction/service.py:472-520 | in every reachable state a cancel, timeout or failure of a pending operation is accepted exactly at its revision, with a well-formed reason, while the omissions with its own fit a receipt; of one that is over exactly if it ended that way, and then nothing changes |
| `ExtractionOutcome.RetryWrites` | runtime/pdx_artifact_engine/continuable_extraction/service.py:421-470 | a retry that commits counts one retry, or ends the operation when the budget is spent |
| `ExtractionService.ExtractionStore.StageOne` | runtime/pdx_artifact_engine/continuable_extraction/service.py:253-325 | the tables after stage_range |
| `ExtractionService.ExtractionStore.CompareAndSet` | runtime/pdx_artifact_engine/continuable_extraction/service.py:353-369 | the guarded update writes only while the row is pending at the stored revision, with the receipt of a state that is over |
| `ExtractionService.ExtractionStore.AcceptOne` | runtime/pdx_artifact_engine/continuable_extraction/service.py:327-376 | the tables after accept_staged |
| `ExtractionService.ExtractionStore.RetryOne` | runtime/pdx_artifact_engine/continuable_extraction/service.py:421-470 | the tables after record_retry |
| `ExtractionService.ExtractionStore.EndOne` | runtime/pdx_artifact_engine/continuable_extraction/service.py:398-520 | the tables after cancel, timeout or fail, the test that fail puts to its reason first |
| `ExtractionService.ExtractionStore.SelectStaged` | runtime/pdx_artifact_engine/continuable_extraction/service.py:387-393 | a staged, unaccepted row of the current revision, or none exists |
| `ExtractionService.ExtractionStore.Reconcile` | runtime/pdx_artifact_engine/continuable_extraction/service.py:382-396 | the while-True loop ends although other callers run between all of its transactions; unless refused, it returns a state that is over and still the current one, or one for whose revision no staged row is left |
| `DependencyGraph.CycleSearch.Dfs` | packages/pdx_artifact_core/src/pdx_artifact_core/validate.py:84-99 | a found cycle is one; otherwise the node and all it reaches are ranked |
| `DependencyGraph.GraphHasCycle` | packages/pdx_artifact_core/src/pdx_artifact_core/validate.py:78-104 | empty exactly on acyclic graphs, for whatever iteration order; otherwise a genuine cycle |
| `DependencyGraph.OppositeAcyclic` | packages/pdx_artifact_core/src/pdx_artifact_core/validate.py:107-158 | acyclicity does not depend on the direction the edges are walked in |
| `DependencyGraph.AcyclicHasSink` | runtime/pdx_artifact_engine/dispatcher.py:45-57 | in an acyclic graph every nonempty set of nodes has one that points at none of the set |
| `PlanOrder.OrdersIffAcyclic` | runtime/pdx_artifact_engine/dispatcher.py:45-60 | ordering all nodes succeeds exactly on acyclic graphs |
| `PlanOrder.OrderStepsSucceedsIffOrderable` | runtime/pdx_artifact_engine/dispatcher.py:31-60 | order_steps succeeds exactly when ids are unique, dependencies known and the graph acyclic |
| `PlanOrder.OrderStepsIsTopological` | runtime/pdx_artifact_engine/dispatcher.py:31-60 | its result is a permutation of the plan with every dependency first |
| `PlanOrder.StepOrderer.VisitStep` | runtime/pdx_artifact_engine/dispatcher.py:45-57 | the nested visit and its three shared variables |
| `PlanOrder.FindUnknownDependency` | runtime/pdx_artifact_engine/dispatcher.py:36-40 | the first unknown dependency in plan order, or none exists |
| `PlanOrder.OrderPlanSteps` | runtime/pdx_artifact_engine/dispatcher.py:31-60 | order_steps, with the error it raises |
| `PlanValidation.SearchDirectionsAgree` | packages/pdx_artifact_core/src/pdx_artifact_core/validate.py:139-156 | on a plan with unique ids and known dependencies the validator's forward search and order_steps give the same verdict |
| `PlanValidation.FindDuplicates` | packages/pdx_artifact_core/src/pdx_artifact_core/validate.py:130-135 | exactly the ids used twice |
| `PlanValidation.LinkStep` | packages/pdx_artifact_core/src/pdx_artifact_core/validate.py:144-152 | known dependencies become edges, unknown ones errors |
| `PlanValidation.LinkSteps` | packages/pdx_artifact_core/src/pdx_artifact_core/validate.py:139-152 | the forward edges of the whole plan and every unknown dependency |
| `PlanValidation.DuplicateErrors` | packages/pdx_artifact_core/src/pdx_artifact_core/validate.py:129-137 | an error for exactly each id used twice |
| `PlanValidation.DependencyErrors` | packages/pdx_artifact_core/src/pdx_artifact_core/validate.py:107-158 | no error exactly when order_steps succeeds, so validated plans always order; each reported cycle is one |
| `StepReferences.MaterializeAgrees` | runtime/pdx_artifact_engine/runtime.py:27-45 | resolving a materialized value in the pending context gives what the original gives in the full context |
| `StepReferences.AgreementNeedsSafeStorage` | runtime/pdx_artifact_engine/runtime.py:27-45 | the two agree for every input and every later context exactly when no stored output a reference can reach contains a reference-like string |
| `StepReferences.ResolvesAloneIffReferenceFree` | runtime/pdx_artifact_engine/dispatcher.py:63-85 | without context exactly the reference-free values resolve, and to themselves |
| `StepReferences.ResolveMonotone` | runtime/pdx_artifact_engine/dispatcher.py:63-92 | more completed outputs never change a value that already resolved |
| `PlanResume.ResumedOrderIsFiltered` | packages/pdx_artifact_core/src/pdx_artifact_core/approval.py:131-150 | after a dependency-closed checkpoint the resumed plan orders, and in the original order of its steps |
| `PlanResume.VisitRestricts` | runtime/pdx_artifact_engine/dispatcher.py:45-57 | a visit of the original graph is, on the pending part, a visit of the kept graph or nothing |
| `PlanResume.PendingDependencies` | packages/pdx_artifact_core/src/pdx_artifact_core/approval.py:141-150 | the resumed plan's dependencies are the original ones cut down to pending steps |
| `PlanRun.RunOrdered` | runtime/pdx_artifact_engine/dispatcher.py:376-704 | the dispatch loop over tool steps: inputs resolved, calls made, outputs stored, first failure stops |
| `PlanRun.RunPlan` | runtime/pdx_artifact_engine/dispatcher.py:143-167 | the plan is validated first, one without steps or not orderable is refused, and then its steps are run in order |
| `PlanRun.LoadContext` | runtime/pdx_artifact_engine/runtime.py:165-186 | the context holds exactly the outputs of the successful receipts |
| `PlanRun.OverwriteInputs` | runtime/pdx_artifact_engine/runtime.py:188-191 | every pending step's inputs are materialized, or the first broken reference is raised |
| `PlanRun.ResumeSnapshot` | runtime/pdx_artifact_engine/runtime.py:140-192 | resume_snapshot with every guard, then the run of the pending steps, refused if there are none |
| `PlanRun.PrefixIsClosed` | runtime/pdx_artifact_engine/dispatcher.py:31-60 | a prefix of the order is closed under dependencies |
| `PlanRun.PreparedRunAgrees` | runtime/pdx_artifact_engine/runtime.py:27-45 | running prepared steps alone does what running the originals in the full context does |
| `PlanRun.ResumePreservesRun` | packages/pdx_artifact_core/src/pdx_artifact_core/approval.py:131-150 | running a prefix, stopping and resuming from its stored outputs makes the calls of the uninterrupted run with the same inputs and leaves the same outputs; a broken reference only shows earlier, and after the last step resuming is refused |
| `PlanRun.ResumedSnapshotPreservesRun` | runtime/pdx_artifact_engine/runtime.py:140-192 | the same for a whole resume request on the snapshot and checkpoint of such a prefix |
| `PlanResumeClosed.ClosedResumePreservesRun` | packages/pdx_artifact_core/src/pdx_artifact_core/approval.py:131-150 | after a run that completes, resuming from any dependency-closed set of its outputs repeats exactly the other steps' calls and outputs, and is refused when there are none |
| `PlanResumeClosed.ResumeForgetsIndirectDependencies` | packages/pdx_artifact_core/src/pdx_artifact_core/approval.py:141-150 | dependencies that pass through completed steps are forgotten: without direct ones the listing order decides |
| `PlanResumeOrder.ResumeKeepsDependenciesIff` | packages/pdx_artifact_core/src/pdx_artifact_core/approval.py:131-150 | in whatever order a plan lists its steps, the resumed plan runs every pending step after all pending steps it depends on, directly or not: exactly when each such dependency is also a path through pending steps only |
| `PlanResumeOrder.ClosedPathsStayPending` | packages/pdx_artifact_core/src/pdx_artifact_core/approval.py:131-150 | that holds of every dependency-closed checkpoint |
| `PlanResumeOrder.LostDependencyShows` | packages/pdx_artifact_core/src/pdx_artifact_core/approval.py:141-150 | each dependency that is not such a path is broken by the resumption of some listing of the same steps |
| `PlanResumeClosed.UnclosedResumeReorders` | packages/pdx_artifact_core/src/pdx_artifact_core/approval.py:26-52 | a reachable input: create_checkpoint accepts a partition that is not dependency-closed, after which the resumed plan runs a step before one it needs |
| `PlanTrace.RunsStepByStep` | runtime/pdx_artifact_engine/dispatcher.py:376-704 | the loop over tool steps calls, in order, each step's tool on its inputs as the answers before resolve them, stops at the first broken reference or failed call, and leaves the answers it got |
| `PlanTrace.ReferencesMean` | runtime/pdx_artifact_engine/dispatcher.py:63-85 | a reference stands for all outputs of a completed step, or for the first under its key; a step that has not completed, or has no such output, is an error |
| `PlanTrace.CheckpointIff` | packages/pdx_artifact_core/src/pdx_artifact_core/approval.py:26-52 | a checkpoint is created exactly for a partition of the plan's steps, and lists both parts in plan order |
| `PlanTrace.OutputsOfReceipts` | runtime/pdx_artifact_engine/runtime.py:165-186 | the stored outputs are those of the successful receipts |
| `PlanTrace.ResumeRefusedIff` | runtime/pdx_artifact_engine/runtime.py:140-192 | each refusal of a resume request, exactly when its check is the first to fail: an inconsistent snapshot, one not waiting, an ambiguous outcome, a decision that does not approve, another plan, another checkpoint, subject or evidence |
| `PlanTrace.ApprovedResumesIff` | runtime/pdx_artifact_engine/runtime.py:162-192 | an approved request starts its pending steps exactly when there are some, they can be ordered, and no reference to a completed output is broken |
| `PlanTrace.ResumedCalls` | packages/pdx_artifact_core/src/pdx_artifact_core/approval.py:141-150 | a resumed run calls pending steps only, each at most once and with its own tool, after the pending steps it depends on; all of them unless one fails |
| `JobLease.HappenKeeps` | runtime/pdx_artifact_engine/jobs/__init__.py:196-417 | every claim, renewal, release, read and write keeps: a running row carries its token and nothing but renewals happened since that token's claim |
| `JobLease.HeldRowIsCopy` | runtime/pdx_artifact_engine/worker.py:179-211 | a row that passes a reader's token guard is the row it read, but for the lease expiry |
| `JobLease.GuardedWritesAreFenced` | runtime/pdx_artifact_engine/worker.py:179-211 | over every interleaving a worker's write goes through only if no other claim, release or write happened since its claim, and overwrites the row it read but for the expiry |
| `JobLease.GuardedReconcilesAreFenced` | runtime/pdx_artifact_engine/jobs/service.py:636-658 | the same of a reconcile that read a running row |
| `JobLease.ClaimsAreBounded` | runtime/pdx_artifact_engine/jobs/__init__.py:248-326 | a job is claimed at most max_attempts times whatever stale writes do |
| `JobLease.TerminalStaysTerminal` | runtime/pdx_artifact_engine/jobs/service.py:660-688 | a terminal row may be overwritten by a stale unguarded write, but only by a terminal one |
| `JobLease.TerminalOverwrittenIff` | runtime/pdx_artifact_engine/jobs/service.py:508-688 | a terminal row is overwritten exactly by a cancel whose reader had read it before it was terminal, or a reconcile whose reader had read it pending, and then by that reader's copy, finalized; every other event leaves it as it is |
| `JobLease.TerminalIsFinalIff` | runtime/pdx_artifact_engine/jobs/service.py:508-688 | over every run from there on a terminal row is sure to stay as it is exactly when no reader holds such a copy |
| `JobLease.CancelMayOverwriteCompletion` | runtime/pdx_artifact_engine/jobs/service.py:508-533 | a reachable input: a cancel read the job pending, a worker completed it, and the cancel replaces the completed row |
| `JobLeaseChanges.ClaimTakesFirst` | runtime/pdx_artifact_engine/jobs/__init__.py:248-326 | in every reachable state a claim takes the first row that is pending, or running with its lease run out, and has an attempt left; it counts the attempt and writes owner, expiry and a token nobody holds; with no such row nothing changes |
| `JobLeaseChanges.LeaseChangesIff` | runtime/pdx_artifact_engine/jobs/__init__.py:328-415 | a renewal extends exactly the running row of its owner and token, whatever the clock, and a release puts back exactly the running row of its token whose lease has run out |
| `JobLeaseChanges.WorkerWritesOwnRow` | runtime/pdx_artifact_engine/worker.py:557-590 | in every reachable state a worker's write changes its job's row exactly while that row runs under the worker's own token, into that very row put back (below the attempt limit only) or ended |
| `JobLeaseChanges.EndingWritesIff` | runtime/pdx_artifact_engine/jobs/service.py:508-680 | in every reachable state a cancel, or a reconcile of a row read pending, ends whatever is there as the row it read; a reconcile of a running row ends that very row while it runs under the token it had; one that read a row that was over writes nothing |
| `JobLeaseChanges.InsertsAndReads` | runtime/pdx_artifact_engine/jobs/__init__.py:143-194 | an inserted job waits, unclaimed and without a token, behind the rows there are, and a read takes the row as it is |
| `JobLease.JobStore.ClaimFirst` | runtime/pdx_artifact_engine/jobs/__init__.py:248-326 | the first claimable row is claimed under a fresh token, if there is one |
| `JobLease.JobStore.RenewLease` | runtime/pdx_artifact_engine/jobs/__init__.py:328-353 | renewed exactly when owner and token still hold the running row |
| `JobLease.JobStore.ReleaseLease` | runtime/pdx_artifact_engine/jobs/__init__.py:376-417 | released exactly when running under the token with the lease run out |
| `JobLease.JobStore.Update` | runtime/pdx_artifact_engine/jobs/__init__.py:196-234 | a guarded write of the whole row |
| `JobLease.JobStore.FinalizeRecord` | runtime/pdx_artifact_engine/jobs/service.py:660-688 | _finalize: the terminal record under the expected token, or nothing |
| `JobLease.JobStore.CancelJob` | runtime/pdx_artifact_engine/jobs/service.py:508-533 | cancel after its read |
| `JobLease.JobStore.ReconcileFinalize` | runtime/pdx_artifact_engine/jobs/service.py:636-658 | _reconcile_finalize after its read |
| `JobLease.JobStore.RetryOrFail` | runtime/pdx_artifact_engine/worker.py:557-586 | requeued below the attempt limit, failed at it, always under the worker's token |
| `DynamicDispatch.HappenKeeps` | runtime/pdx_artifact_engine/dynamic_dispatch/service.py:250-1195 | every event keeps the invariant over activations, workers, calls and the parent's active dispatches |
| `DynamicDispatch.HappenEvolves` | runtime/pdx_artifact_engine/dynamic_dispatch/service.py:250-1195 | no event takes back an activation, a call or a terminal receipt |
| `DynamicDispatch.DispatchedAtMostOnce` | runtime/pdx_artifact_engine/dynamic_dispatch/service.py:659-673 | over every interleaving: at most one activation of a step, at most one executor call for it, and active_dispatches equals the activations without a terminal receipt |
| `DynamicDispatch.ReceiptsAreFinal` | runtime/pdx_artifact_engine/dynamic_dispatch/service.py:1028-1034 | a terminal receipt is written once; one that reports a call is right, and one that reports none is of an activation asked to stop |
| `DynamicDispatch.DenialIsWrongIff` | runtime/pdx_artifact_engine/dynamic_dispatch/service.py:821-1034 | a receipt that denies the call is wrong, now or after some run, exactly when the call was made or a worker has claimed the execution and is about to call; an activation stopped before it was claimed is never called |
| `DynamicDispatch.RevokedWhileExecuting` | runtime/pdx_artifact_engine/dynamic_dispatch/service.py:821-835 | the run in which a revoked activation is recorded as not executed and then called |
| `DynamicDispatch.DeniedCallIsMade` | runtime/pdx_artifact_engine/dynamic_dispatch/service.py:821-835 | a reachable input: registration, activation, revocation and two workers end in a receipt that denies the call, and the call |
| `DynamicDispatch.FinishCommitsIff` | runtime/pdx_artifact_engine/dynamic_dispatch/service.py:1014-1197 | a finish on an open activation commits its receipt exactly when no executor failed unrun, edges are planned for the receipt and for the output of a completion, and, unless it completes or the parent has a receipt, the job id leaves room for the receipt id; otherwise nothing is written |
| `DynamicDispatch.NeverEndsIff` | runtime/pdx_artifact_engine/dynamic_dispatch/service.py:1118-1128 | an open activation stays without a receipt over every run exactly when the plan has no dispatch_receipt edge of its step |
| `DynamicDispatch.LoneDispatchNeverEnds` | runtime/pdx_artifact_engine/dynamic_dispatch/service.py:1118-1128 | a validated plan of one step has no such edge, so its dispatch never ends |
| `DynamicDispatch.ActiveStepsAre` | runtime/pdx_artifact_engine/dynamic_dispatch/service.py:659-1195 | over every run of claims and dispatches on one parent: active_steps is the active claims and the open dispatches less those a reset forgot, and none is forgotten while the parent has never ended |
| `DynamicDispatch.FinishAfterCancelUndercounts` | runtime/pdx_artifact_engine/dynamic_dispatch/service.py:1081-1195 | after a cancel or a failed budget, over every run of dispatch events, active_steps is the dispatches open less those open then, so it is negative exactly when more have finished than started since |
| `DynamicDispatch.CompletionLeavesParentRunning` | runtime/pdx_artifact_engine/dynamic_dispatch/service.py:1118-1195 | a parent that is over runs again, under the receipt it had, exactly when a completed dispatch whose receipt is not yet written finishes and the plan has its dispatch_receipt and dispatch_output edges |
| `DynamicDispatch.DispatchesNeverComplete` | runtime/pdx_artifact_engine/dynamic_dispatch/service.py:1148-1195 | no dispatch event completes a parent, whatever steps have succeeded |
| `DynamicDispatch.DispatchesLeaveRunning` | runtime/pdx_artifact_engine/dynamic_dispatch/service.py:1148-1195 | a reachable input: a plan of two dispatch steps ends with every step succeeded, running and without a receipt |
| `DynamicDispatch.MutualIsValid` | runtime/pdx_artifact_engine/runtime_workflows/semantics.py:8-109 | such a plan, with edges between the two, passes validate_plan |
| `DynamicDispatch.CancelledDispatchRunsAgain` | runtime/pdx_artifact_engine/dynamic_dispatch/service.py:1081-1195 | a reachable input: under that plan a parent cancelled during a dispatch runs again under its cancellation receipt with active_steps at -1 |
| `DispatchRequests.DispatchOpensIff` | runtime/pdx_artifact_engine/dynamic_dispatch/service.py:567-806 | in every reachable state an activation opens a dispatch exactly when its policy is in force at the revision named, its step is an ordinary dispatch, pending, with every dependency succeeded, and three budgets have room; the row and the parent's step and counters are all that is new |
| `DispatchRequests.RepeatedActivationIff` | runtime/pdx_artifact_engine/dynamic_dispatch/service.py:567-806 | in every reachable state, a second activation of a dispatched step under its key returns the row there is when its binding is the same, and is refused otherwise |
| `DispatchRequests.RevocationIff` | runtime/pdx_artifact_engine/dynamic_dispatch/service.py:250-324 | a revocation commits once, at the revision it names, and asks exactly the activations of the step in flight to stop |
| `DispatchRequests.BeginsIff` | runtime/pdx_artifact_engine/dynamic_dispatch/service.py:808-870 | in every reachable state a worker begins an activation exactly when none has; one asked to stop it ends without a call, and any other it leaves |
| `DispatchRequests.ExecutionReports` | runtime/pdx_artifact_engine/dynamic_dispatch/service.py:870-965 | whatever others do between its transactions, a worker that began an activation calls the executor once, or not at all if the tool is gone, and reports what the executor did, or that it was stopped if a stop had been asked for when it looked |
| `DispatchRequests.FinishWrites` | runtime/pdx_artifact_engine/dynamic_dispatch/service.py:1014-1197 | a finish that commits writes the worker's report as the receipt, ends the step with it, and stops the parent unless the tool completed |
| `DynamicDispatch.DispatchStore.RevokePolicy` | runtime/pdx_artifact_engine/dynamic_dispatch/service.py:250-320 | the tables after revoke_policy: the revision moves and every activation in flight is asked to stop |
| `DynamicDispatch.DispatchStore.ActivateStep` | runtime/pdx_artifact_engine/dynamic_dispatch/service.py:567-806 | the tables after activate, and every refusal in order |
| `DynamicDispatch.DispatchStore.BeginExecution` | runtime/pdx_artifact_engine/dynamic_dispatch/service.py:808-863 | the claiming transaction of execute_activation |
| `DynamicDispatch.DispatchStore.CallExecutor` | runtime/pdx_artifact_engine/dynamic_dispatch/service.py:881-909 | the executor call and what the worker is left with |
| `DynamicDispatch.DispatchStore.ReadCancellation` | runtime/pdx_artifact_engine/dynamic_dispatch/service.py:910-965 | the read of the cancellation request after the executor answered |
| `DynamicDispatch.DispatchStore.FindEdge` | runtime/pdx_artifact_engine/dynamic_dispatch/service.py:1124-1128 | the search for the planned edge of a step and role: it finds one exactly if there is one |
| `DynamicDispatch.DispatchStore.FinishActivation` | runtime/pdx_artifact_engine/dynamic_dispatch/service.py:1014-1255 | the tables after _finish_activation, or as before when its receipt, its edges or the parent's receipt are refused |

## Left out

- Transport, authentication headers, role and authority configuration: principals are parameters; the service compares them as the code does.
- JSON Schema checks, I-JSON limits, canonical bytes and signatures: values are well typed; only the schema bounds that a transition can break are modelled (receipt ids, listed error codes, counters, reports, the dispatch receipt's rules for its status, `uniqueItems` of `depends_on`, omission counts and lengths).
- SQLite, JSON text, content-addressed storage and artifact bytes: tables are maps and sequences with the declared uniqueness; reads of stored artifacts are taken to succeed.
- Provider profile registration and the idempotency keys of `register`: a registered profile is part of a subject; leaving the keys out allows more behaviours, not fewer.
- The dispatch policy, decision, tool and payload checks of `activate` and `submit`: one boolean parameter (`dispatch`) says whether they pass; for ordinary dispatch three (`Governance`), in the order of the code, say which does not.
- The result of a provider query: it arrives as an observation at any later time, or not at all.
- Idempotent creation of workflows, and the digests a plan must carry: a plan's digest is the plan.
- Conformance-binding contents: one boolean says that a validated binding came with an update.
- WorkflowPlan.ValidatePlan: does not model the checks on repair iterations, their parents and their budget, the dispatch runtime budget and the plan digest, which need plan fields that nothing else modelled reads.
- WorkflowPlan.BudgetFaults: does not model the dispatch runtime budget, for the same reason.
- The depth-first search of `parent_plan`: version 3 parents are given distinct steps and matching bindings only.
- Version 2 and 3 plans that mix ordinary dispatch with claims: in version 3 every dispatch step carries an external binding, and the counters of ordinary dispatch beside claims are treated only in `DynamicDispatch`.
- `parent_state`: a check on a projection that no transaction depends on.
- Recovery after a parent has ended goes on moving the live call counters past those of the frozen receipt; the receipt's own counters are not compared with them.
- The order of rows that a query returns is row order; a transaction reads the clock once, in whole milliseconds or seconds as its fields have them.
- Approval, shell and expert steps in `Dispatcher.run`, mock mode, artifact validation and verification items; `step_completed` checks on resume see only resumed steps and are excluded from the meaning that resuming preserves.
- Extraction kernel calls and `execute_next`; an operation created with ranges already in it starts at revision 0 and is outside the theorems, which are about operations created fresh.
- Runtime, argument and artifact bounds of ordinary dispatch, and its receipts in the parent's receipt.
- Staging deletions, result bytes and deadlines of jobs; several databases.
- PlanResume.ResumedOrderIsFiltered: closure under dependencies is sufficient for the resumed order to be the original one cut down, not necessary; `PlanResumeOrder.ResumeKeepsDependenciesIff` is the exact condition for the order to respect every dependency.
- PlanValidation.DuplicateErrors: states which errors are reported, not that they are sorted.
- DynamicDispatch.DispatchStore.FinishActivation: does not model the runtime seconds, artifact bytes, recorded edges and result digests that the same transaction writes; they are left out together with the bounds on them.
- Ordinary dispatch is modelled for version 2 parents, whose receipts the claims route stores unchecked and the dispatch route checks.
- ExtractionService.Terminate: what the tables of Unicode say of a reason with characters beyond ASCII is a parameter of the request.
