# Activation lifecycle and its neighbours, modelled in Dafny

This project models the parts of the growth-intelligence platform's HTTP API that carry a protocol, and proves what
those protocols keep. `dafny verify dfyconfig.toml` checks all of it.

**The activation operation lifecycle.** An operation row holds a status and an optimistic version; stage attempts,
evidence, reconciliation attempts, deliveries and acknowledgements are appended beside it. Each service call is a
transaction: it reads rows, checks a transition table and a policy, then issues statements that are guarded in the
database.

- `LifecycleStateMachine` and `RetryPolicy` are the tables and policies, `ActivationStore` the rows and guarded
  statements, `LifecycleCalls` the statement list every call issues from what it has read.
- `LifecycleService` is the service as it runs, a class over the tables whose methods issue those statements one by one
  and roll back on a refusal; each method is proved to have exactly the effect of its statement list, and the whole call
  to answer and write exactly what `CallResults` says.
- `LifecycleRuns` lets any number of callers interleave. Every read may be stale; a transaction's statements take effect
  together at commit, against the rows committed by then, or not at all. `StoreInvariants` says what every statement
  keeps.
- `CallEffects`, `CallResults` and `CallRefusals` say, from rows and input alone, which rows a commit of each call
  leaves, exactly when a call with current reads commits, what it makes possible next, and that every refusal is true.
- `LifecycleTheorems`, `ActivationEvidence`, `RetryReservations`, `LifecycleIsolation`, `AttemptNumbering` and `RowRaces`
  are the results over all runs; `LifecycleScenarios` holds runs that show what can happen.

**Around it.** `CommitGraph` and `BranchReconciliation` (fast-forward and merge of a work branch over a commit graph),
`GatewayRollout` and `GatewayEnvelope` (a claim-once deployment with rollback), `SectionLoader` (batched against
per-container loading), `ActAsUserPolicy` and `ActAsUserSessions`, `AgentHandoff`, `SecretScan` (a cyclic object graph),
`ActionRanking`, `EvidenceSanitizer` and `CanonicalForm`, `DeploymentObservations` and `DeploymentCorrelation`.
`Outcomes`, `Folds`, `StableOrder` and `TextRules` are shared vocabulary.

Where a call makes several requests to a shared store or provider, the class method takes, for each gap between two
requests, an arbitrary list of actions by others. A theorem about the method is then a theorem about every interleaving.

Some behaviour that the surroundings might not lead one to expect is stated as results, each with its exact condition.

- A stage start may name `active` as its target and so reach it without evidence (`DirectStartSkipsEvidence`);
  `ActivationIsEvidenced` and `ActiveIsProvenExactly` say exactly when an active operation is backed by evidence.
- Leaving `retry_scheduled` by a plain transition leaves the reserved attempt behind, and a later retry may run on it
  (`OldReservationStarts`), even when that attempt was set running while the start was under way
  (`OvertakenStartCommits`); `RetryRunsOnItsReservation` says exactly when every start runs on its own reservation.
- The batched section loader gives nothing to a container that lacks a scope value the section uses, while the
  per-container loader may give rows (`AgreementIsBinding`).
- When the answer to recording `executed` is lost, the gateway rolls back a deployment that stays on record as executed
  (`ExecutedYetRolledBack`). A failure between the claim and the upload leaves the envelope claimed for good, with no
  outcome ever recorded (`FormFailureKeepsTheClaim`).
- A revocation counts for a dispatch exactly if it comes before the dispatch's check (`CheckDecidesRevocation`).
- A new projection row defaults to the status `accepted`, which the transition table does not declare; `FinalIsForever`
  covers it.

## Model

| member | source | states |
|---|---|---|
| `LifecycleStateMachine.CheckIsTable` | http-generic-api/activationLifecycleStateMachine.js:215-262 | the layered checks accept a move exactly when the target is listed for the source, and a listed target is never the source itself, `retry_scheduled`, an overlay or `rolled_back` |
| `LifecycleStateMachine.EnteredFromPredecessors` | http-generic-api/activationLifecycleStateMachine.js:86-115 | a move passes the check exactly from the statuses listed for the status it enters, for each of the statuses |
| `LifecycleStateMachine.AttemptCheckIsTable` | http-generic-api/activationLifecycleStateMachine.js:127-147 | the attempt check is its table; no listed move returns to pending or leaves a terminal status |
| `LifecycleStateMachine.EdgeLowersRank` | http-generic-api/activationLifecycleStateMachine.js:86-115 | every edge except a governed retry and reconciling back to unknown strictly lowers the rank, so those two are the only ways to go round |
| `LifecycleStateMachine.EdgePrice` | http-generic-api/activationLifecycleStateMachine.js:86-115 | one status change is paid by its rank drop, a retry costs 13 and a reopened unknown outcome 2 |
| `RetryPolicy.AuthorizeRetry` | http-generic-api/activationRetryReconciliationPolicy.js:84-153 | a retry is authorized exactly from a stable retry state, with explicit approval, a non-empty reference and a target the table lists after `retry_scheduled` |
| `RetryPolicy.ResolveOutcome` | http-generic-api/activationRetryReconciliationPolicy.js:155-221 | a reconciliation resolves exactly for a declared outcome, with success evidence if it is executed; it becomes `active` exactly if executed, `failed` exactly if conflicting, `unknown_outcome` exactly if still unknown, `degraded` otherwise |
| `StoreInvariants.ApplyKeeps` | http-generic-api/activationOperationProjectionRepository.js:259-319 | a lawful statement keeps every row's shape and ownership, moves rows only forward, and touches only its own operation and tenant |
| `StoreInvariants.RepositoriesAgree` | http-generic-api/activationOperationPersistenceRepository.js:213-262 | the two repositories leave the same attempt row exactly when retry flag, error text and unknown flag fit the target status, and neither invents a value |
| `StoreInvariants.PlanLawful` | http-generic-api/activationLifecycleOperationService.js:295-705 | every statement any call issues, from whatever it read, is lawful for the call's operation and tenant |
| `StoreInvariants.ExecKeeps` | http-generic-api/activationLifecycleOperationService.js:165-185 | so does a whole transaction |
| `CallEffects.TransitionCommits` | http-generic-api/activationLifecycleOperationService.js:295-357 | a transition commits only on the row its caller expects, along a listed move, with storable evidence and success evidence to become active; it leaves exactly that status, stage, next version and evidence row |
| `CallEffects.RetryStartCommits` | http-generic-api/activationLifecycleOperationService.js:370-419 | a start from `retry_scheduled` commits only on a retry attempt of its own stage and one of the seven targets; it leaves that attempt running and the operation at target and stage |
| `CallEffects.OrdinaryStartCommits` | http-generic-api/activationLifecycleOperationService.js:421-469 | any other start that commits leaves one new running attempt with this stage, number and source, and the operation moved only if a target was named |
| `CallEffects.CompletionCommits` | http-generic-api/activationLifecycleOperationService.js:471-521 | a committed completion found a move the attempt table allows, or the attempt already there; it leaves the attempt at the asked status with the repository's own fields, and the evidence linked to it |
| `CallEffects.ScheduleCommits` | http-generic-api/activationLifecycleOperationService.js:523-586 | a committed scheduling call was approved from a stable retry state; it leaves exactly the reserved attempt, its approval and the operation in `retry_scheduled` |
| `CallEffects.BeginCommits` | http-generic-api/activationLifecycleOperationService.js:588-624 | a committed begin came from `unknown_outcome` or `retry_scheduled`; it leaves exactly one new pending reconciliation row and the operation in `reconciling` |
| `CallEffects.ReconcileCommits` | http-generic-api/activationLifecycleOperationService.js:626-705 | a committed completion found its reconciliation pending or already at this outcome; it leaves that outcome with its evidence and the operation at the status the outcome stands for |
| `CallResults.CommitHasEffect` | http-generic-api/activationLifecycleOperationService.js:295-705 | every commit of any of the ten calls, on reads of any age, leaves exactly the rows its input asks for and every other row as it was |
| `CallResults.RunStepsHaveEffect` | http-generic-api/activationLifecycleOperationService.js:165-185 | so does every commit of every run of interleaved callers |
| `CallResults.CommitsExactlyWhenOpen` | http-generic-api/activationLifecycleOperationService.js:295-705 | a call whose reads are current commits if and only if scope, version, status, evidence and keys of the rows are as its input needs |
| `CallResults.NextNumberIsFree` | http-generic-api/activationOperationPersistenceRepository.js:167-190 | the number after the greatest the query sees, over one tenant, is free under the key of the whole table |
| `CallResults.ReconciliationDecides` | http-generic-api/activationLifecycleOperationService.js:648-705 | in every commit: `active` exactly for executed, `failed` exactly for conflicting, `unknown_outcome` exactly for still unknown, `degraded` exactly for not executed or failed; the pending row holds that outcome and the evidence id |
| `CallResults.RetryKeepsItsStage` | http-generic-api/activationLifecycleOperationService.js:537-569 | the reserved attempt is for the stage key given, else for the text of each of the seven targets; the approval names that stage and number, the status left, the target and the reference |
| `CallResults.CompletionStores` | http-generic-api/activationLifecycleOperationService.js:488-519 | a completed attempt is at the status asked for and given evidence is stored, linked to it; the operation row is untouched |
| `CallResults.BeginOpensARow` | http-generic-api/activationLifecycleOperationService.js:596-622 | a begun reconciliation is new, pending, and has this operation, tenant, number, reason and source |
| `CallResults.BegunCanComplete` | http-generic-api/activationLifecycleOperationService.js:588-705 | after a begin, a completion naming its row commits exactly for a caller that sees the operation, with a declared outcome and fitting evidence |
| `CallResults.ScheduledCanStart` | http-generic-api/activationLifecycleOperationService.js:370-419 | after scheduling, a start on the reserved attempt commits exactly for the reserved stage, one of the seven targets and the new version |
| `CallResults.StartedCanComplete` | http-generic-api/activationLifecycleOperationService.js:358-521 | after any start, its attempt can be completed exactly to one of the five final statuses |
| `CallRefusals.RefusalsAreTrue` | http-generic-api/activationLifecycleOperationService.js:187-705 | whatever code a refused call answers, the condition it names holds of the rows it read or of its input |
| `LifecycleRuns.CommitKeeps` | http-generic-api/activationLifecycleOperationService.js:165-185 | a commit on possibly stale reads keeps all tables sound and is confined to its operation and tenant |
| `LifecycleRuns.RunSound` | http-generic-api/activationLifecycleOperationService.js:187-210 | in every state of every run the tables are sound and each open transaction's reads are past versions of the current rows |
| `LifecycleRuns.RunKept` | http-generic-api/activationOperationPersistenceRepository.js:213-279 | between any two states of a run rows persist: evidence unchanged, versions rising, attempts moving forward |
| `LifecycleRuns.CommitMoves` | http-generic-api/activationOperationProjectionRepository.js:259-319 | a commit leaves its operation alone or moves it one edge and one version from exactly the row it read |
| `LifecycleRuns.ScheduleRetryReserves` | http-generic-api/activationLifecycleOperationService.js:523-586 | a committed scheduling call adds its own pending attempt and an approval naming it, both new; `RetryKeepsItsStage` says for which stage |
| `LifecycleRuns.ActiveIsEvidenced` | http-generic-api/activationLifecycleOperationService.js:300-335 | a commit that makes an operation active, other than by a stage start, leaves success evidence of the same operation and tenant |
| `LifecycleRuns.RunApproves` | http-generic-api/activationLifecycleOperationService.js:240-269 | in every run, every pending attempt has an approval with a non-empty reference |
| `LifecycleTheorems.PathFollowsTable` | http-generic-api/activationLifecycleStateMachine.js:86-115 | under any interleaving the committed statuses of an operation form a path of table edges and governed retries |
| `LifecycleTheorems.VersionCountsChanges` | http-generic-api/activationOperationProjectionRepository.js:259-319 | over any stretch of any run the version rises by exactly the number of status changes |
| `LifecycleTheorems.FinalIsForever` | http-generic-api/activationLifecycleStateMachine.js:72-76 | `active`, `cancelled`, `rolled_back`, overlays and undeclared statuses are never left |
| `LifecycleTheorems.CreatedStaysInCore` | http-generic-api/activationLifecycleStateMachine.js:56-115 | an operation once `created` never holds an overlay, `rolled_back` or an undeclared status |
| `LifecycleTheorems.RankPaysForChanges` | http-generic-api/activationLifecycleStateMachine.js:86-115 | over any stretch of any run changes plus final rank are bounded by starting rank plus 13 per retry plus 2 per reopening |
| `LifecycleTheorems.CreatedChangesAreBounded` | http-generic-api/activationLifecycleOperationService.js:523-705 | from `created`, with R retries and C reopenings, at most 12 + 13R + 2C status changes |
| `LifecycleTheorems.NoBlindReplay` | http-generic-api/activationLifecycleStateMachine.js:102-114 | between an unknown outcome and any later execution there is a reconciliation and after it an entry into `retry_scheduled` |
| `LifecycleTheorems.RetryIsAuthorized` | http-generic-api/activationLifecycleOperationService.js:523-586 | every entry into `retry_scheduled` is the commit of an approved scheduling call, which made its own reserved attempt and its own approval naming it |
| `LifecycleTheorems.AuthorizationStays` | http-generic-api/activationLifecycleOperationService.js:240-269 | the approval never changes and the reserved attempt keeps its identity for the rest of the run |
| `LifecycleTheorems.AuthorizationsAreDistinct` | http-generic-api/activationLifecycleOperationService.js:523-586 | two retries, of any operations, never share an approval or a reserved attempt |
| `LifecycleTheorems.AttemptStartsOnce` | http-generic-api/activationLifecycleOperationService.js:370-412 | an attempt goes from pending to running at most once in a run |
| `RetryReservations.StartableIsWaiting` | http-generic-api/activationLifecycleOperationService.js:240-269 | from `retry_scheduled` a start whose reads are current succeeds on exactly the reserved attempts still waiting for the stage |
| `RetryReservations.OpenStartIsPoised` | http-generic-api/activationLifecycleOperationService.js:240-269 | a start under way, on reads of any age, can commit exactly if it read the operation row as it now is and its attempt while pending, and the attempt is pending or already running |
| `RetryReservations.CommittableIsWaitingOrOvertaken` | http-generic-api/activationOperationPersistenceRepository.js:255-279 | starts can take effect on exactly the attempts that wait and those set running while a start that read them pending was under way |
| `RetryReservations.PendingIsReserved` | http-generic-api/activationLifecycleOperationService.js:523-586 | every attempt pending for an operation was reserved by a scheduling call since the operation last had none |
| `RetryReservations.HeldIsReserved` | http-generic-api/activationLifecycleOperationService.js:240-269 | whatever an open transaction read as pending was reserved by a scheduling call since the operation last had nothing pending or held |
| `RetryReservations.RetryRunsOnItsReservation` | http-generic-api/activationLifecycleOperationService.js:370-412 | at every state of every run, every start of the stage that can take effect, on current or stale reads, runs on the attempt the latest scheduling reserved exactly if no earlier reservation of the stage is left over, pending or overtaken |
| `RetryReservations.CommittedStartIsItsOwn` | http-generic-api/activationLifecycleOperationService.js:370-412 | so a start that commits in a run with nothing left over runs on the attempt reserved last |
| `RetryReservations.OldReservationStarts` | http-generic-api/activationLifecycleOperationService.js:311-346 | a run from `created` in which a retry can still be started on an earlier reservation |
| `RetryReservations.OvertakenStartCommits` | http-generic-api/activationLifecycleOperationService.js:471-521 | an interleaved run in which no earlier reservation is pending any more and a start still commits on one |
| `LifecycleTheorems.ActiveIsProven` | http-generic-api/activationLifecycleOperationService.js:300-335 | the sufficient half as a caller meets it: from `created`, with no stage start naming `active` for it, an operation is active only with persisted success evidence of its own operation and tenant |
| `ActivationEvidence.CommitEvidence` | http-generic-api/activationLifecycleOperationService.js:212-219 | a commit leaves success evidence for an operation exactly if it was there or the committed call carried some for it |
| `ActivationEvidence.EvidenceHistory` | http-generic-api/activationLifecycleOperationService.js:212-219 | over any stretch of any run, success evidence at the end was there at the start or was supplied by a commit in between, and nothing else |
| `ActivationEvidence.ActivationIsEvidenced` | http-generic-api/activationLifecycleOperationService.js:300-335 | at every step of every run at which an operation becomes active, success evidence is there exactly if the step is no stage start naming `active`, or it was persisted before |
| `ActivationEvidence.ActiveIsProvenExactly` | http-generic-api/activationLifecycleOperationService.js:421-455 | at every later state an active operation is backed exactly if it became active otherwise than by such a start, or evidence was persisted before, or supplied since |
| `LifecycleScenarios.DirectStartSkipsEvidence` | http-generic-api/activationLifecycleOperationService.js:421-455 | a run from `created` to `active` through a stage start with no evidence row at all, for either repository |
| `LifecycleIsolation.CallIsIsolated` | http-generic-api/activationLifecycleOperationService.js:165-185 | a service call is all or nothing; done, it keeps all rows sound and changes only rows of its own operation and tenant |
| `LifecycleIsolation.CallIsARun` | http-generic-api/activationLifecycleOperationService.js:165-185 | the sequential service is one schedule of the interleaved system, so all run theorems apply to it |
| `LifecycleIsolation.CommitsAreIsolated` | http-generic-api/activationLifecycleOperationService.js:165-185 | in every run each commit touches only its own operation and tenant |
| `LifecycleIsolation.AttemptsKeepTheirShape` | http-generic-api/activationLifecycleOperationService.js:104-138 | in every run, with either repository, an attempt is completed exactly when terminal and flagged unknown exactly when its status is unknown |
| `LifecycleIsolation.TerminalAttemptsNeverChange` | http-generic-api/activationOperationPersistenceRepository.js:213-279 | in every run, with either repository, a terminal attempt row is the same row ever after |
| `AttemptNumbering.RunNumbered` | http-generic-api/activationOperationPersistenceRepository.js:132-190 | in every run each number above 1 in a slot has its predecessor in the slot, although the maximum may be read stale |
| `AttemptNumbering.NumbersAreExact` | http-generic-api/migrations/20260724_activation_operation_projection_foundation.sql:50-142 | stage numbers per operation, tenant and stage, reconciliation numbers per operation and delivery numbers per channel are exactly 1..n, no two rows sharing one |
| `RowRaces.MoveIsGuarded` | http-generic-api/activationOperationProjectionRepository.js:380-405 | an update that hits sets the target; update and read-back together accept a move exactly from its source or at its target |
| `RowRaces.AtMostOneUpdates` | http-generic-api/activationOperationProjectionRepository.js:380-405 | with every caller issuing its update and its read as separate queries in any order, and anybody else moving the row on legally, at most one of the racers updates it |
| `RowRaces.OneWinner` | http-generic-api/activationOperationProjectionRepository.js:620-792 | among the racers alone the first query wins and is the only change; every other answer is idempotent for the same target and a conflict for another, whenever its read is served |
| `RowRaces.TwoTurnsAnswer` | http-generic-api/activationOperationProjectionRepository.js:394-404 | two queries suffice for an answer |
| `LifecycleServiceModel.ActivationService.constructor` | http-generic-api/activationLifecycleOperationService.js:271-294 | a service over empty tables with the chosen repository |
| `LifecycleServiceModel.ActivationService.AppendStageAttempt` | http-generic-api/activationOperationProjectionRepository.js:407-438 | inserts the attempt unless its number is taken or its operation is missing |
| `LifecycleServiceModel.ActivationService.TransitionStageAttempt` | http-generic-api/activationOperationPersistenceRepository.js:213-279 | moves the scoped attempt from its source status, is idempotent at the target, conflicts otherwise, with the repository's own field rules |
| `LifecycleServiceModel.ActivationService.AppendEvidenceRow` | http-generic-api/activationOperationProjectionRepository.js:471-499 | appends evidence within the size limit, unless it duplicates a summary or its operation or attempt is missing |
| `LifecycleServiceModel.ActivationService.RequireSuccess` | http-generic-api/activationOperationPersistenceRepository.js:349-406 | passes exactly if success evidence is stored for this operation and tenant |
| `LifecycleServiceModel.ActivationService.AppendReconciliation` | http-generic-api/activationOperationProjectionRepository.js:587-618 | inserts the reconciliation row unless its number is taken |
| `LifecycleServiceModel.ActivationService.CompleteReconciliationRow` | http-generic-api/activationOperationProjectionRepository.js:742-792 | completes a pending reconciliation, idempotent at the same outcome, conflict at another |
| `LifecycleServiceModel.ActivationService.UpdateOperationRow` | http-generic-api/activationOperationProjectionRepository.js:259-319 | moves the operation and raises its version only at the expected version and in the subject's scope |
| `LifecycleServiceModel.ActivationService.NextStageAttemptNumber` | http-generic-api/activationOperationPersistenceRepository.js:167-190 | the number after the greatest in the operation, tenant and stage |
| `LifecycleServiceModel.ActivationService.NextReconciliationAttemptNumber` | http-generic-api/activationOperationPersistenceRepository.js:281-302 | the number after the greatest of the operation |
| `LifecycleServiceModel.ActivationService.TransitionOperationBody` | http-generic-api/activationLifecycleOperationService.js:295-357 | issuing evidence, read-back and move one by one has exactly the effect of the call's statement list, whose rows `TransitionCommits` gives |
| `LifecycleServiceModel.ActivationService.StartReserved` | http-generic-api/activationLifecycleOperationService.js:370-419 | starting a reserved retry attempt has exactly the effect of its statement list, whose rows `RetryStartCommits` gives |
| `LifecycleServiceModel.ActivationService.StartNew` | http-generic-api/activationLifecycleOperationService.js:421-469 | starting a new attempt has exactly the effect of its statement list, whose rows `OrdinaryStartCommits` gives |
| `LifecycleServiceModel.ActivationService.CompleteStageAttemptBody` | http-generic-api/activationLifecycleOperationService.js:471-521 | completing an attempt has exactly the effect of its statement list, whose rows `CompletionCommits` gives |
| `LifecycleServiceModel.ActivationService.ScheduleRetryBody` | http-generic-api/activationLifecycleOperationService.js:523-586 | scheduling a retry has exactly the effect of its statement list, whose rows `ScheduleCommits` gives |
| `LifecycleServiceModel.ActivationService.BeginReconciliationBody` | http-generic-api/activationLifecycleOperationService.js:588-624 | beginning a reconciliation has exactly the effect of its statement list, whose rows `BeginCommits` gives |
| `LifecycleServiceModel.ActivationService.CompleteReconciliationBody` | http-generic-api/activationLifecycleOperationService.js:626-705 | completing a reconciliation has exactly the effect of its statement list, whose rows `ReconcileCommits` gives |
| `LifecycleServiceModel.ActivationService.Execute` | http-generic-api/activationLifecycleOperationService.js:165-185 | on sound tables each of the six calls is done exactly when rows and input allow it, and then with exactly its rows and the operation's new status and version; otherwise it names a condition that holds and every table is as it was |
| `LifecycleServiceModel.DeliveredIsServed` | http-generic-api/activationDeliveryAcknowledgementRepository.js:206-343 | the delivery and acknowledgement calls likewise: done exactly when rows and input allow it, with exactly their rows, and otherwise a true refusal and no change |
| `LifecycleServiceModel.ActivationService.NextDeliveryAttemptNumber` | http-generic-api/activationDeliveryAcknowledgementRepository.js:141-160 | the number after the greatest of the channel |
| `LifecycleServiceModel.ActivationService.PrepareDelivery` | http-generic-api/activationDeliveryAcknowledgementRepository.js:333-343 | appends a prepared delivery under the next number of its channel, or changes nothing |
| `LifecycleServiceModel.ActivationService.TransitionDelivery` | http-generic-api/activationOperationProjectionRepository.js:620-684 | refuses a move off the table or a response status outside 100..599, moves a scoped delivery with its report, is idempotent at the target, conflicts otherwise |
| `LifecycleServiceModel.ActivationService.RequestAcknowledgement` | http-generic-api/activationDeliveryAcknowledgementRepository.js:206-234 | appends a pending, stamped acknowledgement for a delivery of the same operation and tenant, or changes nothing |
| `LifecycleServiceModel.ActivationService.TransitionAcknowledgement` | http-generic-api/activationOperationProjectionRepository.js:686-740 | moves a scoped acknowledgement by its table, idempotent at the target, conflict otherwise |
| `CommitGraph.PushExtends` | http-generic-api/adminBranchReconciliationAdapter.js:298-306 | a non-forced update keeps everything either ref reached |
| `CommitGraph.NothingLeavesTheBranch` | http-generic-api/adminBranchReconciliationAdapter.js:282-346 | in every run of pushes by anyone, what the work branch reached at one moment it reaches at every later one |
| `BranchReconciliation.ClassificationIsAncestry` | http-generic-api/adminBranchReconciliationAdapter.js:96-121 | each classification says exactly which head was an ancestor of which when the forward comparison was served |
| `BranchReconciliation.OverlapDecides` | http-generic-api/adminBranchReconciliationAdapter.js:96-121 | a divergence is one of the same files exactly when some file changed on both sides |
| `BranchReconciliation.ValidateMergeResolution` | http-generic-api/adminBranchReconciliationAdapter.js:435-476 | each of the seven reasons is collected exactly when it applies, and none exactly for a commit on the sole expected base that changes exactly the branch's files, within the limit |
| `BranchReconciliation.SoleParentIsAhead` | http-generic-api/adminBranchReconciliationAdapter.js:457-460 | a commit whose only parent is the base is one ahead and none behind, so those two checks follow from the parent check |
| `BranchReconciliation.Provider.constructor` | http-generic-api/adminBranchReconciliationAdapter.js:192-213 | a provider holding the given repository |
| `BranchReconciliation.Provider.UpdateBranch` | http-generic-api/adminBranchReconciliationAdapter.js:298-306 | moves the branch exactly when the move is a fast-forward |
| `BranchReconciliation.Provider.CreateCommit` | http-generic-api/adminBranchReconciliationAdapter.js:557-570 | adds the commit when its parents exist, touching no ref |
| `BranchReconciliation.Watch` | http-generic-api/adminBranchReconciliationAdapter.js:231-243 | each request sees its own moment of a repository that only grows |
| `BranchReconciliation.LoadEvidence` | http-generic-api/adminBranchReconciliationAdapter.js:231-243 | two refs read in parallel and then two comparisons in parallel, in any order of service; undisturbed they agree with the repository |
| `BranchReconciliation.CheckFastForward` | http-generic-api/adminBranchReconciliationAdapter.js:282-297 | undisturbed, stale heads and a branch that is not behind only are told apart, and nothing else is refused |
| `BranchReconciliation.FastForwardToBase` | http-generic-api/adminBranchReconciliationAdapter.js:282-346 | whatever others push nothing is lost; success means equal heads containing the expected base at readback; undisturbed it succeeds exactly on fresh evidence for a branch that is behind only, and otherwise writes nothing |
| `BranchReconciliation.FetchResolution` | http-generic-api/adminBranchReconciliationAdapter.js:521-547 | returns the tree of a resolution commit on the expected base; undisturbed, exactly when it validates |
| `BranchReconciliation.PrepareMerge` | http-generic-api/adminBranchReconciliationAdapter.js:478-555 | nothing is written before all checks pass; undisturbed they pass exactly for a mergeable request |
| `BranchReconciliation.WriteMerge` | http-generic-api/adminBranchReconciliationAdapter.js:557-579 | a reported write put the new merge commit into the branch's ancestry |
| `BranchReconciliation.ReadBackMerge` | http-generic-api/adminBranchReconciliationAdapter.js:581-596 | with ref, commit and evidence read in any order: passing means ahead only with nothing behind at the comparison, containing the expected merge commit |
| `BranchReconciliation.MergeCommitCreate` | http-generic-api/adminBranchReconciliationAdapter.js:478-655 | whatever others push nothing is lost; success means ahead only at readback with a merge of exactly the two expected heads and the resolution's tree; undisturbed it succeeds exactly on a mergeable request and adds exactly that commit, and a refusal is true and writes nothing |
| `GatewayRollout.TraceAccounted` | http-generic-api/activationGatewayRolloutToolProduction.js:573-730 | wherever a run stands, its requests account for it: what passed, whether writes started, whether rollback was tried |
| `GatewayRollout.RunsInOrder` | http-generic-api/activationGatewayRolloutToolProduction.js:573-730 | every run takes the twelve steps in order as far as it gets, and ends after all of them, after the claim or form, after a refused upload and both failure records, or after a later step, rollback and both records |
| `GatewayRollout.GoesOnExactly` | http-generic-api/activationGatewayRolloutToolProduction.js:621-679 | a run goes on after exactly the acceptable answers: writes and records must succeed, provider reads and the audit must answer, the health probe need not, and the last readback must find all four good |
| `GatewayRollout.RollbackBeforeError` | http-generic-api/activationGatewayRolloutToolProduction.js:706-729 | in a run that ended in an error rollback was tried exactly if the upload had been accepted, and after it |
| `GatewayRollout.ExecutedAfterReadbacks` | http-generic-api/activationGatewayRolloutToolProduction.js:652-679 | recording `executed` is asked for only after the claim, every write and the deployment, subdomain, health and ready readbacks passed |
| `GatewayRollout.LostUploadIsNotRolledBack` | http-generic-api/activationGatewayRolloutToolProduction.js:622-625 | a run whose upload answer is lost ends without a rollback, so acceptance must have been answered |
| `GatewayRollout.FormFailureEndsTheRun` | http-generic-api/activationGatewayRolloutToolProduction.js:608-621 | a run whose upload form could not be built has made its claim, nothing else, and no recovery |
| `GatewayEnvelope.OneRunUploads` | http-generic-api/activationGatewayRolloutToolProduction.js:495-508 | of any number of concurrent runs on one envelope at most one reaches the upload |
| `GatewayEnvelope.NeverClaimableAgain` | http-generic-api/activationGatewayRolloutToolProduction.js:495-524 | an envelope that is not claimable stays so |
| `GatewayEnvelope.ClaimIsForGood` | http-generic-api/activationGatewayRolloutToolProduction.js:495-508 | after a successful claim the envelope is never claimable |
| `GatewayEnvelope.EnvelopeAnswers` | http-generic-api/activationGatewayRolloutToolProduction.js:495-524 | an answered claim took the envelope exactly if it was free, an answered record exactly if the run still held it, each leaving exactly its status and reference |
| `GatewayEnvelope.OutcomesStayRecorded` | http-generic-api/activationGatewayRolloutToolProduction.js:510-524 | in every interleaving an outcome a run was told is recorded is on the envelope, with its reference, ever after |
| `GatewayEnvelope.FormFailureKeepsTheClaim` | http-generic-api/activationGatewayRolloutToolProduction.js:608-621 | once the claiming run has failed to build its form, in every later state the envelope carries its reference and neither success nor failure is recorded |
| `GatewayEnvelope.ExecutedIsVerified` | http-generic-api/activationGatewayRolloutToolProduction.js:510-524 | an envelope becomes `executed` only if some run passed all its writes and readbacks |
| `GatewayEnvelope.ExecutedStays` | http-generic-api/activationGatewayRolloutToolProduction.js:510-524 | an executed envelope never changes again |
| `GatewayEnvelope.ExecutedYetRolledBack` | http-generic-api/activationGatewayRolloutToolProduction.js:673-729 | an executed envelope stands beside a tried rollback exactly when the answer to the recording that took effect was lost and its run went on |
| `GatewayEnvelope.LostRecordingRollsBack` | http-generic-api/activationGatewayRolloutToolProduction.js:706-729 | a run that ends in an error after a tried rollback while the envelope is on record as executed |
| `GatewayEnvelope.DeployRun.constructor` | http-generic-api/activationGatewayRolloutToolProduction.js:608-619 | a run that has made no request yet |
| `GatewayEnvelope.DeployRun.Ask` | http-generic-api/activationGatewayRolloutToolProduction.js:495-524 | one request; the envelope changes only by its guarded update, and `Ok` means that update took effect |
| `GatewayEnvelope.DeployRun.Write` | http-generic-api/activationGatewayRolloutToolProduction.js:621-650 | upload, secrets and subdomain in order, stopping at the first failure with the right recovery due |
| `GatewayEnvelope.DeployRun.ReadBack` | http-generic-api/activationGatewayRolloutToolProduction.js:652-671 | succeeds exactly into the audit, otherwise a rollback is due |
| `GatewayEnvelope.DeployRun.Record` | http-generic-api/activationGatewayRolloutToolProduction.js:673-679 | after a passed readback the run ends in success or a rollback is due |
| `GatewayEnvelope.DeployRun.Recover` | http-generic-api/activationGatewayRolloutToolProduction.js:706-728 | recovery always runs to the error, with the rollback first when writes started |
| `GatewayEnvelope.DeployRun.DarkDeploy` | http-generic-api/activationGatewayRolloutToolProduction.js:573-730 | against any rivals and replies: success means every write and readback passed; a blocked replay or a failed form ends it before any provider call; the caller is told of a rollback exactly when the upload was accepted and the run failed; with good answers and no rivals it succeeds exactly on a free envelope |
| `SecretScan.SweptMeansClean` | http-generic-api/actAsUserDurableRepositories.js:30-39 | a set of nodes closed under children and free of forbidden keys holds no reachable secret |
| `SecretScan.Scan.Contains` | http-generic-api/actAsUserDurableRepositories.js:30-39 | with a shared visited set: a hit is real, a miss leaves everything visited swept except nodes still open; the unseen nodes shrink |
| `SecretScan.ContainsForbiddenSecret` | http-generic-api/actAsUserDurableRepositories.js:30-39 | true exactly when a forbidden key is reachable from the root, on any graph with sharing and cycles |
| `SectionLoader.RowLimit` | http-generic-api/activationDynamicTabsEvidence.js:374-374 | the configured limit within 1 and 100, clamped outside, 25 when none is configured |
| `SectionLoader.BatchLimit` | http-generic-api/activationDynamicTabsEvidence.js:479-479 | the row limit once per container, at most 5000 |
| `SectionLoader.SameProjection` | http-generic-api/activationDynamicTabsEvidence.js:492-498 | removing the extra scope columns after the fact shows a row exactly as the per-container query does |
| `SectionLoader.LoadSectionRowsBatch` | http-generic-api/activationDynamicTabsEvidence.js:418-522 | the map returned answers every container key, with a prefix of what the per-container loader returns for the last container of the key, and with exactly that when its scopes are bound and nothing was cut off |
| `SectionLoader.HandedOutAnswers` | http-generic-api/activationDynamicTabsEvidence.js:488-512 | every container key is answered, with the rows of the last container carrying it |
| `SectionLoader.BatchAgreesWithContainer` | http-generic-api/activationDynamicTabsEvidence.js:331-522 | for every subject the batched rows are a prefix of the per-container rows, and equal when every used scope is bound and the batch was not cut off |
| `SectionLoader.WhereIsBelonging` | http-generic-api/activationDynamicTabsEvidence.js:331-372 | a row passes exactly if it has the container's tenant, or the subject's when the container names none, the subject's user, and the container's other scopes; only an administrator may lack tenant, user or brand |
| `SectionLoader.ContainerRowsBelong` | http-generic-api/activationDynamicTabsEvidence.js:331-396 | every row shown is such a row of the table, with exactly its safe and not sensitive columns, unchanged |
| `SectionLoader.BatchRowsBelong` | http-generic-api/activationDynamicTabsEvidence.js:418-522 | so is every row the batch hands to a container |
| `SectionLoader.ContainerRowsComplete` | http-generic-api/activationDynamicTabsEvidence.js:374-396 | and only rows beyond the limit are left out, in table order |
| `SectionLoader.BatchAsksExactly` | http-generic-api/activationDynamicTabsEvidence.js:418-486 | the one batch query asks exactly for rows each of whose scope cells belongs to some container, and the user's |
| `SectionLoader.FilterIsDemands` | http-generic-api/activationDynamicTabsEvidence.js:331-372 | the per-container filter is a list of column demands, unless a subject who is no administrator lacks tenant, user or brand |
| `SectionLoader.NothingPasses` | http-generic-api/activationDynamicTabsEvidence.js:315-372 | no row passes exactly when the filter is denied or two demands on one column have no value in common |
| `SectionLoader.OwnColumnsNeverClash` | http-generic-api/activationDynamicTabsEvidence.js:348-372 | scopes in columns of their own never clash |
| `SectionLoader.AgreementIsBinding` | http-generic-api/activationDynamicTabsEvidence.js:398-416 | the loaders agree on every table that is not cut off exactly when every used scope is bound, or the filter is denied, or its demands clash |
| `ActionRanking.EvaluateAction` | http-generic-api/actionRegistryAuthorityResolver.js:80-134 | the reasons pushed are exactly those that apply, and the score is that of the declarative evaluation |
| `ActionRanking.ReasonsAre` | http-generic-api/actionRegistryAuthorityResolver.js:80-121 | each reason is given exactly when its condition on the row's columns and the request's arguments holds |
| `ActionRanking.ReasonsInOrder` | http-generic-api/actionRegistryAuthorityResolver.js:80-121 | reasons stand in the order of the checks, each at most once |
| `ActionRanking.AllowedMeans` | http-generic-api/actionRegistryAuthorityResolver.js:80-134 | an action is allowed exactly when status, callability, admin flag, keys, optional fields, plugin state and all four allow-lists admit the request |
| `ActionRanking.ScoreAddsUp` | http-generic-api/actionRegistryAuthorityResolver.js:51-134 | the score is the sum of the eight weights of what matches, and 20 more if allowed or 200 less if not |
| `ActionRanking.ActionScore` | http-generic-api/actionRegistryAuthorityResolver.js:51-63 | the accumulated score is the sum of the matched fields |
| `ActionRanking.AllowedOutscoresDenied` | http-generic-api/actionRegistryAuthorityResolver.js:51-134 | every allowed action scores at least 35 above every denied one for the same request |
| `ActionRanking.CandidatesAreBest` | http-generic-api/actionRegistryAuthorityResolver.js:349-353 | the answer is the head, up to the limit, of the stable order by descending score of the allowed, or of all, candidates |
| `ActionRanking.DeniedNeverDisplaceAllowed` | http-generic-api/actionRegistryAuthorityResolver.js:349-353 | with any limit, the allowed candidates returned together with denied ones are exactly, in order, those returned without |
| `StableOrder.OnlyStableSort` | http-generic-api/actionRegistryAuthorityResolver.js:349-353 | any stable sort of a sequence is the one used here, so results do not depend on the algorithm |
| `ActAsUserPolicy.Intersection` | http-generic-api/actAsUserExecutionPolicy.js:29-33 | exactly the non-empty entries common to all lists |
| `ActAsUserPolicy.RolesAreRanked` | http-generic-api/actAsUserExecutionPolicy.js:1-9 | seven roles are ranked, in this order and with owner and tenant responsible equal; no other role is |
| `ActAsUserPolicy.ResolveIsEntitlement` | http-generic-api/actAsUserExecutionPolicy.js:49-143 | a context is resolved exactly for a strictly lower-ranked target in the same tenant under a live delegation of less than 901 seconds with the operation in all six lists, and carries that scope and expiry |
| `ActAsUserPolicy.RefusalsAreTrue` | http-generic-api/actAsUserExecutionPolicy.js:49-143 | a refused request is told something true of it, for each of the fourteen codes |
| `ActAsUserSessions.PerformKeeps` | http-generic-api/actAsUserDurableRepositories.js:114-191 | each store effect keeps every session justified, its scope fixed, revocation final, and idempotency keys unique |
| `ActAsUserSessions.RunKeeps` | http-generic-api/actAsUserDurableRepositories.js:114-191 | so does every run of effects |
| `ActAsUserSessions.KeysAgree` | http-generic-api/actAsUserDurableRepositories.js:114-131 | the idempotency key covers exactly tenant, both parties, operation, tool and the client's key |
| `ActAsUserSessions.DispatchIsEntitled` | http-generic-api/actAsUserRuntimeAdapter.js:96-106 | in every run a dispatch goes through only if an entitled request made the session for that operation and tool less than 901 seconds before its expiry, and it was active and unexpired when checked |
| `ActAsUserSessions.RevokedIsRefused` | http-generic-api/actAsUserDurableRepositories.js:193-205 | once a session is revoked no dispatch that checks later goes through |
| `ActAsUserSessions.CheckDecidesRevocation` | http-generic-api/actAsUserRuntimeAdapter.js:96-106 | a dispatch within its session's scope and time goes through exactly if its check came before the revocation |
| `ActAsUserSessions.DispatchRefusals` | http-generic-api/actAsUserRuntimeAdapter.js:96-106 | a refused dispatch is told something true of the moment it read |
| `ActAsUserSessions.AdmitMode` | http-generic-api/actAsUserRuntimeAdapter.js:15-66 | an adapter opens exactly when it is not both live and shadow and, if live, holds approved, attested, matching and unexpired promotion evidence |
| `ActAsUserSessions.Adapter.constructor` | http-generic-api/actAsUserRuntimeAdapter.js:44-72 | an admitted adapter over a justified store |
| `ActAsUserSessions.Adapter.CreateSession` | http-generic-api/actAsUserRuntimeAdapter.js:74-94 | whatever others do: a receipt names the only session of its key, of exactly the resolved context or made before under the same key, only for an entitled request without secrets in an enabled mode; a new session is stored active under version 1, anything else changes nothing; undisturbed it succeeds exactly then |
| `ActAsUserSessions.Adapter.AuthorizeDispatch` | http-generic-api/actAsUserRuntimeAdapter.js:96-106 | whatever others do between its reads: success is covered as above, and a session revoked before the call is refused; undisturbed it succeeds exactly on an active, unexpired session of that operation and tool |
| `ActAsUserSessions.Adapter.RevokeSession` | http-generic-api/actAsUserRuntimeAdapter.js:108-112 | revokes exactly an active session at the expected version, under the next version, and otherwise changes nothing |
| `AgentHandoff.AssessState` | http-generic-api/agentGovernanceRuntime.js:551-557 | no reason exactly for a present handoff that is neither revoked, nor lapsed, nor a consumed one-time one; each reason given is true |
| `AgentHandoff.AssessAccess` | http-generic-api/agentGovernanceRuntime.js:559-570 | no reason exactly when tenant, agent and action each fit or are left open; each reason given is true |
| `AgentHandoff.ActiveIsConsumable` | http-generic-api/agentGovernanceRuntime.js:627-633 | a handoff reads as active exactly when a consumption at that moment would take effect |
| `AgentHandoff.ConsumedAtMostOnce` | http-generic-api/agentGovernanceRuntime.js:627-640 | in every run a one-time handoff is consumed at most once |
| `AgentHandoff.NeverAfterRevocationOrExpiry` | http-generic-api/agentGovernanceRuntime.js:627-652 | nothing is consumed after a revocation or from the expiry on |
| `AgentHandoff.AccessStillHolds` | http-generic-api/agentGovernanceRuntime.js:627-640 | a caller who read earlier and whose update took effect still had access to an active handoff at the update |
| `AgentHandoff.AccessNeverChanges` | http-generic-api/agentGovernanceRuntime.js:559-570 | the access decision is the same for every caller at every moment of a run |
| `AgentHandoff.HandoffRegistry.constructor` | http-generic-api/agentGovernanceRuntime.js:595-598 | a registry with an empty access log |
| `AgentHandoff.HandoffRegistry.Read` | http-generic-api/agentGovernanceRuntime.js:612-625 | answers state before access, and logs the read |
| `AgentHandoff.HandoffRegistry.ConsumeFor` | http-generic-api/agentGovernanceRuntime.js:627-640 | whatever others do in between: success exactly if the read allowed it and the handoff was still active, and then the caller had access at the update; the answer and every access are logged as they were |
| `AgentHandoff.HandoffRegistry.RevokeFor` | http-generic-api/agentGovernanceRuntime.js:642-652 | the target or source agent leaves it revoked for good, by whom and when unless it was revoked already; a refusal changes nothing, and either is logged |
| `EvidenceSanitizer.SanitizeActivationEvidence` | http-generic-api/activationOperationProjectionRepository.js:97-114 | the recursive loops compute the declarative sanitiser |
| `EvidenceSanitizer.SanitizedIsClean` | http-generic-api/activationOperationProjectionRepository.js:97-114 | no secret key at any depth |
| `EvidenceSanitizer.SanitizeTwice` | http-generic-api/activationOperationProjectionRepository.js:97-114 | sanitising again changes nothing, for any limits |
| `EvidenceSanitizer.HarmlessPasses` | http-generic-api/activationOperationProjectionRepository.js:97-114 | a value within the limits and without a secret key is kept as it is, at every depth |
| `EvidenceSanitizer.ScalarsAreCut` | http-generic-api/activationOperationProjectionRepository.js:97-114 | text is cut to its first characters, undefined becomes null, other scalars stay, and what stands too deep becomes the marker |
| `EvidenceSanitizer.ItemsAreFirst` | http-generic-api/activationOperationProjectionRepository.js:97-114 | a list keeps its first elements, as many as the limit allows, each sanitised on its own |
| `EvidenceSanitizer.EntriesAreTheRest` | http-generic-api/activationOperationProjectionRepository.js:97-114 | an object keeps exactly its entries without a secret key, in order, each value sanitised on its own |
| `EvidenceSanitizer.CanonicalOnlySorts` | http-generic-api/activationOperationProjectionRepository.js:75-114 | canonicalising sanitised evidence only sorts keys and writes non-finite numbers as null; no limit takes effect |
| `CanonicalForm.SortedNamesMeaning` | http-generic-api/activationOperationProjectionRepository.js:75-91 | two values have the same sorted form exactly when they write out the same value up to key order |
| `CanonicalForm.TextOrderMeans` | http-generic-api/activationOperationProjectionRepository.js:75-91 | keys are ordered by the first code unit that differs, a prefix first |
| `CanonicalForm.SanitizedMeaning` | http-generic-api/activationOperationProjectionRepository.js:97-114 | sanitising does to the meaning what the order-free sanitiser does |
| `CanonicalForm.SerializedNamesSanitizedValue` | http-generic-api/activationOperationProjectionRepository.js:440-469 | two inputs serialise, and so hash, alike exactly when they sanitise to the same value, keys in any order, where undefined and non-finite numbers are the null they are written as |
| `CanonicalForm.RecordIsFaithful` | http-generic-api/activationOperationProjectionRepository.js:440-469 | a built record holds no secret key, its hashed form means what its summary means, it is within the byte limit, and building from its summary gives the same record |
| `CanonicalForm.RecordIsExact` | http-generic-api/activationOperationProjectionRepository.js:440-469 | a record is refused exactly over 32768 bytes, is a mere reference exactly when a source is named and nothing is left to show, and keeps harmless evidence unchanged |
| `TextRules.TrimmedStays` | http-generic-api/activationDeploymentObservationService.js:26-60 | trimming and lower-casing twice is doing it once, with every blank ECMAScript trims |
| `TextRules.TrimCuts` | http-generic-api/activationDeploymentObservationService.js:26-37 | trimming removes blanks from both ends and nothing else |
| `DeploymentObservations.CollectMissing` | http-generic-api/activationDeploymentObservationService.js:259-265 | each of the four kinds is reported missing exactly when it is, and nothing exactly with an expected commit, a deployed release, observed health and an observed, versioned contract |
| `DeploymentObservations.StandardMeans` | http-generic-api/activationDeploymentObservationService.js:26-97 | what each field normaliser accepts, and as what |
| `DeploymentObservations.BuildIs` | http-generic-api/activationDeploymentObservationService.js:229-296 | an input is accepted as a payload exactly when each field says what its own input field says, nothing is later than the observation, and it is within 32768 bytes |
| `DeploymentObservations.StandardIsSettled` | http-generic-api/activationDeploymentObservationService.js:26-97 | every field normaliser returns what it accepted unchanged |
| `DeploymentObservations.SettledBuildsAgain` | http-generic-api/activationDeploymentObservationService.js:229-296 | with any settled normalisers building twice gives what building once gives |
| `DeploymentObservations.BuildsAgain` | http-generic-api/activationDeploymentObservationService.js:229-296 | building an already built observation gives the same payload |
| `DeploymentObservations.SomeRulesRoundTrip` | http-generic-api/activationDeploymentObservationService.js:62-70 | instants of the whole date range can be written and read back, so the hypothesis is met |
| `DeploymentObservations.SomeObservationBuilds` | http-generic-api/activationDeploymentObservationService.js:229-296 | and an observation is built under such rules |
| `DeploymentCorrelation.CodeUnitOrderIsTotal` | http-generic-api/activationDeploymentObservationService.js:324-329 | an order on ids as the selection needs it exists |
| `DeploymentCorrelation.CorrelatedIsGreatest` | http-generic-api/activationDeploymentObservationService.js:324-375 | the selected observation is the greatest by time then id of the environment not after the request, and nothing is selected exactly when there is none |
| `DeploymentCorrelation.IgnoredAreLater` | http-generic-api/activationDeploymentObservationService.js:331-375 | the ignored count is of the environment's observations later than the request |
| `DeploymentCorrelation.CorrelatesExactly` | http-generic-api/activationDeploymentObservationService.js:312-375 | correlation is refused exactly for more than 256 observations or one that cannot be built |
| `DeploymentCorrelation.SelectionIsHistorical` | http-generic-api/activationDeploymentObservationService.js:331-375 | with distinct ids the selection does not depend on list order, later observations or other environments |
| `DeploymentCorrelation.StoredCorrelatesAlike` | http-generic-api/activationDeploymentObservationService.js:312-322 | correlating stored observations is correlating the originals |
| `DeploymentCorrelation.ClassificationIsHistorical` | http-generic-api/activationDeploymentProjectionService.js:257-421 | nor does the classification, within the list limit |
| `DeploymentCorrelation.StatesMean` | http-generic-api/activationDeploymentProjectionService.js:257-421 | deploying, stale and diverged each hold exactly under their evidence; unknown only without usable evidence, a match or passing health |
| `DeploymentCorrelation.MatchMeans` | http-generic-api/activationDeploymentProjectionService.js:185-194 | two known commit hashes decide a match alone; otherwise two equal release ids do |
| `DeploymentCorrelation.ReasonsMean` | http-generic-api/activationDeploymentProjectionService.js:257-421 | each of the twelve reasons is given on exactly one kind of evidence, and decides the state |
| `DeploymentCorrelation.CurrentMeans` | http-generic-api/activationDeploymentProjectionService.js:185-421 | a deployment is current exactly on a fresh greatest observation with passing contract and health for matching releases and no contrary evidence |

## Left out

- SQL text, connection handling and MySQL's isolation levels: reads may be stale, guarded statements and unique keys are atomic at commit.
- SHA-256 and UUID generation: hashed content stands for its hash, and fresh identifiers are inputs.
- Regular expressions for secret keys, UUIDs and references: predicates passed in. Lower-casing covers the characters whose lower case is an ASCII letter, which is all a key or hash can contain.
- Length limits and syntax checks on caller text before a lifecycle call opens its transaction.
- Unknown lifecycle statuses are refused by the model through one `Undeclared` case.
- INT overflow of attempt numbers and versions.
- Evidence bytes in the lifecycle tables are an input; `CanonicalForm` says what is measured.
- Enumeration of integer-like object keys before other keys, and the special `__proto__` key, in the sanitiser.
- `SectionLoader` compares text exactly and takes the scan order of both queries to be the same; a failed query is not modelled.
- `BranchReconciliation` does not model transport failures, which only end a call early. Branch-name rules and leases are inputs.
- `GatewayEnvelope` models that a rollback is tried, not which of its two forms the provider carries out; plan building, envelope checks before the claim, and the provider's own state are not part of it.
- `ActAsUserSessions` does not model failing audit writes, readback records or the in-memory shadow repositories, and takes the verdict of the secret scan as an input; the request hash is always empty on this path, so a replay under the same key finds the older session.
- `AgentHandoff` uses one clock for the application and the database, and does not model handoff creation.
- `DeploymentCorrelation` takes the normalised context evidence and freshness window as inputs, and any total order for locale comparison of ids.
- `DeploymentObservations` takes as given that every instant of the date range is read back as written, as ISO-8601 text is.
- LifecycleServiceModel.ActivationService.RequestAcknowledgement: the acknowledgement key, derived in the source from actor and event when the caller gives none, and the free-text reason are not modelled.
- CallRefusals.RefusalsAreTrue: says that the code answered names a condition that holds, not that it is the first of several that hold.
- ActAsUserPolicy.RefusalsAreTrue: likewise does not say which of several true codes comes first.
- Finite decision tables (access decisions, reconnect guidance, status summaries), response shrinking, paging across sections, smoke-branch cleanup, dashboards, prompts and ledgers: one reading settles them, or there is no invariant to prove.
