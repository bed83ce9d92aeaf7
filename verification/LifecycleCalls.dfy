/**
 * The service calls. `Plan` is the statement list a call issues once its reads are known;
 * `LifecycleService` issues the same statements one by one inside a transaction.
 */
module LifecycleCalls {
  import opened Outcomes
  import opened LifecycleStateMachine
  import opened RetryPolicy
  import opened ActivationStore

  datatype EvidenceInput = EvidenceInput(kind: EvidenceKind, source: SourceType, sourceRef: Option<string>,
                                         attempt: Option<Id>, text: string, bytes: nat)

  /** Every call with its caller-supplied input and the identifiers its inserts would use. */
  datatype Call =
    | TransitionOperation(subject: Subject, operation: Id, expected: nat, to: OperationStatus,
                          stage: Option<string>, evidence: Option<EvidenceInput>, evidenceId: Id)
    | StartStageAttempt(subject: Subject, operation: Id, stageKey: string, target: Option<OperationStatus>,
                        expectedIfTarget: Option<nat>, reserved: Option<Id>, source: SourceType, newAttemptId: Id,
                        now: int)
    | CompleteStageAttempt(subject: Subject, operation: Id, attemptId: Id, attemptTo: AttemptStatus,
                           retryable: bool, errorCode: Option<string>, errorMessage: Option<string>,
                           evidence: Option<EvidenceInput>, evidenceId: Id, now: int)
    | ScheduleRetry(subject: Subject, operation: Id, expected: nat, target: Option<OperationStatus>, approved: bool,
                    approvalRef: string, stageOverride: Option<string>, newAttemptId: Id, evidenceId: Id)
    | BeginReconciliation(subject: Subject, operation: Id, expected: nat, reason: string, source: SourceType,
                          reconciliationId: Id)
    | CompleteReconciliation(subject: Subject, operation: Id, expected: nat, reconciliationId: Id,
                             outcome: ReconciliationStatus, evidence: Option<EvidenceInput>, evidenceId: Id, now: int)
    | PrepareDelivery(subject: Subject, operation: Id, channel: string, deliveryId: Id)
    | TransitionDelivery(subject: Subject, operation: Id, deliveryId: Id, deliveryFrom: DeliveryStatus,
                         deliveryTo: DeliveryStatus, report: DeliveryReport)
    | RequestAcknowledgement(subject: Subject, operation: Id, delivery: Option<Id>, key: string, acknowledgementId: Id,
                             now: int)
    | TransitionAcknowledgement(subject: Subject, operation: Id, acknowledgementId: Id,
                                ackFrom: AcknowledgementState, ackTo: AcknowledgementState, now: int)

  /** What a call has read so far; each part may have been read at a different time. */
  datatype Views = Views(operation: Option<OperationRow>, attempt: Option<AttemptRow>, number: nat)

  function StatusKey(s: OperationStatus): string {
    match s
    case Authenticating => "authenticating"
    case ResolvingSession => "resolving_session"
    case Bootstrapping => "bootstrapping"
    case Validating => "validating"
    case PreparingTools => "preparing_tools"
    case Executing => "executing"
    case _ => "reconciling"
  }

  /** The stage whose attempt numbers the call uses. */
  function StageOf(c: Call): string {
    match c
    case StartStageAttempt(_, _, stage, _, _, _, _, _, _) => stage
    case ScheduleRetry(_, _, _, target, _, _, stage, _, _) =>
      if stage.Some? then stage.value else if target.Some? then StatusKey(target.value) else ""
    case PrepareDelivery(_, _, channel, _) => channel
    case _ => ""
  }

  /** The attempt row the call reads, if it reads one. */
  function AttemptOf(c: Call): Option<Id> {
    match c
    case StartStageAttempt(_, _, _, _, _, reserved, _, _, _) => reserved
    case CompleteStageAttempt(_, _, id, _, _, _, _, _, _, _) => Some(id)
    case _ => None
  }

  function PendingAttempt(operation: Id, tenant: Id, stage: string, number: nat, source: SourceType, retryable: bool)
    : AttemptRow
  {
    AttemptRow(operation, tenant, stage, number, source, Pending, retryable, false, None, None, None, None)
  }

  function PreparedDelivery(operation: Id, tenant: Id, channel: string, number: nat): DeliveryRow {
    DeliveryRow(operation, tenant, channel, number, DeliveryPrepared, None, None, None, None)
  }

  function EvidenceFor(e: EvidenceInput, operation: Id, tenant: Id): EvidenceRow {
    EvidenceRow(operation, tenant, e.attempt, e.kind, e.source, e.sourceRef, CallerSummary(e.text), e.bytes)
  }

  function AppendEvidence(e: Option<EvidenceInput>, id: Id, operation: Id, tenant: Id): seq<Statement> {
    if e.None? then [] else [InsertEvidence(id, EvidenceFor(e.value, operation, tenant))]
  }

  function EvidenceIdOf(e: Option<EvidenceInput>, id: Id): Option<Id> {
    if e.None? then None else Some(id)
  }

  const STARTED := AttemptFields(false, false, None, None, None)

  /** Delivery and acknowledgement calls are scoped by tenant alone. */
  predicate TenantScoped(c: Call) {
    c.PrepareDelivery? || c.TransitionDelivery? || c.RequestAcknowledgement? || c.TransitionAcknowledgement?
  }

  /** Checks made on the input alone, before the transaction opens. */
  function Admit(c: Call): Result<(), Refusal> {
    if TenantScoped(c) then Done(())
    else if !c.subject.isAdmin && c.subject.user.None? then Refused(UserRequired)
    else if (c.TransitionOperation? && c.to == Active) || (c.CompleteReconciliation? && c.outcome == OutcomeExecuted)
    then
      if c.evidence.None? then Refused(SuccessEvidenceRequired)
      else if c.evidence.value.kind !in SUCCESS_KINDS then Refused(Policy(SuccessKindInvalid))
      else Done(())
    else Done(())
  }

  function Plan(c: Call, v: Views): seq<Statement> {
    if Admit(c).Refused? then [Refuse(Admit(c).error)]
    else match c {
      case TransitionDelivery(s, o, id, from, to, report) => [MoveDelivery(id, o, s.tenant, from, to, report)]
      case TransitionAcknowledgement(s, o, id, from, to, now) => [MoveAcknowledgement(id, o, s.tenant, from, to, now)]
      case _ =>
        if v.operation.None? then [Refuse(OperationNotFound)]
        else PlanOn(c, v.operation.value, v)
    }
  }

  function PlanOn(c: Call, op: OperationRow, v: Views): seq<Statement>
    requires !c.TransitionDelivery? && !c.TransitionAcknowledgement?
  {
    match c
    case TransitionOperation(_, _, _, _, _, _, _) => PlanTransition(c, op)
    case StartStageAttempt(_, _, _, _, _, _, _, _, _) =>
      if op.status == RetryScheduled then PlanRetryStart(c, op, v.attempt) else PlanOrdinaryStart(c, op, v.number)
    case CompleteStageAttempt(_, _, _, _, _, _, _, _, _, _) => PlanCompletion(c, v.attempt)
    case ScheduleRetry(_, _, _, _, _, _, _, _, _) => PlanSchedule(c, op, v.number)
    case BeginReconciliation(_, _, _, _, _, _) => PlanBegin(c, op, v.number)
    case CompleteReconciliation(_, _, _, _, _, _, _, _) => PlanReconcile(c, op)
    case PrepareDelivery(s, o, channel, id) =>
      [InsertDelivery(id, PreparedDelivery(o, s.tenant, channel, v.number))]
    case RequestAcknowledgement(s, o, delivery, key, id, now) =>
      [InsertAcknowledgement(id, AcknowledgementRow(o, s.tenant, delivery, key, AckPending, now))]
  }

  /** Evidence first; `active` reads it back before the operation moves. */
  function PlanTransition(c: Call, op: OperationRow): seq<Statement>
    requires c.TransitionOperation?
  {
    var id := EvidenceIdOf(c.evidence, c.evidenceId);
    if op.version != c.expected then [Refuse(VersionConflict)]
    else if CheckTransition(op.status, c.to).Refused? then [Refuse(State(CheckTransition(op.status, c.to).error))]
    else
      AppendEvidence(c.evidence, c.evidenceId, c.operation, c.subject.tenant)
      + (if c.to == Active then [RequireSuccessEvidence(id, c.operation, c.subject.tenant)] else [])
      + [UpdateOperation(c.operation, c.subject, c.expected, c.to, c.stage)]
  }

  /** Completing an attempt moves only the attempt. */
  function PlanCompletion(c: Call, attempt: Option<AttemptRow>): seq<Statement>
    requires c.CompleteStageAttempt?
  {
    if attempt.None? then [Refuse(AttemptNotFound)]
    else if CheckAttemptTransition(attempt.value.status, c.attemptTo).Refused?
    then [Refuse(State(CheckAttemptTransition(attempt.value.status, c.attemptTo).error))]
    else
      var linked := if c.evidence.None? then None else Some(c.evidence.value.(attempt := Some(c.attemptId)));
      AppendEvidence(linked, c.evidenceId, c.operation, c.subject.tenant)
      + [MoveAttempt(c.attemptId, c.operation, c.subject.tenant, attempt.value.status, c.attemptTo,
                     AttemptFields(c.retryable, c.attemptTo == AttemptUnknown, c.errorCode, c.errorMessage,
                                   EvidenceIdOf(c.evidence, c.evidenceId)),
                     c.now)]
  }

  /** A scheduled retry reserves its attempt and records its approval. */
  function PlanSchedule(c: Call, op: OperationRow, number: nat): seq<Statement>
    requires c.ScheduleRetry?
  {
    var decision := AuthorizeRetry(op.status, c.target, c.approved, c.approvalRef);
    if op.version != c.expected then [Refuse(VersionConflict)]
    else if decision.Refused? then [Refuse(Policy(decision.error))]
    else [
        InsertAttempt(c.newAttemptId,
                      PendingAttempt(c.operation, c.subject.tenant, StageOf(c), number, GovernedRetry, true)),
        InsertEvidence(c.evidenceId, RetryEvidence(c, decision.value, number)),
        UpdateOperation(c.operation, c.subject, c.expected, RetryScheduled, None)]
  }

  function PlanBegin(c: Call, op: OperationRow, number: nat): seq<Statement>
    requires c.BeginReconciliation?
  {
    if op.version != c.expected then [Refuse(VersionConflict)]
    else if CheckTransition(op.status, Reconciling).Refused?
    then [Refuse(State(CheckTransition(op.status, Reconciling).error))]
    else [
        InsertReconciliation(c.reconciliationId,
                             ReconciliationRow(c.operation, c.subject.tenant, number, c.reason, c.source,
                                               ReconciliationPending, None, None)),
        UpdateOperation(c.operation, c.subject, c.expected, Reconciling, None)]
  }

  function PlanReconcile(c: Call, op: OperationRow): seq<Statement>
    requires c.CompleteReconciliation?
  {
    var id := EvidenceIdOf(c.evidence, c.evidenceId);
    if op.version != c.expected then [Refuse(VersionConflict)]
    else if op.status != Reconciling then [Refuse(ReconciliationStateInvalid)]
    else
      AppendEvidence(c.evidence, c.evidenceId, c.operation, c.subject.tenant)
      + (if c.outcome == OutcomeExecuted then [RequireSuccessEvidence(id, c.operation, c.subject.tenant)] else [])
      + PlanOutcome(c)
  }

  /**
   * The authorization row of a scheduled retry: it names the reserved attempt and the approval.
   * Its summary is a handful of short fields, so the size limit never applies to it.
   */
  function RetryEvidence(c: Call, d: RetryDecision, number: nat): EvidenceRow
    requires c.ScheduleRetry?
  {
    EvidenceRow(c.operation, c.subject.tenant, Some(c.newAttemptId), GovernedRetryAuthorization, GovernanceRegistry,
                Some(d.approvalRef), RetrySummary(d.source, d.target, StageOf(c), number), 0)
  }

  /** From `retry_scheduled` a stage can start only on a reserved attempt of that stage. */
  function PlanRetryStart(c: Call, op: OperationRow, attempt: Option<AttemptRow>): seq<Statement>
    requires c.StartStageAttempt?
  {
    if c.target.None? then [Refuse(RetryTargetStatusRequired)]
    else if c.expectedIfTarget.None? then [Refuse(ExpectedVersionRequired)]
    else if op.version != c.expectedIfTarget.value then [Refuse(VersionConflict)]
    else if CheckTransition(op.status, c.target.value).Refused?
    then [Refuse(State(CheckTransition(op.status, c.target.value).error))]
    else if c.reserved.None? then [Refuse(RetryAttemptIdRequired)]
    else if attempt.None? then [Refuse(RetryAttemptNotFound)]
    else if attempt.value.stage != c.stageKey || attempt.value.source != GovernedRetry
    then [Refuse(RetryAttemptMismatch)]
    else if attempt.value.status != Pending then [Refuse(RetryAttemptNotPending)]
    else [
        MoveAttempt(c.reserved.value, c.operation, c.subject.tenant, Pending, Running, STARTED.(retryable := true),
                    c.now),
        UpdateOperation(c.operation, c.subject, c.expectedIfTarget.value, c.target.value, Some(c.stageKey))]
  }

  /** Any other start inserts a new attempt, and may carry any legal operation transition with it. */
  function PlanOrdinaryStart(c: Call, op: OperationRow, number: nat): seq<Statement>
    requires c.StartStageAttempt?
  {
    var row := PendingAttempt(c.operation, c.subject.tenant, c.stageKey, number, c.source, false);
    var start := [
      InsertAttempt(c.newAttemptId, row),
      MoveAttempt(c.newAttemptId, c.operation, c.subject.tenant, Pending, Running, STARTED, c.now)];
    if c.reserved.Some? then [Refuse(AttemptIdUnexpected)]
    else if c.target.Some? then
      if CheckTransition(op.status, c.target.value).Refused?
      then [Refuse(State(CheckTransition(op.status, c.target.value).error))]
      else if c.expectedIfTarget.None? then [Refuse(ExpectedVersionRequired)]
      else if op.version != c.expectedIfTarget.value then [Refuse(VersionConflict)]
      else start + [UpdateOperation(c.operation, c.subject, c.expectedIfTarget.value, c.target.value, Some(c.stageKey))]
    else if Classify(op.status).Refused? then [Refuse(State(Classify(op.status).error))]
    else if Classify(op.status).value != CoreNonterminal ||
            op.status in {UnknownOutcome, Reconciling, RetryScheduled}
    then [Refuse(StartStateInvalid)]
    else start
  }

  /** The tail of a reconciliation completion: resolve the outcome, then move both rows. */
  function PlanOutcome(c: Call): seq<Statement>
    requires c.CompleteReconciliation?
  {
    var kind := if c.evidence.None? then None else Some(c.evidence.value.kind);
    var resolved := ResolveOutcome(c.outcome, kind);
    if resolved.Refused? then [Refuse(Policy(resolved.error))]
    else if CheckTransition(Reconciling, resolved.value).Refused?
    then [Refuse(State(CheckTransition(Reconciling, resolved.value).error))]
    else [
        MoveReconciliation(c.reconciliationId, c.operation, c.subject.tenant, c.outcome,
                           EvidenceIdOf(c.evidence, c.evidenceId), c.now),
        UpdateOperation(c.operation, c.subject, c.expected, resolved.value, None)]
  }

  // ---------------------------------------------------------------- reads

  /** The operation row as the call's subject may see it. Delivery calls look it up by tenant alone. */
  function ReadOperation(t: Tables, c: Call): Option<OperationRow> {
    if c.operation !in t.operations then None
    else
      var row := t.operations[c.operation];
      var visible := if TenantScoped(c) then row.tenant == c.subject.tenant
                     else InScope(row, c.subject);
      if visible then Some(row) else None
  }

  function ReadAttempt(t: Tables, c: Call): Option<AttemptRow> {
    var id := AttemptOf(c);
    if id.None? || id.value !in t.attempts then None
    else
      var row := t.attempts[id.value];
      if row.operation == c.operation && row.tenant == c.subject.tenant then Some(row) else None
  }

  /** The numbers the call's `MAX + 1` query ranges over. */
  ghost function NumbersFor(t: Tables, c: Call): set<nat> {
    if c.BeginReconciliation? then ReconciliationNumbers(t, c.operation, c.subject.tenant)
    else if c.PrepareDelivery? then DeliveryNumbers(t, c.operation, c.subject.tenant, c.channel)
    else StageNumbers(t, c.operation, c.subject.tenant, StageOf(c))
  }
}
