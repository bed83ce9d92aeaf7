/**
 * The activation tables and the guarded statements the two repositories issue against them.
 * A transaction is a list of statements: either all of them take effect or none does.
 */
module ActivationStore {
  import opened Outcomes
  import opened LifecycleStateMachine
  import opened RetryPolicy

  type Id = string

  /** The lifecycle's own repository and the persistence repository write attempt rows differently. */
  datatype Repository = LifecycleRepository | PersistenceRepository

  datatype SourceType = PlatformNative | GovernedRetry | GovernanceRegistry | OtherSource(sourceName: string)

  /** Evidence content; digests are taken to be injective, so equal digests are equal summaries. */
  datatype Summary =
    | RetrySummary(from: OperationStatus, target: OperationStatus, stage: string, number: nat)
    | CallerSummary(text: string)

  datatype DeliveryStatus = DeliveryPrepared | DeliverySent | DeliveryFailed | DeliveryExpired
  datatype AcknowledgementState =
    | AckNotRequested | AckPending | AckAcknowledged | AckRejected | AckExpired

  datatype OperationRow = OperationRow(
    tenant: Id, user: Option<Id>, status: OperationStatus, stage: string, version: nat)

  datatype AttemptRow = AttemptRow(
    operation: Id, tenant: Id, stage: string, number: nat, source: SourceType, status: AttemptStatus,
    retryable: bool, unknownOutcome: bool, errorCode: Option<string>, errorMessage: Option<string>,
    evidenceRef: Option<Id>, completedAt: Option<int>)

  datatype EvidenceRow = EvidenceRow(
    operation: Id, tenant: Id, attempt: Option<Id>, kind: EvidenceKind, source: SourceType,
    sourceRef: Option<string>, summary: Summary, bytes: nat)

  datatype ReconciliationRow = ReconciliationRow(
    operation: Id, tenant: Id, number: nat, reason: string, source: SourceType,
    status: ReconciliationStatus, evidenceRef: Option<Id>, completedAt: Option<int>)

  datatype DeliveryRow = DeliveryRow(
    operation: Id, tenant: Id, channel: string, number: nat, status: DeliveryStatus, response: Option<int>,
    errorCode: Option<string>, errorMessage: Option<string>, deliveredAt: Option<int>)

  /** What a delivery transition reports. */
  datatype DeliveryReport = DeliveryReport(
    response: Option<int>, errorCode: Option<string>, errorMessage: Option<string>, at: int)

  /** The time is stamped on insertion and again by a decision; reads show it for decided rows only. */
  datatype AcknowledgementRow = AcknowledgementRow(
    operation: Id, tenant: Id, delivery: Option<Id>, key: string, state: AcknowledgementState, acknowledgedAt: int)

  datatype Tables = Tables(
    operations: map<Id, OperationRow>,
    attempts: map<Id, AttemptRow>,
    evidence: map<Id, EvidenceRow>,
    reconciliations: map<Id, ReconciliationRow>,
    deliveries: map<Id, DeliveryRow>,
    acknowledgements: map<Id, AcknowledgementRow>)

  /** The authorized subject; a non-admin must name its user. */
  datatype Subject = Subject(tenant: Id, user: Option<Id>, isAdmin: bool)

  predicate InScope(row: OperationRow, s: Subject) {
    row.tenant == s.tenant && (s.isAdmin || (s.user.Some? && row.user == s.user))
  }

  datatype AttemptFields = AttemptFields(
    retryable: bool, unknownOutcome: bool, errorCode: Option<string>, errorMessage: Option<string>,
    evidenceRef: Option<Id>)

  datatype Refusal =
    | State(state: StateRefusal) | Policy(policy: PolicyRefusal)
    | UserRequired | ExpectedVersionRequired | OperationNotFound | VersionConflict
    | SuccessEvidenceRequired | EvidenceTooLarge | EvidenceConflict | AttemptConflict | ReconciliationConflict
    | ForeignKeyMissing | AttemptMoveConflict | ReconciliationMoveConflict
    | RetryTargetStatusRequired | RetryAttemptIdRequired | RetryAttemptNotFound | RetryAttemptMismatch
    | RetryAttemptNotPending | AttemptIdUnexpected | StartStateInvalid | AttemptNotFound
    | ReconciliationStateInvalid
    | DeliveryConflict | DeliveryMoveInvalid | ResponseStatusInvalid | DeliveryMoveConflict | DeliveryNotFound
    | AcknowledgementConflict | AcknowledgementMoveInvalid | AcknowledgementMoveConflict

  const EVIDENCE_MAX_BYTES := 32768

  datatype Statement =
    | InsertAttempt(attemptId: Id, attemptRow: AttemptRow)
    | MoveAttempt(attemptId: Id, operation: Id, tenant: Id, attemptFrom: AttemptStatus, attemptTo: AttemptStatus,
                  fields: AttemptFields, now: int)
    | InsertEvidence(evidenceId: Id, evidenceRow: EvidenceRow)
    | RequireSuccessEvidence(successId: Option<Id>, operation: Id, tenant: Id)
    | InsertReconciliation(reconciliationId: Id, reconciliationRow: ReconciliationRow)
    | MoveReconciliation(reconciliationId: Id, operation: Id, tenant: Id, outcome: ReconciliationStatus,
                         evidenceRef: Option<Id>, now: int)
    | InsertDelivery(deliveryId: Id, deliveryRow: DeliveryRow)
    | MoveDelivery(deliveryId: Id, operation: Id, tenant: Id, deliveryFrom: DeliveryStatus,
                   deliveryTo: DeliveryStatus, report: DeliveryReport)
    | InsertAcknowledgement(acknowledgementId: Id, acknowledgementRow: AcknowledgementRow)
    | MoveAcknowledgement(acknowledgementId: Id, operation: Id, tenant: Id, ackFrom: AcknowledgementState,
                          ackTo: AcknowledgementState, now: int)
    | UpdateOperation(operation: Id, subject: Subject, expectedVersion: nat, status: OperationStatus,
                      newStage: Option<string>)
    | Refuse(refusal: Refusal)

  // ---------------------------------------------------------------- row updates

  /** The row a successful attempt update leaves; a terminal status stamps `completedAt` once. */
  function MovedAttempt(repo: Repository, row: AttemptRow, to: AttemptStatus, f: AttemptFields, now: int): AttemptRow {
    var errorBearing := to in {AttemptDegraded, AttemptFailed, AttemptUnknown};
    row.(
      status := to,
      retryable := f.retryable && (repo.LifecycleRepository? || to in {AttemptDegraded, AttemptFailed}),
      unknownOutcome := if repo.LifecycleRepository? then f.unknownOutcome else to == AttemptUnknown,
      errorCode := if repo.LifecycleRepository? || errorBearing then f.errorCode else None,
      errorMessage := if repo.LifecycleRepository? || errorBearing then f.errorMessage else None,
      evidenceRef := f.evidenceRef,
      completedAt := if AttemptTerminalStatus(to) && row.completedAt.None? then Some(now) else row.completedAt)
  }

  predicate ValidResponse(response: Option<int>) {
    response.Some? ==> 100 <= response.value <= 599
  }

  /** The row a successful delivery update leaves. */
  function MovedDelivery(row: DeliveryRow, to: DeliveryStatus, report: DeliveryReport): DeliveryRow {
    row.(status := to, response := report.response, errorCode := report.errorCode, errorMessage := report.errorMessage,
         deliveredAt := if to == DeliverySent then Some(report.at) else row.deliveredAt)
  }

  function DeliverySuccessors(s: DeliveryStatus): set<DeliveryStatus> {
    if s == DeliveryPrepared then {DeliverySent, DeliveryFailed, DeliveryExpired} else {}
  }

  function AcknowledgementSuccessors(s: AcknowledgementState): set<AcknowledgementState> {
    match s
    case AckNotRequested => {AckPending}
    case AckPending => {AckAcknowledged, AckRejected, AckExpired}
    case _ => {}
  }

  // ---------------------------------------------------------------- key lookups

  predicate AttemptNumberTaken(t: Tables, operation: Id, stage: string, number: nat) {
    exists id :: id in t.attempts && t.attempts[id].operation == operation && t.attempts[id].stage == stage &&
                 t.attempts[id].number == number
  }

  predicate ReconciliationNumberTaken(t: Tables, operation: Id, number: nat) {
    exists id :: id in t.reconciliations && t.reconciliations[id].operation == operation &&
                 t.reconciliations[id].number == number
  }

  predicate DeliveryNumberTaken(t: Tables, operation: Id, channel: string, number: nat) {
    exists id :: id in t.deliveries && t.deliveries[id].operation == operation &&
                 t.deliveries[id].channel == channel && t.deliveries[id].number == number
  }

  predicate EvidenceDuplicate(t: Tables, row: EvidenceRow) {
    exists id :: id in t.evidence && t.evidence[id].operation == row.operation && t.evidence[id].kind == row.kind &&
                 t.evidence[id].summary == row.summary
  }

  predicate AcknowledgementKeyTaken(t: Tables, operation: Id, key: string) {
    exists id :: id in t.acknowledgements && t.acknowledgements[id].operation == operation &&
                 t.acknowledgements[id].key == key
  }

  predicate IsSuccessEvidence(t: Tables, id: Option<Id>, operation: Id, tenant: Id) {
    && id.Some? && id.value in t.evidence
    && t.evidence[id.value].operation == operation
    && t.evidence[id.value].tenant == tenant
    && t.evidence[id.value].kind in SUCCESS_KINDS
  }

  /** The evidence read-back of the persistence repository, which also bounds the stored size. */
  predicate IsBoundedSuccessEvidence(t: Tables, id: Option<Id>, operation: Id, tenant: Id) {
    IsSuccessEvidence(t, id, operation, tenant) && t.evidence[id.value].bytes <= EVIDENCE_MAX_BYTES
  }

  // ---------------------------------------------------------------- execution

  /** One statement against the current rows; a guarded move that finds its target already set changes nothing. */
  function Apply(repo: Repository, t: Tables, s: Statement): Result<Tables, Refusal> {
    match s
    case InsertAttempt(id, row) =>
      if row.operation !in t.operations then Refused(ForeignKeyMissing)
      else if id in t.attempts || AttemptNumberTaken(t, row.operation, row.stage, row.number)
      then Refused(AttemptConflict)
      else Done(t.(attempts := t.attempts[id := row]))
    case MoveAttempt(id, o, tenant, from, to, f, now) =>
      if id !in t.attempts || t.attempts[id].operation != o || t.attempts[id].tenant != tenant
      then Refused(AttemptMoveConflict)
      else if t.attempts[id].status == from
      then Done(t.(attempts := t.attempts[id := MovedAttempt(repo, t.attempts[id], to, f, now)]))
      else if t.attempts[id].status == to then Done(t)
      else Refused(AttemptMoveConflict)
    case InsertEvidence(id, row) =>
      if row.bytes > EVIDENCE_MAX_BYTES then Refused(EvidenceTooLarge)
      else if id in t.evidence || EvidenceDuplicate(t, row) then Refused(EvidenceConflict)
      else if row.operation !in t.operations || (row.attempt.Some? && row.attempt.value !in t.attempts)
      then Refused(ForeignKeyMissing)
      else Done(t.(evidence := t.evidence[id := row]))
    case RequireSuccessEvidence(id, o, tenant) =>
      var found := if repo.LifecycleRepository? then IsSuccessEvidence(t, id, o, tenant)
                   else IsBoundedSuccessEvidence(t, id, o, tenant);
      if found then Done(t) else Refused(SuccessEvidenceRequired)
    case InsertReconciliation(id, row) =>
      if row.operation !in t.operations then Refused(ForeignKeyMissing)
      else if id in t.reconciliations || ReconciliationNumberTaken(t, row.operation, row.number)
      then Refused(ReconciliationConflict)
      else Done(t.(reconciliations := t.reconciliations[id := row]))
    case MoveReconciliation(id, o, tenant, outcome, ref, now) =>
      if id !in t.reconciliations || t.reconciliations[id].operation != o || t.reconciliations[id].tenant != tenant
      then Refused(ReconciliationMoveConflict)
      else if t.reconciliations[id].status == ReconciliationPending
      then Done(t.(reconciliations := t.reconciliations[id := t.reconciliations[id].(
                     status := outcome, evidenceRef := ref, completedAt := Some(now))]))
      else if t.reconciliations[id].status == outcome then Done(t)
      else Refused(ReconciliationMoveConflict)
    case InsertDelivery(id, row) =>
      if row.operation !in t.operations then Refused(ForeignKeyMissing)
      else if id in t.deliveries || DeliveryNumberTaken(t, row.operation, row.channel, row.number)
      then Refused(DeliveryConflict)
      else Done(t.(deliveries := t.deliveries[id := row]))
    case MoveDelivery(id, o, tenant, from, to, report) =>
      if to !in DeliverySuccessors(from) then Refused(DeliveryMoveInvalid)
      else if !ValidResponse(report.response) then Refused(ResponseStatusInvalid)
      else if id !in t.deliveries || t.deliveries[id].operation != o || t.deliveries[id].tenant != tenant
      then Refused(DeliveryMoveConflict)
      else if t.deliveries[id].status == from
      then Done(t.(deliveries := t.deliveries[id := MovedDelivery(t.deliveries[id], to, report)]))
      else if t.deliveries[id].status == to then Done(t)
      else Refused(DeliveryMoveConflict)
    case InsertAcknowledgement(id, row) =>
      if row.operation !in t.operations then Refused(OperationNotFound)
      else if row.delivery.Some? && !(row.delivery.value in t.deliveries &&
                                      t.deliveries[row.delivery.value].operation == row.operation &&
                                      t.deliveries[row.delivery.value].tenant == row.tenant)
      then Refused(DeliveryNotFound)
      else if id in t.acknowledgements || AcknowledgementKeyTaken(t, row.operation, row.key)
      then Refused(AcknowledgementConflict)
      else Done(t.(acknowledgements := t.acknowledgements[id := row]))
    case MoveAcknowledgement(id, o, tenant, from, to, now) =>
      if to !in AcknowledgementSuccessors(from) then Refused(AcknowledgementMoveInvalid)
      else if id !in t.acknowledgements || t.acknowledgements[id].operation != o ||
              t.acknowledgements[id].tenant != tenant
      then Refused(AcknowledgementMoveConflict)
      else if t.acknowledgements[id].state == from
      then Done(t.(acknowledgements := t.acknowledgements[id := t.acknowledgements[id].(
                     state := to,
                     acknowledgedAt := if to == AckPending then t.acknowledgements[id].acknowledgedAt else now)]))
      else if t.acknowledgements[id].state == to then Done(t)
      else Refused(AcknowledgementMoveConflict)
    case UpdateOperation(o, subject, expected, status, stage) =>
      if o !in t.operations || !InScope(t.operations[o], subject) || t.operations[o].version != expected
      then Refused(VersionConflict)
      else Done(t.(operations := t.operations[o := t.operations[o].(
                     status := status,
                     stage := if stage.Some? then stage.value else t.operations[o].stage,
                     version := expected + 1)]))
    case Refuse(r) => Refused(r)
  }

  /** A transaction body: statements in order, stopping at the first refusal. */
  function Exec(repo: Repository, t: Tables, ss: seq<Statement>): Result<Tables, Refusal>
    decreases |ss|
  {
    if ss == [] then Done(t)
    else
      var first :- Apply(repo, t, ss[0]);
      Exec(repo, first, ss[1..])
  }

  // ---------------------------------------------------------------- numbering

  /** Attempt numbers the numbering query sees: one operation, tenant and stage. */
  ghost function StageNumbers(t: Tables, operation: Id, tenant: Id, stage: string): set<nat> {
    set id | id in t.attempts && t.attempts[id].operation == operation && t.attempts[id].tenant == tenant &&
             t.attempts[id].stage == stage
      :: t.attempts[id].number
  }

  ghost function ReconciliationNumbers(t: Tables, operation: Id, tenant: Id): set<nat> {
    set id | id in t.reconciliations && t.reconciliations[id].operation == operation &&
             t.reconciliations[id].tenant == tenant
      :: t.reconciliations[id].number
  }

  ghost function DeliveryNumbers(t: Tables, operation: Id, tenant: Id, channel: string): set<nat> {
    set id | id in t.deliveries && t.deliveries[id].operation == operation && t.deliveries[id].tenant == tenant &&
             t.deliveries[id].channel == channel
      :: t.deliveries[id].number
  }

  /** `n` is `COALESCE(MAX(number), 0) + 1` over `s`. */
  predicate IsNext(n: nat, s: set<nat>) {
    n >= 1 && (forall k :: k in s ==> k < n) && (n > 1 ==> n - 1 in s)
  }
}
