/** What every transaction keeps, proved statement by statement. */
module StoreInvariants {
  import opened Outcomes
  import opened LifecycleStateMachine
  import opened RetryPolicy
  import opened ActivationStore
  import opened LifecycleCalls

  // ---------------------------------------------------------------- one-state facts

  /** `completed_at` is set exactly on terminal attempts and the unknown flag exactly on unknown outcomes. */
  predicate AttemptShape(row: AttemptRow) {
    && !row.status.UndeclaredAttempt?
    && row.number >= 1
    && (row.completedAt.Some? <==> AttemptTerminalStatus(row.status))
    && (row.unknownOutcome <==> row.status == AttemptUnknown)
  }

  predicate ReconciliationShape(row: ReconciliationRow) {
    row.number >= 1 && (row.completedAt.Some? <==> row.status != ReconciliationPending)
  }

  predicate DeliveryShape(row: DeliveryRow) {
    row.number >= 1 && (row.deliveredAt.Some? <==> row.status == DeliverySent) && ValidResponse(row.response)
  }

  predicate AcknowledgementShape(row: AcknowledgementRow) {
    row.state != AckNotRequested
  }

  /** Child rows belong to an existing operation and carry its tenant. */
  predicate Owned(ops: map<Id, OperationRow>, operation: Id, tenant: Id) {
    operation in ops && ops[operation].tenant == tenant
  }

  ghost predicate AttemptsOk(m: map<Id, AttemptRow>, ops: map<Id, OperationRow>) {
    forall id :: id in m ==> AttemptShape(m[id]) && Owned(ops, m[id].operation, m[id].tenant)
  }

  ghost predicate EvidenceOk(m: map<Id, EvidenceRow>, ops: map<Id, OperationRow>) {
    forall id :: id in m ==> m[id].bytes <= EVIDENCE_MAX_BYTES && Owned(ops, m[id].operation, m[id].tenant)
  }

  ghost predicate ReconciliationsOk(m: map<Id, ReconciliationRow>, ops: map<Id, OperationRow>) {
    forall id :: id in m ==> ReconciliationShape(m[id]) && Owned(ops, m[id].operation, m[id].tenant)
  }

  ghost predicate DeliveriesOk(m: map<Id, DeliveryRow>, ops: map<Id, OperationRow>) {
    forall id :: id in m ==> DeliveryShape(m[id]) && Owned(ops, m[id].operation, m[id].tenant)
  }

  ghost predicate AcknowledgementsOk(m: map<Id, AcknowledgementRow>, ops: map<Id, OperationRow>) {
    forall id :: id in m ==> AcknowledgementShape(m[id]) && Owned(ops, m[id].operation, m[id].tenant)
  }

  ghost predicate WellFormed(t: Tables) {
    && AttemptsOk(t.attempts, t.operations)
    && EvidenceOk(t.evidence, t.operations)
    && ReconciliationsOk(t.reconciliations, t.operations)
    && DeliveriesOk(t.deliveries, t.operations)
    && AcknowledgementsOk(t.acknowledgements, t.operations)
  }

  // ---------------------------------------------------------------- two-state facts

  /** Pending, then running, then one terminal status. */
  predicate AttemptReaches(s: AttemptStatus, s': AttemptStatus) {
    s == s' || (s == Pending && s' != Pending) || (s == Running && AttemptTerminalStatus(s'))
  }

  predicate OperationAfter(r: OperationRow, r': OperationRow) {
    && r'.tenant == r.tenant && r'.user == r.user
    && r'.version >= r.version
    && (r'.version == r.version ==> r' == r)
  }

  predicate AttemptAfter(r: AttemptRow, r': AttemptRow) {
    && r'.operation == r.operation && r'.tenant == r.tenant
    && r'.stage == r.stage && r'.number == r.number && r'.source == r.source
    && AttemptReaches(r.status, r'.status)
    && (AttemptTerminalStatus(r.status) ==> r' == r)
  }

  predicate ReconciliationAfter(r: ReconciliationRow, r': ReconciliationRow) {
    && r'.operation == r.operation && r'.tenant == r.tenant && r'.number == r.number
    && (r.status != ReconciliationPending ==> r' == r)
  }

  predicate DeliveryAfter(r: DeliveryRow, r': DeliveryRow) {
    && r'.operation == r.operation && r'.tenant == r.tenant && r'.channel == r.channel && r'.number == r.number
    && (r.status != DeliveryPrepared ==> r' == r)
  }

  predicate AcknowledgementAfter(r: AcknowledgementRow, r': AcknowledgementRow) {
    && r'.operation == r.operation && r'.tenant == r.tenant && r'.delivery == r.delivery && r'.key == r.key
    && (AcknowledgementSuccessors(r.state) == {} ==> r' == r)
  }

  ghost predicate OperationsKept(m: map<Id, OperationRow>, m': map<Id, OperationRow>) {
    forall id :: id in m ==> id in m' && OperationAfter(m[id], m'[id])
  }

  ghost predicate AttemptsKept(m: map<Id, AttemptRow>, m': map<Id, AttemptRow>) {
    forall id :: id in m ==> id in m' && AttemptAfter(m[id], m'[id])
  }

  ghost predicate EvidenceKept(m: map<Id, EvidenceRow>, m': map<Id, EvidenceRow>) {
    forall id :: id in m ==> id in m' && m'[id] == m[id]
  }

  ghost predicate ReconciliationsKept(m: map<Id, ReconciliationRow>, m': map<Id, ReconciliationRow>) {
    forall id :: id in m ==> id in m' && ReconciliationAfter(m[id], m'[id])
  }

  ghost predicate DeliveriesKept(m: map<Id, DeliveryRow>, m': map<Id, DeliveryRow>) {
    forall id :: id in m ==> id in m' && DeliveryAfter(m[id], m'[id])
  }

  ghost predicate AcknowledgementsKept(m: map<Id, AcknowledgementRow>, m': map<Id, AcknowledgementRow>) {
    forall id :: id in m ==> id in m' && AcknowledgementAfter(m[id], m'[id])
  }

  /** Rows never disappear, never change owner, and never change again once final. */
  ghost predicate Kept(t: Tables, t': Tables) {
    && OperationsKept(t.operations, t'.operations)
    && AttemptsKept(t.attempts, t'.attempts)
    && EvidenceKept(t.evidence, t'.evidence)
    && ReconciliationsKept(t.reconciliations, t'.reconciliations)
    && DeliveriesKept(t.deliveries, t'.deliveries)
    && AcknowledgementsKept(t.acknowledgements, t'.acknowledgements)
  }

  predicate OperationsTouched(m: map<Id, OperationRow>, m': map<Id, OperationRow>, o: Id) {
    m.Keys == m'.Keys && forall id :: id in m && id != o ==> m'[id] == m[id]
  }

  predicate AttemptsTouched(m: map<Id, AttemptRow>, m': map<Id, AttemptRow>, o: Id, tenant: Id) {
    forall id :: id in m' ==> (id in m && m'[id] == m[id]) || (m'[id].operation == o && m'[id].tenant == tenant)
  }

  predicate EvidenceTouched(m: map<Id, EvidenceRow>, m': map<Id, EvidenceRow>, o: Id, tenant: Id) {
    forall id :: id in m' ==> (id in m && m'[id] == m[id]) || (m'[id].operation == o && m'[id].tenant == tenant)
  }

  predicate ReconciliationsTouched(m: map<Id, ReconciliationRow>, m': map<Id, ReconciliationRow>, o: Id, tenant: Id) {
    forall id :: id in m' ==> (id in m && m'[id] == m[id]) || (m'[id].operation == o && m'[id].tenant == tenant)
  }

  predicate DeliveriesTouched(m: map<Id, DeliveryRow>, m': map<Id, DeliveryRow>, o: Id, tenant: Id) {
    forall id :: id in m' ==> (id in m && m'[id] == m[id]) || (m'[id].operation == o && m'[id].tenant == tenant)
  }

  predicate AcknowledgementsTouched(m: map<Id, AcknowledgementRow>, m': map<Id, AcknowledgementRow>, o: Id,
                                    tenant: Id) {
    forall id :: id in m' ==> (id in m && m'[id] == m[id]) || (m'[id].operation == o && m'[id].tenant == tenant)
  }

  /** Every row that belongs to another operation or tenant is untouched, in every table. */
  ghost predicate OnlyTouches(t: Tables, t': Tables, o: Id, tenant: Id) {
    && OperationsTouched(t.operations, t'.operations, o)
    && AttemptsTouched(t.attempts, t'.attempts, o, tenant)
    && EvidenceTouched(t.evidence, t'.evidence, o, tenant)
    && ReconciliationsTouched(t.reconciliations, t'.reconciliations, o, tenant)
    && DeliveriesTouched(t.deliveries, t'.deliveries, o, tenant)
    && AcknowledgementsTouched(t.acknowledgements, t'.acknowledgements, o, tenant)
  }

  /**
   * The two repositories write the same row exactly when the retry flag is not asked for on a status that cannot be
   * retried, no error text is given for a status that bears none, and the unknown flag fits the status.
   */
  lemma RepositoriesAgree(row: AttemptRow, to: AttemptStatus, f: AttemptFields, now: int)
    ensures MovedAttempt(LifecycleRepository, row, to, f, now) ==
            MovedAttempt(PersistenceRepository, row, to, f, now) <==>
            && (f.retryable ==> to in {AttemptDegraded, AttemptFailed})
            && (f.errorCode.Some? || f.errorMessage.Some? ==> to in {AttemptDegraded, AttemptFailed, AttemptUnknown})
            && (f.unknownOutcome <==> to == AttemptUnknown)
    ensures forall repo :: var after := MovedAttempt(repo, row, to, f, now);
              && after.status == to && after.evidenceRef == f.evidenceRef
              && (after.errorCode.Some? ==> after.errorCode == f.errorCode)
              && (after.errorMessage.Some? ==> after.errorMessage == f.errorMessage)
              && (after.retryable ==> f.retryable)
  {
  }

  // ---------------------------------------------------------------- statements

  /** Statements the calls are allowed to issue on behalf of one operation and tenant. */
  predicate Lawful(s: Statement, o: Id, tenant: Id) {
    match s
    case InsertAttempt(_, row) =>
      row.operation == o && row.tenant == tenant && row.status == Pending && AttemptShape(row)
    case MoveAttempt(_, op, ten, from, to, f, _) =>
      op == o && ten == tenant && to in AttemptSuccessors(from) && (f.unknownOutcome <==> to == AttemptUnknown)
    case InsertEvidence(_, row) => row.operation == o && row.tenant == tenant
    case RequireSuccessEvidence(_, op, ten) => op == o && ten == tenant
    case InsertReconciliation(_, row) =>
      row.operation == o && row.tenant == tenant && row.status == ReconciliationPending && ReconciliationShape(row)
    case MoveReconciliation(_, op, ten, outcome, _, _) =>
      op == o && ten == tenant && outcome != ReconciliationPending
    case InsertDelivery(_, row) =>
      row.operation == o && row.tenant == tenant && row.status == DeliveryPrepared && DeliveryShape(row)
    case MoveDelivery(_, op, ten, _, _, _) => op == o && ten == tenant
    case InsertAcknowledgement(_, row) =>
      row.operation == o && row.tenant == tenant && row.state == AckPending && AcknowledgementShape(row)
    case MoveAcknowledgement(_, op, ten, _, _, _) => op == o && ten == tenant
    case UpdateOperation(op, s, _, _, _) => op == o && s.tenant == tenant
    case Refuse(_) => true
  }

  predicate AllLawful(ss: seq<Statement>, o: Id, tenant: Id) {
    forall i :: 0 <= i < |ss| ==> Lawful(ss[i], o, tenant)
  }

  /** `tenant` owns `o`, or `o` has no row yet. */
  predicate TenantOf(t: Tables, o: Id, tenant: Id) {
    o in t.operations ==> t.operations[o].tenant == tenant
  }

  lemma KeptTransitive(t0: Tables, t1: Tables, t2: Tables)
    requires Kept(t0, t1) && Kept(t1, t2)
    ensures Kept(t0, t2)
  {
  }

  lemma KeptReflexive(t: Tables)
    ensures Kept(t, t)
  {
  }

  lemma TouchesTransitive(t0: Tables, t1: Tables, t2: Tables, o: Id, tenant: Id)
    requires OnlyTouches(t0, t1, o, tenant) && OnlyTouches(t1, t2, o, tenant)
    ensures OnlyTouches(t0, t2, o, tenant)
  {
  }

  /** What one statement owes: well-formedness, monotone rows, and no row of another operation touched. */
  ghost predicate StepKeeps(t: Tables, t': Tables, o: Id, tenant: Id) {
    WellFormed(t') && TenantOf(t', o, tenant) && Kept(t, t') && OnlyTouches(t, t', o, tenant)
  }

  lemma AttemptWriteKeeps(t: Tables, id: Id, row: AttemptRow, o: Id, tenant: Id)
    requires WellFormed(t) && o in t.operations && TenantOf(t, o, tenant)
    requires row.operation == o && row.tenant == tenant && AttemptShape(row)
    requires id in t.attempts ==> AttemptAfter(t.attempts[id], row)
    ensures StepKeeps(t, t.(attempts := t.attempts[id := row]), o, tenant)
  {
  }

  lemma EvidenceWriteKeeps(t: Tables, id: Id, row: EvidenceRow, o: Id, tenant: Id)
    requires WellFormed(t) && o in t.operations && TenantOf(t, o, tenant)
    requires row.operation == o && row.tenant == tenant && row.bytes <= EVIDENCE_MAX_BYTES && id !in t.evidence
    ensures StepKeeps(t, t.(evidence := t.evidence[id := row]), o, tenant)
  {
  }

  lemma ReconciliationWriteKeeps(t: Tables, id: Id, row: ReconciliationRow, o: Id, tenant: Id)
    requires WellFormed(t) && o in t.operations && TenantOf(t, o, tenant)
    requires row.operation == o && row.tenant == tenant && ReconciliationShape(row)
    requires id in t.reconciliations ==> ReconciliationAfter(t.reconciliations[id], row)
    ensures StepKeeps(t, t.(reconciliations := t.reconciliations[id := row]), o, tenant)
  {
  }

  lemma DeliveryWriteKeeps(t: Tables, id: Id, row: DeliveryRow, o: Id, tenant: Id)
    requires WellFormed(t) && o in t.operations && TenantOf(t, o, tenant)
    requires row.operation == o && row.tenant == tenant && DeliveryShape(row)
    requires id in t.deliveries ==> DeliveryAfter(t.deliveries[id], row)
    ensures StepKeeps(t, t.(deliveries := t.deliveries[id := row]), o, tenant)
  {
  }

  lemma AcknowledgementWriteKeeps(t: Tables, id: Id, row: AcknowledgementRow, o: Id, tenant: Id)
    requires WellFormed(t) && o in t.operations && TenantOf(t, o, tenant)
    requires row.operation == o && row.tenant == tenant && AcknowledgementShape(row)
    requires id in t.acknowledgements ==> AcknowledgementAfter(t.acknowledgements[id], row)
    ensures StepKeeps(t, t.(acknowledgements := t.acknowledgements[id := row]), o, tenant)
  {
  }

  lemma OperationWriteKeeps(t: Tables, o: Id, row: OperationRow, tenant: Id)
    requires WellFormed(t) && o in t.operations && TenantOf(t, o, tenant)
    requires row.tenant == t.operations[o].tenant && row.user == t.operations[o].user
    requires row.version > t.operations[o].version
    ensures StepKeeps(t, t.(operations := t.operations[o := row]), o, tenant)
  {
  }

  lemma AttemptStatementKeeps(repo: Repository, t: Tables, s: Statement, o: Id, tenant: Id)
    requires WellFormed(t) && Lawful(s, o, tenant) && TenantOf(t, o, tenant)
    requires s.InsertAttempt? || s.MoveAttempt?
    requires Apply(repo, t, s).Done?
    ensures StepKeeps(t, Apply(repo, t, s).value, o, tenant)
  {
    var t' := Apply(repo, t, s).value;
    if t' != t {
      AttemptWriteKeeps(t, s.attemptId, t'.attempts[s.attemptId], o, tenant);
    }
  }

  lemma ReconciliationStatementKeeps(repo: Repository, t: Tables, s: Statement, o: Id, tenant: Id)
    requires WellFormed(t) && Lawful(s, o, tenant) && TenantOf(t, o, tenant)
    requires s.InsertReconciliation? || s.MoveReconciliation?
    requires Apply(repo, t, s).Done?
    ensures StepKeeps(t, Apply(repo, t, s).value, o, tenant)
  {
    var t' := Apply(repo, t, s).value;
    if t' != t {
      ReconciliationWriteKeeps(t, s.reconciliationId, t'.reconciliations[s.reconciliationId], o, tenant);
    }
  }

  lemma DeliveryStatementKeeps(repo: Repository, t: Tables, s: Statement, o: Id, tenant: Id)
    requires WellFormed(t) && Lawful(s, o, tenant) && TenantOf(t, o, tenant)
    requires s.InsertDelivery? || s.MoveDelivery?
    requires Apply(repo, t, s).Done?
    ensures StepKeeps(t, Apply(repo, t, s).value, o, tenant)
  {
    var t' := Apply(repo, t, s).value;
    if t' != t {
      DeliveryWriteKeeps(t, s.deliveryId, t'.deliveries[s.deliveryId], o, tenant);
    }
  }

  lemma AcknowledgementStatementKeeps(repo: Repository, t: Tables, s: Statement, o: Id, tenant: Id)
    requires WellFormed(t) && Lawful(s, o, tenant) && TenantOf(t, o, tenant)
    requires s.InsertAcknowledgement? || s.MoveAcknowledgement?
    requires Apply(repo, t, s).Done?
    ensures StepKeeps(t, Apply(repo, t, s).value, o, tenant)
  {
    var t' := Apply(repo, t, s).value;
    if t' != t {
      AcknowledgementWriteKeeps(t, s.acknowledgementId, t'.acknowledgements[s.acknowledgementId], o, tenant);
    }
  }

  lemma OtherStatementKeeps(repo: Repository, t: Tables, s: Statement, o: Id, tenant: Id)
    requires WellFormed(t) && Lawful(s, o, tenant) && TenantOf(t, o, tenant)
    requires s.InsertEvidence? || s.RequireSuccessEvidence? || s.UpdateOperation? || s.Refuse?
    requires Apply(repo, t, s).Done?
    ensures StepKeeps(t, Apply(repo, t, s).value, o, tenant)
  {
    if s.InsertEvidence? {
      EvidenceWriteKeeps(t, s.evidenceId, s.evidenceRow, o, tenant);
    } else if s.UpdateOperation? {
      OperationWriteKeeps(t, o, Apply(repo, t, s).value.operations[o], tenant);
    }
  }

  lemma ApplyKeeps(repo: Repository, t: Tables, s: Statement, o: Id, tenant: Id)
    requires WellFormed(t) && Lawful(s, o, tenant) && TenantOf(t, o, tenant)
    requires Apply(repo, t, s).Done?
    ensures StepKeeps(t, Apply(repo, t, s).value, o, tenant)
  {
    if s.InsertAttempt? || s.MoveAttempt? {
      AttemptStatementKeeps(repo, t, s, o, tenant);
    } else if s.InsertReconciliation? || s.MoveReconciliation? {
      ReconciliationStatementKeeps(repo, t, s, o, tenant);
    } else if s.InsertDelivery? || s.MoveDelivery? {
      DeliveryStatementKeeps(repo, t, s, o, tenant);
    } else if s.InsertAcknowledgement? || s.MoveAcknowledgement? {
      AcknowledgementStatementKeeps(repo, t, s, o, tenant);
    } else {
      OtherStatementKeeps(repo, t, s, o, tenant);
    }
  }

  lemma {:induction false} ExecKeeps(repo: Repository, t: Tables, ss: seq<Statement>, o: Id, tenant: Id)
    requires WellFormed(t) && AllLawful(ss, o, tenant) && TenantOf(t, o, tenant)
    requires Exec(repo, t, ss).Done?
    ensures WellFormed(Exec(repo, t, ss).value)
    ensures Kept(t, Exec(repo, t, ss).value)
    ensures OnlyTouches(t, Exec(repo, t, ss).value, o, tenant)
    decreases |ss|
  {
    if ss != [] {
      var t1 := Apply(repo, t, ss[0]).value;
      ApplyKeeps(repo, t, ss[0], o, tenant);
      ExecKeeps(repo, t1, ss[1..], o, tenant);
      var t2 := Exec(repo, t, ss).value;
      KeptTransitive(t, t1, t2);
      TouchesTransitive(t, t1, t2, o, tenant);
    }
  }

  lemma StartLawful(c: Call, op: OperationRow, attempt: Option<AttemptRow>, number: nat)
    requires number >= 1 && c.StartStageAttempt?
    ensures AllLawful(PlanRetryStart(c, op, attempt), c.operation, c.subject.tenant)
    ensures AllLawful(PlanOrdinaryStart(c, op, number), c.operation, c.subject.tenant)
  {
  }

  lemma OutcomeLawful(c: Call)
    requires c.CompleteReconciliation?
    ensures AllLawful(PlanOutcome(c), c.operation, c.subject.tenant)
  {
  }

  lemma AttemptCompletionLawful(c: Call, op: OperationRow, v: Views)
    requires c.CompleteStageAttempt?
    ensures AllLawful(PlanOn(c, op, v), c.operation, c.subject.tenant)
  {
  }

  lemma ReconciliationCompletionLawful(c: Call, op: OperationRow, v: Views)
    requires c.CompleteReconciliation?
    ensures AllLawful(PlanOn(c, op, v), c.operation, c.subject.tenant)
  {
    OutcomeLawful(c);
  }

  lemma TransitionLawful(c: Call, op: OperationRow, v: Views)
    requires c.TransitionOperation?
    ensures AllLawful(PlanOn(c, op, v), c.operation, c.subject.tenant)
  {
  }

  lemma PlanLawful(c: Call, v: Views)
    requires v.number >= 1
    ensures AllLawful(Plan(c, v), c.operation, c.subject.tenant)
  {
    if v.operation.Some? {
      if c.StartStageAttempt? {
        StartLawful(c, v.operation.value, v.attempt, v.number);
      } else if c.CompleteStageAttempt? {
        AttemptCompletionLawful(c, v.operation.value, v);
      } else if c.CompleteReconciliation? {
        ReconciliationCompletionLawful(c, v.operation.value, v);
      } else if c.TransitionOperation? {
        TransitionLawful(c, v.operation.value, v);
      }
    }
  }
}
