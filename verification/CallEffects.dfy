/**
 * What every service call does to the tables, told from the rows and the call's input alone: the exact rows a commit
 * leaves, whatever its reads were, and the exact condition under which a call that reads current rows commits.
 */
module CallEffects {
  import opened Outcomes
  import opened LifecycleStateMachine
  import opened RetryPolicy
  import opened ActivationStore
  import opened LifecycleCalls
  import opened StoreInvariants
  import opened LifecycleRuns

  // ---------------------------------------------------------------- evidence offered by a call

  /** A subject sees its tenant's operations: all of them as an administrator, else only its own. */
  predicate Sees(s: Subject, row: OperationRow) {
    row.tenant == s.tenant && (s.isAdmin || (s.user.Some? && s.user == row.user))
  }

  predicate Offers(c: Call) {
    c.TransitionOperation? || c.CompleteStageAttempt? || c.CompleteReconciliation?
  }

  /** The evidence row a call would store; completing an attempt links it to that attempt. */
  function Offered(c: Call): Option<EvidenceRow>
    requires Offers(c)
  {
    if c.evidence.None? then None
    else
      var e := c.evidence.value;
      var link := if c.CompleteStageAttempt? then Some(c.attemptId) else e.attempt;
      Some(EvidenceRow(c.operation, c.subject.tenant, link, e.kind, e.source, e.sourceRef, CallerSummary(e.text),
                       e.bytes))
  }

  function OfferedId(c: Call): Option<Id>
    requires Offers(c)
  {
    if c.evidence.Some? then Some(c.evidenceId) else None
  }

  predicate OffersSuccessKind(c: Call)
    requires Offers(c)
  {
    && c.evidence.Some?
    && (|| c.evidence.value.kind == ActivationSuccessReadback || c.evidence.value.kind == ExecutionReadback
        || c.evidence.value.kind == ProviderReadback || c.evidence.value.kind == ReconciliationReadback)
  }

  /** A row the evidence table can take: small enough, a new id, a link that exists, and new content. */
  predicate Storable(t: Tables, id: Id, row: EvidenceRow) {
    && row.bytes <= 32768 && id !in t.evidence && row.operation in t.operations
    && (row.attempt.Some? ==> row.attempt.value in t.attempts)
    && forall e :: e in t.evidence ==>
         t.evidence[e].operation != row.operation || t.evidence[e].kind != row.kind ||
         t.evidence[e].summary != row.summary
  }

  predicate OfferStorable(t: Tables, c: Call)
    requires Offers(c)
  {
    Offered(c).Some? ==> Storable(t, c.evidenceId, Offered(c).value)
  }

  function EvidenceAfter(t: Tables, c: Call): map<Id, EvidenceRow>
    requires Offers(c)
  {
    if Offered(c).Some? then t.evidence[c.evidenceId := Offered(c).value] else t.evidence
  }

  /** `o` is a row the subject sees, still at the version the caller expects. */
  predicate Current(t: Tables, o: Id, s: Subject, expected: nat) {
    o in t.operations && Sees(s, t.operations[o]) && t.operations[o].version == expected
  }

  function OperationAfterMove(t: Tables, o: Id, to: OperationStatus, stage: Option<string>): map<Id, OperationRow>
    requires o in t.operations
  {
    var row := t.operations[o];
    t.operations[o := OperationRow(row.tenant, row.user, to, if stage.Some? then stage.value else row.stage,
                                   row.version + 1)]
  }

  // ---------------------------------------------------------------- statements, one at a time

  lemma Stored(repo: Repository, t: Tables, id: Id, row: EvidenceRow)
    ensures Apply(repo, t, InsertEvidence(id, row)).Done? <==> Storable(t, id, row)
    ensures Storable(t, id, row) ==>
              Apply(repo, t, InsertEvidence(id, row)).value == t.(evidence := t.evidence[id := row])
  {
  }

  lemma Updated(repo: Repository, t: Tables, o: Id, s: Subject, expected: nat, to: OperationStatus,
                stage: Option<string>)
    ensures var r := Exec(repo, t, [UpdateOperation(o, s, expected, to, stage)]);
            && (r.Done? <==> Current(t, o, s, expected))
            && (r.Done? ==> r.value == t.(operations := OperationAfterMove(t, o, to, stage)))
  {
    ExecOne(repo, t, UpdateOperation(o, s, expected, to, stage));
  }

  /** Running an append before `rest`: nothing when nothing is offered, else the row is stored or all is refused. */
  lemma Appended(repo: Repository, t: Tables, e: Option<EvidenceInput>, id: Id, o: Id, tenant: Id,
                 rest: seq<Statement>)
    ensures var ss := AppendEvidence(e, id, o, tenant) + rest;
            if e.None? then Exec(repo, t, ss) == Exec(repo, t, rest)
            else
              var row := EvidenceFor(e.value, o, tenant);
              if Storable(t, id, row)
              then Exec(repo, t, ss) == Exec(repo, t.(evidence := t.evidence[id := row]), rest)
              else Exec(repo, t, ss).Refused?
  {
    var ss := AppendEvidence(e, id, o, tenant) + rest;
    if e.None? {
      assert ss == rest;
    } else {
      var row := EvidenceFor(e.value, o, tenant);
      assert ss[0] == InsertEvidence(id, row) && ss[1..] == rest;
      Stored(repo, t, id, row);
    }
  }

  lemma Checked(repo: Repository, t: Tables, id: Option<Id>, o: Id, tenant: Id, rest: seq<Statement>)
    ensures var ss := [RequireSuccessEvidence(id, o, tenant)] + rest;
            if Apply(repo, t, RequireSuccessEvidence(id, o, tenant)).Done?
            then Exec(repo, t, ss) == Exec(repo, t, rest) else Exec(repo, t, ss).Refused?
  {
    var ss := [RequireSuccessEvidence(id, o, tenant)] + rest;
    assert ss[1..] == rest;
  }

  function SuccessCheck(c: Call, demanded: bool): seq<Statement>
    requires Offers(c)
  {
    if demanded then [RequireSuccessEvidence(EvidenceIdOf(c.evidence, c.evidenceId), c.operation, c.subject.tenant)]
    else []
  }

  /** Evidence, then its read-back if demanded, then the rest: the read-back finds the row just stored. */
  lemma EvidenceFirst(repo: Repository, t: Tables, c: Call, demanded: bool, rest: seq<Statement>)
    requires c.TransitionOperation? || c.CompleteReconciliation?
    requires demanded ==> OffersSuccessKind(c)
    ensures var append := AppendEvidence(c.evidence, c.evidenceId, c.operation, c.subject.tenant);
            var ss := append + SuccessCheck(c, demanded) + rest;
            if OfferStorable(t, c) then Exec(repo, t, ss) == Exec(repo, t.(evidence := EvidenceAfter(t, c)), rest)
            else Exec(repo, t, ss).Refused?
  {
    var append := AppendEvidence(c.evidence, c.evidenceId, c.operation, c.subject.tenant);
    var check := SuccessCheck(c, demanded);
    assert append + check + rest == append + (check + rest);
    Appended(repo, t, c.evidence, c.evidenceId, c.operation, c.subject.tenant, check + rest);
    if OfferStorable(t, c) {
      var t1 := t.(evidence := EvidenceAfter(t, c));
      if demanded {
        Checked(repo, t1, EvidenceIdOf(c.evidence, c.evidenceId), c.operation, c.subject.tenant, rest);
      } else {
        assert check + rest == rest;
      }
    }
  }

  lemma Pair(repo: Repository, t: Tables, a: Statement, b: Statement)
    ensures var r := Apply(repo, t, a);
            if r.Done? then Exec(repo, t, [a, b]) == Exec(repo, r.value, [b]) else Exec(repo, t, [a, b]).Refused?
  {
    assert [a, b][1..] == [b];
  }

  lemma Triple(repo: Repository, t: Tables, a: Statement, b: Statement, u: Statement)
    ensures var r := Apply(repo, t, a);
            if r.Done? then Exec(repo, t, [a, b, u]) == Exec(repo, r.value, [b, u])
            else Exec(repo, t, [a, b, u]).Refused?
  {
    assert [a, b, u][1..] == [b, u];
  }

  /** What a call reads when nothing changes before its commit. */
  predicate ReadsNow(t: Tables, c: Call, v: Views) {
    && v.operation == ReadOperation(t, c) && v.attempt == ReadAttempt(t, c) && v.number >= 1
  }

  // ---------------------------------------------------------------- transitionOperation

  /** The transition is open: a table edge, storable evidence, and success evidence to become active. */
  predicate TransitionOpen(t: Tables, c: Call)
    requires c.TransitionOperation?
  {
    && Current(t, c.operation, c.subject, c.expected)
    && c.to in Successors(t.operations[c.operation].status)
    && OfferStorable(t, c)
    && (c.to == Active ==> OffersSuccessKind(c))
  }

  function AfterTransition(t: Tables, c: Call): Tables
    requires c.TransitionOperation? && c.operation in t.operations
  {
    t.(operations := OperationAfterMove(t, c.operation, c.to, c.stage), evidence := EvidenceAfter(t, c))
  }

  function TransitionStatements(c: Call): seq<Statement>
    requires c.TransitionOperation?
  {
    AppendEvidence(c.evidence, c.evidenceId, c.operation, c.subject.tenant) + SuccessCheck(c, c.to == Active)
    + [UpdateOperation(c.operation, c.subject, c.expected, c.to, c.stage)]
  }

  lemma TransitionPlan(c: Call, op: OperationRow)
    requires c.TransitionOperation? && op.version == c.expected && c.to in Successors(op.status)
    ensures PlanTransition(c, op) == TransitionStatements(c)
  {
    CheckIsTable(op.status, c.to);
  }

  lemma TransitionRuns(repo: Repository, t: Tables, c: Call)
    requires c.TransitionOperation? && Admit(c).Done?
    ensures var r := Exec(repo, t, TransitionStatements(c));
            && (r.Done? <==> Current(t, c.operation, c.subject, c.expected) && OfferStorable(t, c))
            && (r.Done? ==> r.value == AfterTransition(t, c))
  {
    var update := [UpdateOperation(c.operation, c.subject, c.expected, c.to, c.stage)];
    EvidenceFirst(repo, t, c, c.to == Active, update);
    Updated(repo, t.(evidence := EvidenceAfter(t, c)), c.operation, c.subject, c.expected, c.to, c.stage);
  }

  /** A transition that commits was open on the rows it commits against, and leaves exactly these rows. */
  lemma TransitionCommits(repo: Repository, t: Tables, c: Call, v: Views)
    requires c.TransitionOperation? && Honest(t, Txn(c, v)) && Exec(repo, t, Plan(c, v)).Done?
    ensures TransitionOpen(t, c) && Exec(repo, t, Plan(c, v)).value == AfterTransition(t, c)
  {
    DoneMeansClean(repo, t, Plan(c, v));
    assert !Plan(c, v)[0].Refuse?;
    CheckIsTable(v.operation.value.status, c.to);
    TransitionPlan(c, v.operation.value);
    TransitionRuns(repo, t, c);
  }

  lemma OpenTransitionCommits(repo: Repository, t: Tables, c: Call, v: Views)
    requires c.TransitionOperation? && ReadsNow(t, c, v) && TransitionOpen(t, c)
    ensures Exec(repo, t, Plan(c, v)).Done?
  {
    TransitionPlan(c, t.operations[c.operation]);
    TransitionRuns(repo, t, c);
  }

  // ---------------------------------------------------------------- completeReconciliation

  /** The reconciliation row belongs to the operation and is still pending, or already holds this outcome. */
  predicate ReconciliationReady(t: Tables, c: Call)
    requires c.CompleteReconciliation?
  {
    && c.reconciliationId in t.reconciliations
    && var row := t.reconciliations[c.reconciliationId];
       && row.operation == c.operation && row.tenant == c.subject.tenant
       && (row.status == ReconciliationPending || row.status == c.outcome)
  }

  predicate ReconcileOpen(t: Tables, c: Call)
    requires c.CompleteReconciliation?
  {
    && Current(t, c.operation, c.subject, c.expected) && t.operations[c.operation].status == Reconciling
    && c.outcome != ReconciliationPending
    && (c.outcome == OutcomeExecuted ==> OffersSuccessKind(c))
    && OfferStorable(t, c)
    && ReconciliationReady(t, c)
  }

  function ReconciliationsAfter(t: Tables, c: Call): map<Id, ReconciliationRow>
    requires c.CompleteReconciliation? && c.reconciliationId in t.reconciliations
  {
    var row := t.reconciliations[c.reconciliationId];
    if row.status == ReconciliationPending
    then t.reconciliations[c.reconciliationId := row.(status := c.outcome, evidenceRef := OfferedId(c),
                                                      completedAt := Some(c.now))]
    else t.reconciliations
  }

  /** What an outcome means for its operation. */
  function Verdict(outcome: ReconciliationStatus): OperationStatus {
    if outcome == OutcomeExecuted then Active
    else if outcome == OutcomeConflicting then Failed
    else if outcome == OutcomeStillUnknown then UnknownOutcome
    else Degraded
  }

  function AfterReconcile(t: Tables, c: Call): Tables
    requires c.CompleteReconciliation? && c.operation in t.operations && c.reconciliationId in t.reconciliations
  {
    t.(operations := OperationAfterMove(t, c.operation, Verdict(c.outcome), None), evidence := EvidenceAfter(t, c),
       reconciliations := ReconciliationsAfter(t, c))
  }

  function OutcomeStatements(c: Call): seq<Statement>
    requires c.CompleteReconciliation?
  {
    [MoveReconciliation(c.reconciliationId, c.operation, c.subject.tenant, c.outcome,
                        EvidenceIdOf(c.evidence, c.evidenceId), c.now),
     UpdateOperation(c.operation, c.subject, c.expected, Verdict(c.outcome), None)]
  }

  function ReconcileStatements(c: Call): seq<Statement>
    requires c.CompleteReconciliation?
  {
    AppendEvidence(c.evidence, c.evidenceId, c.operation, c.subject.tenant)
    + SuccessCheck(c, c.outcome == OutcomeExecuted) + OutcomeStatements(c)
  }

  lemma OutcomePlan(c: Call)
    requires c.CompleteReconciliation? && Admit(c).Done? && c.outcome != ReconciliationPending
    ensures PlanOutcome(c) == OutcomeStatements(c)
  {
  }

  lemma OutcomeRuns(repo: Repository, t: Tables, c: Call)
    requires c.CompleteReconciliation? && c.outcome != ReconciliationPending
    ensures var r := Exec(repo, t, OutcomeStatements(c));
            && (r.Done? <==> ReconciliationReady(t, c) && Current(t, c.operation, c.subject, c.expected))
            && (r.Done? ==> r.value == t.(operations := OperationAfterMove(t, c.operation, Verdict(c.outcome), None),
                                          reconciliations := ReconciliationsAfter(t, c)))
  {
    var ss := OutcomeStatements(c);
    Pair(repo, t, ss[0], ss[1]);
    if ReconciliationReady(t, c) {
      var t1 := t.(reconciliations := ReconciliationsAfter(t, c));
      assert Apply(repo, t, ss[0]) == Done(t1);
      Updated(repo, t1, c.operation, c.subject, c.expected, Verdict(c.outcome), None);
    }
  }

  lemma ReconcileRuns(repo: Repository, t: Tables, c: Call)
    requires c.CompleteReconciliation? && Admit(c).Done? && c.outcome != ReconciliationPending
    ensures var r := Exec(repo, t, ReconcileStatements(c));
            && (r.Done? <==> && OfferStorable(t, c) && ReconciliationReady(t, c)
                             && Current(t, c.operation, c.subject, c.expected))
            && (r.Done? ==> r.value == AfterReconcile(t, c))
  {
    EvidenceFirst(repo, t, c, c.outcome == OutcomeExecuted, OutcomeStatements(c));
    OutcomeRuns(repo, t.(evidence := EvidenceAfter(t, c)), c);
  }

  lemma ReconcilePlan(c: Call, op: OperationRow)
    requires c.CompleteReconciliation? && Admit(c).Done? && c.outcome != ReconciliationPending
    requires op.version == c.expected && op.status == Reconciling
    ensures PlanReconcile(c, op) == ReconcileStatements(c)
  {
    OutcomePlan(c);
  }

  lemma ReconcileReads(c: Call, v: Views)
    requires c.CompleteReconciliation? && Clean(Plan(c, v))
    ensures Admit(c).Done? && c.outcome != ReconciliationPending
    ensures v.operation.Some? && v.operation.value.version == c.expected && v.operation.value.status == Reconciling
    ensures Plan(c, v) == ReconcileStatements(c)
  {
    var ss := Plan(c, v);
    assert !ss[0].Refuse? && !ss[|ss| - 1].Refuse?;
    assert ss == PlanReconcile(c, v.operation.value);
    assert ss[|ss| - 1] == PlanOutcome(c)[|PlanOutcome(c)| - 1];
    ReconcilePlan(c, v.operation.value);
  }

  lemma ViewIsCurrent(t: Tables, c: Call, v: Views)
    requires Honest(t, Txn(c, v)) && v.operation.Some?
    ensures c.operation in t.operations
    ensures t.operations[c.operation].version == v.operation.value.version ==>
              t.operations[c.operation] == v.operation.value
  {
  }

  lemma ReconcileRanOn(repo: Repository, t: Tables, c: Call, op: OperationRow)
    requires c.CompleteReconciliation? && Admit(c).Done? && c.outcome != ReconciliationPending
    requires op.version == c.expected && op.status == Reconciling && c.operation in t.operations
    requires t.operations[c.operation].version == op.version ==> t.operations[c.operation] == op
    requires Exec(repo, t, ReconcileStatements(c)).Done?
    ensures ReconcileOpen(t, c) && Exec(repo, t, ReconcileStatements(c)).value == AfterReconcile(t, c)
  {
    ReconcileRuns(repo, t, c);
  }

  /** A reconciliation that commits was open on the rows it commits against, and leaves exactly these rows. */
  lemma ReconcileCommits(repo: Repository, t: Tables, c: Call, v: Views)
    requires c.CompleteReconciliation? && Honest(t, Txn(c, v)) && Exec(repo, t, Plan(c, v)).Done?
    ensures ReconcileOpen(t, c) && Exec(repo, t, Plan(c, v)).value == AfterReconcile(t, c)
  {
    DoneMeansClean(repo, t, Plan(c, v));
    ReconcileReads(c, v);
    ViewIsCurrent(t, c, v);
    ReconcileRanOn(repo, t, c, v.operation.value);
  }

  lemma OpenReconcileCommits(repo: Repository, t: Tables, c: Call, v: Views)
    requires c.CompleteReconciliation? && ReadsNow(t, c, v) && ReconcileOpen(t, c)
    ensures Exec(repo, t, Plan(c, v)).Done?
  {
    ReconcilePlan(c, t.operations[c.operation]);
    ReconcileRuns(repo, t, c);
  }

  // ---------------------------------------------------------------- beginReconciliation

  predicate BeginOpen(t: Tables, c: Call, n: nat)
    requires c.BeginReconciliation?
  {
    && Current(t, c.operation, c.subject, c.expected)
    && (t.operations[c.operation].status == UnknownOutcome || t.operations[c.operation].status == RetryScheduled)
    && ReconciliationSlotFree(t, c, n)
  }

  predicate ReconciliationSlotFree(t: Tables, c: Call, n: nat)
    requires c.BeginReconciliation?
  {
    && c.reconciliationId !in t.reconciliations
    && forall r :: r in t.reconciliations ==>
         t.reconciliations[r].operation != c.operation || t.reconciliations[r].number != n
  }

  function AfterBegin(t: Tables, c: Call, n: nat): Tables
    requires c.BeginReconciliation? && c.operation in t.operations
  {
    t.(operations := OperationAfterMove(t, c.operation, Reconciling, None),
       reconciliations := t.reconciliations[c.reconciliationId := ReconciliationRow(
         c.operation, c.subject.tenant, n, c.reason, c.source, ReconciliationPending, None, None)])
  }

  function BeginStatements(c: Call, n: nat): seq<Statement>
    requires c.BeginReconciliation?
  {
    [InsertReconciliation(c.reconciliationId, ReconciliationRow(c.operation, c.subject.tenant, n, c.reason, c.source,
                                                                ReconciliationPending, None, None)),
     UpdateOperation(c.operation, c.subject, c.expected, Reconciling, None)]
  }

  lemma BeginRuns(repo: Repository, t: Tables, c: Call, n: nat)
    requires c.BeginReconciliation?
    ensures var r := Exec(repo, t, BeginStatements(c, n));
            && (r.Done? <==> Current(t, c.operation, c.subject, c.expected) && ReconciliationSlotFree(t, c, n))
            && (r.Done? ==> r.value == AfterBegin(t, c, n))
  {
    var ss := BeginStatements(c, n);
    Pair(repo, t, ss[0], ss[1]);
    if Apply(repo, t, ss[0]).Done? {
      Updated(repo, Apply(repo, t, ss[0]).value, c.operation, c.subject, c.expected, Reconciling, None);
    }
  }

  lemma BeginPlan(c: Call, op: OperationRow, n: nat)
    requires c.BeginReconciliation?
    ensures if op.version == c.expected && (op.status == UnknownOutcome || op.status == RetryScheduled)
            then PlanBegin(c, op, n) == BeginStatements(c, n) else PlanBegin(c, op, n)[0].Refuse?
  {
  }

  lemma BeginCommits(repo: Repository, t: Tables, c: Call, v: Views)
    requires c.BeginReconciliation? && Honest(t, Txn(c, v)) && Exec(repo, t, Plan(c, v)).Done?
    ensures BeginOpen(t, c, v.number) && Exec(repo, t, Plan(c, v)).value == AfterBegin(t, c, v.number)
  {
    DoneMeansClean(repo, t, Plan(c, v));
    assert !Plan(c, v)[0].Refuse?;
    BeginPlan(c, v.operation.value, v.number);
    BeginRuns(repo, t, c, v.number);
  }

  lemma OpenBeginCommits(repo: Repository, t: Tables, c: Call, v: Views)
    requires c.BeginReconciliation? && ReadsNow(t, c, v) && BeginOpen(t, c, v.number)
    ensures Exec(repo, t, Plan(c, v)).Done?
  {
    BeginPlan(c, t.operations[c.operation], v.number);
    BeginRuns(repo, t, c, v.number);
  }

  // ---------------------------------------------------------------- scheduleRetry

  /** The stage a retry is reserved for: the one asked for, else the text of the target status. */
  function RetryStage(c: Call): string
    requires c.ScheduleRetry?
  {
    match c.stageOverride
    case Some(stage) => stage
    case None =>
      if c.target == Some(Authenticating) then "authenticating"
      else if c.target == Some(ResolvingSession) then "resolving_session"
      else if c.target == Some(Bootstrapping) then "bootstrapping"
      else if c.target == Some(Validating) then "validating"
      else if c.target == Some(PreparingTools) then "preparing_tools"
      else if c.target == Some(Executing) then "executing"
      else "reconciling"
  }

  predicate RetryTarget(target: Option<OperationStatus>) {
    && target.Some?
    && target.value in {Authenticating, ResolvingSession, Bootstrapping, Validating, PreparingTools, Executing,
                        Reconciling}
  }

  predicate NumberFree(t: Tables, o: Id, stage: string, n: nat) {
    forall a :: a in t.attempts ==>
      t.attempts[a].operation != o || t.attempts[a].stage != stage || t.attempts[a].number != n
  }

  function Approval(c: Call, from: OperationStatus, n: nat): EvidenceRow
    requires c.ScheduleRetry? && c.target.Some?
  {
    EvidenceRow(c.operation, c.subject.tenant, Some(c.newAttemptId), GovernedRetryAuthorization, GovernanceRegistry,
                Some(c.approvalRef), RetrySummary(from, c.target.value, RetryStage(c), n), 0)
  }

  predicate ScheduleOpen(t: Tables, c: Call, n: nat)
    requires c.ScheduleRetry?
  {
    && Current(t, c.operation, c.subject, c.expected)
    && var from := t.operations[c.operation].status;
       && from in {Degraded, AuthorizationGated, ValidationRateLimited, ContractDegraded, Failed}
       && c.approved && c.approvalRef != "" && RetryTarget(c.target)
       && c.newAttemptId !in t.attempts && NumberFree(t, c.operation, RetryStage(c), n)
       && Storable(WithReservation(t, c, n), c.evidenceId, Approval(c, from, n))
  }

  function WithReservation(t: Tables, c: Call, n: nat): Tables
    requires c.ScheduleRetry?
  {
    t.(attempts := t.attempts[c.newAttemptId := AttemptRow(
         c.operation, c.subject.tenant, RetryStage(c), n, GovernedRetry, Pending, true, false, None, None, None, None)])
  }

  function AfterSchedule(t: Tables, c: Call, n: nat): Tables
    requires c.ScheduleRetry? && c.target.Some? && c.operation in t.operations
  {
    WithReservation(t, c, n).(
      evidence := t.evidence[c.evidenceId := Approval(c, t.operations[c.operation].status, n)],
      operations := OperationAfterMove(t, c.operation, RetryScheduled, None))
  }

  function ScheduleStatements(c: Call, from: OperationStatus, n: nat): seq<Statement>
    requires c.ScheduleRetry? && c.target.Some?
  {
    [InsertAttempt(c.newAttemptId, AttemptRow(c.operation, c.subject.tenant, RetryStage(c), n, GovernedRetry, Pending,
                                              true, false, None, None, None, None)),
     InsertEvidence(c.evidenceId, Approval(c, from, n)),
     UpdateOperation(c.operation, c.subject, c.expected, RetryScheduled, None)]
  }

  lemma SchedulePlan(c: Call, op: OperationRow, n: nat)
    requires c.ScheduleRetry? && Clean(PlanSchedule(c, op, n))
    ensures op.version == c.expected && c.approved && c.approvalRef != "" && RetryTarget(c.target)
    ensures op.status in {Degraded, AuthorizationGated, ValidationRateLimited, ContractDegraded, Failed}
  {
    assert !PlanSchedule(c, op, n)[0].Refuse?;
  }

  lemma SchedulePlanIs(c: Call, op: OperationRow, n: nat)
    requires c.ScheduleRetry? && op.version == c.expected && c.approved && c.approvalRef != "" && RetryTarget(c.target)
    requires op.status in {Degraded, AuthorizationGated, ValidationRateLimited, ContractDegraded, Failed}
    ensures PlanSchedule(c, op, n) == ScheduleStatements(c, op.status, n)
  {
    assert StageOf(c) == RetryStage(c);
  }

  lemma ScheduleRuns(repo: Repository, t: Tables, c: Call, from: OperationStatus, n: nat)
    requires c.ScheduleRetry? && c.target.Some?
    ensures var r := Exec(repo, t, ScheduleStatements(c, from, n));
            && (r.Done? <==> && Current(t, c.operation, c.subject, c.expected) && c.newAttemptId !in t.attempts
                             && NumberFree(t, c.operation, RetryStage(c), n)
                             && Storable(WithReservation(t, c, n), c.evidenceId, Approval(c, from, n)))
            && (r.Done? && t.operations[c.operation].status == from ==> r.value == AfterSchedule(t, c, n))
  {
    var ss := ScheduleStatements(c, from, n);
    Triple(repo, t, ss[0], ss[1], ss[2]);
    if Apply(repo, t, ss[0]).Done? {
      var t1 := WithReservation(t, c, n);
      assert Apply(repo, t, ss[0]) == Done(t1);
      Pair(repo, t1, ss[1], ss[2]);
      Stored(repo, t1, c.evidenceId, Approval(c, from, n));
      if Storable(t1, c.evidenceId, Approval(c, from, n)) {
        var t2 := t1.(evidence := t1.evidence[c.evidenceId := Approval(c, from, n)]);
        Updated(repo, t2, c.operation, c.subject, c.expected, RetryScheduled, None);
      }
    }
  }

  lemma ScheduleCommits(repo: Repository, t: Tables, c: Call, v: Views)
    requires c.ScheduleRetry? && Honest(t, Txn(c, v)) && Exec(repo, t, Plan(c, v)).Done?
    ensures ScheduleOpen(t, c, v.number) && Exec(repo, t, Plan(c, v)).value == AfterSchedule(t, c, v.number)
  {
    DoneMeansClean(repo, t, Plan(c, v));
    assert !Plan(c, v)[0].Refuse?;
    var op := v.operation.value;
    SchedulePlan(c, op, v.number);
    SchedulePlanIs(c, op, v.number);
    ScheduleRuns(repo, t, c, op.status, v.number);
  }

  lemma OpenScheduleCommits(repo: Repository, t: Tables, c: Call, v: Views)
    requires c.ScheduleRetry? && ReadsNow(t, c, v) && ScheduleOpen(t, c, v.number)
    ensures Exec(repo, t, Plan(c, v)).Done?
  {
    var op := t.operations[c.operation];
    SchedulePlanIs(c, op, v.number);
    ScheduleRuns(repo, t, c, op.status, v.number);
  }

  // ---------------------------------------------------------------- completeStageAttempt

  predicate HoldsAttempt(t: Tables, id: Id, o: Id, tenant: Id) {
    id in t.attempts && t.attempts[id].operation == o && t.attempts[id].tenant == tenant
  }

  predicate AttemptMayMove(from: AttemptStatus, to: AttemptStatus) {
    || (from == Pending && (to == Running || to == AttemptCancelled))
    || (from == Running && to in {AttemptSucceeded, AttemptDegraded, AttemptFailed, AttemptUnknown, AttemptCancelled})
  }

  predicate CompletionOpen(t: Tables, c: Call)
    requires c.CompleteStageAttempt?
  {
    && c.operation in t.operations && Sees(c.subject, t.operations[c.operation])
    && HoldsAttempt(t, c.attemptId, c.operation, c.subject.tenant)
    && AttemptMayMove(t.attempts[c.attemptId].status, c.attemptTo)
    && OfferStorable(t, c)
  }

  /**
   * The completed attempt. The lifecycle repository stores the caller's fields; the persistence repository keeps
   * `retryable` for degraded and failed attempts only, and errors for those and unknown outcomes only.
   */
  function CompletedAttempt(repo: Repository, t: Tables, c: Call): AttemptRow
    requires c.CompleteStageAttempt? && c.attemptId in t.attempts
  {
    var (row, to) := (t.attempts[c.attemptId], c.attemptTo);
    var failed := to == AttemptDegraded || to == AttemptFailed;
    var keepsErrors := repo.LifecycleRepository? || failed || to == AttemptUnknown;
    AttemptRow(row.operation, row.tenant, row.stage, row.number, row.source, to,
               c.retryable && (repo.LifecycleRepository? || failed), to == AttemptUnknown,
               if keepsErrors then c.errorCode else None, if keepsErrors then c.errorMessage else None,
               OfferedId(c), if to == Running then None else Some(c.now))
  }

  function AfterCompletion(repo: Repository, t: Tables, c: Call): Tables
    requires c.CompleteStageAttempt? && c.attemptId in t.attempts
  {
    t.(evidence := EvidenceAfter(t, c),
       attempts := if t.attempts[c.attemptId].status == c.attemptTo then t.attempts
                   else t.attempts[c.attemptId := CompletedAttempt(repo, t, c)])
  }

  /** What a committed completion found: a legal move, or the attempt already where the caller wants it. */
  predicate CompletionFound(t: Tables, c: Call)
    requires c.CompleteStageAttempt?
  {
    && HoldsAttempt(t, c.attemptId, c.operation, c.subject.tenant)
    && (AttemptMayMove(t.attempts[c.attemptId].status, c.attemptTo) || t.attempts[c.attemptId].status == c.attemptTo)
    && OfferStorable(t, c)
  }

  function CompletionMove(c: Call, from: AttemptStatus): Statement
    requires c.CompleteStageAttempt?
  {
    MoveAttempt(c.attemptId, c.operation, c.subject.tenant, from, c.attemptTo,
                AttemptFields(c.retryable, c.attemptTo == AttemptUnknown, c.errorCode, c.errorMessage,
                              EvidenceIdOf(c.evidence, c.evidenceId)),
                c.now)
  }

  function LinkedOffer(c: Call): Option<EvidenceInput>
    requires c.CompleteStageAttempt?
  {
    if c.evidence.None? then None else Some(c.evidence.value.(attempt := Some(c.attemptId)))
  }

  lemma CompletionMoves(repo: Repository, t: Tables, c: Call, from: AttemptStatus)
    requires c.CompleteStageAttempt? && AttemptMayMove(from, c.attemptTo) && AttemptsOk(t.attempts, t.operations)
    ensures var r := Exec(repo, t, [CompletionMove(c, from)]);
            && (r.Done? <==> && HoldsAttempt(t, c.attemptId, c.operation, c.subject.tenant)
                             && t.attempts[c.attemptId].status in {from, c.attemptTo})
            && (r.Done? ==> r.value == t.(attempts := AfterCompletion(repo, t, c).attempts))
  {
    ExecOne(repo, t, CompletionMove(c, from));
    if HoldsAttempt(t, c.attemptId, c.operation, c.subject.tenant) && t.attempts[c.attemptId].status == from {
      assert AttemptShape(t.attempts[c.attemptId]);
    }
  }

  lemma LinkedAppend(repo: Repository, t: Tables, c: Call, rest: seq<Statement>)
    requires c.CompleteStageAttempt?
    ensures var ss := AppendEvidence(LinkedOffer(c), c.evidenceId, c.operation, c.subject.tenant) + rest;
            if OfferStorable(t, c) then Exec(repo, t, ss) == Exec(repo, t.(evidence := EvidenceAfter(t, c)), rest)
            else Exec(repo, t, ss).Refused?
  {
    Appended(repo, t, LinkedOffer(c), c.evidenceId, c.operation, c.subject.tenant, rest);
  }

  lemma CompletionRuns(repo: Repository, t: Tables, c: Call, from: AttemptStatus)
    requires c.CompleteStageAttempt? && AttemptMayMove(from, c.attemptTo) && WellFormed(t)
    ensures var append := AppendEvidence(LinkedOffer(c), c.evidenceId, c.operation, c.subject.tenant);
            var r := Exec(repo, t, append + [CompletionMove(c, from)]);
            && (r.Done? <==> && OfferStorable(t, c) && HoldsAttempt(t, c.attemptId, c.operation, c.subject.tenant)
                             && t.attempts[c.attemptId].status in {from, c.attemptTo})
            && (r.Done? ==> r.value == AfterCompletion(repo, t, c))
  {
    var t1 := t.(evidence := EvidenceAfter(t, c));
    LinkedAppend(repo, t, c, [CompletionMove(c, from)]);
    CompletionMoves(repo, t1, c, from);
  }

  lemma CompletionPlan(c: Call, attempt: Option<AttemptRow>)
    requires c.CompleteStageAttempt?
    ensures if attempt.Some? && AttemptMayMove(attempt.value.status, c.attemptTo)
            then PlanCompletion(c, attempt) ==
                 AppendEvidence(LinkedOffer(c), c.evidenceId, c.operation, c.subject.tenant)
                 + [CompletionMove(c, attempt.value.status)]
            else PlanCompletion(c, attempt)[0].Refuse?
  {
  }

  lemma CompletionCommits(repo: Repository, t: Tables, c: Call, v: Views)
    requires c.CompleteStageAttempt? && WellFormed(t) && Exec(repo, t, Plan(c, v)).Done?
    ensures CompletionFound(t, c) && Exec(repo, t, Plan(c, v)).value == AfterCompletion(repo, t, c)
  {
    DoneMeansClean(repo, t, Plan(c, v));
    assert !Plan(c, v)[0].Refuse?;
    CompletionPlan(c, v.attempt);
    CompletionRuns(repo, t, c, v.attempt.value.status);
  }

  lemma CompletionCommitsIff(repo: Repository, t: Tables, c: Call, v: Views)
    requires c.CompleteStageAttempt? && WellFormed(t) && ReadsNow(t, c, v)
    ensures Exec(repo, t, Plan(c, v)).Done? <==> CompletionOpen(t, c)
  {
    CompletionPlan(c, v.attempt);
    if v.attempt.Some? && AttemptMayMove(v.attempt.value.status, c.attemptTo) {
      CompletionRuns(repo, t, c, v.attempt.value.status);
    }
  }

  // ---------------------------------------------------------------- startStageAttempt

  /** A start on a reserved attempt: the operation waits for its retry and the attempt is a retry of that stage. */
  predicate RetryStartFound(t: Tables, c: Call)
    requires c.StartStageAttempt?
  {
    && c.reserved.Some? && RetryTarget(c.target) && c.expectedIfTarget.Some?
    && Current(t, c.operation, c.subject, c.expectedIfTarget.value)
    && t.operations[c.operation].status == RetryScheduled
    && HoldsAttempt(t, c.reserved.value, c.operation, c.subject.tenant)
    && t.attempts[c.reserved.value].stage == c.stageKey && t.attempts[c.reserved.value].source == GovernedRetry
    && (t.attempts[c.reserved.value].status == Pending || t.attempts[c.reserved.value].status == Running)
  }

  predicate RetryStartOpen(t: Tables, c: Call)
    requires c.StartStageAttempt?
  {
    RetryStartFound(t, c) && t.attempts[c.reserved.value].status == Pending
  }

  function AfterRetryStart(repo: Repository, t: Tables, c: Call): Tables
    requires c.StartStageAttempt? && c.reserved.Some? && c.reserved.value in t.attempts
    requires c.operation in t.operations && c.target.Some?
  {
    var row := t.attempts[c.reserved.value];
    t.(operations := OperationAfterMove(t, c.operation, c.target.value, Some(c.stageKey)),
       attempts := if row.status == Running then t.attempts
                   else t.attempts[c.reserved.value := AttemptRow(
                     row.operation, row.tenant, row.stage, row.number, row.source, Running, repo.LifecycleRepository?,
                     false, None, None, None, None)])
  }

  /** An ordinary start needs a new attempt under a free number, and its transition, if any, must be legal. */
  predicate OrdinaryStartFound(t: Tables, c: Call, n: nat)
    requires c.StartStageAttempt?
  {
    && c.reserved.None? && c.operation in t.operations && t.operations[c.operation].tenant == c.subject.tenant
    && c.newAttemptId !in t.attempts && NumberFree(t, c.operation, c.stageKey, n)
    && (c.target.Some? ==> && c.expectedIfTarget.Some?
                           && Current(t, c.operation, c.subject, c.expectedIfTarget.value)
                           && t.operations[c.operation].status != RetryScheduled
                           && c.target.value in Successors(t.operations[c.operation].status))
  }

  predicate OrdinaryStartOpen(t: Tables, c: Call, n: nat)
    requires c.StartStageAttempt?
  {
    && OrdinaryStartFound(t, c, n) && Sees(c.subject, t.operations[c.operation])
    && (c.target.None? ==> t.operations[c.operation].status in {
          Created, Authenticating, Authorized, ResolvingSession, Bootstrapping, Validating, PreparingTools, Ready,
          Executing, ReadbackPending})
  }

  function AfterOrdinaryStart(t: Tables, c: Call, n: nat): Tables
    requires c.StartStageAttempt? && c.operation in t.operations
  {
    t.(operations := if c.target.None? then t.operations
                     else OperationAfterMove(t, c.operation, c.target.value, Some(c.stageKey)),
       attempts := t.attempts[c.newAttemptId := AttemptRow(
         c.operation, c.subject.tenant, c.stageKey, n, c.source, Running, false, false, None, None, None, None)])
  }

  function RetryStartStatements(c: Call): seq<Statement>
    requires c.StartStageAttempt? && c.reserved.Some? && c.target.Some? && c.expectedIfTarget.Some?
  {
    [MoveAttempt(c.reserved.value, c.operation, c.subject.tenant, Pending, Running,
                 AttemptFields(true, false, None, None, None), c.now),
     UpdateOperation(c.operation, c.subject, c.expectedIfTarget.value, c.target.value, Some(c.stageKey))]
  }

  /** What a retry start must have read. */
  predicate RetryStartRead(c: Call, op: OperationRow, attempt: Option<AttemptRow>)
    requires c.StartStageAttempt?
  {
    && RetryTarget(c.target) && c.expectedIfTarget == Some(op.version) && c.reserved.Some?
    && attempt.Some? && attempt.value.stage == c.stageKey && attempt.value.source == GovernedRetry
    && attempt.value.status == Pending
  }

  lemma RetryStartPlan(c: Call, op: OperationRow, attempt: Option<AttemptRow>)
    requires c.StartStageAttempt? && op.status == RetryScheduled
    ensures if RetryStartRead(c, op, attempt) then PlanRetryStart(c, op, attempt) == RetryStartStatements(c)
            else PlanRetryStart(c, op, attempt)[0].Refuse?
  {
  }

  lemma RetryStartRuns(repo: Repository, t: Tables, c: Call)
    requires c.StartStageAttempt? && c.reserved.Some? && c.target.Some? && c.expectedIfTarget.Some?
    requires AttemptsOk(t.attempts, t.operations)
    ensures var r := Exec(repo, t, RetryStartStatements(c));
            && (r.Done? <==> && HoldsAttempt(t, c.reserved.value, c.operation, c.subject.tenant)
                             && t.attempts[c.reserved.value].status in {Pending, Running}
                             && Current(t, c.operation, c.subject, c.expectedIfTarget.value))
            && (r.Done? ==> r.value == AfterRetryStart(repo, t, c))
  {
    var ss := RetryStartStatements(c);
    Pair(repo, t, ss[0], ss[1]);
    if Apply(repo, t, ss[0]).Done? {
      var t1 := Apply(repo, t, ss[0]).value;
      assert AttemptShape(t.attempts[c.reserved.value]);
      Updated(repo, t1, c.operation, c.subject, c.expectedIfTarget.value, c.target.value, Some(c.stageKey));
    }
  }

  function OrdinaryStatements(c: Call, n: nat): seq<Statement>
    requires c.StartStageAttempt?
  {
    [InsertAttempt(c.newAttemptId, AttemptRow(c.operation, c.subject.tenant, c.stageKey, n, c.source, Pending, false,
                                              false, None, None, None, None)),
     MoveAttempt(c.newAttemptId, c.operation, c.subject.tenant, Pending, Running,
                 AttemptFields(false, false, None, None, None), c.now)]
  }

  /** What an ordinary start must have read. */
  predicate OrdinaryStartRead(c: Call, op: OperationRow)
    requires c.StartStageAttempt?
  {
    && c.reserved.None?
    && if c.target.Some? then c.expectedIfTarget == Some(op.version) && c.target.value in Successors(op.status)
       else op.status in {Created, Authenticating, Authorized, ResolvingSession, Bootstrapping, Validating,
                          PreparingTools, Ready, Executing, ReadbackPending}
  }

  function StartUpdate(c: Call): seq<Statement>
    requires c.StartStageAttempt? && (c.target.Some? ==> c.expectedIfTarget.Some?)
  {
    if c.target.None? then []
    else [UpdateOperation(c.operation, c.subject, c.expectedIfTarget.value, c.target.value, Some(c.stageKey))]
  }

  lemma OrdinaryStartPlan(c: Call, op: OperationRow, n: nat)
    requires c.StartStageAttempt? && op.status != RetryScheduled
    ensures if OrdinaryStartRead(c, op) then PlanOrdinaryStart(c, op, n) == OrdinaryStatements(c, n) + StartUpdate(c)
            else PlanOrdinaryStart(c, op, n)[0].Refuse?
  {
    if c.target.Some? {
      CheckIsTable(op.status, c.target.value);
    }
  }

  lemma StartedRow(repo: Repository, t: Tables, c: Call, n: nat)
    requires c.StartStageAttempt?
    ensures var r := Exec(repo, t, OrdinaryStatements(c, n));
            && (r.Done? <==> && c.operation in t.operations && c.newAttemptId !in t.attempts
                             && NumberFree(t, c.operation, c.stageKey, n))
            && (r.Done? ==> r.value == t.(attempts := AfterOrdinaryStart(t, c, n).attempts))
  {
    var ss := OrdinaryStatements(c, n);
    Pair(repo, t, ss[0], ss[1]);
    if Apply(repo, t, ss[0]).Done? {
      ExecOne(repo, Apply(repo, t, ss[0]).value, ss[1]);
    }
  }

  lemma OrdinaryStartRuns(repo: Repository, t: Tables, c: Call, n: nat)
    requires c.StartStageAttempt? && (c.target.Some? ==> c.expectedIfTarget.Some?)
    ensures var r := Exec(repo, t, OrdinaryStatements(c, n) + StartUpdate(c));
            && (r.Done? <==> && c.operation in t.operations && c.newAttemptId !in t.attempts
                             && NumberFree(t, c.operation, c.stageKey, n)
                             && (c.target.Some? ==> Current(t, c.operation, c.subject, c.expectedIfTarget.value)))
            && (r.Done? ==> r.value == AfterOrdinaryStart(t, c, n))
  {
    StartedRow(repo, t, c, n);
    ExecSplit(repo, t, OrdinaryStatements(c, n), StartUpdate(c));
    if Exec(repo, t, OrdinaryStatements(c, n)).Done? && c.target.Some? {
      Updated(repo, t.(attempts := AfterOrdinaryStart(t, c, n).attempts), c.operation, c.subject,
              c.expectedIfTarget.value, c.target.value, Some(c.stageKey));
    }
  }

  lemma RetryStartCommits(repo: Repository, t: Tables, c: Call, v: Views)
    requires c.StartStageAttempt? && WellFormed(t) && Honest(t, Txn(c, v)) && Exec(repo, t, Plan(c, v)).Done?
    requires v.operation.Some? && v.operation.value.status == RetryScheduled
    ensures RetryStartFound(t, c) && Exec(repo, t, Plan(c, v)).value == AfterRetryStart(repo, t, c)
  {
    DoneMeansClean(repo, t, Plan(c, v));
    assert !Plan(c, v)[0].Refuse?;
    RetryStartPlan(c, v.operation.value, v.attempt);
    RetryStartRuns(repo, t, c);
  }

  lemma OrdinaryStartCommits(repo: Repository, t: Tables, c: Call, v: Views)
    requires c.StartStageAttempt? && Honest(t, Txn(c, v)) && Exec(repo, t, Plan(c, v)).Done?
    requires v.operation.Some? && v.operation.value.status != RetryScheduled
    ensures OrdinaryStartFound(t, c, v.number) && Exec(repo, t, Plan(c, v)).value == AfterOrdinaryStart(t, c, v.number)
  {
    DoneMeansClean(repo, t, Plan(c, v));
    assert !Plan(c, v)[0].Refuse?;
    OrdinaryStartPlan(c, v.operation.value, v.number);
    OrdinaryStartRuns(repo, t, c, v.number);
  }

  lemma StartCommitsIff(repo: Repository, t: Tables, c: Call, v: Views)
    requires c.StartStageAttempt? && WellFormed(t) && ReadsNow(t, c, v)
    ensures Exec(repo, t, Plan(c, v)).Done? <==> RetryStartOpen(t, c) || OrdinaryStartOpen(t, c, v.number)
  {
    if v.operation.Some? {
      var op := v.operation.value;
      if op.status == RetryScheduled {
        RetryStartPlan(c, op, v.attempt);
        if RetryStartRead(c, op, v.attempt) {
          RetryStartRuns(repo, t, c);
        }
      } else {
        OrdinaryStartPlan(c, op, v.number);
        if OrdinaryStartRead(c, op) {
          OrdinaryStartRuns(repo, t, c, v.number);
        }
      }
    }
  }
}
