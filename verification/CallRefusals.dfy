/** Every refusal is true: the code a call answers names a condition that holds of the rows it read or of its input. */
module CallRefusals {
  import opened Outcomes
  import opened LifecycleStateMachine
  import opened RetryPolicy
  import opened ActivationStore
  import opened LifecycleCalls
  import opened StoreInvariants
  import opened LifecycleRuns
  import opened CallEffects
  import opened CallResults

  // ---------------------------------------------------------------- what each code says

  /** The operation as the call may see it. */
  predicate Visible(t: Tables, c: Call) {
    && c.operation in t.operations
    && if TenantScoped(c) then t.operations[c.operation].tenant == c.subject.tenant
       else Sees(c.subject, t.operations[c.operation])
  }

  predicate At(t: Tables, c: Call, status: OperationStatus) {
    Visible(t, c) && t.operations[c.operation].status == status
  }

  function ExpectedVersion(c: Call): Option<nat> {
    match c
    case TransitionOperation(_, _, expected, _, _, _, _) => Some(expected)
    case ScheduleRetry(_, _, expected, _, _, _, _, _, _) => Some(expected)
    case BeginReconciliation(_, _, expected, _, _, _) => Some(expected)
    case CompleteReconciliation(_, _, expected, _, _, _, _, _) => Some(expected)
    case StartStageAttempt(_, _, _, _, expected, _, _, _, _) => expected
    case _ => None
  }

  /** The status the call asks its operation to enter through the transition table. */
  function Target(c: Call): Option<OperationStatus> {
    match c
    case TransitionOperation(_, _, _, to, _, _, _) => Some(to)
    case StartStageAttempt(_, _, _, target, _, _, _, _, _) => target
    case BeginReconciliation(_, _, _, _, _, _) => Some(Reconciling)
    case _ => None
  }

  predicate NeedsSuccess(c: Call) {
    (c.TransitionOperation? && c.to == Active) || (c.CompleteReconciliation? && c.outcome == OutcomeExecuted)
  }

  predicate StateExplains(from: OperationStatus, to: OperationStatus, x: StateRefusal) {
    match x
    case StatusInvalid => from.Undeclared? || to.Undeclared?
    case OverlayTransitionInvalid =>
      from == DeliveryPending || from == AcknowledgementPending || to == DeliveryPending || to == AcknowledgementPending
    case TerminalState => from == Active || from == Cancelled || from == RolledBack
    case GovernedRetryRequired =>
      from in {Degraded, AuthorizationGated, ValidationRateLimited, ContractDegraded, Failed}
    case TransitionInvalid => to !in Successors(from)
    case _ => false
  }

  predicate AttemptExplains(from: AttemptStatus, to: AttemptStatus, x: StateRefusal) {
    match x
    case AttemptStatusInvalid => from.UndeclaredAttempt? || to.UndeclaredAttempt?
    case AttemptTerminal =>
      from in {AttemptSucceeded, AttemptDegraded, AttemptFailed, AttemptUnknown, AttemptCancelled}
    case AttemptTransitionInvalid => !AttemptMayMove(from, to)
    case _ => false
  }

  predicate RetryExplains(t: Tables, c: Call, x: PolicyRefusal)
    requires c.ScheduleRetry?
  {
    match x
    case StatusUnknownToPolicy => Visible(t, c) && t.operations[c.operation].status.Undeclared?
    case RetryTerminal => At(t, c, Active) || At(t, c, Cancelled) || At(t, c, RolledBack)
    case ReconciliationRequired => At(t, c, UnknownOutcome)
    case ReconciliationInProgress => At(t, c, Reconciling)
    case RetrySourceInvalid =>
      && Visible(t, c)
      && t.operations[c.operation].status !in {
           Degraded, AuthorizationGated, ValidationRateLimited, ContractDegraded, Failed}
    case RetryApprovalRequired => !c.approved
    case RetryTargetRequired => c.target.None?
    case RetryTargetInvalid => c.target.Some? && !RetryTarget(c.target)
    case ApprovalRefRequired => c.approvalRef == ""
    case _ => false
  }

  predicate ContentTaken(t: Tables, row: EvidenceRow) {
    exists e :: && e in t.evidence && t.evidence[e].operation == row.operation && t.evidence[e].kind == row.kind
                && t.evidence[e].summary == row.summary
  }

  /** What is wrong with the evidence a call offers. */
  predicate OfferExplains(t: Tables, c: Call, x: Refusal)
    requires Offers(c)
  {
    && Offered(c).Some?
    && match x
       case EvidenceTooLarge => Offered(c).value.bytes > 32768
       case EvidenceConflict => c.evidenceId in t.evidence || ContentTaken(t, Offered(c).value)
       case ForeignKeyMissing => Offered(c).value.attempt.Some? && Offered(c).value.attempt.value !in t.attempts
       case _ => false
  }

  predicate MoveExplains(t: Tables, c: Call, x: Refusal) {
    && x.State? && Visible(t, c) && Target(c).Some?
    && StateExplains(t.operations[c.operation].status, Target(c).value, x.state)
  }

  predicate StartExplains(t: Tables, c: Call, n: nat, x: Refusal)
    requires c.StartStageAttempt?
  {
    match x
    case RetryTargetStatusRequired => At(t, c, RetryScheduled) && c.target.None?
    case ExpectedVersionRequired => c.target.Some? && c.expectedIfTarget.None?
    case RetryAttemptIdRequired => At(t, c, RetryScheduled) && c.reserved.None?
    case RetryAttemptNotFound =>
      c.reserved.Some? && !HoldsAttempt(t, c.reserved.value, c.operation, c.subject.tenant)
    case RetryAttemptMismatch =>
      && c.reserved.Some? && HoldsAttempt(t, c.reserved.value, c.operation, c.subject.tenant)
      && (t.attempts[c.reserved.value].stage != c.stageKey || t.attempts[c.reserved.value].source != GovernedRetry)
    case RetryAttemptNotPending =>
      && c.reserved.Some? && HoldsAttempt(t, c.reserved.value, c.operation, c.subject.tenant)
      && t.attempts[c.reserved.value].status != Pending
    case AttemptIdUnexpected => c.reserved.Some? && Visible(t, c) && !At(t, c, RetryScheduled)
    case StartStateInvalid =>
      && c.target.None? && Visible(t, c)
      && t.operations[c.operation].status !in {
           Created, Authenticating, Authorized, ResolvingSession, Bootstrapping, Validating, PreparingTools, Ready,
           Executing, ReadbackPending}
    case AttemptConflict =>
      c.reserved.None? && (c.newAttemptId in t.attempts || !NumberFree(t, c.operation, c.stageKey, n))
    case State(y) =>
      if c.target.Some? then MoveExplains(t, c, x)
      else y == StatusInvalid && Visible(t, c) && t.operations[c.operation].status.Undeclared?
    case _ => false
  }

  predicate ScheduleExplains(t: Tables, c: Call, n: nat, x: Refusal)
    requires c.ScheduleRetry?
  {
    match x
    case Policy(y) => RetryExplains(t, c, y)
    case AttemptConflict => c.newAttemptId in t.attempts || !NumberFree(t, c.operation, RetryStage(c), n)
    case EvidenceConflict =>
      && Visible(t, c) && c.target.Some?
      && (c.evidenceId in t.evidence || ContentTaken(t, Approval(c, t.operations[c.operation].status, n)))
    case _ => false
  }

  predicate CompletionExplains(t: Tables, c: Call, x: Refusal)
    requires c.CompleteStageAttempt?
  {
    match x
    case AttemptNotFound => !HoldsAttempt(t, c.attemptId, c.operation, c.subject.tenant)
    case State(y) =>
      && HoldsAttempt(t, c.attemptId, c.operation, c.subject.tenant)
      && AttemptExplains(t.attempts[c.attemptId].status, c.attemptTo, y)
    case _ => OfferExplains(t, c, x)
  }

  predicate ReconcileExplains(t: Tables, c: Call, x: Refusal)
    requires c.CompleteReconciliation?
  {
    match x
    case ReconciliationStateInvalid => Visible(t, c) && !At(t, c, Reconciling)
    case ReconciliationMoveConflict => !ReconciliationReady(t, c)
    case Policy(y) => y == OutcomeInvalid && c.outcome == ReconciliationPending
    case _ => OfferExplains(t, c, x)
  }

  predicate DeliveryExplains(t: Tables, c: Call, n: nat, x: Refusal) {
    match x
    case DeliveryConflict => c.PrepareDelivery? && Visible(t, c) && !PrepareOpen(t, c, n)
    case DeliveryMoveInvalid =>
      c.TransitionDelivery? && (c.deliveryFrom != DeliveryPrepared || c.deliveryTo == DeliveryPrepared)
    case ResponseStatusInvalid =>
      c.TransitionDelivery? && c.report.response.Some? && !(100 <= c.report.response.value <= 599)
    case DeliveryMoveConflict => c.TransitionDelivery? && !DeliveryMoveOpen(t, c)
    case DeliveryNotFound =>
      && c.RequestAcknowledgement? && c.delivery.Some?
      && !(&& c.delivery.value in t.deliveries && t.deliveries[c.delivery.value].operation == c.operation
           && t.deliveries[c.delivery.value].tenant == c.subject.tenant)
    case AcknowledgementConflict =>
      && c.RequestAcknowledgement?
      && (|| c.acknowledgementId in t.acknowledgements
          || exists a :: && a in t.acknowledgements && t.acknowledgements[a].operation == c.operation
                         && t.acknowledgements[a].key == c.key)
    case AcknowledgementMoveInvalid =>
      && c.TransitionAcknowledgement? && !(c.ackFrom == AckNotRequested && c.ackTo == AckPending)
      && !(c.ackFrom == AckPending && c.ackTo in {AckAcknowledged, AckRejected, AckExpired})
    case AcknowledgementMoveConflict => c.TransitionAcknowledgement? && !AcknowledgementMoveOpen(t, c)
    case _ => false
  }

  /** Refused on the input alone, or because the operation is not there to be seen or has moved on. */
  predicate AccessExplains(t: Tables, c: Call, x: Refusal) {
    match x
    case UserRequired => !TenantScoped(c) && !c.subject.isAdmin && c.subject.user.None?
    case OperationNotFound => !Visible(t, c)
    case VersionConflict =>
      Visible(t, c) && ExpectedVersion(c).Some? && t.operations[c.operation].version != ExpectedVersion(c).value
    case SuccessEvidenceRequired => NeedsSuccess(c) && c.evidence.None?
    case Policy(y) => y == SuccessKindInvalid && NeedsSuccess(c) && c.evidence.Some? && !OffersSuccessKind(c)
    case _ => false
  }

  predicate Explains(t: Tables, c: Call, n: nat, x: Refusal) {
    || AccessExplains(t, c, x)
    || match c
       case TransitionOperation(_, _, _, _, _, _, _) => MoveExplains(t, c, x) || OfferExplains(t, c, x)
       case StartStageAttempt(_, _, _, _, _, _, _, _, _) => StartExplains(t, c, n, x)
       case CompleteStageAttempt(_, _, _, _, _, _, _, _, _, _) => CompletionExplains(t, c, x)
       case ScheduleRetry(_, _, _, _, _, _, _, _, _) => ScheduleExplains(t, c, n, x)
       case BeginReconciliation(_, _, _, _, _, _) =>
         MoveExplains(t, c, x) || (x == ReconciliationConflict && !ReconciliationSlotFree(t, c, n))
       case CompleteReconciliation(_, _, _, _, _, _, _, _) => ReconcileExplains(t, c, x)
       case _ => DeliveryExplains(t, c, n, x)
  }

  // ---------------------------------------------------------------- where a refusal comes from

  lemma FirstOfTwo(repo: Repository, t: Tables, a: Statement, b: Statement)
    ensures var r := Apply(repo, t, a);
            Exec(repo, t, [a, b]) == if r.Done? then Apply(repo, r.value, b) else r
  {
    assert [a, b][1..] == [b];
    if Apply(repo, t, a).Done? {
      ExecOne(repo, Apply(repo, t, a).value, b);
    }
  }

  /** A refused append names what is wrong with the row; a refusal after it comes from the rest. */
  lemma AppendRefusal(repo: Repository, t: Tables, c: Call, e: Option<EvidenceInput>, rest: seq<Statement>, x: Refusal)
    requires Offers(c) && c.operation in t.operations && Offered(c).Some? == e.Some?
    requires e.Some? ==> EvidenceFor(e.value, c.operation, c.subject.tenant) == Offered(c).value
    requires Exec(repo, t, AppendEvidence(e, c.evidenceId, c.operation, c.subject.tenant) + rest) == Refused(x)
    ensures OfferExplains(t, c, x) ||
            (OfferStorable(t, c) && Exec(repo, t.(evidence := EvidenceAfter(t, c)), rest) == Refused(x))
  {
    var ss := AppendEvidence(e, c.evidenceId, c.operation, c.subject.tenant) + rest;
    if e.None? {
      assert ss == rest;
    } else {
      var row := Offered(c).value;
      assert ss[0] == InsertEvidence(c.evidenceId, row) && ss[1..] == rest;
      if !Storable(t, c.evidenceId, row) {
        assert Apply(repo, t, ss[0]) == Refused(x);
      }
    }
  }

  /** Refused before any check of its own: by the input alone, or for want of a visible operation. */
  lemma EarlyRefusal(repo: Repository, t: Tables, c: Call, v: Views, x: Refusal)
    requires !TenantScoped(c) && ReadsNow(t, c, v) && (Admit(c).Refused? || v.operation.None?)
    requires Exec(repo, t, Plan(c, v)) == Refused(x)
    ensures AccessExplains(t, c, x)
  {
    if Admit(c).Refused? {
      AdmissionRefusal(t, c);
      ExecOne(repo, t, Refuse(Admit(c).error));
    } else {
      ExecOne(repo, t, Refuse(OperationNotFound));
    }
  }

  lemma AdmissionRefusal(t: Tables, c: Call)
    requires Admit(c).Refused?
    ensures AccessExplains(t, c, Admit(c).error)
  {
  }

  lemma StateRefusalHolds(t: Tables, c: Call)
    requires Visible(t, c) && Target(c).Some?
    requires CheckTransition(t.operations[c.operation].status, Target(c).value).Refused?
    ensures MoveExplains(t, c, State(CheckTransition(t.operations[c.operation].status, Target(c).value).error))
  {
  }

  lemma TransitionRefusal(repo: Repository, t: Tables, c: Call, x: Refusal)
    requires c.TransitionOperation? && Admit(c).Done? && Visible(t, c)
    requires Exec(repo, t, PlanTransition(c, t.operations[c.operation])) == Refused(x)
    ensures AccessExplains(t, c, x) || MoveExplains(t, c, x) || OfferExplains(t, c, x)
  {
    var op := t.operations[c.operation];
    if op.version == c.expected {
      if CheckTransition(op.status, c.to).Refused? {
        StateRefusalHolds(t, c);
      } else {
        CheckIsTable(op.status, c.to);
        TransitionPlan(c, op);
        TransitionRunRefusal(repo, t, c, x);
      }
    }
  }

  lemma TransitionRunRefusal(repo: Repository, t: Tables, c: Call, x: Refusal)
    requires c.TransitionOperation? && Admit(c).Done? && Current(t, c.operation, c.subject, c.expected)
    requires Exec(repo, t, TransitionStatements(c)) == Refused(x)
    ensures OfferExplains(t, c, x)
  {
    var update := [UpdateOperation(c.operation, c.subject, c.expected, c.to, c.stage)];
    var rest := SuccessCheck(c, c.to == Active) + update;
    var append := AppendEvidence(c.evidence, c.evidenceId, c.operation, c.subject.tenant);
    assert TransitionStatements(c) == append + rest;
    AppendRefusal(repo, t, c, c.evidence, rest, x);
    TransitionRuns(repo, t, c);
  }

  lemma ReconcileRefusal(repo: Repository, t: Tables, c: Call, x: Refusal)
    requires c.CompleteReconciliation? && Admit(c).Done? && Visible(t, c)
    requires Exec(repo, t, PlanReconcile(c, t.operations[c.operation])) == Refused(x)
    ensures AccessExplains(t, c, x) || ReconcileExplains(t, c, x)
  {
    var op := t.operations[c.operation];
    if op.version == c.expected && op.status == Reconciling {
      ReconcileRunRefusal(repo, t, c, op, x);
    }
  }

  lemma ReconcileRunRefusal(repo: Repository, t: Tables, c: Call, op: OperationRow, x: Refusal)
    requires c.CompleteReconciliation? && Admit(c).Done? && Current(t, c.operation, c.subject, c.expected)
    requires op.version == c.expected && op.status == Reconciling && Exec(repo, t, PlanReconcile(c, op)) == Refused(x)
    ensures || OfferExplains(t, c, x)
            || (x == Policy(OutcomeInvalid) && c.outcome == ReconciliationPending)
            || (x == ReconciliationMoveConflict && !ReconciliationReady(t, c))
  {
    var check := SuccessCheck(c, c.outcome == OutcomeExecuted);
    var append := AppendEvidence(c.evidence, c.evidenceId, c.operation, c.subject.tenant);
    var rest := check + PlanOutcome(c);
    assert PlanReconcile(c, op) == append + rest;
    AppendRefusal(repo, t, c, c.evidence, rest, x);
    if !OfferExplains(t, c, x) {
      OutcomeRefusal(repo, t.(evidence := EvidenceAfter(t, c)), c, x);
    }
  }

  lemma OutcomeRefusal(repo: Repository, t: Tables, c: Call, x: Refusal)
    requires c.CompleteReconciliation? && Admit(c).Done? && Current(t, c.operation, c.subject, c.expected)
    requires c.evidence.Some? ==> c.evidenceId in t.evidence && t.evidence[c.evidenceId] == Offered(c).value
    requires c.evidence.Some? ==> t.evidence[c.evidenceId].bytes <= 32768
    requires Exec(repo, t, SuccessCheck(c, c.outcome == OutcomeExecuted) + PlanOutcome(c)) == Refused(x)
    ensures || (x == Policy(OutcomeInvalid) && c.outcome == ReconciliationPending)
            || (x == ReconciliationMoveConflict && !ReconciliationReady(t, c))
  {
    var (check, outcome) := (SuccessCheck(c, c.outcome == OutcomeExecuted), PlanOutcome(c));
    if c.outcome == OutcomeExecuted {
      assert (check + outcome)[1..] == outcome;
    } else {
      assert check + outcome == outcome;
    }
    if c.outcome == ReconciliationPending {
      ExecOne(repo, t, outcome[0]);
    } else {
      OutcomePlan(c);
      FirstOfTwo(repo, t, outcome[0], outcome[1]);
      OutcomeRuns(repo, t, c);
    }
  }

  lemma BeginRefusal(repo: Repository, t: Tables, c: Call, n: nat, x: Refusal)
    requires c.BeginReconciliation? && Visible(t, c)
    requires Exec(repo, t, PlanBegin(c, t.operations[c.operation], n)) == Refused(x)
    ensures AccessExplains(t, c, x) || MoveExplains(t, c, x) ||
            (x == ReconciliationConflict && !ReconciliationSlotFree(t, c, n))
  {
    var op := t.operations[c.operation];
    if op.version == c.expected {
      if CheckTransition(op.status, Reconciling).Refused? {
        StateRefusalHolds(t, c);
      } else {
        BeginPlan(c, op, n);
        BeginRuns(repo, t, c, n);
      }
    }
  }

  lemma ScheduleRefusal(repo: Repository, t: Tables, c: Call, n: nat, x: Refusal)
    requires c.ScheduleRetry? && Visible(t, c)
    requires Exec(repo, t, PlanSchedule(c, t.operations[c.operation], n)) == Refused(x)
    ensures AccessExplains(t, c, x) || ScheduleExplains(t, c, n, x)
  {
    var op := t.operations[c.operation];
    if op.version == c.expected && AuthorizeRetry(op.status, c.target, c.approved, c.approvalRef).Done? {
      SchedulePlanIs(c, op, n);
      ScheduleRunRefusal(repo, t, c, op.status, n, x);
    } else {
      ScheduleCheckRefusal(repo, t, c, n, x);
    }
  }

  lemma ScheduleCheckRefusal(repo: Repository, t: Tables, c: Call, n: nat, x: Refusal)
    requires c.ScheduleRetry? && Visible(t, c)
    requires || t.operations[c.operation].version != c.expected
             || AuthorizeRetry(t.operations[c.operation].status, c.target, c.approved, c.approvalRef).Refused?
    requires Exec(repo, t, PlanSchedule(c, t.operations[c.operation], n)) == Refused(x)
    ensures AccessExplains(t, c, x) || ScheduleExplains(t, c, n, x)
  {
    ExecOne(repo, t, PlanSchedule(c, t.operations[c.operation], n)[0]);
    if t.operations[c.operation].version == c.expected {
      AuthorizationRefusal(t, c);
    }
  }

  lemma AuthorizationRefusal(t: Tables, c: Call)
    requires c.ScheduleRetry? && Visible(t, c)
    requires AuthorizeRetry(t.operations[c.operation].status, c.target, c.approved, c.approvalRef).Refused?
    ensures RetryExplains(t, c, AuthorizeRetry(t.operations[c.operation].status, c.target, c.approved,
                                               c.approvalRef).error)
  {
  }

  lemma ScheduleRunRefusal(repo: Repository, t: Tables, c: Call, from: OperationStatus, n: nat, x: Refusal)
    requires c.ScheduleRetry? && c.target.Some? && Current(t, c.operation, c.subject, c.expected)
    requires t.operations[c.operation].status == from && Exec(repo, t, ScheduleStatements(c, from, n)) == Refused(x)
    ensures ScheduleExplains(t, c, n, x)
  {
    var ss := ScheduleStatements(c, from, n);
    assert ss[1..] == [ss[1], ss[2]];
    ScheduleRuns(repo, t, c, from, n);
    if Apply(repo, t, ss[0]).Done? {
      var t1 := WithReservation(t, c, n);
      FirstOfTwo(repo, t1, ss[1], ss[2]);
    }
  }

  lemma CompletionRefusal(repo: Repository, t: Tables, c: Call, x: Refusal)
    requires c.CompleteStageAttempt? && WellFormed(t) && Visible(t, c)
    requires Exec(repo, t, PlanCompletion(c, ReadAttempt(t, c))) == Refused(x)
    ensures CompletionExplains(t, c, x)
  {
    var attempt := ReadAttempt(t, c);
    if attempt.Some? {
      CompletionPlan(c, attempt);
      if AttemptMayMove(attempt.value.status, c.attemptTo) {
        CompletionRunRefusal(repo, t, c, x);
      } else {
        ExecOne(repo, t, PlanCompletion(c, attempt)[0]);
      }
    }
  }

  lemma CompletionRunRefusal(repo: Repository, t: Tables, c: Call, x: Refusal)
    requires c.CompleteStageAttempt? && WellFormed(t) && c.operation in t.operations
    requires HoldsAttempt(t, c.attemptId, c.operation, c.subject.tenant)
    requires AttemptMayMove(t.attempts[c.attemptId].status, c.attemptTo)
    requires Exec(repo, t, AppendEvidence(LinkedOffer(c), c.evidenceId, c.operation, c.subject.tenant)
                           + [CompletionMove(c, t.attempts[c.attemptId].status)]) == Refused(x)
    ensures OfferExplains(t, c, x)
  {
    var from := t.attempts[c.attemptId].status;
    AppendRefusal(repo, t, c, LinkedOffer(c), [CompletionMove(c, from)], x);
    CompletionRuns(repo, t, c, from);
  }

  lemma RetryStartRefusal(repo: Repository, t: Tables, c: Call, n: nat, x: Refusal)
    requires c.StartStageAttempt? && WellFormed(t) && At(t, c, RetryScheduled)
    requires Exec(repo, t, PlanRetryStart(c, t.operations[c.operation], ReadAttempt(t, c))) == Refused(x)
    ensures AccessExplains(t, c, x) || StartExplains(t, c, n, x)
  {
    var (op, attempt) := (t.operations[c.operation], ReadAttempt(t, c));
    RetryStartPlan(c, op, attempt);
    if RetryStartRead(c, op, attempt) {
      RetryStartRuns(repo, t, c);
    } else {
      RetryCheckRefusal(t, c, n);
      ExecOne(repo, t, PlanRetryStart(c, op, attempt)[0]);
    }
  }

  lemma RetryCheckRefusal(t: Tables, c: Call, n: nat)
    requires c.StartStageAttempt? && At(t, c, RetryScheduled)
    requires !RetryStartRead(c, t.operations[c.operation], ReadAttempt(t, c))
    ensures var ss := PlanRetryStart(c, t.operations[c.operation], ReadAttempt(t, c));
            |ss| == 1 && ss[0].Refuse? &&
            (AccessExplains(t, c, ss[0].refusal) || StartExplains(t, c, n, ss[0].refusal))
  {
    if c.target.Some? && CheckTransition(RetryScheduled, c.target.value).Refused? {
      StateRefusalHolds(t, c);
    }
  }

  lemma OrdinaryStartRefusal(repo: Repository, t: Tables, c: Call, n: nat, x: Refusal)
    requires c.StartStageAttempt? && Visible(t, c) && !At(t, c, RetryScheduled)
    requires Exec(repo, t, PlanOrdinaryStart(c, t.operations[c.operation], n)) == Refused(x)
    ensures AccessExplains(t, c, x) || StartExplains(t, c, n, x)
  {
    var op := t.operations[c.operation];
    OrdinaryStartPlan(c, op, n);
    if OrdinaryStartRead(c, op) {
      OrdinaryRunRefusal(repo, t, c, n, x);
    } else if c.target.Some? && CheckTransition(op.status, c.target.value).Refused? {
      StateRefusalHolds(t, c);
    }
  }

  lemma OrdinaryRunRefusal(repo: Repository, t: Tables, c: Call, n: nat, x: Refusal)
    requires c.StartStageAttempt? && c.operation in t.operations && (c.target.Some? ==> c.expectedIfTarget.Some?)
    requires c.target.Some? ==> Current(t, c.operation, c.subject, c.expectedIfTarget.value)
    requires Exec(repo, t, OrdinaryStatements(c, n) + StartUpdate(c)) == Refused(x)
    ensures x == AttemptConflict && (c.newAttemptId in t.attempts || !NumberFree(t, c.operation, c.stageKey, n))
  {
    OrdinaryStartRuns(repo, t, c, n);
    var ss := OrdinaryStatements(c, n) + StartUpdate(c);
    assert ss[0] == OrdinaryStatements(c, n)[0];
  }

  lemma DeliveryMoveRefusal(repo: Repository, t: Tables, c: Call, x: Refusal)
    requires c.TransitionDelivery?
    requires Apply(repo, t, MoveDelivery(c.deliveryId, c.operation, c.subject.tenant, c.deliveryFrom, c.deliveryTo,
                                         c.report)) == Refused(x)
    ensures DeliveryExplains(t, c, 1, x)
  {
  }

  lemma AcknowledgementMoveRefusal(repo: Repository, t: Tables, c: Call, x: Refusal)
    requires c.TransitionAcknowledgement?
    requires Apply(repo, t, MoveAcknowledgement(c.acknowledgementId, c.operation, c.subject.tenant, c.ackFrom, c.ackTo,
                                                c.now)) == Refused(x)
    ensures DeliveryExplains(t, c, 1, x)
  {
  }

  lemma PrepareRefusal(repo: Repository, t: Tables, c: Call, v: Views, x: Refusal)
    requires c.PrepareDelivery? && ReadsNow(t, c, v) && Exec(repo, t, Plan(c, v)) == Refused(x)
    ensures AccessExplains(t, c, x) || DeliveryExplains(t, c, v.number, x)
  {
    ExecOne(repo, t, Plan(c, v)[0]);
  }

  lemma RequestRefusal(repo: Repository, t: Tables, c: Call, v: Views, x: Refusal)
    requires c.RequestAcknowledgement? && ReadsNow(t, c, v) && Exec(repo, t, Plan(c, v)) == Refused(x)
    ensures AccessExplains(t, c, x) || DeliveryExplains(t, c, v.number, x)
  {
    ExecOne(repo, t, Plan(c, v)[0]);
  }

  lemma DeliveryRefusal(repo: Repository, t: Tables, c: Call, v: Views, x: Refusal)
    requires TenantScoped(c) && ReadsNow(t, c, v) && Exec(repo, t, Plan(c, v)) == Refused(x)
    ensures AccessExplains(t, c, x) || DeliveryExplains(t, c, v.number, x)
  {
    if c.PrepareDelivery? {
      PrepareRefusal(repo, t, c, v, x);
    } else if c.RequestAcknowledgement? {
      RequestRefusal(repo, t, c, v, x);
    } else {
      ExecOne(repo, t, Plan(c, v)[0]);
      if c.TransitionDelivery? {
        DeliveryMoveRefusal(repo, t, c, x);
      } else {
        AcknowledgementMoveRefusal(repo, t, c, x);
      }
    }
  }

  /** A call whose reads are current and that is refused is told something true. */
  lemma RefusalsAreTrue(repo: Repository, t: Tables, c: Call, v: Views, x: Refusal)
    requires WellFormed(t) && ReadsNow(t, c, v) && Exec(repo, t, Plan(c, v)) == Refused(x)
    ensures Explains(t, c, v.number, x)
  {
    if TenantScoped(c) {
      DeliveryRefusal(repo, t, c, v, x);
    } else if Admit(c).Refused? || v.operation.None? {
      EarlyRefusal(repo, t, c, v, x);
    } else {
      match c
      case TransitionOperation(_, _, _, _, _, _, _) => TransitionRefusal(repo, t, c, x);
      case StartStageAttempt(_, _, _, _, _, _, _, _, _) =>
        if v.operation.value.status == RetryScheduled {
          RetryStartRefusal(repo, t, c, v.number, x);
        } else {
          OrdinaryStartRefusal(repo, t, c, v.number, x);
        }
      case CompleteStageAttempt(_, _, _, _, _, _, _, _, _, _) => CompletionRefusal(repo, t, c, x);
      case ScheduleRetry(_, _, _, _, _, _, _, _, _) => ScheduleRefusal(repo, t, c, v.number, x);
      case BeginReconciliation(_, _, _, _, _, _) => BeginRefusal(repo, t, c, v.number, x);
      case CompleteReconciliation(_, _, _, _, _, _, _, _) => ReconcileRefusal(repo, t, c, x);
    }
  }
}
