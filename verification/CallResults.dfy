/** What callers can rely on: the effect of every commit, when a call commits, and what it makes possible next. */
module CallResults {
  import opened Outcomes
  import opened LifecycleStateMachine
  import opened RetryPolicy
  import opened ActivationStore
  import opened LifecycleCalls
  import opened StoreInvariants
  import opened LifecycleRuns
  import opened CallEffects

  // ---------------------------------------------------------------- deliveries and acknowledgements

  predicate TenantOwns(t: Tables, c: Call) {
    c.operation in t.operations && t.operations[c.operation].tenant == c.subject.tenant
  }

  predicate PrepareOpen(t: Tables, c: Call, n: nat)
    requires c.PrepareDelivery?
  {
    && TenantOwns(t, c) && c.deliveryId !in t.deliveries
    && forall d :: d in t.deliveries ==>
         t.deliveries[d].operation != c.operation || t.deliveries[d].channel != c.channel || t.deliveries[d].number != n
  }

  function AfterPrepare(t: Tables, c: Call, n: nat): Tables
    requires c.PrepareDelivery?
  {
    t.(deliveries := t.deliveries[c.deliveryId := DeliveryRow(
         c.operation, c.subject.tenant, c.channel, n, DeliveryPrepared, None, None, None, None)])
  }

  predicate DeliveryMoveOpen(t: Tables, c: Call)
    requires c.TransitionDelivery?
  {
    && c.deliveryFrom == DeliveryPrepared && c.deliveryTo != DeliveryPrepared
    && (c.report.response.Some? ==> 100 <= c.report.response.value <= 599)
    && c.deliveryId in t.deliveries
    && var row := t.deliveries[c.deliveryId];
       && row.operation == c.operation && row.tenant == c.subject.tenant
       && (row.status == DeliveryPrepared || row.status == c.deliveryTo)
  }

  function AfterDeliveryMove(t: Tables, c: Call): Tables
    requires c.TransitionDelivery? && c.deliveryId in t.deliveries
  {
    var (row, report) := (t.deliveries[c.deliveryId], c.report);
    if row.status == c.deliveryTo then t
    else t.(deliveries := t.deliveries[c.deliveryId := DeliveryRow(
              row.operation, row.tenant, row.channel, row.number, c.deliveryTo, report.response, report.errorCode,
              report.errorMessage, if c.deliveryTo == DeliverySent then Some(report.at) else None)])
  }

  predicate RequestOpen(t: Tables, c: Call)
    requires c.RequestAcknowledgement?
  {
    && TenantOwns(t, c) && c.acknowledgementId !in t.acknowledgements
    && (c.delivery.Some? ==> && c.delivery.value in t.deliveries
                             && t.deliveries[c.delivery.value].operation == c.operation
                             && t.deliveries[c.delivery.value].tenant == c.subject.tenant)
    && forall a :: a in t.acknowledgements ==>
         t.acknowledgements[a].operation != c.operation || t.acknowledgements[a].key != c.key
  }

  function AfterRequest(t: Tables, c: Call): Tables
    requires c.RequestAcknowledgement?
  {
    t.(acknowledgements := t.acknowledgements[c.acknowledgementId := AcknowledgementRow(
         c.operation, c.subject.tenant, c.delivery, c.key, AckPending, c.now)])
  }

  predicate AcknowledgementMoveOpen(t: Tables, c: Call)
    requires c.TransitionAcknowledgement?
  {
    && (|| (c.ackFrom == AckNotRequested && c.ackTo == AckPending)
        || (c.ackFrom == AckPending && c.ackTo in {AckAcknowledged, AckRejected, AckExpired}))
    && c.acknowledgementId in t.acknowledgements
    && var row := t.acknowledgements[c.acknowledgementId];
       && row.operation == c.operation && row.tenant == c.subject.tenant
       && (row.state == c.ackFrom || row.state == c.ackTo)
  }

  /** Rows are requested as pending, so a move that writes is a decision, and it stamps the time. */
  function AfterAcknowledgementMove(t: Tables, c: Call): Tables
    requires c.TransitionAcknowledgement? && c.acknowledgementId in t.acknowledgements
  {
    var row := t.acknowledgements[c.acknowledgementId];
    if row.state == c.ackTo then t
    else t.(acknowledgements := t.acknowledgements[c.acknowledgementId := AcknowledgementRow(
              row.operation, row.tenant, row.delivery, row.key, c.ackTo, c.now)])
  }

  lemma PrepareRuns(repo: Repository, t: Tables, c: Call, v: Views)
    requires c.PrepareDelivery? && (v.operation.Some? <==> TenantOwns(t, c))
    ensures Exec(repo, t, Plan(c, v)).Done? <==> PrepareOpen(t, c, v.number)
    ensures Exec(repo, t, Plan(c, v)).Done? ==> Exec(repo, t, Plan(c, v)).value == AfterPrepare(t, c, v.number)
  {
    ExecOne(repo, t, Plan(c, v)[0]);
  }

  lemma DeliveryMoveRuns(repo: Repository, t: Tables, c: Call, v: Views)
    requires c.TransitionDelivery? && WellFormed(t)
    ensures Exec(repo, t, Plan(c, v)).Done? <==> DeliveryMoveOpen(t, c)
    ensures Exec(repo, t, Plan(c, v)).Done? ==> Exec(repo, t, Plan(c, v)).value == AfterDeliveryMove(t, c)
  {
    ExecOne(repo, t, Plan(c, v)[0]);
  }

  lemma RequestRuns(repo: Repository, t: Tables, c: Call, v: Views)
    requires c.RequestAcknowledgement? && (v.operation.Some? <==> TenantOwns(t, c))
    ensures Exec(repo, t, Plan(c, v)).Done? <==> RequestOpen(t, c)
    ensures Exec(repo, t, Plan(c, v)).Done? ==> Exec(repo, t, Plan(c, v)).value == AfterRequest(t, c)
  {
    ExecOne(repo, t, Plan(c, v)[0]);
  }

  lemma AcknowledgementMoveRuns(repo: Repository, t: Tables, c: Call, v: Views)
    requires c.TransitionAcknowledgement? && WellFormed(t)
    ensures Exec(repo, t, Plan(c, v)).Done? <==> AcknowledgementMoveOpen(t, c)
    ensures Exec(repo, t, Plan(c, v)).Done? ==> Exec(repo, t, Plan(c, v)).value == AfterAcknowledgementMove(t, c)
  {
    ExecOne(repo, t, Plan(c, v)[0]);
  }

  // ---------------------------------------------------------------- every call

  /** A call whose reads are current commits exactly on these rows and inputs; `n` is the number it read. */
  predicate Opens(t: Tables, c: Call, n: nat) {
    match c
    case TransitionOperation(_, _, _, _, _, _, _) => TransitionOpen(t, c)
    case StartStageAttempt(_, _, _, _, _, _, _, _, _) => RetryStartOpen(t, c) || OrdinaryStartOpen(t, c, n)
    case CompleteStageAttempt(_, _, _, _, _, _, _, _, _, _) => CompletionOpen(t, c)
    case ScheduleRetry(_, _, _, _, _, _, _, _, _) => ScheduleOpen(t, c, n)
    case BeginReconciliation(_, _, _, _, _, _) => BeginOpen(t, c, n)
    case CompleteReconciliation(_, _, _, _, _, _, _, _) => ReconcileOpen(t, c)
    case PrepareDelivery(_, _, _, _) => PrepareOpen(t, c, n)
    case TransitionDelivery(_, _, _, _, _, _) => DeliveryMoveOpen(t, c)
    case RequestAcknowledgement(_, _, _, _, _, _) => RequestOpen(t, c)
    case TransitionAcknowledgement(_, _, _, _, _, _) => AcknowledgementMoveOpen(t, c)
  }

  /** What a commit found, whatever it had read, and every row it leaves. */
  predicate Effect(repo: Repository, t: Tables, c: Call, n: nat, t': Tables) {
    match c
    case TransitionOperation(_, _, _, _, _, _, _) => TransitionOpen(t, c) && t' == AfterTransition(t, c)
    case StartStageAttempt(_, _, _, _, _, _, _, _, _) =>
      || (RetryStartFound(t, c) && t' == AfterRetryStart(repo, t, c))
      || (OrdinaryStartFound(t, c, n) && t' == AfterOrdinaryStart(t, c, n))
    case CompleteStageAttempt(_, _, _, _, _, _, _, _, _, _) =>
      CompletionFound(t, c) && t' == AfterCompletion(repo, t, c)
    case ScheduleRetry(_, _, _, _, _, _, _, _, _) => ScheduleOpen(t, c, n) && t' == AfterSchedule(t, c, n)
    case BeginReconciliation(_, _, _, _, _, _) => BeginOpen(t, c, n) && t' == AfterBegin(t, c, n)
    case CompleteReconciliation(_, _, _, _, _, _, _, _) => ReconcileOpen(t, c) && t' == AfterReconcile(t, c)
    case PrepareDelivery(_, _, _, _) => PrepareOpen(t, c, n) && t' == AfterPrepare(t, c, n)
    case TransitionDelivery(_, _, _, _, _, _) => DeliveryMoveOpen(t, c) && t' == AfterDeliveryMove(t, c)
    case RequestAcknowledgement(_, _, _, _, _, _) => RequestOpen(t, c) && t' == AfterRequest(t, c)
    case TransitionAcknowledgement(_, _, _, _, _, _) =>
      AcknowledgementMoveOpen(t, c) && t' == AfterAcknowledgementMove(t, c)
  }

  lemma StartHasEffect(repo: Repository, t: Tables, c: Call, v: Views)
    requires c.StartStageAttempt? && WellFormed(t) && Honest(t, Txn(c, v)) && Exec(repo, t, Plan(c, v)).Done?
    ensures Effect(repo, t, c, v.number, Exec(repo, t, Plan(c, v)).value)
  {
    DoneMeansClean(repo, t, Plan(c, v));
    assert !Plan(c, v)[0].Refuse?;
    if v.operation.value.status == RetryScheduled {
      RetryStartCommits(repo, t, c, v);
    } else {
      OrdinaryStartCommits(repo, t, c, v);
    }
  }

  lemma DeliveryHasEffect(repo: Repository, t: Tables, c: Call, v: Views)
    requires TenantScoped(c) && WellFormed(t) && Honest(t, Txn(c, v)) && Exec(repo, t, Plan(c, v)).Done?
    ensures Effect(repo, t, c, v.number, Exec(repo, t, Plan(c, v)).value)
  {
    DoneMeansClean(repo, t, Plan(c, v));
    assert !Plan(c, v)[0].Refuse?;
    match c
    case PrepareDelivery(_, _, _, _) => PrepareRuns(repo, t, c, v);
    case TransitionDelivery(_, _, _, _, _, _) => DeliveryMoveRuns(repo, t, c, v);
    case RequestAcknowledgement(_, _, _, _, _, _) => RequestRuns(repo, t, c, v);
    case TransitionAcknowledgement(_, _, _, _, _, _) => AcknowledgementMoveRuns(repo, t, c, v);
  }

  /** Every commit, on reads however stale, leaves exactly the rows its call asks for. */
  lemma CommitHasEffect(repo: Repository, t: Tables, c: Call, v: Views)
    requires WellFormed(t) && Honest(t, Txn(c, v)) && Exec(repo, t, Plan(c, v)).Done?
    ensures Effect(repo, t, c, v.number, Exec(repo, t, Plan(c, v)).value)
  {
    match c
    case TransitionOperation(_, _, _, _, _, _, _) => TransitionCommits(repo, t, c, v);
    case StartStageAttempt(_, _, _, _, _, _, _, _, _) => StartHasEffect(repo, t, c, v);
    case CompleteStageAttempt(_, _, _, _, _, _, _, _, _, _) => CompletionCommits(repo, t, c, v);
    case ScheduleRetry(_, _, _, _, _, _, _, _, _) => ScheduleCommits(repo, t, c, v);
    case BeginReconciliation(_, _, _, _, _, _) => BeginCommits(repo, t, c, v);
    case CompleteReconciliation(_, _, _, _, _, _, _, _) => ReconcileCommits(repo, t, c, v);
    case _ => DeliveryHasEffect(repo, t, c, v);
  }

  /** The same of every step of every run of interleaved callers. */
  lemma RunStepsHaveEffect(repo: Repository, states: seq<System>, events: seq<Event>, k: nat)
    requires IsRun(repo, states, events) && k < |events| && events[k].Commit?
    ensures events[k].caller in states[k].txns
    ensures var x := states[k].txns[events[k].caller];
            Effect(repo, states[k].tables, x.call, x.views.number, states[k + 1].tables)
  {
    RunSound(repo, states, events, k);
    assert StepBy(repo, states[k], events[k], states[k + 1]);
    var x := states[k].txns[events[k].caller];
    CommitHasEffect(repo, states[k].tables, x.call, x.views);
  }

  lemma ReadingNowIsHonest(t: Tables, c: Call, v: Views)
    requires ReadsNow(t, c, v)
    ensures Honest(t, Txn(c, v))
  {
  }

  /** A call whose reads are current commits if and only if the rows and its input are as `Opens` says. */
  lemma CommitsExactlyWhenOpen(repo: Repository, t: Tables, c: Call, v: Views)
    requires WellFormed(t) && ReadsNow(t, c, v)
    ensures Exec(repo, t, Plan(c, v)).Done? <==> Opens(t, c, v.number)
  {
    ReadingNowIsHonest(t, c, v);
    match c
    case StartStageAttempt(_, _, _, _, _, _, _, _, _) => StartCommitsIff(repo, t, c, v);
    case CompleteStageAttempt(_, _, _, _, _, _, _, _, _, _) => CompletionCommitsIff(repo, t, c, v);
    case PrepareDelivery(_, _, _, _) => PrepareRuns(repo, t, c, v);
    case TransitionDelivery(_, _, _, _, _, _) => DeliveryMoveRuns(repo, t, c, v);
    case RequestAcknowledgement(_, _, _, _, _, _) => RequestRuns(repo, t, c, v);
    case TransitionAcknowledgement(_, _, _, _, _, _) => AcknowledgementMoveRuns(repo, t, c, v);
    case _ =>
      if Exec(repo, t, Plan(c, v)).Done? {
        CommitHasEffect(repo, t, c, v);
      }
      if Opens(t, c, v.number) {
        OpenGuardedCommits(repo, t, c, v);
      }
  }

  lemma OpenGuardedCommits(repo: Repository, t: Tables, c: Call, v: Views)
    requires c.TransitionOperation? || c.ScheduleRetry? || c.BeginReconciliation? || c.CompleteReconciliation?
    requires ReadsNow(t, c, v) && Opens(t, c, v.number)
    ensures Exec(repo, t, Plan(c, v)).Done?
  {
    match c
    case TransitionOperation(_, _, _, _, _, _, _) => OpenTransitionCommits(repo, t, c, v);
    case ScheduleRetry(_, _, _, _, _, _, _, _, _) => OpenScheduleCommits(repo, t, c, v);
    case BeginReconciliation(_, _, _, _, _, _) => OpenBeginCommits(repo, t, c, v);
    case CompleteReconciliation(_, _, _, _, _, _, _, _) => OpenReconcileCommits(repo, t, c, v);
  }

  /** The next number over the rows a call's query sees is free under the key of the whole table. */
  lemma NextNumberIsFree(t: Tables, c: Call, n: nat)
    requires WellFormed(t) && TenantOwns(t, c) && IsNext(n, NumbersFor(t, c))
    ensures c.ScheduleRetry? && RetryTarget(c.target) ==> NumberFree(t, c.operation, RetryStage(c), n)
    ensures c.StartStageAttempt? ==> NumberFree(t, c.operation, c.stageKey, n)
    ensures c.BeginReconciliation? && c.reconciliationId !in t.reconciliations ==> ReconciliationSlotFree(t, c, n)
    ensures c.PrepareDelivery? && c.deliveryId !in t.deliveries ==> PrepareOpen(t, c, n)
  {
    forall a | a in t.attempts && t.attempts[a].operation == c.operation && t.attempts[a].stage == StageOf(c)
      ensures c.ScheduleRetry? || c.StartStageAttempt? ==> t.attempts[a].number != n
    {
      assert t.attempts[a].number in StageNumbers(t, c.operation, c.subject.tenant, StageOf(c));
    }
    forall r | r in t.reconciliations && t.reconciliations[r].operation == c.operation
      ensures c.BeginReconciliation? ==> t.reconciliations[r].number != n
    {
      assert t.reconciliations[r].number in ReconciliationNumbers(t, c.operation, c.subject.tenant);
    }
    forall d | d in t.deliveries && t.deliveries[d].operation == c.operation && t.deliveries[d].channel == StageOf(c)
      ensures c.PrepareDelivery? ==> t.deliveries[d].number != n
    {
      assert t.deliveries[d].number in DeliveryNumbers(t, c.operation, c.subject.tenant, StageOf(c));
    }
    assert c.ScheduleRetry? && RetryTarget(c.target) ==> StageOf(c) == RetryStage(c);
  }

  // ---------------------------------------------------------------- what each lifecycle call leaves

  /** The outcome of a reconciliation decides the status, exactly; the pending row records it with its evidence. */
  lemma ReconciliationDecides(repo: Repository, t: Tables, c: Call, v: Views)
    requires c.CompleteReconciliation? && WellFormed(t) && Honest(t, Txn(c, v)) && Exec(repo, t, Plan(c, v)).Done?
    ensures var t' := Exec(repo, t, Plan(c, v)).value;
            && c.operation in t.operations && t.operations[c.operation].status == Reconciling
            && c.operation in t'.operations
            && var to := t'.operations[c.operation].status;
               && (to == Active <==> c.outcome == OutcomeExecuted)
               && (to == Failed <==> c.outcome == OutcomeConflicting)
               && (to == UnknownOutcome <==> c.outcome == OutcomeStillUnknown)
               && (to == Degraded <==> c.outcome == OutcomeNotExecuted || c.outcome == OutcomeFailed)
    ensures var t' := Exec(repo, t, Plan(c, v)).value;
            && c.reconciliationId in t.reconciliations && c.reconciliationId in t'.reconciliations
            && t'.reconciliations[c.reconciliationId].status == c.outcome
            && (t.reconciliations[c.reconciliationId].status == ReconciliationPending ==>
                  t'.reconciliations[c.reconciliationId].evidenceRef ==
                  if c.evidence.Some? then Some(c.evidenceId) else None)
    ensures c.evidence.Some? ==>
              c.evidenceId !in t.evidence && c.evidenceId in Exec(repo, t, Plan(c, v)).value.evidence
  {
    ReconcileCommits(repo, t, c, v);
  }

  /** The stage a retry is kept for: the one the caller names, else the text of each of the seven targets. */
  predicate NamesStage(c: Call, stage: string)
    requires c.ScheduleRetry?
  {
    if c.stageOverride.Some? then stage == c.stageOverride.value
    else
      && (c.target == Some(Authenticating) ==> stage == "authenticating")
      && (c.target == Some(ResolvingSession) ==> stage == "resolving_session")
      && (c.target == Some(Bootstrapping) ==> stage == "bootstrapping")
      && (c.target == Some(Validating) ==> stage == "validating")
      && (c.target == Some(PreparingTools) ==> stage == "preparing_tools")
      && (c.target == Some(Executing) ==> stage == "executing")
      && (c.target == Some(Reconciling) ==> stage == "reconciling")
  }

  lemma RetryStageIsNamed(c: Call)
    requires c.ScheduleRetry?
    ensures NamesStage(c, RetryStage(c))
  {
  }

  /** The pending attempt and its approval carry that stage and number, the status left and the target approved. */
  lemma RetryKeepsItsStage(repo: Repository, t: Tables, c: Call, v: Views)
    requires c.ScheduleRetry? && Honest(t, Txn(c, v)) && Exec(repo, t, Plan(c, v)).Done?
    ensures var t' := Exec(repo, t, Plan(c, v)).value;
            && c.newAttemptId !in t.attempts && c.newAttemptId in t'.attempts && c.operation in t.operations
            && c.evidenceId !in t.evidence && c.evidenceId in t'.evidence && RetryTarget(c.target)
            && var (a, e) := (t'.attempts[c.newAttemptId], t'.evidence[c.evidenceId]);
               && NamesStage(c, a.stage)
               && a.number == v.number && a.status == Pending && a.source == GovernedRetry && a.retryable
               && e.summary == RetrySummary(t.operations[c.operation].status, c.target.value, a.stage, a.number)
               && e.attempt == Some(c.newAttemptId) && e.sourceRef == Some(c.approvalRef)
               && e.kind == GovernedRetryAuthorization && e.source == GovernanceRegistry
  {
    ScheduleCommits(repo, t, c, v);
    RetryStageIsNamed(c);
  }

  /** A completed attempt is where its caller put it; evidence given is stored and linked to that attempt. */
  lemma CompletionStores(repo: Repository, t: Tables, c: Call, v: Views)
    requires c.CompleteStageAttempt? && WellFormed(t) && Exec(repo, t, Plan(c, v)).Done?
    ensures var t' := Exec(repo, t, Plan(c, v)).value;
            && c.attemptId in t.attempts && c.attemptId in t'.attempts && t'.operations == t.operations
            && t'.attempts[c.attemptId].status == c.attemptTo
            && (t.attempts[c.attemptId].status != c.attemptTo ==>
                  t'.attempts[c.attemptId] == CompletedAttempt(repo, t, c))
            && (c.evidence.Some? ==> && c.evidenceId !in t.evidence && c.evidenceId in t'.evidence
                                     && t'.evidence[c.evidenceId].attempt == Some(c.attemptId)
                                     && t'.evidence[c.evidenceId].kind == c.evidence.value.kind
                                     && t'.evidence[c.evidenceId].operation == c.operation)
  {
    CompletionCommits(repo, t, c, v);
  }

  /** A begun reconciliation is a new pending row of this operation, tenant, number, reason and source. */
  lemma BeginOpensARow(repo: Repository, t: Tables, c: Call, v: Views)
    requires c.BeginReconciliation? && Honest(t, Txn(c, v)) && Exec(repo, t, Plan(c, v)).Done?
    ensures var t' := Exec(repo, t, Plan(c, v)).value;
            && c.reconciliationId !in t.reconciliations && c.reconciliationId in t'.reconciliations
            && t'.reconciliations[c.reconciliationId] ==
               ReconciliationRow(c.operation, c.subject.tenant, v.number, c.reason, c.source, ReconciliationPending,
                                 None, None)
            && c.operation in t'.operations && t'.operations[c.operation].status == Reconciling
  {
    BeginCommits(repo, t, c, v);
  }

  // ---------------------------------------------------------------- what each call makes possible next

  /** A begun reconciliation can be completed by any caller that sees the operation and brings fitting evidence. */
  lemma BegunCanComplete(repo: Repository, t: Tables, c: Call, v: Views, d: Call, w: Views)
    requires c.BeginReconciliation? && WellFormed(t) && Honest(t, Txn(c, v)) && Exec(repo, t, Plan(c, v)).Done?
    requires d.CompleteReconciliation? && d.operation == c.operation && d.reconciliationId == c.reconciliationId
    requires d.expected == c.expected + 1 && ReadsNow(Exec(repo, t, Plan(c, v)).value, d, w)
    ensures var t' := Exec(repo, t, Plan(c, v)).value;
            Exec(repo, t', Plan(d, w)).Done? <==>
            && c.operation in t'.operations && Sees(d.subject, t'.operations[c.operation])
            && d.outcome != ReconciliationPending && (d.outcome == OutcomeExecuted ==> OffersSuccessKind(d))
            && OfferStorable(t', d)
  {
    BeginCommits(repo, t, c, v);
    var t' := AfterBegin(t, c, v.number);
    BeginWellFormed(t, c, v.number);
    CommitsExactlyWhenOpen(repo, t', d, w);
  }

  lemma BeginWellFormed(t: Tables, c: Call, n: nat)
    requires c.BeginReconciliation? && WellFormed(t) && BeginOpen(t, c, n) && n >= 1
    ensures WellFormed(AfterBegin(t, c, n))
  {
  }

  lemma ScheduleWellFormed(t: Tables, c: Call, n: nat)
    requires c.ScheduleRetry? && WellFormed(t) && ScheduleOpen(t, c, n) && n >= 1
    ensures WellFormed(AfterSchedule(t, c, n))
  {
  }

  lemma ReservedCanStart(repo: Repository, t: Tables, c: Call, n: nat, d: Call, w: Views)
    requires c.ScheduleRetry? && WellFormed(t) && ScheduleOpen(t, c, n) && n >= 1
    requires d.StartStageAttempt? && d.operation == c.operation && d.reserved == Some(c.newAttemptId)
    requires ReadsNow(AfterSchedule(t, c, n), d, w)
    ensures var t' := AfterSchedule(t, c, n);
            Exec(repo, t', Plan(d, w)).Done? <==>
            && Sees(d.subject, t'.operations[c.operation]) && d.stageKey == RetryStage(c) && RetryTarget(d.target)
            && d.expectedIfTarget == Some(c.expected + 1)
  {
    ScheduleWellFormed(t, c, n);
    StartCommitsIff(repo, AfterSchedule(t, c, n), d, w);
    ReservedIsOpen(t, c, n, d);
  }

  lemma ReservedIsOpen(t: Tables, c: Call, n: nat, d: Call)
    requires c.ScheduleRetry? && ScheduleOpen(t, c, n)
    requires d.StartStageAttempt? && d.operation == c.operation && d.reserved == Some(c.newAttemptId)
    ensures var t' := AfterSchedule(t, c, n);
            RetryStartOpen(t', d) <==>
            && Sees(d.subject, t'.operations[c.operation]) && d.stageKey == RetryStage(c) && RetryTarget(d.target)
            && d.expectedIfTarget == Some(c.expected + 1)
  {
  }

  /** The reserved attempt can be started next, for its own stage, target and version and by no other start. */
  lemma ScheduledCanStart(repo: Repository, t: Tables, c: Call, v: Views, d: Call, w: Views)
    requires c.ScheduleRetry? && WellFormed(t) && Honest(t, Txn(c, v)) && Exec(repo, t, Plan(c, v)).Done?
    requires d.StartStageAttempt? && d.operation == c.operation && d.reserved == Some(c.newAttemptId)
    requires ReadsNow(Exec(repo, t, Plan(c, v)).value, d, w)
    ensures var t' := Exec(repo, t, Plan(c, v)).value;
            Exec(repo, t', Plan(d, w)).Done? <==>
            && c.operation in t'.operations && Sees(d.subject, t'.operations[c.operation])
            && d.stageKey == RetryStage(c) && RetryTarget(d.target) && d.expectedIfTarget == Some(c.expected + 1)
  {
    ScheduleCommits(repo, t, c, v);
    ReservedCanStart(repo, t, c, v.number, d, w);
  }

  predicate RunsNow(t: Tables, id: Id, o: Id, tenant: Id) {
    && HoldsAttempt(t, id, o, tenant) && t.attempts[id].status == Running
    && o in t.operations && t.operations[o].tenant == tenant
  }

  lemma RetryLeavesRunning(repo: Repository, t: Tables, c: Call)
    requires c.StartStageAttempt? && RetryStartFound(t, c)
    ensures RunsNow(AfterRetryStart(repo, t, c), c.reserved.value, c.operation, c.subject.tenant)
  {
  }

  lemma OrdinaryLeavesRunning(t: Tables, c: Call, n: nat)
    requires c.StartStageAttempt? && OrdinaryStartFound(t, c, n)
    ensures RunsNow(AfterOrdinaryStart(t, c, n), c.newAttemptId, c.operation, c.subject.tenant)
  {
  }

  lemma StartLeavesRunning(repo: Repository, t: Tables, c: Call, v: Views)
    requires c.StartStageAttempt? && WellFormed(t) && Honest(t, Txn(c, v)) && Exec(repo, t, Plan(c, v)).Done?
    ensures RunsNow(Exec(repo, t, Plan(c, v)).value, if c.reserved.Some? then c.reserved.value else c.newAttemptId,
                    c.operation, c.subject.tenant)
  {
    StartHasEffect(repo, t, c, v);
    if c.reserved.Some? {
      RetryLeavesRunning(repo, t, c);
    } else {
      OrdinaryLeavesRunning(t, c, v.number);
    }
  }

  /** A running attempt can be completed, to any final status and only to one. */
  lemma RunningCanComplete(repo: Repository, t: Tables, d: Call, w: Views, tenant: Id)
    requires d.CompleteStageAttempt? && WellFormed(t) && RunsNow(t, d.attemptId, d.operation, tenant)
    requires ReadsNow(t, d, w)
    ensures Exec(repo, t, Plan(d, w)).Done? <==>
            && Sees(d.subject, t.operations[d.operation])
            && d.attemptTo in {AttemptSucceeded, AttemptDegraded, AttemptFailed, AttemptUnknown, AttemptCancelled}
            && OfferStorable(t, d)
  {
    CompletionCommitsIff(repo, t, d, w);
  }

  /** An attempt just started can be completed by any caller that sees its operation. */
  lemma StartedCanComplete(repo: Repository, t: Tables, c: Call, v: Views, d: Call, w: Views)
    requires c.StartStageAttempt? && WellFormed(t) && Honest(t, Txn(c, v)) && Exec(repo, t, Plan(c, v)).Done?
    requires d.CompleteStageAttempt? && d.operation == c.operation
    requires d.attemptId == if c.reserved.Some? then c.reserved.value else c.newAttemptId
    requires ReadsNow(Exec(repo, t, Plan(c, v)).value, d, w)
    ensures var t' := Exec(repo, t, Plan(c, v)).value;
            Exec(repo, t', Plan(d, w)).Done? <==>
            && c.operation in t'.operations && Sees(d.subject, t'.operations[c.operation])
            && d.attemptTo in {AttemptSucceeded, AttemptDegraded, AttemptFailed, AttemptUnknown, AttemptCancelled}
            && OfferStorable(t', d)
  {
    StartLeavesRunning(repo, t, c, v);
    CommitKeeps(repo, System(t, map[0 := Txn(c, v)]), 0);
    RunningCanComplete(repo, Exec(repo, t, Plan(c, v)).value, d, w, c.subject.tenant);
  }
}
