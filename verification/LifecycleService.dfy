/** The lifecycle service as it runs: one transaction per call, statements issued in order, rollback on refusal. */
module LifecycleServiceModel {
  import opened Outcomes
  import opened LifecycleStateMachine
  import opened RetryPolicy
  import opened ActivationStore
  import opened LifecycleCalls
  import opened StoreInvariants
  import LifecycleRuns
  import opened CallResults
  import opened CallRefusals

  /** What a call answers: the status and version its operation now has. */
  datatype Receipt = Receipt(status: OperationStatus, version: nat)

  /** `r` and `t'` are the answer and the tables after issuing `s` on `t`. */
  ghost predicate Ran(repo: Repository, t: Tables, s: Statement, r: Option<Refusal>, t': Tables) {
    var result := Apply(repo, t, s);
    if result.Done? then r == None && t' == result.value else r == Some(result.error) && t' == t
  }

  /** What the call reads when it runs alone on `t`, with `n` as its next number. */
  ghost function Reads(t: Tables, c: Call, n: nat): Views {
    Views(ReadOperation(t, c), ReadAttempt(t, c), n)
  }

  /** All or nothing: the plan's tables and a matching receipt, or the refusal and the tables as they were. */
  ghost predicate Transacted(repo: Repository, t: Tables, c: Call, n: nat, r: Result<Receipt, Refusal>, t': Tables) {
    && IsNext(n, NumbersFor(t, c))
    && var result := Exec(repo, t, Plan(c, Reads(t, c, n)));
      if result.Done? then
        && t' == result.value && r.Done? && c.operation in t'.operations
        && r.value == Receipt(t'.operations[c.operation].status, t'.operations[c.operation].version)
      else
        r == Refused(result.error) && t' == t
  }

  /** `f` is the refusal of the plan, or there is none and `t'` holds the plan's tables. */
  ghost predicate Worked(repo: Repository, t: Tables, plan: seq<Statement>, f: Option<Refusal>, t': Tables) {
    var result := Exec(repo, t, plan);
    if f.Some? then result == Refused(f.value) else result == Done(t')
  }

  /** A delivery or acknowledgement call: its plan's tables, or the refusal and the tables as they were. */
  ghost predicate Delivered(repo: Repository, t: Tables, c: Call, n: nat, f: Option<Refusal>, t': Tables) {
    && Worked(repo, t, Plan(c, Reads(t, c, n)), f, t')
    && (f.Some? ==> t' == t)
  }

  /**
   * The answer told from rows and input: done exactly when the call opens, and then with exactly its effect; refused,
   * it names a condition that holds and changes nothing.
   */
  ghost predicate Served(repo: Repository, t: Tables, c: Call, n: nat, r: Result<Receipt, Refusal>, t': Tables) {
    if Opens(t, c, n) then r.Done? && Effect(repo, t, c, n, t')
    else r.Refused? && Explains(t, c, n, r.error) && t' == t
  }

  lemma TransactedIsServed(repo: Repository, t: Tables, c: Call, n: nat, r: Result<Receipt, Refusal>, t': Tables)
    requires WellFormed(t) && Transacted(repo, t, c, n, r, t')
    ensures Served(repo, t, c, n, r, t')
  {
    var v := Reads(t, c, n);
    CommitsExactlyWhenOpen(repo, t, c, v);
    if Opens(t, c, n) {
      ReadingNowIsHonest(t, c, v);
      CommitHasEffect(repo, t, c, v);
    } else {
      RefusalsAreTrue(repo, t, c, v, r.error);
    }
  }

  /** The same of the delivery and acknowledgement calls. */
  lemma DeliveredIsServed(repo: Repository, t: Tables, c: Call, n: nat, f: Option<Refusal>, t': Tables)
    requires WellFormed(t) && n >= 1 && Delivered(repo, t, c, n, f, t')
    ensures if Opens(t, c, n) then f.None? && Effect(repo, t, c, n, t')
            else f.Some? && Explains(t, c, n, f.value) && t' == t
  {
    var v := Reads(t, c, n);
    CommitsExactlyWhenOpen(repo, t, c, v);
    if Opens(t, c, n) {
      ReadingNowIsHonest(t, c, v);
      CommitHasEffect(repo, t, c, v);
    } else {
      RefusalsAreTrue(repo, t, c, v, f.value);
    }
  }

  lemma ExecFirst(repo: Repository, t: Tables, a: Statement, rest: seq<Statement>)
    ensures Exec(repo, t, [a] + rest) ==
            if Apply(repo, t, a).Done? then Exec(repo, Apply(repo, t, a).value, rest)
            else Refused(Apply(repo, t, a).error)
  {
  }

  /** What an ordinary start issues before any move of the operation. */
  function StartRowStatements(c: Call, number: nat): seq<Statement>
    requires c.StartStageAttempt?
  {
    [InsertAttempt(c.newAttemptId,
                   PendingAttempt(c.operation, c.subject.tenant, c.stageKey, number, c.source, false)),
     MoveAttempt(c.newAttemptId, c.operation, c.subject.tenant, Pending, Running, STARTED, c.now)]
  }

  function StartMove(c: Call, version: nat): seq<Statement>
    requires c.StartStageAttempt?
  {
    if c.target.None? then []
    else [UpdateOperation(c.operation, c.subject, version, c.target.value, Some(c.stageKey))]
  }

  /** What a transition issues after its evidence. */
  function MoveStatements(c: Call): seq<Statement>
    requires c.TransitionOperation?
  {
    var move := [UpdateOperation(c.operation, c.subject, c.expected, c.to, c.stage)];
    if c.to == Active
    then [RequireSuccessEvidence(EvidenceIdOf(c.evidence, c.evidenceId), c.operation, c.subject.tenant)] + move
    else move
  }

  class ActivationService {
    const repository: Repository
    var operations: map<Id, OperationRow>
    var attempts: map<Id, AttemptRow>
    var evidence: map<Id, EvidenceRow>
    var reconciliations: map<Id, ReconciliationRow>
    var deliveries: map<Id, DeliveryRow>
    var acknowledgements: map<Id, AcknowledgementRow>

    constructor (repository: Repository)
      ensures this.repository == repository
      ensures Contents() == Tables(map[], map[], map[], map[], map[], map[])
    {
      this.repository := repository;
      operations, attempts, evidence := map[], map[], map[];
      reconciliations, deliveries, acknowledgements := map[], map[], map[];
    }

    function Contents(): Tables
      reads this
    {
      Tables(operations, attempts, evidence, reconciliations, deliveries, acknowledgements)
    }

    method Rollback(saved: Tables)
      modifies this
      ensures Contents() == saved
    {
      operations, attempts, evidence := saved.operations, saved.attempts, saved.evidence;
      reconciliations, deliveries := saved.reconciliations, saved.deliveries;
      acknowledgements := saved.acknowledgements;
    }

    // -------------------------------------------------------------- repository statements

    method AppendStageAttempt(id: Id, row: AttemptRow) returns (r: Option<Refusal>)
      modifies this`attempts
      ensures Ran(repository, old(Contents()), InsertAttempt(id, row), r, Contents())
    {
      if row.operation !in operations {
        return Some(ForeignKeyMissing);
      }
      if id in attempts || AttemptNumberTaken(Contents(), row.operation, row.stage, row.number) {
        return Some(AttemptConflict);
      }
      attempts := attempts[id := row];
      r := None;
    }

    method TransitionStageAttempt(id: Id, operation: Id, tenant: Id, from: AttemptStatus, to: AttemptStatus,
                                  fields: AttemptFields, now: int)
      returns (r: Option<Refusal>)
      modifies this`attempts
      ensures Ran(repository, old(Contents()), MoveAttempt(id, operation, tenant, from, to, fields, now), r, Contents())
    {
      var scoped := id in attempts && attempts[id].operation == operation && attempts[id].tenant == tenant;
      if scoped && attempts[id].status == from {
        attempts := attempts[id := MovedAttempt(repository, attempts[id], to, fields, now)];
        return None;
      }
      r := if scoped && attempts[id].status == to then None else Some(AttemptMoveConflict);
    }

    method AppendEvidenceRow(id: Id, row: EvidenceRow) returns (r: Option<Refusal>)
      modifies this`evidence
      ensures Ran(repository, old(Contents()), InsertEvidence(id, row), r, Contents())
    {
      if row.bytes > EVIDENCE_MAX_BYTES {
        return Some(EvidenceTooLarge);
      }
      if id in evidence || EvidenceDuplicate(Contents(), row) {
        return Some(EvidenceConflict);
      }
      if row.operation !in operations || (row.attempt.Some? && row.attempt.value !in attempts) {
        return Some(ForeignKeyMissing);
      }
      evidence := evidence[id := row];
      r := None;
    }

    method RequireSuccess(id: Option<Id>, operation: Id, tenant: Id) returns (r: Option<Refusal>)
      ensures Ran(repository, Contents(), RequireSuccessEvidence(id, operation, tenant), r, Contents())
    {
      var found := IsSuccessEvidence(Contents(), id, operation, tenant);
      if repository == PersistenceRepository {
        found := found && evidence[id.value].bytes <= EVIDENCE_MAX_BYTES;
      }
      r := if found then None else Some(SuccessEvidenceRequired);
    }

    method AppendReconciliation(id: Id, row: ReconciliationRow) returns (r: Option<Refusal>)
      modifies this`reconciliations
      ensures Ran(repository, old(Contents()), InsertReconciliation(id, row), r, Contents())
    {
      if row.operation !in operations {
        return Some(ForeignKeyMissing);
      }
      if id in reconciliations || ReconciliationNumberTaken(Contents(), row.operation, row.number) {
        return Some(ReconciliationConflict);
      }
      reconciliations := reconciliations[id := row];
      r := None;
    }

    method CompleteReconciliationRow(id: Id, operation: Id, tenant: Id, outcome: ReconciliationStatus,
                                     ref: Option<Id>, now: int)
      returns (r: Option<Refusal>)
      modifies this`reconciliations
      ensures Ran(repository, old(Contents()), MoveReconciliation(id, operation, tenant, outcome, ref, now), r,
                  Contents())
    {
      var scoped := id in reconciliations && reconciliations[id].operation == operation &&
                    reconciliations[id].tenant == tenant;
      if scoped && reconciliations[id].status == ReconciliationPending {
        reconciliations := reconciliations[id := reconciliations[id].(
          status := outcome, evidenceRef := ref, completedAt := Some(now))];
        return None;
      }
      r := if scoped && reconciliations[id].status == outcome then None else Some(ReconciliationMoveConflict);
    }

    method UpdateOperationRow(operation: Id, subject: Subject, expected: nat, status: OperationStatus,
                              stage: Option<string>)
      returns (r: Option<Refusal>)
      modifies this`operations
      ensures Ran(repository, old(Contents()), UpdateOperation(operation, subject, expected, status, stage), r,
                  Contents())
    {
      if operation !in operations || !InScope(operations[operation], subject) ||
         operations[operation].version != expected {
        return Some(VersionConflict);
      }
      var row := operations[operation];
      operations := operations[operation := row.(
        status := status, stage := if stage.Some? then stage.value else row.stage, version := expected + 1)];
      r := None;
    }

    /** `COALESCE(MAX(attempt_number), 0) + 1` by scanning the rows. */
    method NextStageAttemptNumber(operation: Id, tenant: Id, stage: string) returns (n: nat)
      ensures IsNext(n, StageNumbers(Contents(), operation, tenant, stage))
    {
      n := 1;
      var left := attempts.Keys;
      ghost var seen: set<nat> := {};
      while left != {}
        invariant left <= attempts.Keys
        invariant seen == set id | id in attempts.Keys - left && attempts[id].operation == operation &&
                                   attempts[id].tenant == tenant && attempts[id].stage == stage
                            :: attempts[id].number
        invariant IsNext(n, seen)
        decreases left
      {
        var id :| id in left;
        left := left - {id};
        var row := attempts[id];
        if row.operation == operation && row.tenant == tenant && row.stage == stage {
          if row.number >= n {
            n := row.number + 1;
          }
          seen := seen + {row.number};
        }
      }
      assert seen == StageNumbers(Contents(), operation, tenant, stage);
    }

    method NextReconciliationAttemptNumber(operation: Id, tenant: Id) returns (n: nat)
      ensures IsNext(n, ReconciliationNumbers(Contents(), operation, tenant))
    {
      n := 1;
      var left := reconciliations.Keys;
      ghost var seen: set<nat> := {};
      while left != {}
        invariant left <= reconciliations.Keys
        invariant seen == set id | id in reconciliations.Keys - left && reconciliations[id].operation == operation &&
                                   reconciliations[id].tenant == tenant
                            :: reconciliations[id].number
        invariant IsNext(n, seen)
        decreases left
      {
        var id :| id in left;
        left := left - {id};
        var row := reconciliations[id];
        if row.operation == operation && row.tenant == tenant {
          if row.number >= n {
            n := row.number + 1;
          }
          seen := seen + {row.number};
        }
      }
      assert seen == ReconciliationNumbers(Contents(), operation, tenant);
    }

    // -------------------------------------------------------------- transaction bodies

    method AppendOptionalEvidence(e: Option<EvidenceInput>, id: Id, operation: Id, tenant: Id)
      returns (f: Option<Refusal>)
      modifies this`evidence
      ensures Worked(repository, old(Contents()), AppendEvidence(e, id, operation, tenant), f, Contents())
    {
      f := None;
      if e.Some? {
        f := AppendEvidenceRow(id, EvidenceFor(e.value, operation, tenant));
        ExecFirst(repository, old(Contents()), InsertEvidence(id, EvidenceFor(e.value, operation, tenant)), []);
      }
    }

    /** Append the evidence, read it back for `active`, move the operation. */
    method TransitionOperationBody(c: Call, op: OperationRow) returns (f: Option<Refusal>)
      requires c.TransitionOperation? && c.operation in operations
      modifies this
      ensures Worked(repository, old(Contents()), PlanTransition(c, op), f, Contents())
      ensures f.None? ==> c.operation in operations
    {
      if op.version != c.expected {
        return Some(VersionConflict);
      }
      var check := CheckTransition(op.status, c.to);
      if check.Refused? {
        return Some(State(check.error));
      }
      var o, tenant := c.operation, c.subject.tenant;
      ghost var append := AppendEvidence(c.evidence, c.evidenceId, o, tenant);
      ghost var rest := MoveStatements(c);
      assert PlanTransition(c, op) == append + rest;
      LifecycleRuns.ExecSplit(repository, Contents(), append, rest);
      f := AppendOptionalEvidence(c.evidence, c.evidenceId, o, tenant);
      if f.None? {
        f := MoveWithReadback(c);
      }
    }

    /** Read the evidence back for `active`, then move the operation. */
    method MoveWithReadback(c: Call) returns (f: Option<Refusal>)
      requires c.TransitionOperation? && c.operation in operations
      modifies this`operations
      ensures Worked(repository, old(Contents()), MoveStatements(c), f, Contents())
      ensures f.None? ==> c.operation in operations
    {
      var o, tenant, id := c.operation, c.subject.tenant, EvidenceIdOf(c.evidence, c.evidenceId);
      ghost var move := UpdateOperation(o, c.subject, c.expected, c.to, c.stage);
      if c.to == Active {
        ExecFirst(repository, Contents(), RequireSuccessEvidence(id, o, tenant), [move]);
        f := RequireSuccess(id, o, tenant);
        if f.Some? {
          return;
        }
      }
      ExecFirst(repository, Contents(), move, []);
      f := UpdateOperationRow(o, c.subject, c.expected, c.to, c.stage);
    }

    /** Reserve a pending attempt, record its approval, move the operation. */
    method ScheduleRetryBody(c: Call, op: OperationRow, number: nat) returns (f: Option<Refusal>)
      requires c.ScheduleRetry? && c.operation in operations
      modifies this
      ensures Worked(repository, old(Contents()), PlanSchedule(c, op, number), f, Contents())
      ensures f.None? ==> c.operation in operations
    {
      if op.version != c.expected {
        return Some(VersionConflict);
      }
      var decision := AuthorizeRetry(op.status, c.target, c.approved, c.approvalRef);
      if decision.Refused? {
        return Some(Policy(decision.error));
      }
      var row := PendingAttempt(c.operation, c.subject.tenant, StageOf(c), number, GovernedRetry, true);
      var approval := RetryEvidence(c, decision.value, number);
      ghost var insert, approve := InsertAttempt(c.newAttemptId, row), InsertEvidence(c.evidenceId, approval);
      ghost var move := UpdateOperation(c.operation, c.subject, c.expected, RetryScheduled, None);
      assert PlanSchedule(c, op, number) == [insert] + ([approve] + ([move] + []));
      ExecFirst(repository, Contents(), insert, [approve] + ([move] + []));
      f := AppendStageAttempt(c.newAttemptId, row);
      if f.Some? {
        return;
      }
      ExecFirst(repository, Contents(), approve, [move] + []);
      f := AppendEvidenceRow(c.evidenceId, approval);
      if f.Some? {
        return;
      }
      ExecFirst(repository, Contents(), move, []);
      f := UpdateOperationRow(c.operation, c.subject, c.expected, RetryScheduled, None);
    }

    /** Open a pending reconciliation and move the operation to `reconciling`. */
    method BeginReconciliationBody(c: Call, op: OperationRow, number: nat) returns (f: Option<Refusal>)
      requires c.BeginReconciliation? && c.operation in operations
      modifies this
      ensures Worked(repository, old(Contents()), PlanBegin(c, op, number), f, Contents())
      ensures f.None? ==> c.operation in operations
    {
      if op.version != c.expected {
        return Some(VersionConflict);
      }
      var check := CheckTransition(op.status, Reconciling);
      if check.Refused? {
        return Some(State(check.error));
      }
      var row := ReconciliationRow(c.operation, c.subject.tenant, number, c.reason, c.source, ReconciliationPending,
                                   None, None);
      ghost var insert := InsertReconciliation(c.reconciliationId, row);
      ghost var move := UpdateOperation(c.operation, c.subject, c.expected, Reconciling, None);
      assert PlanBegin(c, op, number) == [insert] + ([move] + []);
      ExecFirst(repository, Contents(), insert, [move] + []);
      f := AppendReconciliation(c.reconciliationId, row);
      if f.Some? {
        return;
      }
      ExecFirst(repository, Contents(), move, []);
      f := UpdateOperationRow(c.operation, c.subject, c.expected, Reconciling, None);
    }

    /** Append the evidence, resolve the outcome, close the reconciliation, move the operation. */
    method CompleteReconciliationBody(c: Call, op: OperationRow) returns (f: Option<Refusal>)
      requires c.CompleteReconciliation? && c.operation in operations
      modifies this
      ensures Worked(repository, old(Contents()), PlanReconcile(c, op), f, Contents())
      ensures f.None? ==> c.operation in operations
    {
      if op.version != c.expected {
        return Some(VersionConflict);
      }
      if op.status != Reconciling {
        return Some(ReconciliationStateInvalid);
      }
      var o, tenant, id := c.operation, c.subject.tenant, EvidenceIdOf(c.evidence, c.evidenceId);
      ghost var t0 := Contents();
      ghost var append := AppendEvidence(c.evidence, c.evidenceId, o, tenant);
      ghost var require := if c.outcome == OutcomeExecuted then [RequireSuccessEvidence(id, o, tenant)] else [];
      assert PlanReconcile(c, op) == append + require + PlanOutcome(c);
      assert append + require + PlanOutcome(c) == append + (require + PlanOutcome(c));
      LifecycleRuns.ExecSplit(repository, t0, append, require + PlanOutcome(c));
      f := AppendOptionalEvidence(c.evidence, c.evidenceId, o, tenant);
      if f.Some? {
        return;
      }
      if c.outcome == OutcomeExecuted {
        ExecFirst(repository, Contents(), RequireSuccessEvidence(id, o, tenant), PlanOutcome(c));
        f := RequireSuccess(id, o, tenant);
        if f.Some? {
          return;
        }
      }
      assert c.outcome != OutcomeExecuted ==> require + PlanOutcome(c) == PlanOutcome(c);
      f := ResolveReconciliation(c);
    }

    method ResolveReconciliation(c: Call) returns (f: Option<Refusal>)
      requires c.CompleteReconciliation?
      modifies this
      ensures Worked(repository, old(Contents()), PlanOutcome(c), f, Contents())
      ensures f.None? ==> c.operation in operations
    {
      var resolved := ResolveOutcome(c.outcome, if c.evidence.None? then None else Some(c.evidence.value.kind));
      if resolved.Refused? {
        return Some(Policy(resolved.error));
      }
      var check := CheckTransition(Reconciling, resolved.value);
      if check.Refused? {
        return Some(State(check.error));
      }
      var o, tenant, ref := c.operation, c.subject.tenant, EvidenceIdOf(c.evidence, c.evidenceId);
      ghost var close := MoveReconciliation(c.reconciliationId, o, tenant, c.outcome, ref, c.now);
      ghost var move := UpdateOperation(o, c.subject, c.expected, resolved.value, None);
      assert PlanOutcome(c) == [close] + ([move] + []);
      ExecFirst(repository, Contents(), close, [move] + []);
      f := CompleteReconciliationRow(c.reconciliationId, o, tenant, c.outcome, ref, c.now);
      if f.Some? {
        return;
      }
      ExecFirst(repository, Contents(), move, []);
      f := UpdateOperationRow(o, c.subject, c.expected, resolved.value, None);
    }

    /** Append the evidence and move the attempt; the operation row is left alone. */
    method CompleteStageAttemptBody(c: Call) returns (f: Option<Refusal>)
      requires c.CompleteStageAttempt? && c.operation in operations
      modifies this
      ensures Worked(repository, old(Contents()), PlanCompletion(c, ReadAttempt(old(Contents()), c)), f, Contents())
      ensures f.None? ==> c.operation in operations
    {
      var attempt := ReadAttempt(Contents(), c);
      if attempt.None? {
        return Some(AttemptNotFound);
      }
      var check := CheckAttemptTransition(attempt.value.status, c.attemptTo);
      if check.Refused? {
        return Some(State(check.error));
      }
      var o, tenant := c.operation, c.subject.tenant;
      var linked := if c.evidence.None? then None else Some(c.evidence.value.(attempt := Some(c.attemptId)));
      var fields := AttemptFields(c.retryable, c.attemptTo == AttemptUnknown, c.errorCode, c.errorMessage,
                                  EvidenceIdOf(c.evidence, c.evidenceId));
      ghost var append := AppendEvidence(linked, c.evidenceId, o, tenant);
      ghost var move := MoveAttempt(c.attemptId, o, tenant, attempt.value.status, c.attemptTo, fields, c.now);
      assert PlanCompletion(c, attempt) == append + [move];
      LifecycleRuns.ExecSplit(repository, Contents(), append, [move]);
      f := AppendOptionalEvidence(linked, c.evidenceId, o, tenant);
      if f.Some? {
        return;
      }
      ExecFirst(repository, Contents(), move, []);
      f := TransitionStageAttempt(c.attemptId, o, tenant, attempt.value.status, c.attemptTo, fields, c.now);
    }

    /** From `retry_scheduled`: start the reserved attempt. */
    method StartReserved(c: Call, op: OperationRow) returns (f: Option<Refusal>)
      requires c.StartStageAttempt?
      modifies this
      ensures Worked(repository, old(Contents()), PlanRetryStart(c, op, ReadAttempt(old(Contents()), c)), f, Contents())
      ensures f.None? ==> c.operation in operations
    {
      if c.target.None? {
        return Some(RetryTargetStatusRequired);
      }
      if c.expectedIfTarget.None? {
        return Some(ExpectedVersionRequired);
      }
      if op.version != c.expectedIfTarget.value {
        return Some(VersionConflict);
      }
      var check := CheckTransition(op.status, c.target.value);
      if check.Refused? {
        return Some(State(check.error));
      }
      if c.reserved.None? {
        return Some(RetryAttemptIdRequired);
      }
      var attempt := ReadAttempt(Contents(), c);
      if attempt.None? {
        return Some(RetryAttemptNotFound);
      }
      if attempt.value.stage != c.stageKey || attempt.value.source != GovernedRetry {
        return Some(RetryAttemptMismatch);
      }
      if attempt.value.status != Pending {
        return Some(RetryAttemptNotPending);
      }
      var o, tenant, fields := c.operation, c.subject.tenant, STARTED.(retryable := true);
      ghost var start := MoveAttempt(c.reserved.value, o, tenant, Pending, Running, fields, c.now);
      ghost var move := UpdateOperation(o, c.subject, c.expectedIfTarget.value, c.target.value, Some(c.stageKey));
      assert PlanRetryStart(c, op, attempt) == [start] + ([move] + []);
      ExecFirst(repository, Contents(), start, [move] + []);
      f := TransitionStageAttempt(c.reserved.value, o, tenant, Pending, Running, fields, c.now);
      if f.Some? {
        return;
      }
      ExecFirst(repository, Contents(), move, []);
      f := UpdateOperationRow(o, c.subject, c.expectedIfTarget.value, c.target.value, Some(c.stageKey));
    }

    /** The checks of an ordinary start, in the order they are made. */
    method AdmitNewStart(c: Call, op: OperationRow) returns (f: Option<Refusal>)
      requires c.StartStageAttempt?
      ensures forall n :: f.Some? ==> PlanOrdinaryStart(c, op, n) == [Refuse(f.value)]
      ensures f.None? ==> c.reserved.None? && (c.target.Some? ==> c.expectedIfTarget == Some(op.version))
      ensures forall n :: f.None? ==>
                PlanOrdinaryStart(c, op, n) == StartRowStatements(c, n) + StartMove(c, op.version)
    {
      if c.reserved.Some? {
        return Some(AttemptIdUnexpected);
      }
      if c.target.Some? {
        var check := CheckTransition(op.status, c.target.value);
        if check.Refused? {
          return Some(State(check.error));
        }
        if c.expectedIfTarget.None? {
          return Some(ExpectedVersionRequired);
        }
        if op.version != c.expectedIfTarget.value {
          return Some(VersionConflict);
        }
      } else {
        var kind := Classify(op.status);
        if kind.Refused? {
          return Some(State(kind.error));
        }
        if kind.value != CoreNonterminal || op.status in {UnknownOutcome, Reconciling, RetryScheduled} {
          return Some(StartStateInvalid);
        }
      }
      f := None;
    }

    /** Insert an attempt and start it. */
    method StartRow(c: Call, number: nat) returns (f: Option<Refusal>)
      requires c.StartStageAttempt?
      modifies this`attempts
      ensures Worked(repository, old(Contents()), StartRowStatements(c, number), f, Contents())
    {
      var o, tenant := c.operation, c.subject.tenant;
      var row := PendingAttempt(o, tenant, c.stageKey, number, c.source, false);
      ghost var insert := InsertAttempt(c.newAttemptId, row);
      ghost var start := MoveAttempt(c.newAttemptId, o, tenant, Pending, Running, STARTED, c.now);
      assert StartRowStatements(c, number) == [insert] + ([start] + []);
      ExecFirst(repository, Contents(), insert, [start] + []);
      f := AppendStageAttempt(c.newAttemptId, row);
      if f.Some? {
        return;
      }
      ExecFirst(repository, Contents(), start, []);
      f := TransitionStageAttempt(c.newAttemptId, o, tenant, Pending, Running, STARTED, c.now);
    }

    /** Insert an attempt, start it, and move the operation if the caller asked for that. */
    method StartAdmitted(c: Call, version: nat, number: nat) returns (f: Option<Refusal>)
      requires c.StartStageAttempt? && c.operation in operations
      modifies this
      ensures Worked(repository, old(Contents()), StartRowStatements(c, number) + StartMove(c, version), f, Contents())
      ensures f.None? ==> c.operation in operations
    {
      LifecycleRuns.ExecSplit(repository, Contents(), StartRowStatements(c, number), StartMove(c, version));
      f := StartRow(c, number);
      if f.Some? || c.target.None? {
        return;
      }
      ExecFirst(repository, Contents(), StartMove(c, version)[0], []);
      f := UpdateOperationRow(c.operation, c.subject, version, c.target.value, Some(c.stageKey));
    }

    /** From any other state: insert an attempt and start it, with any legal transition the caller asked for. */
    method StartNew(c: Call, op: OperationRow, number: nat) returns (f: Option<Refusal>)
      requires c.StartStageAttempt? && c.operation in operations
      modifies this
      ensures Worked(repository, old(Contents()), PlanOrdinaryStart(c, op, number), f, Contents())
      ensures f.None? ==> c.operation in operations
    {
      f := AdmitNewStart(c, op);
      if f.None? {
        f := StartAdmitted(c, op.version, number);
      }
    }

    // -------------------------------------------------------------- transactions

    /** The next number of the call, for every call that uses one. */
    method NextNumber(c: Call) returns (n: nat)
      requires !TenantScoped(c)
      ensures IsNext(n, NumbersFor(Contents(), c))
    {
      if c.BeginReconciliation? {
        n := NextReconciliationAttemptNumber(c.operation, c.subject.tenant);
      } else {
        n := NextStageAttemptNumber(c.operation, c.subject.tenant, StageOf(c));
      }
    }

    /** The body of a transaction whose call was admitted and whose operation `op` was found. */
    method Work(c: Call, op: OperationRow, n: nat) returns (f: Option<Refusal>)
      requires !TenantScoped(c) && c.operation in operations
      modifies this
      ensures Worked(repository, old(Contents()), PlanOn(c, op, Views(Some(op), ReadAttempt(old(Contents()), c), n)), f,
                     Contents())
      ensures f.None? ==> c.operation in operations
    {
      match c {
        case TransitionOperation(_, _, _, _, _, _, _) => f := TransitionOperationBody(c, op);
        case StartStageAttempt(_, _, _, _, _, _, _, _, _) =>
          if op.status == RetryScheduled {
            f := StartReserved(c, op);
          } else {
            f := StartNew(c, op, n);
          }
        case CompleteStageAttempt(_, _, _, _, _, _, _, _, _, _) => f := CompleteStageAttemptBody(c);
        case ScheduleRetry(_, _, _, _, _, _, _, _, _) => f := ScheduleRetryBody(c, op, n);
        case BeginReconciliation(_, _, _, _, _, _) => f := BeginReconciliationBody(c, op, n);
        case CompleteReconciliation(_, _, _, _, _, _, _, _) => f := CompleteReconciliationBody(c, op);
      }
    }

    /**
     * Any of the six lifecycle calls: done exactly when the rows and the input allow it, and then with exactly the rows
     * it asks for; else every table is as it was.
     */
    method Execute(c: Call) returns (r: Result<Receipt, Refusal>, n: nat)
      requires !TenantScoped(c)
      modifies this
      ensures Transacted(repository, old(Contents()), c, n, r, Contents())
      ensures WellFormed(old(Contents())) ==> Served(repository, old(Contents()), c, n, r, Contents())
    {
      r, n := Transact(c);
      if WellFormed(old(Contents())) {
        TransactedIsServed(repository, old(Contents()), c, n, r, Contents());
      }
    }

    /** One transaction: the plan takes effect whole, or every table is as it was. */
    method Transact(c: Call) returns (r: Result<Receipt, Refusal>, n: nat)
      requires !TenantScoped(c)
      modifies this
      ensures Transacted(repository, old(Contents()), c, n, r, Contents())
    {
      n := NextNumber(c);
      if Admit(c).Refused? {
        return Refused(Admit(c).error), n;
      }
      var saved := Contents();
      var op := ReadOperation(saved, c);
      if op.None? {
        return Refused(OperationNotFound), n;
      }
      var f := Work(c, op.value, n);
      if f.Some? {
        Rollback(saved);
        r := Refused(f.value);
      } else {
        r := Done(Receipt(operations[c.operation].status, operations[c.operation].version));
      }
    }

    // -------------------------------------------------------------- deliveries and acknowledgements

    method NextDeliveryAttemptNumber(operation: Id, tenant: Id, channel: string) returns (n: nat)
      ensures IsNext(n, DeliveryNumbers(Contents(), operation, tenant, channel))
    {
      n := 1;
      var left := deliveries.Keys;
      ghost var seen: set<nat> := {};
      while left != {}
        invariant left <= deliveries.Keys
        invariant seen == set id | id in deliveries.Keys - left && deliveries[id].operation == operation &&
                                   deliveries[id].tenant == tenant && deliveries[id].channel == channel
                            :: deliveries[id].number
        invariant IsNext(n, seen)
        decreases left
      {
        var id :| id in left;
        left := left - {id};
        var row := deliveries[id];
        if row.operation == operation && row.tenant == tenant && row.channel == channel {
          if row.number >= n {
            n := row.number + 1;
          }
          seen := seen + {row.number};
        }
      }
      assert seen == DeliveryNumbers(Contents(), operation, tenant, channel);
    }

    /** A delivery record starts prepared, under the next number of its channel. */
    method PrepareDelivery(c: Call) returns (f: Option<Refusal>, n: nat)
      requires c.PrepareDelivery?
      modifies this`deliveries
      ensures IsNext(n, NumbersFor(old(Contents()), c))
      ensures Delivered(repository, old(Contents()), c, n, f, Contents())
    {
      var o, tenant := c.operation, c.subject.tenant;
      n := NextDeliveryAttemptNumber(o, tenant, c.channel);
      if o !in operations || operations[o].tenant != tenant {
        return Some(OperationNotFound), n;
      }
      if c.deliveryId in deliveries || DeliveryNumberTaken(Contents(), o, c.channel, n) {
        return Some(DeliveryConflict), n;
      }
      deliveries := deliveries[c.deliveryId := PreparedDelivery(o, tenant, c.channel, n)];
      f := None;
    }

    method TransitionDelivery(c: Call) returns (f: Option<Refusal>)
      requires c.TransitionDelivery?
      modifies this`deliveries
      ensures Delivered(repository, old(Contents()), c, 1, f, Contents())
    {
      if c.deliveryTo !in DeliverySuccessors(c.deliveryFrom) {
        return Some(DeliveryMoveInvalid);
      }
      if !ValidResponse(c.report.response) {
        return Some(ResponseStatusInvalid);
      }
      var id := c.deliveryId;
      if id !in deliveries || deliveries[id].operation != c.operation || deliveries[id].tenant != c.subject.tenant {
        return Some(DeliveryMoveConflict);
      }
      var row := deliveries[id];
      if row.status == c.deliveryFrom {
        deliveries := deliveries[id := MovedDelivery(row, c.deliveryTo, c.report)];
        return None;
      }
      f := if row.status == c.deliveryTo then None else Some(DeliveryMoveConflict);
    }

    /** An acknowledgement starts pending, for a delivery of the same operation and tenant if it names one. */
    method RequestAcknowledgement(c: Call) returns (f: Option<Refusal>)
      requires c.RequestAcknowledgement?
      modifies this`acknowledgements
      ensures Delivered(repository, old(Contents()), c, 1, f, Contents())
    {
      var o, tenant := c.operation, c.subject.tenant;
      if o !in operations || operations[o].tenant != tenant {
        return Some(OperationNotFound);
      }
      if c.delivery.Some? && !(c.delivery.value in deliveries && deliveries[c.delivery.value].operation == o &&
                               deliveries[c.delivery.value].tenant == tenant) {
        return Some(DeliveryNotFound);
      }
      if c.acknowledgementId in acknowledgements || AcknowledgementKeyTaken(Contents(), o, c.key) {
        return Some(AcknowledgementConflict);
      }
      acknowledgements := acknowledgements[
        c.acknowledgementId := AcknowledgementRow(o, tenant, c.delivery, c.key, AckPending, c.now)];
      f := None;
    }

    method TransitionAcknowledgement(c: Call) returns (f: Option<Refusal>)
      requires c.TransitionAcknowledgement?
      modifies this`acknowledgements
      ensures Delivered(repository, old(Contents()), c, 1, f, Contents())
    {
      if c.ackTo !in AcknowledgementSuccessors(c.ackFrom) {
        return Some(AcknowledgementMoveInvalid);
      }
      var id := c.acknowledgementId;
      if id !in acknowledgements || acknowledgements[id].operation != c.operation ||
         acknowledgements[id].tenant != c.subject.tenant {
        return Some(AcknowledgementMoveConflict);
      }
      var row := acknowledgements[id];
      if row.state == c.ackFrom {
        acknowledgements := acknowledgements[id := row.(
          state := c.ackTo, acknowledgedAt := if c.ackTo == AckPending then row.acknowledgedAt else c.now)];
        return None;
      }
      f := if row.state == c.ackTo then None else Some(AcknowledgementMoveConflict);
    }
  }
}
