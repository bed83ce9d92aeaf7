/**
 * Any number of callers running service calls at once. A caller reads rows one at a time, each read
 * returning whatever was committed at that moment; its statements then take effect together at commit,
 * guarded against the rows committed by then, or its transaction is rolled back.
 */
module LifecycleRuns {
  import opened Outcomes
  import opened LifecycleStateMachine
  import opened RetryPolicy
  import opened ActivationStore
  import opened LifecycleCalls
  import opened StoreInvariants

  datatype Txn = Txn(call: Call, views: Views)

  datatype System = System(tables: Tables, txns: map<nat, Txn>)

  datatype Event =
    | Create(operation: Id, row: OperationRow)
    | Begin(caller: nat, call: Call)
    | ReadsOperation(caller: nat)
    | ReadsAttempt(caller: nat)
    | ReadsNumber(caller: nat, next: nat)
    | Commit(caller: nat)
    | Abort(caller: nat)

  /** Nothing read yet: committing now would be refused, and `1` is what the numbering query returns at least. */
  const NOTHING := Views(None, None, 1)

  function Refresh(s: System, c: nat, v: Views): System
    requires c in s.txns
  {
    s.(txns := s.txns[c := s.txns[c].(views := v)])
  }

  function Outcome(repo: Repository, s: System, c: nat): Result<Tables, Refusal>
    requires c in s.txns
  {
    Exec(repo, s.tables, Plan(s.txns[c].call, s.txns[c].views))
  }

  ghost predicate StepBy(repo: Repository, s: System, e: Event, s': System) {
    match e
    case Create(o, row) =>
      o !in s.tables.operations && row.version == 0 &&
      s' == s.(tables := s.tables.(operations := s.tables.operations[o := row]))
    case Begin(c, call) => c !in s.txns && s' == s.(txns := s.txns[c := Txn(call, NOTHING)])
    case ReadsOperation(c) =>
      c in s.txns && s' == Refresh(s, c, s.txns[c].views.(operation := ReadOperation(s.tables, s.txns[c].call)))
    case ReadsAttempt(c) =>
      c in s.txns && s' == Refresh(s, c, s.txns[c].views.(attempt := ReadAttempt(s.tables, s.txns[c].call)))
    case ReadsNumber(c, n) =>
      c in s.txns && IsNext(n, NumbersFor(s.tables, s.txns[c].call)) &&
      s' == Refresh(s, c, s.txns[c].views.(number := n))
    case Commit(c) =>
      c in s.txns && Outcome(repo, s, c).Done? && s' == System(Outcome(repo, s, c).value, s.txns - {c})
    case Abort(c) => c in s.txns && s' == s.(txns := s.txns - {c})
  }

  ghost predicate IsRun(repo: Repository, states: seq<System>, events: seq<Event>) {
    && |states| == |events| + 1
    && WellFormed(states[0].tables) && states[0].txns == map[]
    && forall i {:trigger events[i]} :: 0 <= i < |events| ==> StepBy(repo, states[i], events[i], states[i + 1])
  }

  // ---------------------------------------------------------------- views stay honest

  /** A row read earlier is a past version of the current one; the same version means the same row. */
  ghost predicate HonestOperation(t: Tables, c: Call, row: OperationRow) {
    && c.operation in t.operations
    && row.tenant == c.subject.tenant == t.operations[c.operation].tenant
    && t.operations[c.operation].version >= row.version
    && (t.operations[c.operation].version == row.version ==> t.operations[c.operation] == row)
  }

  ghost predicate HonestAttempt(t: Tables, c: Call, row: AttemptRow) {
    && AttemptOf(c).Some?
    && AttemptOf(c).value in t.attempts
    && var now := t.attempts[AttemptOf(c).value];
      && row.operation == now.operation == c.operation
      && row.tenant == now.tenant == c.subject.tenant
      && row.stage == now.stage && row.number == now.number && row.source == now.source
      && AttemptReaches(row.status, now.status)
  }

  ghost predicate Honest(t: Tables, x: Txn) {
    && x.views.number >= 1
    && (x.views.operation.Some? ==> HonestOperation(t, x.call, x.views.operation.value))
    && (x.views.attempt.Some? ==> HonestAttempt(t, x.call, x.views.attempt.value))
  }

  ghost predicate Sound(s: System) {
    WellFormed(s.tables) && forall c :: c in s.txns ==> Honest(s.tables, s.txns[c])
  }

  lemma HonestStays(t: Tables, t': Tables, x: Txn)
    requires Honest(t, x) && Kept(t, t')
    ensures Honest(t', x)
  {
  }

  /** A call committing on honest views keeps every table sound and touches only its own operation. */
  lemma CommitKeeps(repo: Repository, s: System, c: nat)
    requires Sound(s) && c in s.txns && Outcome(repo, s, c).Done?
    ensures WellFormed(Outcome(repo, s, c).value)
    ensures Kept(s.tables, Outcome(repo, s, c).value)
    ensures OnlyTouches(s.tables, Outcome(repo, s, c).value, s.txns[c].call.operation, s.txns[c].call.subject.tenant)
  {
    var call, views := s.txns[c].call, s.txns[c].views;
    PlanLawful(call, views);
    if TenantOf(s.tables, call.operation, call.subject.tenant) {
      ExecKeeps(repo, s.tables, Plan(call, views), call.operation, call.subject.tenant);
    } else {
      // Another tenant's operation: only a tenant-scoped move can get this far, and it finds no row.
      assert views.operation.None?;
      ForeignMoveRefused(repo, s.tables, call, views);
    }
  }

  lemma ForeignMoveRefused(repo: Repository, t: Tables, call: Call, v: Views)
    requires WellFormed(t) && v.operation.None?
    requires call.operation in t.operations && t.operations[call.operation].tenant != call.subject.tenant
    ensures Exec(repo, t, Plan(call, v)).Refused? || Exec(repo, t, Plan(call, v)).value == t
  {
  }

  lemma StepSound(repo: Repository, s: System, e: Event, s': System)
    requires Sound(s) && StepBy(repo, s, e, s')
    ensures Sound(s') && Kept(s.tables, s'.tables)
  {
    match e
    case Create(o, row) =>
      CreateKeeps(s.tables, o, row);
      AllHonestStay(s, s');
    case Commit(c) =>
      CommitKeeps(repo, s, c);
      AllHonestStay(s, s');
    case _ =>
      KeptReflexive(s.tables);
  }

  lemma CreateKeeps(t: Tables, o: Id, row: OperationRow)
    requires WellFormed(t) && o !in t.operations
    ensures WellFormed(t.(operations := t.operations[o := row]))
    ensures Kept(t, t.(operations := t.operations[o := row]))
  {
  }

  lemma AllHonestStay(s: System, s': System)
    requires Sound(s) && WellFormed(s'.tables) && Kept(s.tables, s'.tables)
    requires forall c :: c in s'.txns ==> c in s.txns && s'.txns[c] == s.txns[c]
    ensures Sound(s')
  {
    forall c | c in s'.txns ensures Honest(s'.tables, s'.txns[c]) {
      HonestStays(s.tables, s'.tables, s.txns[c]);
    }
  }

  lemma {:induction false} RunSound(repo: Repository, states: seq<System>, events: seq<Event>, i: nat)
    requires IsRun(repo, states, events) && i < |states|
    ensures Sound(states[i])
  {
    if i > 0 {
      RunSound(repo, states, events, i - 1);
      StepSound(repo, states[i - 1], events[i - 1], states[i]);
    }
  }

  lemma {:induction false} RunKept(repo: Repository, states: seq<System>, events: seq<Event>, i: nat, j: nat)
    requires IsRun(repo, states, events) && i <= j < |states|
    ensures Kept(states[i].tables, states[j].tables)
    decreases j - i
  {
    if i == j {
      KeptReflexive(states[i].tables);
    } else {
      RunKept(repo, states, events, i, j - 1);
      RunSound(repo, states, events, j - 1);
      StepSound(repo, states[j - 1], events[j - 1], states[j]);
      KeptTransitive(states[i].tables, states[j - 1].tables, states[j].tables);
    }
  }

  // ---------------------------------------------------------------- what a commit does to its operation

  predicate Quiet(ss: seq<Statement>) {
    forall i :: 0 <= i < |ss| ==> !ss[i].UpdateOperation?
  }

  predicate Clean(ss: seq<Statement>) {
    forall i :: 0 <= i < |ss| ==> !ss[i].Refuse?
  }

  lemma {:induction false} ExecSplit(repo: Repository, t: Tables, a: seq<Statement>, b: seq<Statement>)
    ensures Exec(repo, t, a + b) ==
            if Exec(repo, t, a).Refused? then Exec(repo, t, a) else Exec(repo, Exec(repo, t, a).value, b)
    decreases |a|
  {
    if a == [] {
      assert a + b == b;
    } else {
      assert (a + b)[1..] == a[1..] + b;
      if Apply(repo, t, a[0]).Done? {
        ExecSplit(repo, Apply(repo, t, a[0]).value, a[1..], b);
      }
    }
  }

  lemma QuietStatement(repo: Repository, t: Tables, s: Statement)
    requires !s.UpdateOperation? && Apply(repo, t, s).Done?
    ensures Apply(repo, t, s).value.operations == t.operations
  {
  }

  lemma {:induction false} QuietKeepsOperations(repo: Repository, t: Tables, ss: seq<Statement>)
    requires Quiet(ss) && Exec(repo, t, ss).Done?
    ensures Exec(repo, t, ss).value.operations == t.operations
    decreases |ss|
  {
    if ss != [] {
      QuietStatement(repo, t, ss[0]);
      QuietKeepsOperations(repo, Apply(repo, t, ss[0]).value, ss[1..]);
    }
  }

  lemma {:induction false} DoneMeansClean(repo: Repository, t: Tables, ss: seq<Statement>)
    requires Exec(repo, t, ss).Done?
    ensures Clean(ss)
    decreases |ss|
  {
    if ss != [] {
      DoneMeansClean(repo, Apply(repo, t, ss[0]).value, ss[1..]);
      forall i | 0 <= i < |ss| ensures !ss[i].Refuse? {
        if i > 0 {
          assert ss[i] == ss[1..][i - 1];
        }
      }
    }
  }

  /** The status a call's plan asks for, if it asks for one. */
  function AskedStatus(c: Call, op: OperationRow): Option<OperationStatus> {
    match c
    case TransitionOperation(_, _, _, to, _, _, _) => Some(to)
    case StartStageAttempt(_, _, _, target, _, _, _, _, _) => target
    case ScheduleRetry(_, _, _, _, _, _, _, _, _) => Some(RetryScheduled)
    case BeginReconciliation(_, _, _, _, _, _) => Some(Reconciling)
    case CompleteReconciliation(_, _, _, _, outcome, evidence, _, _) =>
      var r := ResolveOutcome(outcome, if evidence.None? then None else Some(evidence.value.kind));
      if r.Done? then Some(r.value) else None
    case _ => None
  }

  /** `ss` ends by moving `o` from `from` along a legal edge, and touches the operation nowhere else. */
  predicate EndsInMove(ss: seq<Statement>, o: Id, from: OperationRow, to: OperationStatus) {
    && |ss| > 0
    && ss[|ss| - 1].UpdateOperation?
    && ss[|ss| - 1].operation == o
    && ss[|ss| - 1].expectedVersion == from.version
    && ss[|ss| - 1].status == to
    && Edge(from.status, to)
    && Quiet(ss[..|ss| - 1])
  }

  lemma PlanShape(c: Call, v: Views)
    requires Clean(Plan(c, v)) && v.operation.Some?
    ensures var asked := AskedStatus(c, v.operation.value);
            if asked.None? then Quiet(Plan(c, v))
            else EndsInMove(Plan(c, v), c.operation, v.operation.value, asked.value)
    ensures AskedStatus(c, v.operation.value) == Some(RetryScheduled) ==> c.ScheduleRetry?
  {
    var ss := Plan(c, v);
    assert |ss| > 0 ==> !ss[0].Refuse?;
    var op := v.operation.value;
    match c
    case TransitionOperation(_, _, _, to, _, _, _) => TransitionShape(c, op, v);
    case StartStageAttempt(_, _, _, _, _, _, _, _, _) => StartShape(c, op, v);
    case CompleteReconciliation(_, _, _, _, _, _, _, _) => ReconciliationShapeOf(c, op, v);
    case _ =>
  }

  lemma TransitionShape(c: Call, op: OperationRow, v: Views)
    requires c.TransitionOperation? && Clean(PlanOn(c, op, v))
    ensures EndsInMove(PlanOn(c, op, v), c.operation, op, c.to) && c.to != RetryScheduled
  {
    assert !PlanOn(c, op, v)[0].Refuse?;
    CheckIsTable(op.status, c.to);
  }

  lemma StartShape(c: Call, op: OperationRow, v: Views)
    requires c.StartStageAttempt? && Clean(PlanOn(c, op, v))
    ensures if c.target.None? then Quiet(PlanOn(c, op, v))
            else EndsInMove(PlanOn(c, op, v), c.operation, op, c.target.value) && c.target.value != RetryScheduled
  {
    assert !PlanOn(c, op, v)[0].Refuse?;
    if c.target.Some? {
      CheckIsTable(op.status, c.target.value);
    }
  }

  lemma ReconciliationShapeOf(c: Call, op: OperationRow, v: Views)
    requires c.CompleteReconciliation? && Clean(PlanOn(c, op, v))
    ensures var asked := AskedStatus(c, op);
            asked.Some? && EndsInMove(PlanOn(c, op, v), c.operation, op, asked.value) && asked.value != RetryScheduled
  {
    var ss := PlanOn(c, op, v);
    assert !ss[0].Refuse? && !ss[|ss| - 1].Refuse?;
    assert PlanOutcome(c)[|PlanOutcome(c)| - 1] == ss[|ss| - 1];
  }

  lemma ExecHead(repo: Repository, t: Tables, ss: seq<Statement>)
    requires ss != [] && Exec(repo, t, ss).Done?
    ensures Apply(repo, t, ss[0]).Done? && Exec(repo, t, ss) == Exec(repo, Apply(repo, t, ss[0]).value, ss[1..])
  {
  }

  lemma UpdateEffect(repo: Repository, t: Tables, s: Statement)
    requires s.UpdateOperation? && Apply(repo, t, s).Done?
    ensures var t' := Apply(repo, t, s).value;
            && s.operation in t.operations && s.operation in t'.operations
            && t.operations[s.operation].version == s.expectedVersion
            && t'.operations[s.operation].status == s.status
            && t'.operations[s.operation].version == s.expectedVersion + 1
  {
  }

  lemma MoveEffect(repo: Repository, t: Tables, ss: seq<Statement>, o: Id, from: OperationRow, to: OperationStatus)
    requires EndsInMove(ss, o, from, to) && Exec(repo, t, ss).Done?
    ensures var t' := Exec(repo, t, ss).value;
            && o in t.operations && o in t'.operations
            && t.operations[o].version == from.version
            && t'.operations[o].status == to
            && t'.operations[o].version == from.version + 1
  {
    var front, last := ss[..|ss| - 1], ss[|ss| - 1];
    assert ss == front + [last];
    ExecSplit(repo, t, front, [last]);
    QuietKeepsOperations(repo, t, front);
    var before := Exec(repo, t, front).value;
    ExecHead(repo, before, [last]);
    UpdateEffect(repo, before, last);
  }

  /** `o` moved one edge and one version, and into `retry_scheduled` only by a scheduling call. */
  predicate Moved(call: Call, t: Tables, t': Tables) {
    var o := call.operation;
    && o in t.operations && o in t'.operations
    && AskedStatus(call, t.operations[o]) == Some(t'.operations[o].status)
    && (t'.operations[o].status == RetryScheduled ==> call.ScheduleRetry?)
    && Edge(t.operations[o].status, t'.operations[o].status)
    && t'.operations[o].version == t.operations[o].version + 1
  }

  /** A commit leaves its operation alone, or moves it one edge and one version from the row it read. */
  lemma CommitMoves(repo: Repository, t: Tables, call: Call, v: Views)
    requires Honest(t, Txn(call, v)) && Exec(repo, t, Plan(call, v)).Done?
    ensures var t' := Exec(repo, t, Plan(call, v)).value;
            t'.operations == t.operations ||
            (Moved(call, t, t') && v.operation == Some(t.operations[call.operation]))
  {
    var ss := Plan(call, v);
    DoneMeansClean(repo, t, ss);
    if v.operation.None? {
      assert |ss| > 0 ==> !ss[0].Refuse?;
      QuietKeepsOperations(repo, t, ss);
    } else {
      PlanShape(call, v);
      var asked := AskedStatus(call, v.operation.value);
      if asked.None? {
        QuietKeepsOperations(repo, t, ss);
      } else {
        MoveEffect(repo, t, ss, call.operation, v.operation.value, asked.value);
      }
    }
  }

  // ---------------------------------------------------------------- retries are authorized

  /** `a` is a fresh reserved attempt and `e` a fresh approval that names it. */
  predicate RetryReservation(t: Tables, t': Tables, o: Id, a: Id, e: Id) {
    && a !in t.attempts && a in t'.attempts && o in t'.operations
    && t'.attempts[a].operation == o && t'.attempts[a].tenant == t'.operations[o].tenant
    && t'.attempts[a].source == GovernedRetry && t'.attempts[a].status == Pending
    && e !in t.evidence && e in t'.evidence
    && t'.evidence[e].operation == o && t'.evidence[e].tenant == t'.operations[o].tenant
    && t'.evidence[e].kind == GovernedRetryAuthorization
    && t'.evidence[e].attempt == Some(a)
    && t'.evidence[e].sourceRef.Some? && t'.evidence[e].sourceRef.value != ""
  }

  lemma ExecOne(repo: Repository, t: Tables, a: Statement)
    ensures Exec(repo, t, [a]) == Apply(repo, t, a)
  {
  }

  lemma ExecTwo(repo: Repository, t: Tables, a: Statement, b: Statement)
    requires Exec(repo, t, [a, b]).Done?
    ensures Apply(repo, t, a).Done? && Apply(repo, Apply(repo, t, a).value, b).Done?
    ensures Exec(repo, t, [a, b]).value == Apply(repo, Apply(repo, t, a).value, b).value
  {
    assert [a, b][1..] == [b];
    ExecOne(repo, Apply(repo, t, a).value, b);
  }

  lemma ExecThree(repo: Repository, t: Tables, a: Statement, b: Statement, c: Statement)
    requires Exec(repo, t, [a, b, c]).Done?
    ensures Apply(repo, t, a).Done?
    ensures var t1 := Apply(repo, t, a).value;
            && Exec(repo, t1, [b, c]).Done?
            && Exec(repo, t, [a, b, c]).value == Exec(repo, t1, [b, c]).value
  {
  }

  lemma ScheduleRetryPlan(c: Call, v: Views)
    requires c.ScheduleRetry? && Clean(Plan(c, v))
    ensures v.operation.Some? && c.approved && c.approvalRef != "" && |Plan(c, v)| == 3
    ensures Plan(c, v)[0] == InsertAttempt(
              c.newAttemptId,
              PendingAttempt(c.operation, c.subject.tenant, StageOf(c), v.number, GovernedRetry, true))
    ensures Plan(c, v)[1].InsertEvidence? && Plan(c, v)[1].evidenceId == c.evidenceId
    ensures var row := Plan(c, v)[1].evidenceRow;
            && row.operation == c.operation && row.tenant == c.subject.tenant && row.attempt == Some(c.newAttemptId)
            && row.kind == GovernedRetryAuthorization && row.sourceRef == Some(c.approvalRef)
    ensures Plan(c, v)[2].UpdateOperation? && Plan(c, v)[2].operation == c.operation
  {
    assert !Plan(c, v)[0].Refuse?;
  }

  lemma ScheduleRetryReserves(repo: Repository, t: Tables, c: Call, v: Views)
    requires c.ScheduleRetry? && Honest(t, Txn(c, v)) && Exec(repo, t, Plan(c, v)).Done?
    ensures RetryReservation(t, Exec(repo, t, Plan(c, v)).value, c.operation, c.newAttemptId, c.evidenceId)
  {
    var ss := Plan(c, v);
    DoneMeansClean(repo, t, ss);
    ScheduleRetryPlan(c, v);
    ReservationWrites(repo, t, ss[0], ss[1], ss[2]);
    assert ss == [ss[0], ss[1], ss[2]];
  }

  /** Insert a pending retry attempt, insert its approval, move the operation. */
  lemma ReservationWrites(repo: Repository, t: Tables, a: Statement, b: Statement, u: Statement)
    requires a.InsertAttempt? && b.InsertEvidence? && u.UpdateOperation? && Exec(repo, t, [a, b, u]).Done?
    requires u.operation == a.attemptRow.operation == b.evidenceRow.operation
    requires u.operation in t.operations ==>
               t.operations[u.operation].tenant == a.attemptRow.tenant == b.evidenceRow.tenant
    requires a.attemptRow.source == GovernedRetry && a.attemptRow.status == Pending
    requires b.evidenceRow.attempt == Some(a.attemptId) && b.evidenceRow.kind == GovernedRetryAuthorization
    requires b.evidenceRow.sourceRef.Some? && b.evidenceRow.sourceRef.value != ""
    ensures RetryReservation(t, Exec(repo, t, [a, b, u]).value, u.operation, a.attemptId, b.evidenceId)
  {
    ExecThree(repo, t, a, b, u);
    ExecTwo(repo, Apply(repo, t, a).value, b, u);
  }

  // ---------------------------------------------------------------- success is evidenced

  ghost predicate HasSuccessEvidence(t: Tables, o: Id) {
    o in t.operations && exists e :: IsSuccessEvidence(t, Some(e), o, t.operations[o].tenant)
  }

  /** The one call that may set `active` without any evidence. */
  predicate StartsActive(c: Call) {
    c.StartStageAttempt? && c.target == Some(Active)
  }

  lemma FirstInsertStays(repo: Repository, t: Tables, ss: seq<Statement>, o: Id, tenant: Id)
    requires WellFormed(t) && AllLawful(ss, o, tenant) && TenantOf(t, o, tenant) && Exec(repo, t, ss).Done?
    requires |ss| > 0 && ss[0].InsertEvidence?
    ensures ss[0].evidenceId in Exec(repo, t, ss).value.evidence
    ensures Exec(repo, t, ss).value.evidence[ss[0].evidenceId] == ss[0].evidenceRow
  {
    ApplyKeeps(repo, t, ss[0], o, tenant);
    ExecKeeps(repo, Apply(repo, t, ss[0]).value, ss[1..], o, tenant);
  }

  lemma ActivePlan(c: Call, v: Views)
    requires Clean(Plan(c, v)) && v.operation.Some?
    requires AskedStatus(c, v.operation.value) == Some(Active) && !StartsActive(c)
    ensures |Plan(c, v)| > 0 && Plan(c, v)[0].InsertEvidence? && Plan(c, v)[0].evidenceRow.kind in SUCCESS_KINDS
  {
    assert |Plan(c, v)| > 0 ==> !Plan(c, v)[0].Refuse?;
  }

  lemma ActiveIsEvidenced(repo: Repository, t: Tables, c: Call, v: Views)
    requires WellFormed(t) && Honest(t, Txn(c, v)) && Exec(repo, t, Plan(c, v)).Done?
    requires v.operation.Some? && AskedStatus(c, v.operation.value) == Some(Active) && !StartsActive(c)
    ensures HasSuccessEvidence(Exec(repo, t, Plan(c, v)).value, c.operation)
  {
    var ss := Plan(c, v);
    DoneMeansClean(repo, t, ss);
    PlanLawful(c, v);
    ActivePlan(c, v);
    FirstInsertStays(repo, t, ss, c.operation, c.subject.tenant);
    ExecKeeps(repo, t, ss, c.operation, c.subject.tenant);
    assert Lawful(ss[0], c.operation, c.subject.tenant);
    assert IsSuccessEvidence(Exec(repo, t, ss).value, Some(ss[0].evidenceId), c.operation, c.subject.tenant);
  }

  // ---------------------------------------------------------------- one step of a run, as its operations see it

  ghost predicate Reserved(t: Tables, t': Tables, o: Id) {
    exists a, e :: RetryReservation(t, t', o, a, e)
  }

  /** `direct` is the operation, if any, for which the step was a stage start that named `active`. */
  ghost predicate OperationStep(t: Tables, t': Tables, o: Id, direct: Option<Id>)
    requires o in t.operations && o in t'.operations
  {
    var r, r' := t.operations[o], t'.operations[o];
    || r' == r
    || (&& Edge(r.status, r'.status)
        && r'.version == r.version + 1
        && (r'.status == RetryScheduled ==> Reserved(t, t', o))
        && (r'.status == Active ==> direct == Some(o) || HasSuccessEvidence(t', o)))
  }

  ghost predicate Linked(t: Tables, t': Tables, direct: Option<Id>) {
    && Kept(t, t')
    && forall o :: o in t.operations ==> o in t'.operations && OperationStep(t, t', o, direct)
  }

  function DirectBy(c: Call): Option<Id> {
    if StartsActive(c) then Some(c.operation) else None
  }

  function DirectActivation(s: System, e: Event): Option<Id> {
    if e.Commit? && e.caller in s.txns then DirectBy(s.txns[e.caller].call) else None
  }

  lemma CommitLinked(repo: Repository, s: System, c: nat)
    requires Sound(s) && c in s.txns && Outcome(repo, s, c).Done?
    ensures Linked(s.tables, Outcome(repo, s, c).value, DirectBy(s.txns[c].call))
  {
    var call, v, t, t' := s.txns[c].call, s.txns[c].views, s.tables, Outcome(repo, s, c).value;
    CommitKeeps(repo, s, c);
    CommitMoves(repo, t, call, v);
    if t'.operations != t.operations {
      if t'.operations[call.operation].status == RetryScheduled {
        ScheduleRetryReserves(repo, t, call, v);
        assert Reserved(t, t', call.operation);
      } else if t'.operations[call.operation].status == Active && !StartsActive(call) {
        ActiveIsEvidenced(repo, t, call, v);
      }
      assert OperationStep(t, t', call.operation, DirectBy(call));
    }
  }

  lemma StepLinked(repo: Repository, s: System, e: Event, s': System)
    requires Sound(s) && StepBy(repo, s, e, s')
    ensures Linked(s.tables, s'.tables, DirectActivation(s, e))
  {
    StepSound(repo, s, e, s');
    if e.Commit? {
      CommitLinked(repo, s, e.caller);
    }
  }

  /** Every step of a run is linked to the next; the run theorems use nothing else. */
  ghost predicate Regular(states: seq<System>, events: seq<Event>) {
    && |states| == |events| + 1
    && forall i {:trigger events[i]} :: 0 <= i < |events| ==>
         Linked(states[i].tables, states[i + 1].tables, DirectActivation(states[i], events[i]))
  }

  lemma RunIsRegular(repo: Repository, states: seq<System>, events: seq<Event>)
    requires IsRun(repo, states, events)
    ensures Regular(states, events)
  {
    forall i | 0 <= i < |events|
      ensures Linked(states[i].tables, states[i + 1].tables, DirectActivation(states[i], events[i]))
    {
      RunSound(repo, states, events, i);
      StepLinked(repo, states[i], events[i], states[i + 1]);
    }
  }

  // ---------------------------------------------------------------- pending attempts are approved

  /** An approval of the pending attempt `a`: it names `a` and carries a non-empty reference. */
  predicate Approves(t: Tables, e: Id, a: Id) {
    && e in t.evidence && t.evidence[e].kind == GovernedRetryAuthorization && t.evidence[e].attempt == Some(a)
    && t.evidence[e].sourceRef.Some? && t.evidence[e].sourceRef.value != ""
    && a in t.attempts && t.evidence[e].operation == t.attempts[a].operation
  }

  ghost predicate Approved(t: Tables, a: Id) {
    && a in t.attempts && t.attempts[a].source == GovernedRetry
    && exists e :: Approves(t, e, a)
  }

  ghost predicate PendingApproved(t: Tables) {
    forall a :: a in t.attempts && t.attempts[a].status == Pending ==> Approved(t, a)
  }

  predicate InsertsNoAttempt(ss: seq<Statement>) {
    forall i :: 0 <= i < |ss| ==> !ss[i].InsertAttempt?
  }

  lemma {:induction false} NoInsertNoAttempt(repo: Repository, t: Tables, ss: seq<Statement>)
    requires InsertsNoAttempt(ss) && Exec(repo, t, ss).Done?
    ensures Exec(repo, t, ss).value.attempts.Keys == t.attempts.Keys
    decreases |ss|
  {
    if ss != [] {
      NoInsertStatement(repo, t, ss[0]);
      NoInsertNoAttempt(repo, Apply(repo, t, ss[0]).value, ss[1..]);
    }
  }

  lemma NoInsertStatement(repo: Repository, t: Tables, s: Statement)
    requires !s.InsertAttempt? && Apply(repo, t, s).Done?
    ensures Apply(repo, t, s).value.attempts.Keys == t.attempts.Keys
  {
  }

  lemma InsertedAttempt(repo: Repository, t: Tables, id: Id, row: AttemptRow)
    requires Apply(repo, t, InsertAttempt(id, row)).Done?
    ensures Apply(repo, t, InsertAttempt(id, row)).value == t.(attempts := t.attempts[id := row])
  {
  }

  lemma MovedIsRunning(repo: Repository, t: Tables, s: Statement)
    requires s.MoveAttempt? && s.attemptTo == Running && Apply(repo, t, s).Done?
    ensures s.attemptId in Apply(repo, t, s).value.attempts
    ensures Apply(repo, t, s).value.attempts[s.attemptId].status == Running
  {
  }

  lemma RunningStays(t: Tables, t': Tables, a: Id)
    requires Kept(t, t') && a in t.attempts && t.attempts[a].status == Running
    ensures a in t'.attempts && t'.attempts[a].status != Pending
  {
  }

  /** An ordinary start never leaves its attempt pending. */
  lemma StartedNotPending(repo: Repository, t: Tables, ss: seq<Statement>, id: Id, row: AttemptRow)
    requires |ss| >= 2 && InsertsNoAttempt(ss[1..]) && Exec(repo, t, ss).Done? && WellFormed(t)
    requires ss[0] == InsertAttempt(id, row) && row.status == Pending && Owned(t.operations, row.operation, row.tenant)
    requires ss[1].MoveAttempt? && ss[1].attemptId == id && ss[1].attemptFrom == Pending && ss[1].attemptTo == Running
    requires AllLawful(ss, row.operation, row.tenant)
    ensures var t' := Exec(repo, t, ss).value;
            && t'.attempts.Keys == t.attempts.Keys + {id}
            && t'.attempts[id].status != Pending
  {
    var rest := ss[1..];
    ExecHead(repo, t, ss);
    InsertedAttempt(repo, t, id, row);
    var t1 := t.(attempts := t.attempts[id := row]);
    ApplyKeeps(repo, t, ss[0], row.operation, row.tenant);
    ExecHead(repo, t1, rest);
    assert rest[0] == ss[1];
    MovedIsRunning(repo, t1, rest[0]);
    ApplyKeeps(repo, t1, rest[0], row.operation, row.tenant);
    var t2 := Apply(repo, t1, rest[0]).value;
    ExecKeeps(repo, t2, rest[1..], row.operation, row.tenant);
    RunningStays(t2, Exec(repo, t, ss).value, id);
    NoInsertNoAttempt(repo, t1, rest);
  }

  lemma StartPlan(c: Call, v: Views)
    requires c.StartStageAttempt? && Clean(Plan(c, v)) && v.operation.Some?
    ensures InsertsNoAttempt(Plan(c, v)) ||
            (&& |Plan(c, v)| >= 2 && InsertsNoAttempt(Plan(c, v)[1..])
             && Plan(c, v)[0] == InsertAttempt(
                  c.newAttemptId,
                  PendingAttempt(c.operation, c.subject.tenant, c.stageKey, v.number, c.source, false))
             && Plan(c, v)[1].MoveAttempt? && Plan(c, v)[1].attemptId == c.newAttemptId
             && Plan(c, v)[1].attemptFrom == Pending && Plan(c, v)[1].attemptTo == Running)
  {
  }

  lemma OtherPlansInsertNothing(c: Call, v: Views)
    requires !c.StartStageAttempt? && !c.ScheduleRetry?
    ensures InsertsNoAttempt(Plan(c, v))
  {
  }

  /** The only attempt a commit adds and leaves pending is the one reserved by a scheduled retry. */
  lemma NewPendingIsReserved(repo: Repository, t: Tables, c: Call, v: Views, a: Id)
    requires WellFormed(t) && Honest(t, Txn(c, v)) && Exec(repo, t, Plan(c, v)).Done?
    requires a !in t.attempts && a in Exec(repo, t, Plan(c, v)).value.attempts
    requires Exec(repo, t, Plan(c, v)).value.attempts[a].status == Pending
    ensures c.ScheduleRetry? && a == c.newAttemptId
  {
    var ss := Plan(c, v);
    DoneMeansClean(repo, t, ss);
    PlanLawful(c, v);
    if c.StartStageAttempt? {
      assert |ss| > 0 && !ss[0].Refuse?;
      StartPlan(c, v);
      if InsertsNoAttempt(ss) {
        NoInsertNoAttempt(repo, t, ss);
      } else {
        StartedNotPending(repo, t, ss, c.newAttemptId, ss[0].attemptRow);
      }
    } else if c.ScheduleRetry? {
      ScheduleRetryPlan(c, v);
      NoInsertNoAttempt(repo, Apply(repo, t, ss[0]).value, ss[1..]);
    } else {
      OtherPlansInsertNothing(c, v);
      NoInsertNoAttempt(repo, t, ss);
    }
  }

  lemma CommitApproves(repo: Repository, s: System, c: nat)
    requires Sound(s) && c in s.txns && Outcome(repo, s, c).Done? && PendingApproved(s.tables)
    ensures PendingApproved(Outcome(repo, s, c).value)
  {
    var call, v, t, t' := s.txns[c].call, s.txns[c].views, s.tables, Outcome(repo, s, c).value;
    CommitKeeps(repo, s, c);
    forall a | a in t'.attempts && t'.attempts[a].status == Pending ensures Approved(t', a) {
      if a in t.attempts {
        ApprovalStays(t, t', a);
      } else {
        NewPendingIsReserved(repo, t, call, v, a);
        ScheduleRetryReserves(repo, t, call, v);
        assert Approves(t', call.evidenceId, a);
      }
    }
  }

  lemma ApprovalStays(t: Tables, t': Tables, a: Id)
    requires Approved(t, a) && Kept(t, t')
    ensures Approved(t', a)
  {
    var e :| Approves(t, e, a);
    assert Approves(t', e, a);
  }

  /** In every run, every committed pending attempt is a governed retry with its own approval. */
  lemma {:induction false} RunApproves(repo: Repository, states: seq<System>, events: seq<Event>, i: nat)
    requires IsRun(repo, states, events) && i < |states| && PendingApproved(states[0].tables)
    ensures PendingApproved(states[i].tables)
  {
    if i > 0 {
      RunApproves(repo, states, events, i - 1);
      RunSound(repo, states, events, i - 1);
      var s, e := states[i - 1], events[i - 1];
      StepSound(repo, s, e, states[i]);
      if e.Commit? {
        CommitApproves(repo, s, e.caller);
      } else {
        forall a | a in states[i].tables.attempts && states[i].tables.attempts[a].status == Pending
          ensures Approved(states[i].tables, a)
        {
          ApprovalStays(s.tables, states[i].tables, a);
        }
      }
    }
  }
}
