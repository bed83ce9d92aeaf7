/** Which reserved attempt a retry may run on. */
module RetryReservations {
  import opened Outcomes
  import opened LifecycleStateMachine
  import opened RetryPolicy
  import opened ActivationStore
  import opened LifecycleCalls
  import opened LifecycleRuns
  import opened LifecycleTheorems
  import opened LifecycleScenarios

  /** `b` is a reserved attempt of the stage that has not been started or cancelled. */
  predicate Waits(t: Tables, o: Id, stage: string, b: Id) {
    && o in t.operations && b in t.attempts
    && t.attempts[b].operation == o && t.attempts[b].tenant == t.operations[o].tenant
    && t.attempts[b].stage == stage && t.attempts[b].source == GovernedRetry && t.attempts[b].status == Pending
  }

  predicate StartsOn(c: Call, o: Id, stage: string, b: Id) {
    c.StartStageAttempt? && c.operation == o && c.stageKey == stage && c.reserved == Some(b)
  }

  /** What a call reads when nothing changes before its commit. */
  function FreshViews(t: Tables, c: Call): Views {
    Views(ReadOperation(t, c), ReadAttempt(t, c), 1)
  }

  /** A caller that reads everything now can start the stage on attempt `b`. */
  ghost predicate Startable(repo: Repository, t: Tables, o: Id, stage: string, b: Id) {
    exists c :: StartsOn(c, o, stage, b) && Exec(repo, t, Plan(c, FreshViews(t, c))).Done?
  }

  lemma StartedWaits(repo: Repository, t: Tables, o: Id, stage: string, b: Id, c: Call)
    requires o in t.operations && t.operations[o].status == RetryScheduled
    requires StartsOn(c, o, stage, b) && Exec(repo, t, Plan(c, FreshViews(t, c))).Done?
    ensures Waits(t, o, stage, b)
  {
    DoneMeansClean(repo, t, Plan(c, FreshViews(t, c)));
    assert !Plan(c, FreshViews(t, c))[0].Refuse?;
  }

  function RetryStart(t: Tables, o: Id, stage: string, b: Id): Call
    requires o in t.operations
  {
    var row := t.operations[o];
    StartStageAttempt(Subject(row.tenant, None, true), o, stage, Some(Authenticating), Some(row.version), Some(b),
                      PlatformNative, "", 0)
  }

  lemma WaitingStarts(repo: Repository, t: Tables, o: Id, stage: string, b: Id)
    requires o in t.operations && t.operations[o].status == RetryScheduled && Waits(t, o, stage, b)
    ensures Startable(repo, t, o, stage, b)
  {
    var c := RetryStart(t, o, stage, b);
    var op := t.operations[o];
    var move := MoveAttempt(b, o, op.tenant, Pending, Running, STARTED.(retryable := true), 0);
    var update := UpdateOperation(o, c.subject, op.version, Authenticating, Some(stage));
    assert PlanRetryStart(c, op, Some(t.attempts[b])) == [move, update];
    assert Plan(c, FreshViews(t, c)) == [move, update];
    var t1 := Apply(repo, t, move).value;
    assert [move, update][1..] == [update];
    ExecOne(repo, t1, update);
    assert StartsOn(c, o, stage, b);
  }

  /** From `retry_scheduled`, a start whose reads are current succeeds on exactly the reserved attempts that wait. */
  lemma StartableIsWaiting(repo: Repository, t: Tables, o: Id, stage: string, b: Id)
    requires o in t.operations && t.operations[o].status == RetryScheduled
    ensures Startable(repo, t, o, stage, b) <==> Waits(t, o, stage, b)
  {
    if Waits(t, o, stage, b) {
      WaitingStarts(repo, t, o, stage, b);
    } else if Startable(repo, t, o, stage, b) {
      var c :| StartsOn(c, o, stage, b) && Exec(repo, t, Plan(c, FreshViews(t, c))).Done?;
      StartedWaits(repo, t, o, stage, b, c);
    }
  }

  // ---------------------------------------------------------------- starts on reads that may be stale

  /**
   * Transaction `c` is about to start the stage on `b`: it read the operation row as it now is and `b` while it was
   * pending. The move finds `b` pending, or already running and then changes nothing.
   */
  predicate Poised(s: System, c: nat, o: Id, stage: string, b: Id) {
    && c in s.txns && o in s.tables.operations && b in s.tables.attempts
    && var (call, v, row) := (s.txns[c].call, s.txns[c].views, s.tables.operations[o]);
       && StartsOn(call, o, stage, b) && Admit(call).Done? && InScope(row, call.subject)
       && v.operation == Some(row) && call.expectedIfTarget == Some(row.version)
       && call.target.Some? && call.target.value in Successors(RetryScheduled)
       && PendingView(v, stage)
       && s.tables.attempts[b].status in {Pending, Running}
  }

  predicate PendingView(v: Views, stage: string) {
    && v.attempt.Some? && v.attempt.value.status == Pending
    && v.attempt.value.stage == stage && v.attempt.value.source == GovernedRetry
  }

  /** A retry start whose plan is not refused has read what `Poised` asks for, up to what may have changed since. */
  lemma RetryPlan(c: Call, v: Views, o: Id, stage: string, b: Id)
    requires StartsOn(c, o, stage, b) && Clean(Plan(c, v))
    ensures Admit(c).Done? && v.operation.Some? && v.operation.value.status == RetryScheduled && PendingView(v, stage)
    ensures c.expectedIfTarget == Some(v.operation.value.version)
    ensures c.target.Some? && c.target.value in Successors(RetryScheduled)
    ensures Plan(c, v) == RetryStatements(c, v.operation.value.version)
  {
    assert !Plan(c, v)[0].Refuse?;
    if c.target.Some? {
      CheckIsTable(RetryScheduled, c.target.value);
    }
  }

  function RetryStatements(c: Call, version: nat): seq<Statement>
    requires c.StartStageAttempt? && c.reserved.Some? && c.target.Some?
  {
    [MoveAttempt(c.reserved.value, c.operation, c.subject.tenant, Pending, Running, STARTED.(retryable := true), c.now),
     UpdateOperation(c.operation, c.subject, version, c.target.value, Some(c.stageKey))]
  }

  lemma PoisedPlan(s: System, c: nat, o: Id, stage: string, b: Id)
    requires Poised(s, c, o, stage, b) && s.tables.operations[o].status == RetryScheduled
    ensures var call := s.txns[c].call;
            Plan(call, s.txns[c].views) == RetryStatements(call, s.tables.operations[o].version)
  {
    CheckIsTable(RetryScheduled, s.txns[c].call.target.value);
  }

  /** What the two statements of a retry start need of the current rows. */
  lemma RetryStatementsRun(repo: Repository, t: Tables, c: Call, version: nat, o: Id, stage: string, b: Id)
    requires StartsOn(c, o, stage, b) && c.target.Some? && o in t.operations && b in t.attempts
    requires t.attempts[b].operation == o && t.attempts[b].tenant == c.subject.tenant
    ensures Exec(repo, t, RetryStatements(c, version)).Done? <==>
            && t.attempts[b].status in {Pending, Running}
            && InScope(t.operations[o], c.subject) && t.operations[o].version == version
  {
    var ss := RetryStatements(c, version);
    assert ss == [ss[0]] + [ss[1]] && ss[1..] == [ss[1]];
    if Apply(repo, t, ss[0]).Done? {
      ExecOne(repo, Apply(repo, t, ss[0]).value, ss[1]);
    }
  }

  /** An open start can commit exactly when it is poised. */
  lemma OpenStartIsPoised(repo: Repository, s: System, c: nat, o: Id, stage: string, b: Id)
    requires Sound(s) && c in s.txns && StartsOn(s.txns[c].call, o, stage, b)
    requires o in s.tables.operations && s.tables.operations[o].status == RetryScheduled
    ensures Outcome(repo, s, c).Done? <==> Poised(s, c, o, stage, b)
  {
    var call, v, t := s.txns[c].call, s.txns[c].views, s.tables;
    assert Honest(t, s.txns[c]);
    if Poised(s, c, o, stage, b) {
      PoisedPlan(s, c, o, stage, b);
      RetryStatementsRun(repo, t, call, t.operations[o].version, o, stage, b);
    } else if Outcome(repo, s, c).Done? {
      DoneMeansClean(repo, t, Plan(call, v));
      RetryPlan(call, v, o, stage, b);
      RetryStatementsRun(repo, t, call, v.operation.value.version, o, stage, b);
    }
  }

  /** Some start of the stage on `b` can take effect in this state: one that reads now, or one already under way. */
  ghost predicate Committable(repo: Repository, s: System, o: Id, stage: string, b: Id) {
    || Startable(repo, s.tables, o, stage, b)
    || exists c :: c in s.txns && StartsOn(s.txns[c].call, o, stage, b) && Outcome(repo, s, c).Done?
  }

  /** `b` already runs, and a start of it is still under way that read it while it was pending. */
  ghost predicate Overtaken(s: System, o: Id, stage: string, b: Id) {
    b in s.tables.attempts && s.tables.attempts[b].status == Running && exists c :: Poised(s, c, o, stage, b)
  }

  /** Starts can take effect on exactly the attempts that wait and those overtaken while a start was under way. */
  lemma CommittableIsWaitingOrOvertaken(repo: Repository, s: System, o: Id, stage: string, b: Id)
    requires Sound(s) && o in s.tables.operations && s.tables.operations[o].status == RetryScheduled
    ensures Committable(repo, s, o, stage, b) <==> Waits(s.tables, o, stage, b) || Overtaken(s, o, stage, b)
  {
    StartableIsWaiting(repo, s.tables, o, stage, b);
    if c :| c in s.txns && StartsOn(s.txns[c].call, o, stage, b) && Outcome(repo, s, c).Done? {
      OpenStartIsPoised(repo, s, c, o, stage, b);
      assert Honest(s.tables, s.txns[c]);
    }
    if Overtaken(s, o, stage, b) {
      var c :| Poised(s, c, o, stage, b);
      OpenStartIsPoised(repo, s, c, o, stage, b);
    }
  }

  // ---------------------------------------------------------------- runs

  predicate StillPending(t: Tables, b: Id) {
    b in t.attempts && t.attempts[b].status == Pending
  }

  ghost predicate NonePending(t: Tables, o: Id) {
    forall b :: StillPending(t, b) ==> t.attempts[b].operation != o
  }

  lemma OnlyCommitsAddAttempts(repo: Repository, s: System, e: Event, s': System)
    requires StepBy(repo, s, e, s') && s'.tables.attempts != s.tables.attempts
    ensures e.Commit? && e.caller in s.txns && Outcome(repo, s, e.caller) == Done(s'.tables)
  {
  }

  lemma NewPendingCommit(repo: Repository, s: System, c: nat, b: Id)
    requires Sound(s) && c in s.txns && Outcome(repo, s, c).Done?
    requires b !in s.tables.attempts && StillPending(Outcome(repo, s, c).value, b)
    ensures var call := s.txns[c].call;
            call.ScheduleRetry? && b == call.newAttemptId &&
            RetryReservation(s.tables, Outcome(repo, s, c).value, call.operation, b, call.evidenceId)
  {
    var call, v := s.txns[c].call, s.txns[c].views;
    NewPendingIsReserved(repo, s.tables, call, v, b);
    ScheduleRetryReserves(repo, s.tables, call, v);
  }

  /** The event commits a scheduling call that reserves `b`. */
  predicate Reserves(s: System, e: Event, b: Id) {
    && e.Commit? && e.caller in s.txns
    && s.txns[e.caller].call.ScheduleRetry? && s.txns[e.caller].call.newAttemptId == b
  }

  lemma NewPendingEvent(repo: Repository, s: System, event: Event, s': System, b: Id) returns (o: Id, e: Id)
    requires Sound(s) && StepBy(repo, s, event, s') && b !in s.tables.attempts && StillPending(s'.tables, b)
    ensures Reserves(s, event, b) && RetryReservation(s.tables, s'.tables, o, b, e)
  {
    OnlyCommitsAddAttempts(repo, s, event, s');
    NewPendingCommit(repo, s, event.caller, b);
    o, e := s.txns[event.caller].call.operation, s.txns[event.caller].call.evidenceId;
  }

  /** A step that adds a pending attempt commits the scheduling call that reserved it. */
  lemma NewPendingStep(repo: Repository, states: seq<System>, events: seq<Event>, j: nat, b: Id)
    returns (o: Id, e: Id)
    requires IsRun(repo, states, events) && 0 < j < |states|
    requires b !in states[j - 1].tables.attempts && StillPending(states[j].tables, b)
    ensures Authorizes(states, o, j, b, e) && Reserves(states[j - 1], events[j - 1], b)
  {
    var k := j - 1;
    RunSound(repo, states, events, k);
    var s, event, s' := states[k], events[k], states[k + 1];
    assert StepBy(repo, s, event, s');
    o, e := NewPendingEvent(repo, s, event, s', b);
  }

  /** Every pending attempt that was not pending before was reserved by a scheduling call since. */
  lemma {:induction false} PendingIsReserved(repo: Repository, states: seq<System>, events: seq<Event>, o: Id, i: nat,
                                             j: nat, b: Id) returns (l: nat, e: Id)
    requires IsRun(repo, states, events) && i <= j < |states| && NonePending(states[i].tables, o)
    requires StillPending(states[j].tables, b) && states[j].tables.attempts[b].operation == o
    ensures i < l <= j && Authorizes(states, o, l, b, e)
    decreases j - i
  {
    if i < j {
      RunKept(repo, states, events, j - 1, j);
      if b in states[j - 1].tables.attempts {
        l, e := PendingIsReserved(repo, states, events, o, i, j - 1, b);
      } else {
        var o';
        o', e := NewPendingStep(repo, states, events, j, b);
        l := j;
      }
    }
  }

  /** Transaction `c`, a call for `o`, read attempt `b` while it was pending. */
  predicate Holds(s: System, c: nat, o: Id, b: Id) {
    && c in s.txns && s.txns[c].call.operation == o && AttemptOf(s.txns[c].call) == Some(b)
    && s.txns[c].views.attempt.Some? && s.txns[c].views.attempt.value.status == Pending
  }

  ghost predicate NoneHeld(s: System, o: Id) {
    forall c, b :: !Holds(s, c, o, b)
  }

  /** A pending view was held before the step, or the step read it from the rows. */
  lemma HeldByRead(repo: Repository, s: System, e: Event, s': System, c: nat, o: Id, b: Id)
    requires StepBy(repo, s, e, s') && Holds(s', c, o, b)
    ensures Holds(s, c, o, b) || (StillPending(s.tables, b) && s.tables.attempts[b].operation == o)
  {
  }

  /** Whatever a transaction read as pending was reserved by a scheduling call since nothing was pending or held. */
  lemma {:induction false} HeldIsReserved(repo: Repository, states: seq<System>, events: seq<Event>, o: Id, i: nat,
                                          j: nat, c: nat, b: Id) returns (l: nat, e: Id)
    requires IsRun(repo, states, events) && i <= j < |states|
    requires NonePending(states[i].tables, o) && NoneHeld(states[i], o) && Holds(states[j], c, o, b)
    ensures i < l <= j && Authorizes(states, o, l, b, e)
    decreases j - i
  {
    if i < j {
      var k := j - 1;
      var s, event, s' := states[k], events[k], states[k + 1];
      assert StepBy(repo, s, event, s');
      HeldByRead(repo, s, event, s', c, o, b);
      if Holds(s, c, o, b) {
        l, e := HeldIsReserved(repo, states, events, o, i, k, c, b);
      } else {
        l, e := PendingIsReserved(repo, states, events, o, i, k, b);
      }
    }
  }

  /** An earlier reservation of the stage that a start can still take effect on at `j`. */
  ghost predicate LeftOver(states: seq<System>, o: Id, stage: string, m: nat, b: Id, e: Id, j: nat) {
    && Authorizes(states, o, m, b, e) && j < |states|
    && states[m].tables.attempts[b].stage == stage
    && (StillPending(states[j].tables, b) || Overtaken(states[j], o, stage, b))
  }

  /** `l` is the last step up to `j` at which a retry of `o` was scheduled. */
  ghost predicate LastScheduled(states: seq<System>, o: Id, l: nat, j: nat) {
    forall m, b, e :: l < m <= j ==> !Authorizes(states, o, m, b, e)
  }

  /** An attempt that waits or was overtaken at `j` was reserved since nothing was pending or held. */
  lemma TakenIsReserved(repo: Repository, states: seq<System>, events: seq<Event>, o: Id, i: nat, j: nat, stage: string,
                        b: Id) returns (m: nat, e: Id)
    requires IsRun(repo, states, events) && i <= j < |states|
    requires NonePending(states[i].tables, o) && NoneHeld(states[i], o)
    requires Waits(states[j].tables, o, stage, b) || Overtaken(states[j], o, stage, b)
    ensures i < m <= j && Authorizes(states, o, m, b, e)
  {
    if Waits(states[j].tables, o, stage, b) {
      m, e := PendingIsReserved(repo, states, events, o, i, j, b);
    } else {
      var c :| Poised(states[j], c, o, stage, b);
      m, e := HeldIsReserved(repo, states, events, o, i, j, c, b);
    }
  }

  /** The stage of such an attempt is the one it was reserved for. */
  lemma TakenKeepsStage(repo: Repository, states: seq<System>, events: seq<Event>, o: Id, j: nat, stage: string, b: Id,
                        m: nat, e: Id)
    requires IsRun(repo, states, events) && m <= j < |states| && Authorizes(states, o, m, b, e)
    requires Waits(states[j].tables, o, stage, b) || Overtaken(states[j], o, stage, b)
    ensures states[m].tables.attempts[b].stage == stage
  {
    AuthorizationStays(repo, states, events, o, m, b, e, j);
    if !Waits(states[j].tables, o, stage, b) {
      var c :| Poised(states[j], c, o, stage, b);
      RunSound(repo, states, events, j);
      assert Honest(states[j].tables, states[j].txns[c]);
    }
  }

  /** An attempt other than the last reserved one that a start can take effect on is left over from an earlier retry. */
  lemma OtherIsLeftOver(repo: Repository, states: seq<System>, events: seq<Event>, o: Id, i: nat, l: nat, j: nat, a: Id,
                        e: Id, stage: string, b: Id) returns (m: nat, e': Id)
    requires IsRun(repo, states, events) && i < l <= j < |states|
    requires NonePending(states[i].tables, o) && NoneHeld(states[i], o)
    requires Authorizes(states, o, l, a, e) && LastScheduled(states, o, l, j)
    requires Waits(states[j].tables, o, stage, b) || Overtaken(states[j], o, stage, b)
    requires b != a
    ensures i < m < l && LeftOver(states, o, stage, m, b, e', j)
  {
    m, e' := TakenIsReserved(repo, states, events, o, i, j, stage, b);
    TakenKeepsStage(repo, states, events, o, j, stage, b, m, e');
    if m == l {
      SameStepSameAttempt(repo, states, events, o, l, a, e, b, e');
    }
  }

  /** One step reserves one attempt. */
  lemma SameStepSameAttempt(repo: Repository, states: seq<System>, events: seq<Event>, o: Id, l: nat, a: Id, e: Id,
                            b: Id, e': Id)
    requires IsRun(repo, states, events) && Authorizes(states, o, l, a, e) && Authorizes(states, o, l, b, e')
    ensures a == b
  {
    var o1, e1 := NewPendingStep(repo, states, events, l, a);
    var o2, e2 := NewPendingStep(repo, states, events, l, b);
  }

  lemma LeftOverIsTaken(repo: Repository, states: seq<System>, events: seq<Event>, o: Id, stage: string, m: nat, b: Id,
                        e: Id, j: nat)
    requires IsRun(repo, states, events) && m <= j && LeftOver(states, o, stage, m, b, e, j)
    ensures Waits(states[j].tables, o, stage, b) || Overtaken(states[j], o, stage, b)
  {
    RunKept(repo, states, events, m, j);
  }

  /**
   * Between scheduling a retry at `l` and leaving `retry_scheduled`, every start of the stage that can take effect, on
   * current or stale reads, runs on the attempt reserved at `l` exactly if no earlier reservation of the stage is left
   * over: neither still pending, nor running with a start under way that read it while it was pending.
   */
  lemma RetryRunsOnItsReservation(repo: Repository, states: seq<System>, events: seq<Event>, o: Id, i: nat, l: nat,
                                  j: nat, a: Id, e: Id, stage: string)
    requires IsRun(repo, states, events) && i < l <= j < |states|
    requires NonePending(states[i].tables, o) && NoneHeld(states[i], o)
    requires Authorizes(states, o, l, a, e) && LastScheduled(states, o, l, j)
    requires Present(states, j, o) && Status(states, j, o) == RetryScheduled
    ensures (forall b :: Committable(repo, states[j], o, stage, b) ==> b == a) <==>
            (forall m, b, e' :: i < m < l ==> !LeftOver(states, o, stage, m, b, e', j))
  {
    RunSound(repo, states, events, j);
    if m, b, e' :| i < m < l && LeftOver(states, o, stage, m, b, e', j) {
      LeftOverIsTaken(repo, states, events, o, stage, m, b, e', j);
      CommittableIsWaitingOrOvertaken(repo, states[j], o, stage, b);
      AuthorizationsAreDistinct(repo, states, events, o, m, b, e', o, l, a, e);
    } else {
      forall b | Committable(repo, states[j], o, stage, b) ensures b == a {
        CommittableIsWaitingOrOvertaken(repo, states[j], o, stage, b);
        if b != a {
          var m, e' := OtherIsLeftOver(repo, states, events, o, i, l, j, a, e, stage, b);
        }
      }
    }
  }

  /** So a start that commits in a run, with nothing left over, runs on the attempt reserved last. */
  lemma CommittedStartIsItsOwn(repo: Repository, states: seq<System>, events: seq<Event>, o: Id, i: nat, l: nat, j: nat,
                               a: Id, e: Id, stage: string, b: Id)
    requires IsRun(repo, states, events) && i < l <= j < |events|
    requires NonePending(states[i].tables, o) && NoneHeld(states[i], o)
    requires Authorizes(states, o, l, a, e) && LastScheduled(states, o, l, j)
    requires Present(states, j, o) && Status(states, j, o) == RetryScheduled
    requires forall m, b, e' :: i < m < l ==> !LeftOver(states, o, stage, m, b, e', j)
    requires events[j].Commit? && events[j].caller in states[j].txns
    requires StartsOn(states[j].txns[events[j].caller].call, o, stage, b)
    ensures b == a
  {
    RetryRunsOnItsReservation(repo, states, events, o, i, l, j, a, e, stage);
    assert StepBy(repo, states[j], events[j], states[j + 1]);
    assert Committable(repo, states[j], o, stage, b);
  }

  // ---------------------------------------------------------------- a left-over reservation

  const STAGE := "authenticating"

  function RetryCall(version: nat, a: Id, e: Id): Call {
    ScheduleRetry(ADMIN, OPERATION, version, Some(Authenticating), true, "approval", None, a, e)
  }

  function ReservedRow(n: nat): AttemptRow {
    PendingAttempt(OPERATION, TENANT, STAGE, n, GovernedRetry, true)
  }

  function ApprovalRow(a: Id, n: nat): EvidenceRow {
    EvidenceRow(OPERATION, TENANT, Some(a), GovernedRetryAuthorization, GovernanceRegistry, Some("approval"),
                RetrySummary(Failed, Authenticating, STAGE, n), 0)
  }

  /** The tables after the retry of a failed operation was scheduled. */
  function Scheduled(t: Tables, n: nat, a: Id, e: Id): Tables
    requires OPERATION in t.operations
  {
    var row := t.operations[OPERATION];
    t.(attempts := t.attempts[a := ReservedRow(n)],
       evidence := t.evidence[e := ApprovalRow(a, n)],
       operations := t.operations[OPERATION := row.(status := RetryScheduled, version := row.version + 1)])
  }

  predicate CanReserve(t: Tables, n: nat, a: Id, e: Id) {
    && OPERATION in t.operations && t.operations[OPERATION].tenant == TENANT
    && t.operations[OPERATION].status == Failed
    && a !in t.attempts && !AttemptNumberTaken(t, OPERATION, STAGE, n)
    && e !in t.evidence && !EvidenceDuplicate(t, ApprovalRow(a, n))
  }

  lemma ScheduleWrites(repo: Repository, t: Tables, n: nat, a: Id, e: Id)
    requires CanReserve(t, n, a, e)
    ensures var update := UpdateOperation(OPERATION, ADMIN, t.operations[OPERATION].version, RetryScheduled, None);
            Exec(repo, t, [InsertAttempt(a, ReservedRow(n)), InsertEvidence(e, ApprovalRow(a, n)), update]) ==
            Done(Scheduled(t, n, a, e))
  {
    var x, y := InsertAttempt(a, ReservedRow(n)), InsertEvidence(e, ApprovalRow(a, n));
    var z := UpdateOperation(OPERATION, ADMIN, t.operations[OPERATION].version, RetryScheduled, None);
    var t1 := t.(attempts := t.attempts[a := ReservedRow(n)]);
    var t2 := t1.(evidence := t.evidence[e := ApprovalRow(a, n)]);
    assert Apply(repo, t, x) == Done(t1);
    assert Apply(repo, t1, y) == Done(t2);
    ExecOne(repo, t2, z);
    assert [y, z][1..] == [z];
    assert [x, y, z][1..] == [y, z];
  }

  lemma SchedulePlan(t: Tables, n: nat, a: Id, e: Id)
    requires CanReserve(t, n, a, e)
    ensures var call := RetryCall(t.operations[OPERATION].version, a, e);
            Plan(call, Views(ReadOperation(t, call), None, n)) ==
            [InsertAttempt(a, ReservedRow(n)), InsertEvidence(e, ApprovalRow(a, n)),
             UpdateOperation(OPERATION, ADMIN, t.operations[OPERATION].version, RetryScheduled, None)]
  {
  }

  lemma Reserve(repo: Repository, states: seq<System>, events: seq<Event>, n: nat, a: Id, e: Id)
    returns (states': seq<System>, events': seq<Event>)
    requires IsRun(repo, states, events) && Last(states).txns == map[]
    requires CanReserve(Last(states).tables, n, a, e)
    requires IsNext(n, StageNumbers(Last(states).tables, OPERATION, TENANT, STAGE))
    ensures IsRun(repo, states', events') && states'[0] == states[0] && Last(states').txns == map[]
    ensures Last(states').tables == Scheduled(Last(states).tables, n, a, e)
  {
    var t := Last(states).tables;
    SchedulePlan(t, n, a, e);
    ScheduleWrites(repo, t, n, a, e);
    states', events' := Extend(repo, states, events, RetryCall(t.operations[OPERATION].version, a, e), n);
  }

  /** From `created` to a first scheduled retry that nobody starts. */
  lemma FirstRetry(repo: Repository) returns (states: seq<System>, events: seq<Event>)
    ensures IsRun(repo, states, events) && Present(states, 0, OPERATION) && Status(states, 0, OPERATION) == Created
    ensures Last(states).txns == map[]
    ensures var t := Last(states).tables;
            && OPERATION in t.operations && t.operations[OPERATION].tenant == TENANT
            && t.operations[OPERATION].status == RetryScheduled
            && t.attempts == map["first" := ReservedRow(1)] && t.evidence == map["e1" := ApprovalRow("first", 1)]
  {
    var row := OperationRow(TENANT, None, Created, "accepted", 0);
    var start := System(Tables(map[OPERATION := row], map[], map[], map[], map[], map[]), map[]);
    states, events := Transit(repo, [start], [], Authenticating);
    states, events := Transit(repo, states, events, Failed);
    assert StageNumbers(Last(states).tables, OPERATION, TENANT, STAGE) == {};
    states, events := Reserve(repo, states, events, 1, "first", "e1");
  }

  /** The first reservation is left behind and the operation fails again. */
  lemma FailedAgain(repo: Repository) returns (states: seq<System>, events: seq<Event>)
    ensures IsRun(repo, states, events) && Present(states, 0, OPERATION) && Status(states, 0, OPERATION) == Created
    ensures Last(states).txns == map[]
    ensures CanReserve(Last(states).tables, 2, "second", "e2")
    ensures StageNumbers(Last(states).tables, OPERATION, TENANT, STAGE) == {1}
    ensures Last(states).tables.attempts == map["first" := ReservedRow(1)]
  {
    states, events := FirstRetry(repo);
    states, events := Transit(repo, states, events, Authenticating);
    states, events := Transit(repo, states, events, Failed);
    LeftBehind(Last(states).tables);
  }

  lemma LeftBehind(t: Tables)
    requires OPERATION in t.operations && t.operations[OPERATION].tenant == TENANT
    requires t.operations[OPERATION].status == Failed
    requires t.attempts == map["first" := ReservedRow(1)] && t.evidence == map["e1" := ApprovalRow("first", 1)]
    ensures CanReserve(t, 2, "second", "e2") && StageNumbers(t, OPERATION, TENANT, STAGE) == {1}
  {
    assert "first" in t.attempts && t.attempts["first"].number == 1;
  }

  /** A retry was scheduled twice for the same stage and neither was started. */
  ghost predicate BothReserved(t: Tables) {
    && OPERATION in t.operations && t.operations[OPERATION].tenant == TENANT
    && t.operations[OPERATION].status == RetryScheduled
    && t.attempts == map["first" := ReservedRow(1), "second" := ReservedRow(2)]
  }

  lemma ScheduleTwice(repo: Repository) returns (states: seq<System>, events: seq<Event>)
    ensures IsRun(repo, states, events) && Present(states, 0, OPERATION) && Status(states, 0, OPERATION) == Created
    ensures Last(states).txns == map[] && BothReserved(Last(states).tables)
  {
    states, events := FailedAgain(repo);
    states, events := Reserve(repo, states, events, 2, "second", "e2");
  }

  /**
   * A run in which a retry was scheduled twice and the operation can still be started on the first reservation: leaving
   * `retry_scheduled` by a plain transition leaves the reserved attempt behind.
   */
  lemma OldReservationStarts(repo: Repository) returns (states: seq<System>, events: seq<Event>)
    ensures IsRun(repo, states, events) && Present(states, 0, OPERATION) && Status(states, 0, OPERATION) == Created
    ensures var t := Last(states).tables;
            && OPERATION in t.operations && t.operations[OPERATION].status == RetryScheduled
            && Startable(repo, t, OPERATION, STAGE, "first") && Startable(repo, t, OPERATION, STAGE, "second")
  {
    states, events := ScheduleTwice(repo);
    StartableIsWaiting(repo, Last(states).tables, OPERATION, STAGE, "first");
    StartableIsWaiting(repo, Last(states).tables, OPERATION, STAGE, "second");
  }

  // ---------------------------------------------------------------- a start overtaken

  lemma Append(repo: Repository, states: seq<System>, events: seq<Event>, e: Event, s': System)
    returns (states': seq<System>, events': seq<Event>)
    requires IsRun(repo, states, events) && StepBy(repo, Last(states), e, s')
    ensures IsRun(repo, states', events') && states' == states + [s'] && events' == events + [e]
  {
    states', events' := states + [s'], events + [e];
    forall k {:trigger events'[k]} | 0 <= k < |events'| ensures StepBy(repo, states'[k], events'[k], states'[k + 1]) {
      if k < |events| {
        assert events'[k] == events[k] && states'[k] == states[k] && states'[k + 1] == states[k + 1];
      } else {
        assert states'[k] == Last(states);
      }
    }
  }

  /** Caller `c` begins a call and reads its rows. */
  lemma BeginAndRead(repo: Repository, states: seq<System>, events: seq<Event>, c: nat, call: Call)
    returns (states': seq<System>, events': seq<Event>)
    requires IsRun(repo, states, events) && c !in Last(states).txns
    ensures IsRun(repo, states', events') && states <= states'
    ensures var s := Last(states);
            Last(states') == s.(txns := s.txns[c := Txn(call, FreshViews(s.tables, call))])
  {
    var s := Last(states);
    var op, attempt := ReadOperation(s.tables, call), ReadAttempt(s.tables, call);
    var s1 := s.(txns := s.txns[c := Txn(call, NOTHING)]);
    var s2 := s.(txns := s.txns[c := Txn(call, Views(op, None, 1))]);
    var s3 := s.(txns := s.txns[c := Txn(call, Views(op, attempt, 1))]);
    assert Refresh(s1, c, Views(op, None, 1)) == s2;
    assert Refresh(s2, c, Views(op, attempt, 1)) == s3;
    states', events' := Append(repo, states, events, Begin(c, call), s1);
    states', events' := Append(repo, states', events', ReadsOperation(c), s2);
    states', events' := Append(repo, states', events', ReadsAttempt(c), s3);
  }

  /** Sets an attempt running outside any stage start, which the attempt table allows. */
  const RUN_FIRST := CompleteStageAttempt(ADMIN, OPERATION, "first", Running, false, None, None, None, "", 0)

  function FirstRuns(repo: Repository, t: Tables): Tables
    requires "first" in t.attempts
  {
    t.(attempts := t.attempts["first" := MovedAttempt(repo, t.attempts["first"], Running,
                                                     AttemptFields(false, false, None, None, None), 0)])
  }

  lemma RunFirstWorks(repo: Repository, t: Tables)
    requires BothReserved(t)
    ensures Exec(repo, t, Plan(RUN_FIRST, FreshViews(t, RUN_FIRST))) == Done(FirstRuns(repo, t))
  {
    var fields := AttemptFields(false, false, None, None, None);
    var move := MoveAttempt("first", OPERATION, TENANT, Pending, Running, fields, 0);
    AttemptCheckIsTable(Pending, Running);
    assert ReadAttempt(t, RUN_FIRST) == Some(ReservedRow(1));
    assert PlanCompletion(RUN_FIRST, Some(ReservedRow(1))) == [move];
    ExecOne(repo, t, move);
  }

  /** A start of the first reservation and a call that sets it running are both under way. */
  lemma BothUnderWay(repo: Repository) returns (states: seq<System>, events: seq<Event>, t: Tables)
    ensures IsRun(repo, states, events) && Present(states, 0, OPERATION) && Status(states, 0, OPERATION) == Created
    ensures BothReserved(t)
    ensures var start := RetryStart(t, OPERATION, STAGE, "first");
            Last(states) == System(t, map[0 := Txn(start, FreshViews(t, start)),
                                          1 := Txn(RUN_FIRST, FreshViews(t, RUN_FIRST))])
  {
    states, events := ScheduleTwice(repo);
    t := Last(states).tables;
    states, events := BeginAndRead(repo, states, events, 0, RetryStart(t, OPERATION, STAGE, "first"));
    states, events := BeginAndRead(repo, states, events, 1, RUN_FIRST);
  }

  lemma StartIsPoised(repo: Repository, t: Tables, s: System)
    requires BothReserved(t) && s.tables == FirstRuns(repo, t)
    requires var start := RetryStart(t, OPERATION, STAGE, "first"); s.txns == map[0 := Txn(start, FreshViews(t, start))]
    ensures Poised(s, 0, OPERATION, STAGE, "first")
    ensures !StillPending(s.tables, "first") && StillPending(s.tables, "second")
  {
  }

  /** The start of the first reservation is under way, and meanwhile somebody else set that attempt running. */
  lemma FirstIsOvertaken(repo: Repository) returns (states: seq<System>, events: seq<Event>)
    ensures IsRun(repo, states, events) && Present(states, 0, OPERATION) && Status(states, 0, OPERATION) == Created
    ensures var s := Last(states);
            && OPERATION in s.tables.operations && s.tables.operations[OPERATION].status == RetryScheduled
            && Poised(s, 0, OPERATION, STAGE, "first") && !StillPending(s.tables, "first")
            && StillPending(s.tables, "second")
  {
    var t;
    states, events, t := BothUnderWay(repo);
    RunFirstWorks(repo, t);
    var start := RetryStart(t, OPERATION, STAGE, "first");
    var s' := System(FirstRuns(repo, t), map[0 := Txn(start, FreshViews(t, start))]);
    assert Last(states).txns - {1} == s'.txns;
    StartIsPoised(repo, t, s');
    states, events := Append(repo, states, events, Commit(1), s');
  }

  /**
   * A run in which no reservation but the last is pending any more and a start still takes effect on the first: its
   * move of the attempt finds nothing left to do, and the operation's version has not changed.
   */
  lemma OvertakenStartCommits(repo: Repository) returns (states: seq<System>, events: seq<Event>)
    ensures IsRun(repo, states, events) && |events| > 0
    ensures Present(states, 0, OPERATION) && Status(states, 0, OPERATION) == Created
    ensures var (n, s, s') := (|events| - 1, states[|events| - 1], states[|events|]);
            && events[n] == Commit(0) && 0 in s.txns && StartsOn(s.txns[0].call, OPERATION, STAGE, "first")
            && !StillPending(s.tables, "first") && StillPending(s.tables, "second")
            && Present(states, n, OPERATION) && Status(states, n, OPERATION) == RetryScheduled
            && Present(states, n + 1, OPERATION) && Status(states, n + 1, OPERATION) != RetryScheduled
  {
    states, events := FirstIsOvertaken(repo);
    var s := Last(states);
    RunSound(repo, states, events, |states| - 1);
    OpenStartIsPoised(repo, s, 0, OPERATION, STAGE, "first");
    RetryStartMoves(repo, s, 0);
    states, events := Append(repo, states, events, Commit(0), System(Outcome(repo, s, 0).value, s.txns - {0}));
  }

  lemma RetryStartMoves(repo: Repository, s: System, c: nat)
    requires Sound(s) && c in s.txns && s.txns[c].call.StartStageAttempt? && s.txns[c].call.reserved.Some?
    requires s.txns[c].call.operation in s.tables.operations && Outcome(repo, s, c).Done?
    ensures var o := s.txns[c].call.operation;
            && o in Outcome(repo, s, c).value.operations
            && Outcome(repo, s, c).value.operations[o].status != RetryScheduled
  {
    var call, v := s.txns[c].call, s.txns[c].views;
    DoneMeansClean(repo, s.tables, Plan(call, v));
    RetryPlan(call, v, call.operation, call.stageKey, call.reserved.value);
    var ss := RetryStatements(call, v.operation.value.version);
    ExecTwo(repo, s.tables, ss[0], ss[1]);
    UpdateEffect(repo, Apply(repo, s.tables, ss[0]).value, ss[1]);
  }
}
