/** Concrete runs: the stage-start path to `active` needs no evidence. */
module LifecycleScenarios {
  import opened Outcomes
  import opened LifecycleStateMachine
  import opened ActivationStore
  import opened LifecycleCalls
  import opened StoreInvariants
  import opened LifecycleRuns
  import opened LifecycleTheorems

  function Last(states: seq<System>): System
    requires states != []
  {
    states[|states| - 1]
  }

  /** One caller alone: begin, read the operation, read the next number, commit. */
  lemma Extend(repo: Repository, states: seq<System>, events: seq<Event>, call: Call, n: nat)
    returns (states': seq<System>, events': seq<Event>)
    requires IsRun(repo, states, events) && Last(states).txns == map[]
    requires IsNext(n, NumbersFor(Last(states).tables, call))
    requires Exec(repo, Last(states).tables,
                  Plan(call, Views(ReadOperation(Last(states).tables, call), None, n))).Done?
    ensures IsRun(repo, states', events') && states'[0] == states[0]
    ensures Last(states').txns == map[]
    ensures Exec(repo, Last(states).tables, Plan(call, Views(ReadOperation(Last(states).tables, call), None, n))).value
            == Last(states').tables
  {
    var s0 := Last(states);
    var op := ReadOperation(s0.tables, call);
    var s1 := s0.(txns := map[0 := Txn(call, NOTHING)]);
    var s2 := s0.(txns := map[0 := Txn(call, Views(op, None, 1))]);
    var s3 := s0.(txns := map[0 := Txn(call, Views(op, None, n))]);
    var s4 := System(Exec(repo, s0.tables, Plan(call, Views(op, None, n))).value, map[]);
    assert StepBy(repo, s0, Begin(0, call), s1);
    assert StepBy(repo, s1, ReadsOperation(0), s2);
    assert StepBy(repo, s2, ReadsNumber(0, n), s3);
    assert s3.txns - {0} == map[];
    assert StepBy(repo, s3, Commit(0), s4);
    var k := |events|;
    states' := states + [s1, s2, s3, s4];
    events' := events + [Begin(0, call), ReadsOperation(0), ReadsNumber(0, n), Commit(0)];
    forall i {:trigger events'[i]} | 0 <= i < |events'|
      ensures StepBy(repo, states'[i], events'[i], states'[i + 1])
    {
      if i < k {
        assert events'[i] == events[i] && states'[i] == states[i] && states'[i + 1] == states[i + 1];
      } else if i == k {
        assert states'[i] == s0;
      }
    }
  }

  const TENANT := "t"
  const OPERATION := "o"
  const ADMIN := Subject(TENANT, None, true)

  /** Only the operation row, at the given status and version. */
  predicate OnlyOperation(t: Tables, status: OperationStatus, version: nat) {
    && t.operations.Keys == {OPERATION}
    && t.operations[OPERATION].tenant == TENANT
    && t.operations[OPERATION].status == status && t.operations[OPERATION].version == version
    && t.attempts == map[] && t.evidence == map[]
  }

  /** One more status of the only operation, everything else as it was. */
  lemma Transit(repo: Repository, states: seq<System>, events: seq<Event>, to: OperationStatus)
    returns (states': seq<System>, events': seq<Event>)
    requires IsRun(repo, states, events) && Last(states).txns == map[]
    requires OPERATION in Last(states).tables.operations
    requires var row := Last(states).tables.operations[OPERATION];
             row.tenant == TENANT && to in Successors(row.status) && to != Active
    ensures IsRun(repo, states', events') && states'[0] == states[0] && Last(states').txns == map[]
    ensures var t := Last(states).tables;
            var row := t.operations[OPERATION];
            Last(states').tables ==
            t.(operations := t.operations[OPERATION := row.(status := to, version := row.version + 1)])
  {
    var t := Last(states).tables;
    var row := t.operations[OPERATION];
    var call := TransitionOperation(ADMIN, OPERATION, row.version, to, None, None, "");
    var update := UpdateOperation(OPERATION, ADMIN, row.version, to, None);
    CheckIsTable(row.status, to);
    assert Plan(call, Views(ReadOperation(t, call), None, 1)) == [update];
    ExecOne(repo, t, update);
    var n := FreeNumber(t);
    states', events' := Extend(repo, states, events, call, n);
  }

  /** The next number of an unused stage. */
  lemma FreeNumber(t: Tables) returns (n: nat)
    ensures IsNext(n, StageNumbers(t, OPERATION, TENANT, ""))
  {
    n := NextOf(StageNumbers(t, OPERATION, TENANT, ""));
  }

  lemma NextOf(s: set<nat>) returns (n: nat)
    ensures IsNext(n, s)
  {
    if s == {} {
      n := 1;
    } else {
      var x :| x in s;
      assert s == s - {x} + {x};
      var rest := NextOf(s - {x});
      n := if x < rest then rest else x + 1;
    }
  }

  lemma Advance(repo: Repository, states: seq<System>, events: seq<Event>, from: OperationStatus, version: nat,
                to: OperationStatus)
    returns (states': seq<System>, events': seq<Event>)
    requires IsRun(repo, states, events) && Last(states).txns == map[]
    requires OnlyOperation(Last(states).tables, from, version) && to in Successors(from) && to != Active
    ensures IsRun(repo, states', events') && states'[0] == states[0] && Last(states').txns == map[]
    ensures OnlyOperation(Last(states').tables, to, version + 1)
  {
    states', events' := Transit(repo, states, events, to);
  }

  lemma StartActive(repo: Repository, states: seq<System>, events: seq<Event>, version: nat)
    returns (states': seq<System>, events': seq<Event>)
    requires IsRun(repo, states, events) && Last(states).txns == map[]
    requires OnlyOperation(Last(states).tables, Ready, version)
    ensures IsRun(repo, states', events') && states'[0] == states[0]
    ensures OPERATION in Last(states').tables.operations
    ensures Last(states').tables.operations[OPERATION].status == Active && Last(states').tables.evidence == map[]
  {
    var t := Last(states).tables;
    var call := StartStageAttempt(ADMIN, OPERATION, "s", Some(Active), Some(version), None, PlatformNative, "a", 0);
    var views := Views(ReadOperation(t, call), None, 1);
    var a := InsertAttempt("a", PendingAttempt(OPERATION, TENANT, "s", 1, PlatformNative, false));
    var b := MoveAttempt("a", OPERATION, TENANT, Pending, Running, STARTED, 0);
    var u := UpdateOperation(OPERATION, ADMIN, version, Active, Some("s"));
    assert Plan(call, views) == [a, b, u];
    StartWrites(repo, t, a, b, u, version);
    states', events' := Extend(repo, states, events, call, 1);
  }

  lemma StartWrites(repo: Repository, t: Tables, a: Statement, b: Statement, u: Statement, version: nat)
    requires OnlyOperation(t, Ready, version)
    requires a == InsertAttempt("a", PendingAttempt(OPERATION, TENANT, "s", 1, PlatformNative, false))
    requires b == MoveAttempt("a", OPERATION, TENANT, Pending, Running, STARTED, 0)
    requires u == UpdateOperation(OPERATION, ADMIN, version, Active, Some("s"))
    ensures Exec(repo, t, [a, b, u]).Done?
    ensures var t' := Exec(repo, t, [a, b, u]).value;
            OPERATION in t'.operations && t'.operations[OPERATION].status == Active && t'.evidence == map[]
  {
    var t1 := Apply(repo, t, a).value;
    var t2 := Apply(repo, t1, b).value;
    var t3 := Apply(repo, t2, u).value;
    ExecOne(repo, t2, u);
    assert [b, u][1..] == [u];
    assert Exec(repo, t1, [b, u]) == Done(t3);
    assert [a, b, u][1..] == [b, u];
  }

  lemma ReachSession(repo: Repository, start: System) returns (states: seq<System>, events: seq<Event>)
    requires WellFormed(start.tables) && start.txns == map[] && OnlyOperation(start.tables, Created, 0)
    ensures IsRun(repo, states, events) && states[0] == start && Last(states).txns == map[]
    ensures OnlyOperation(Last(states).tables, ResolvingSession, 2)
  {
    states, events := Advance(repo, [start], [], Created, 0, Authorized);
    states, events := Advance(repo, states, events, Authorized, 1, ResolvingSession);
  }

  lemma ReachReady(repo: Repository, start: System) returns (states: seq<System>, events: seq<Event>)
    requires WellFormed(start.tables) && start.txns == map[] && OnlyOperation(start.tables, Created, 0)
    ensures IsRun(repo, states, events) && states[0] == start && Last(states).txns == map[]
    ensures OnlyOperation(Last(states).tables, Ready, 4)
  {
    states, events := ReachSession(repo, start);
    states, events := Advance(repo, states, events, ResolvingSession, 2, Bootstrapping);
    states, events := Advance(repo, states, events, Bootstrapping, 3, Ready);
  }

  /** From `created` to `active` with no evidence row at all: the exception in `ActiveIsProven` is needed. */
  lemma DirectStartSkipsEvidence(repo: Repository) returns (states: seq<System>, events: seq<Event>)
    ensures IsRun(repo, states, events) && |states| > 0
    ensures Present(states, 0, OPERATION) && Status(states, 0, OPERATION) == Created
    ensures Present(states, |states| - 1, OPERATION) && Status(states, |states| - 1, OPERATION) == Active
    ensures !HasSuccessEvidence(Last(states).tables, OPERATION)
  {
    var row := OperationRow(TENANT, None, Created, "accepted", 0);
    var start := System(Tables(map[OPERATION := row], map[], map[], map[], map[], map[]), map[]);
    states, events := ReachReady(repo, start);
    states, events := StartActive(repo, states, events, 4);
  }
}
