/** What one service call may change, and what no call ever changes. */
module LifecycleIsolation {
  import opened Outcomes
  import opened LifecycleStateMachine
  import opened ActivationStore
  import opened LifecycleCalls
  import opened StoreInvariants
  import opened LifecycleRuns
  import LifecycleServiceModel

  /** A caller alone: what it reads, then its commit. */
  function Alone(t: Tables, c: Call, n: nat): seq<System> {
    var op, attempt := ReadOperation(t, c), ReadAttempt(t, c);
    [System(t, map[]),
     System(t, map[0 := Txn(c, NOTHING)]),
     System(t, map[0 := Txn(c, Views(op, None, 1))]),
     System(t, map[0 := Txn(c, Views(op, attempt, 1))]),
     System(t, map[0 := Txn(c, Views(op, attempt, n))])]
  }

  function AloneEvents(c: Call, n: nat): seq<Event> {
    [Begin(0, c), ReadsOperation(0), ReadsAttempt(0), ReadsNumber(0, n)]
  }

  /** One more view of the only caller. */
  lemma OnlyCallerSees(t: Tables, c: Call, v: Views, v': Views)
    ensures Refresh(System(t, map[0 := Txn(c, v)]), 0, v') == System(t, map[0 := Txn(c, v')])
  {
  }

  lemma AloneReads(repo: Repository, t: Tables, c: Call, n: nat)
    requires IsNext(n, NumbersFor(t, c))
    ensures var s, e := Alone(t, c, n), AloneEvents(c, n);
            StepBy(repo, s[1], e[1], s[2]) && StepBy(repo, s[2], e[2], s[3]) && StepBy(repo, s[3], e[3], s[4])
  {
    var op, attempt := ReadOperation(t, c), ReadAttempt(t, c);
    OnlyCallerSees(t, c, NOTHING, Views(op, None, 1));
    OnlyCallerSees(t, c, Views(op, None, 1), Views(op, attempt, 1));
    OnlyCallerSees(t, c, Views(op, attempt, 1), Views(op, attempt, n));
  }

  lemma AloneIsRun(repo: Repository, t: Tables, c: Call, n: nat)
    requires WellFormed(t) && IsNext(n, NumbersFor(t, c))
    ensures IsRun(repo, Alone(t, c, n), AloneEvents(c, n))
  {
    var s, e := Alone(t, c, n), AloneEvents(c, n);
    assert StepBy(repo, s[0], e[0], s[1]);
    AloneReads(repo, t, c, n);
  }

  /**
   * A service call is all or nothing: refused, it leaves every table as it was; done, it keeps every row sound, moves
   * rows only forward, and touches only rows of its own operation and tenant.
   */
  lemma CallIsIsolated(repo: Repository, t: Tables, c: Call, n: nat,
                       r: Result<LifecycleServiceModel.Receipt, Refusal>, t': Tables)
    requires WellFormed(t) && LifecycleServiceModel.Transacted(repo, t, c, n, r, t')
    ensures r.Refused? ==> t' == t
    ensures r.Done? ==> WellFormed(t') && Kept(t, t') && OnlyTouches(t, t', c.operation, c.subject.tenant)
  {
    AloneIsRun(repo, t, c, n);
    RunSound(repo, Alone(t, c, n), AloneEvents(c, n), 4);
    if r.Done? {
      CommitKeeps(repo, Alone(t, c, n)[4], 0);
    }
  }

  /** A call that runs alone is a run of the interleaved system, so everything proved of runs holds of it. */
  lemma CallIsARun(repo: Repository, t: Tables, c: Call, n: nat, r: Result<LifecycleServiceModel.Receipt, Refusal>,
                   t': Tables)
    requires WellFormed(t) && LifecycleServiceModel.Transacted(repo, t, c, n, r, t')
    ensures var last := if r.Done? then Commit(0) else Abort(0);
            IsRun(repo, Alone(t, c, n) + [System(t', map[])], AloneEvents(c, n) + [last])
  {
    AloneIsRun(repo, t, c, n);
    var s, e := Alone(t, c, n), AloneEvents(c, n);
    var last := if r.Done? then Commit(0) else Abort(0);
    var s', e' := s + [System(t', map[])], e + [last];
    assert s[4].txns - {0} == map[];
    assert StepBy(repo, s[4], last, System(t', map[]));
    forall i {:trigger e'[i]} | 0 <= i < |e'| ensures StepBy(repo, s'[i], e'[i], s'[i + 1]) {
      if i < 4 {
        assert e'[i] == e[i] && s'[i] == s[i] && s'[i + 1] == s[i + 1];
      }
    }
  }

  /** In every run, with either repository, attempts are completed exactly if terminal, flagged exactly if unknown. */
  lemma AttemptsKeepTheirShape(repo: Repository, states: seq<System>, events: seq<Event>, i: nat, a: Id)
    requires IsRun(repo, states, events) && i < |states| && a in states[i].tables.attempts
    ensures var row := states[i].tables.attempts[a];
            && (row.completedAt.Some? <==> AttemptTerminalStatus(row.status))
            && (row.unknownOutcome <==> row.status == AttemptUnknown)
  {
    RunSound(repo, states, events, i);
  }

  /** In every run with either repository, a terminal attempt never changes again. */
  lemma TerminalAttemptsNeverChange(repo: Repository, states: seq<System>, events: seq<Event>, i: nat, j: nat, a: Id)
    requires IsRun(repo, states, events) && i <= j < |states| && a in states[i].tables.attempts
    requires AttemptTerminalStatus(states[i].tables.attempts[a].status)
    ensures a in states[j].tables.attempts && states[j].tables.attempts[a] == states[i].tables.attempts[a]
  {
    RunKept(repo, states, events, i, j);
  }

  /** In every run, a commit touches only rows of its own operation and tenant. */
  lemma CommitsAreIsolated(repo: Repository, states: seq<System>, events: seq<Event>, i: nat)
    requires IsRun(repo, states, events) && i < |events| && events[i].Commit?
    ensures events[i].caller in states[i].txns
    ensures var call := states[i].txns[events[i].caller].call;
            OnlyTouches(states[i].tables, states[i + 1].tables, call.operation, call.subject.tenant)
  {
    RunSound(repo, states, events, i);
    assert StepBy(repo, states[i], events[i], states[i + 1]);
    CommitKeeps(repo, states[i], events[i].caller);
  }
}
