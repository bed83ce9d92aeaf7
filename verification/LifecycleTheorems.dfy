/** What holds of one operation over every run, whatever the callers and their interleaving. */
module LifecycleTheorems {
  import opened Outcomes
  import opened LifecycleStateMachine
  import opened ActivationStore
  import opened LifecycleCalls
  import opened StoreInvariants
  import opened LifecycleRuns

  predicate Present(states: seq<System>, i: nat, o: Id) {
    i < |states| && o in states[i].tables.operations
  }

  function Row(states: seq<System>, i: nat, o: Id): OperationRow
    requires Present(states, i, o)
  {
    states[i].tables.operations[o]
  }

  function Status(states: seq<System>, i: nat, o: Id): OperationStatus
    requires Present(states, i, o)
  {
    Row(states, i, o).status
  }

  /** `o` stays present from `i` on. */
  predicate PresentFrom(states: seq<System>, i: nat, o: Id) {
    forall k :: i <= k < |states| ==> Present(states, k, o)
  }

  /** Number of steps in `[i, j)` at which the status changes along an edge that `counted` selects. */
  function Count(states: seq<System>, o: Id, i: nat, j: nat, counted: (OperationStatus, OperationStatus) -> bool): nat
    requires i <= j < |states| && PresentFrom(states, i, o)
    decreases j - i
  {
    if i == j then 0
    else
      var from, to := Status(states, j - 1, o), Status(states, j, o);
      Count(states, o, i, j - 1, counted) + if from != to && counted(from, to) then 1 else 0
  }

  function Changes(states: seq<System>, o: Id, i: nat, j: nat): nat
    requires i <= j < |states| && PresentFrom(states, i, o)
  {
    Count(states, o, i, j, (a, b) => true)
  }

  function Retries(states: seq<System>, o: Id, i: nat, j: nat): nat
    requires i <= j < |states| && PresentFrom(states, i, o)
  {
    Count(states, o, i, j, GovernedRetryEdge)
  }

  function Reopenings(states: seq<System>, o: Id, i: nat, j: nat): nat
    requires i <= j < |states| && PresentFrom(states, i, o)
  {
    Count(states, o, i, j, ReopenEdge)
  }

  /** One step seen by one operation: nothing, or one edge and one version. */
  predicate Stepped(r: OperationRow, r': OperationRow) {
    r' == r || (Edge(r.status, r'.status) && r'.version == r.version + 1)
  }

  lemma EdgeChangesStatus(from: OperationStatus, to: OperationStatus)
    requires Edge(from, to)
    ensures from != to && ReachableFromCreated(to)
    ensures from !in TERMINAL_WITHOUT_RETRY && !from.Undeclared? && from !in OVERLAYS
    ensures to == RetryScheduled ==> from in STABLE_RETRY
  {
    CheckIsTable(from, to);
  }

  lemma {:induction false} StaysPresent(repo: Repository, states: seq<System>, events: seq<Event>, o: Id, i: nat)
    requires IsRun(repo, states, events) && Present(states, i, o)
    ensures PresentFrom(states, i, o)
  {
    forall k | i <= k < |states| ensures Present(states, k, o) {
      RunKept(repo, states, events, i, k);
    }
  }

  /** The committed history of an operation is a path of table edges and governed retries. */
  lemma PathFollowsTable(repo: Repository, states: seq<System>, events: seq<Event>, o: Id, k: nat)
    requires IsRun(repo, states, events) && k < |events| && Present(states, k, o)
    ensures Present(states, k + 1, o) && Stepped(Row(states, k, o), Row(states, k + 1, o))
  {
    RunIsRegular(repo, states, events);
    assert Linked(states[k].tables, states[k + 1].tables, DirectActivation(states[k], events[k]));
  }

  /** The version counts the status changes exactly. */
  lemma {:induction false} VersionCountsChanges(repo: Repository, states: seq<System>, events: seq<Event>, o: Id,
                                                i: nat, j: nat)
    requires IsRun(repo, states, events) && i <= j < |states| && Present(states, i, o)
    ensures PresentFrom(states, i, o)
    ensures Row(states, j, o).version == Row(states, i, o).version + Changes(states, o, i, j)
    decreases j - i
  {
    StaysPresent(repo, states, events, o, i);
    if i < j {
      VersionCountsChanges(repo, states, events, o, i, j - 1);
      PathFollowsTable(repo, states, events, o, j - 1);
      if Edge(Status(states, j - 1, o), Status(states, j, o)) {
        EdgeChangesStatus(Status(states, j - 1, o), Status(states, j, o));
      }
    }
  }

  /** `active`, `cancelled`, `rolled_back`, and any undeclared status such as `accepted`, are never left. */
  lemma {:induction false} FinalIsForever(repo: Repository, states: seq<System>, events: seq<Event>, o: Id,
                                          i: nat, j: nat)
    requires IsRun(repo, states, events) && i <= j < |states| && Present(states, i, o)
    requires var s := Status(states, i, o); s in TERMINAL_WITHOUT_RETRY || s in OVERLAYS || s.Undeclared?
    ensures Present(states, j, o) && Row(states, j, o) == Row(states, i, o)
    decreases j - i
  {
    if i < j {
      FinalIsForever(repo, states, events, o, i, j - 1);
      PathFollowsTable(repo, states, events, o, j - 1);
      if Edge(Status(states, j - 1, o), Status(states, j, o)) {
        EdgeChangesStatus(Status(states, j - 1, o), Status(states, j, o));
      }
    }
  }

  lemma StepStaysInCore(r: OperationRow, r': OperationRow)
    requires Stepped(r, r') && ReachableFromCreated(r.status)
    ensures ReachableFromCreated(r'.status)
  {
    if Edge(r.status, r'.status) {
      EdgeChangesStatus(r.status, r'.status);
    }
  }

  /** From `created`, no overlay, no `rolled_back` and no undeclared status is ever entered. */
  lemma {:induction false} CreatedStaysInCore(repo: Repository, states: seq<System>, events: seq<Event>, o: Id,
                                              i: nat, j: nat)
    requires IsRun(repo, states, events) && i <= j < |states| && Present(states, i, o)
    requires Status(states, i, o) == Created
    ensures Present(states, j, o) && ReachableFromCreated(Status(states, j, o))
    decreases j - i
  {
    if i < j {
      CreatedStaysInCore(repo, states, events, o, i, j - 1);
      PathFollowsTable(repo, states, events, o, j - 1);
      StepStaysInCore(Row(states, j - 1, o), Row(states, j, o));
    }
  }

  /** Status changes are paid for by the rank of the start, 13 per retry and 2 per reopened unknown outcome. */
  lemma {:induction false} RankPaysForChanges(repo: Repository, states: seq<System>, events: seq<Event>, o: Id,
                                              i: nat, j: nat)
    requires IsRun(repo, states, events) && i <= j < |states| && Present(states, i, o)
    ensures PresentFrom(states, i, o)
    ensures Changes(states, o, i, j) + Rank(Status(states, j, o)) <=
            Rank(Status(states, i, o)) + 13 * Retries(states, o, i, j) + 2 * Reopenings(states, o, i, j)
    decreases j - i
  {
    StaysPresent(repo, states, events, o, i);
    if i < j {
      RankPaysForChanges(repo, states, events, o, i, j - 1);
      PathFollowsTable(repo, states, events, o, j - 1);
      var from, to := Status(states, j - 1, o), Status(states, j, o);
      if from != to {
        EdgePrice(from, to);
      }
    }
  }

  /** A run from `created` with R retries and C reopened outcomes changes status at most 12 + 13R + 2C times. */
  lemma CreatedChangesAreBounded(repo: Repository, states: seq<System>, events: seq<Event>, o: Id, i: nat, j: nat)
    requires IsRun(repo, states, events) && i <= j < |states| && Present(states, i, o)
    requires Status(states, i, o) == Created
    ensures PresentFrom(states, i, o)
    ensures Changes(states, o, i, j) <=
            12 + 13 * Retries(states, o, i, j) + 2 * Reopenings(states, o, i, j)
  {
    RankPaysForChanges(repo, states, events, o, i, j);
  }

  // ---------------------------------------------------------------- no blind replay

  /** The statuses an unknown outcome can be in before a retry is scheduled. */
  predicate Unresolved(s: OperationStatus) {
    s in {UnknownOutcome, Reconciling, Active, Cancelled, RolledBack} || s in STABLE_RETRY
  }

  /** `l` is the step at which the operation enters `retry_scheduled`. */
  predicate EntersRetry(states: seq<System>, o: Id, l: nat) {
    && 0 < l < |states| && Present(states, l - 1, o) && Present(states, l, o)
    && Status(states, l - 1, o) != RetryScheduled && Status(states, l, o) == RetryScheduled
  }

  lemma {:induction false} ReconcilesFirst(repo: Repository, states: seq<System>, events: seq<Event>, o: Id,
                                           i: nat, j: nat) returns (k: nat)
    requires IsRun(repo, states, events) && i < j < |states| && Present(states, i, o)
    requires Status(states, i, o) == UnknownOutcome
    requires Present(states, j, o) && Status(states, j, o) != UnknownOutcome
    ensures i < k <= j && Present(states, k, o) && Status(states, k, o) == Reconciling
    decreases j - i
  {
    PathFollowsTable(repo, states, events, o, i);
    if Status(states, i + 1, o) == Reconciling {
      k := i + 1;
    } else {
      k := ReconcilesFirst(repo, states, events, o, i + 1, j);
    }
  }

  lemma {:induction false} RetriesNext(repo: Repository, states: seq<System>, events: seq<Event>, o: Id,
                                       i: nat, j: nat) returns (l: nat)
    requires IsRun(repo, states, events) && i < j < |states| && Present(states, i, o)
    requires Unresolved(Status(states, i, o))
    requires Present(states, j, o) && !Unresolved(Status(states, j, o))
    ensures i < l <= j && EntersRetry(states, o, l)
    decreases j - i
  {
    PathFollowsTable(repo, states, events, o, i);
    if Status(states, i + 1, o) == RetryScheduled {
      l := i + 1;
    } else {
      l := RetriesNext(repo, states, events, o, i + 1, j);
    }
  }

  /**
   * No blind replay: between an unknown outcome and a later execution the operation was reconciled,
   * and after that a retry was scheduled.
   */
  lemma NoBlindReplay(repo: Repository, states: seq<System>, events: seq<Event>, o: Id, i: nat, j: nat)
    returns (k: nat, l: nat)
    requires IsRun(repo, states, events) && i < j < |states| && Present(states, i, o) && Present(states, j, o)
    requires Status(states, i, o) == UnknownOutcome && Status(states, j, o) == Executing
    ensures i < k < l < j
    ensures Present(states, k, o) && Status(states, k, o) == Reconciling
    ensures EntersRetry(states, o, l)
  {
    k := ReconcilesFirst(repo, states, events, o, i, j);
    l := RetriesNext(repo, states, events, o, k, j);
  }

  /** Step `l` made the reserved attempt `a` of a retry and the approval `e` that names it. */
  predicate Authorizes(states: seq<System>, o: Id, l: nat, a: Id, e: Id) {
    && 0 < l < |states|
    && RetryReservation(states[l - 1].tables, states[l].tables, o, a, e)
  }

  /** Step `l - 1` was the commit of an approved scheduling call for `o`. */
  predicate ScheduledBy(states: seq<System>, events: seq<Event>, o: Id, l: nat, a: Id, e: Id) {
    && 0 < l <= |events| < |states| && events[l - 1].Commit? && events[l - 1].caller in states[l - 1].txns
    && var c := states[l - 1].txns[events[l - 1].caller].call;
      c.ScheduleRetry? && c.operation == o && c.approved && c.newAttemptId == a && c.evidenceId == e
  }

  /**
   * Every entry into `retry_scheduled` is the commit of an approved scheduling call, which made its own reserved
   * attempt and its own approval naming that attempt.
   */
  lemma RetryIsAuthorized(repo: Repository, states: seq<System>, events: seq<Event>, o: Id, l: nat)
    returns (a: Id, e: Id)
    requires IsRun(repo, states, events) && EntersRetry(states, o, l)
    ensures ScheduledBy(states, events, o, l, a, e)
    ensures Authorizes(states, o, l, a, e)
  {
    RunSound(repo, states, events, l - 1);
    var s, event := states[l - 1], events[l - 1];
    assert StepBy(repo, s, event, states[l]);
    assert event.Commit?;
    var call := s.txns[event.caller].call;
    RetryCommit(repo, s, event.caller, o);
    a, e := call.newAttemptId, call.evidenceId;
  }

  /** A commit that puts `o` into `retry_scheduled` is an approved scheduling call for `o`. */
  lemma RetryCommit(repo: Repository, s: System, c: nat, o: Id)
    requires Sound(s) && c in s.txns && Outcome(repo, s, c).Done? && o in s.tables.operations
    requires o in Outcome(repo, s, c).value.operations
    requires s.tables.operations[o].status != RetryScheduled
    requires Outcome(repo, s, c).value.operations[o].status == RetryScheduled
    ensures var call := s.txns[c].call;
            && call.ScheduleRetry? && call.operation == o && call.approved
            && RetryReservation(s.tables, Outcome(repo, s, c).value, o, call.newAttemptId, call.evidenceId)
  {
    var call, v := s.txns[c].call, s.txns[c].views;
    CommitKeeps(repo, s, c);
    CommitMoves(repo, s.tables, call, v);
    DoneMeansClean(repo, s.tables, Plan(call, v));
    ScheduleRetryPlan(call, v);
    ScheduleRetryReserves(repo, s.tables, call, v);
  }

  /** The approval never changes afterwards, and the attempt keeps its identity and never becomes pending again. */
  lemma AuthorizationStays(repo: Repository, states: seq<System>, events: seq<Event>, o: Id, l: nat, a: Id, e: Id,
                           m: nat)
    requires IsRun(repo, states, events) && Authorizes(states, o, l, a, e) && l <= m < |states|
    ensures a in states[m].tables.attempts && AttemptAfter(states[l].tables.attempts[a], states[m].tables.attempts[a])
    ensures e in states[m].tables.evidence && states[m].tables.evidence[e] == states[l].tables.evidence[e]
  {
    RunKept(repo, states, events, l, m);
  }

  /** Two retries of any two operations never share an approval or a reserved attempt. */
  lemma AuthorizationsAreDistinct(repo: Repository, states: seq<System>, events: seq<Event>,
                                  o: Id, l: nat, a: Id, e: Id, o': Id, l': nat, a': Id, e': Id)
    requires IsRun(repo, states, events) && l < l'
    requires Authorizes(states, o, l, a, e) && Authorizes(states, o', l', a', e')
    ensures a != a' && e != e'
  {
    AuthorizationStays(repo, states, events, o, l, a, e, l' - 1);
  }

  /** Step `i` moves attempt `a` from pending to running. */
  predicate StartsAttempt(states: seq<System>, a: Id, i: nat) {
    && i + 1 < |states|
    && a in states[i].tables.attempts && states[i].tables.attempts[a].status == Pending
    && a in states[i + 1].tables.attempts && states[i + 1].tables.attempts[a].status == Running
  }

  /** An attempt goes from pending to running at most once in a run. */
  lemma AttemptStartsOnce(repo: Repository, states: seq<System>, events: seq<Event>, a: Id, i: nat, j: nat)
    requires IsRun(repo, states, events) && StartsAttempt(states, a, i) && StartsAttempt(states, a, j)
    ensures i == j
  {
    if i < j {
      RunKept(repo, states, events, i + 1, j);
    } else if j < i {
      RunKept(repo, states, events, j + 1, i);
    }
  }

  // ---------------------------------------------------------------- activation needs evidence

  lemma EvidenceStays(t: Tables, t': Tables, o: Id)
    requires HasSuccessEvidence(t, o) && Kept(t, t')
    ensures HasSuccessEvidence(t', o)
  {
  }

  /** Unless a stage start named `active` for it, an operation started at `created` is active only on evidence. */
  lemma {:induction false} ActiveIsProven(repo: Repository, states: seq<System>, events: seq<Event>, o: Id,
                                          i: nat, j: nat)
    requires IsRun(repo, states, events) && i <= j < |states| && Present(states, i, o)
    requires Status(states, i, o) == Created
    requires forall k {:trigger events[k]} :: i <= k < j ==> DirectActivation(states[k], events[k]) != Some(o)
    ensures Present(states, j, o)
    ensures Status(states, j, o) == Active ==> HasSuccessEvidence(states[j].tables, o)
    decreases j - i
  {
    if i < j {
      ActiveIsProven(repo, states, events, o, i, j - 1);
      RunIsRegular(repo, states, events);
      var t, t' := states[j - 1].tables, states[j].tables;
      assert Linked(t, t', DirectActivation(states[j - 1], events[j - 1]));
      assert OperationStep(t, t', o, DirectActivation(states[j - 1], events[j - 1]));
      if Status(states, j - 1, o) == Active {
        EvidenceStays(t, t', o);
      }
    }
  }
}
