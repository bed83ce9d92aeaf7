/** Exactly when an active operation is backed by success evidence, over every run. */
module ActivationEvidence {
  import opened Outcomes
  import opened LifecycleStateMachine
  import opened RetryPolicy
  import opened ActivationStore
  import opened LifecycleCalls
  import opened StoreInvariants
  import opened LifecycleRuns
  import opened LifecycleTheorems

  /** The evidence a caller hands to a call. */
  function Offered(c: Call): Option<EvidenceInput> {
    match c
    case TransitionOperation(_, _, _, _, _, evidence, _) => evidence
    case CompleteStageAttempt(_, _, _, _, _, _, _, evidence, _, _) => evidence
    case CompleteReconciliation(_, _, _, _, _, evidence, _, _) => evidence
    case _ => None
  }

  /** The call carries evidence of success. */
  predicate OffersSuccess(c: Call) {
    Offered(c).Some? && Offered(c).value.kind in SUCCESS_KINDS
  }

  /** Step `e` commits a call for `o` that carries evidence of success. */
  predicate Supplies(s: System, e: Event, o: Id) {
    && e.Commit? && e.caller in s.txns
    && s.txns[e.caller].call.operation == o && OffersSuccess(s.txns[e.caller].call)
  }

  // ---------------------------------------------------------------- one transaction

  /** Every evidence row a statement list inserts satisfies `p`. */
  ghost predicate InsertsOnly(ss: seq<Statement>, p: EvidenceRow -> bool) {
    forall i :: 0 <= i < |ss| && ss[i].InsertEvidence? ==> p(ss[i].evidenceRow)
  }

  lemma ApplyEvidence(repo: Repository, t: Tables, s: Statement, e: Id)
    requires Apply(repo, t, s).Done? && e in Apply(repo, t, s).value.evidence
    ensures (e in t.evidence && Apply(repo, t, s).value.evidence[e] == t.evidence[e]) ||
            (s.InsertEvidence? && Apply(repo, t, s).value.evidence[e] == s.evidenceRow)
  {
  }

  /** Evidence after a transaction was there before or was inserted by it. */
  lemma {:induction false} ExecEvidence(repo: Repository, t: Tables, ss: seq<Statement>, p: EvidenceRow -> bool, e: Id)
    requires Exec(repo, t, ss).Done? && InsertsOnly(ss, p) && e in Exec(repo, t, ss).value.evidence
    ensures (e in t.evidence && Exec(repo, t, ss).value.evidence[e] == t.evidence[e]) ||
            p(Exec(repo, t, ss).value.evidence[e])
    decreases |ss|
  {
    if ss != [] {
      ExecHead(repo, t, ss);
      var t1 := Apply(repo, t, ss[0]).value;
      assert InsertsOnly(ss[1..], p);
      ExecEvidence(repo, t1, ss[1..], p, e);
      if e in t1.evidence {
        ApplyEvidence(repo, t, ss[0], e);
      }
    }
  }

  /** No success evidence except what the caller offered, for the call's own operation. */
  function FromOffer(c: Call): EvidenceRow -> bool {
    (row: EvidenceRow) => row.operation == c.operation && (row.kind in SUCCESS_KINDS ==> OffersSuccess(c))
  }

  lemma ReconcileInsertsOffer(c: Call, op: OperationRow)
    requires c.CompleteReconciliation?
    ensures InsertsOnly(PlanReconcile(c, op), FromOffer(c))
  {
    assert InsertsOnly(PlanOutcome(c), FromOffer(c));
  }

  lemma StartInsertsNone(c: Call, op: OperationRow, v: Views)
    requires c.StartStageAttempt?
    ensures InsertsOnly(PlanRetryStart(c, op, v.attempt), FromOffer(c))
    ensures InsertsOnly(PlanOrdinaryStart(c, op, v.number), FromOffer(c))
  {
  }

  lemma PlanInsertsOffer(c: Call, v: Views)
    ensures InsertsOnly(Plan(c, v), FromOffer(c))
  {
    if v.operation.Some? && c.CompleteReconciliation? {
      ReconcileInsertsOffer(c, v.operation.value);
    } else if v.operation.Some? && c.StartStageAttempt? {
      StartInsertsNone(c, v.operation.value, v);
    }
  }

  /** A call that offers success evidence inserts it first. */
  lemma OfferIsInserted(c: Call, v: Views)
    requires OffersSuccess(c) && Clean(Plan(c, v))
    ensures |Plan(c, v)| > 0 && Plan(c, v)[0].InsertEvidence? && Plan(c, v)[0].evidenceRow.kind in SUCCESS_KINDS
  {
    assert |Plan(c, v)| > 0 ==> !Plan(c, v)[0].Refuse?;
  }

  /** A commit leaves success evidence for `o` exactly if it was there or the committed call supplied it. */
  lemma CommitEvidence(repo: Repository, s: System, c: nat, o: Id)
    requires Sound(s) && c in s.txns && Outcome(repo, s, c).Done? && o in s.tables.operations
    ensures HasSuccessEvidence(Outcome(repo, s, c).value, o) <==>
            HasSuccessEvidence(s.tables, o) || (s.txns[c].call.operation == o && OffersSuccess(s.txns[c].call))
  {
    CommitKeeps(repo, s, c);
    if HasSuccessEvidence(s.tables, o) {
      EvidenceStays(s.tables, Outcome(repo, s, c).value, o);
    }
    if s.txns[c].call.operation == o && OffersSuccess(s.txns[c].call) {
      OfferLands(repo, s, c);
    } else if HasSuccessEvidence(Outcome(repo, s, c).value, o) {
      OnlyOffersLand(repo, s, c, o);
    }
  }

  lemma OnlyOffersLand(repo: Repository, s: System, c: nat, o: Id)
    requires Sound(s) && c in s.txns && Outcome(repo, s, c).Done? && o in s.tables.operations
    requires HasSuccessEvidence(Outcome(repo, s, c).value, o)
    requires s.txns[c].call.operation != o || !OffersSuccess(s.txns[c].call)
    ensures HasSuccessEvidence(s.tables, o)
  {
    var call, v, t, t' := s.txns[c].call, s.txns[c].views, s.tables, Outcome(repo, s, c).value;
    CommitKeeps(repo, s, c);
    var e :| IsSuccessEvidence(t', Some(e), o, t'.operations[o].tenant);
    PlanInsertsOffer(call, v);
    ExecEvidence(repo, t, Plan(call, v), FromOffer(call), e);
    assert IsSuccessEvidence(t, Some(e), o, t.operations[o].tenant);
  }

  lemma OfferLands(repo: Repository, s: System, c: nat)
    requires Sound(s) && c in s.txns && Outcome(repo, s, c).Done? && OffersSuccess(s.txns[c].call)
    ensures HasSuccessEvidence(Outcome(repo, s, c).value, s.txns[c].call.operation)
  {
    var call, v, t, t' := s.txns[c].call, s.txns[c].views, s.tables, Outcome(repo, s, c).value;
    var ss := Plan(call, v);
    DoneMeansClean(repo, t, ss);
    OfferIsInserted(call, v);
    PlanLawful(call, v);
    assert v.operation.Some?;
    FirstInsertStays(repo, t, ss, call.operation, call.subject.tenant);
    ExecKeeps(repo, t, ss, call.operation, call.subject.tenant);
    assert Lawful(ss[0], call.operation, call.subject.tenant);
    assert IsSuccessEvidence(t', Some(ss[0].evidenceId), call.operation, call.subject.tenant);
  }

  // ---------------------------------------------------------------- runs

  /** One step of a run adds success evidence for `o` exactly if it commits a call that supplies it. */
  lemma StepEvidence(repo: Repository, states: seq<System>, events: seq<Event>, k: nat, o: Id)
    requires IsRun(repo, states, events) && k < |events| && Present(states, k, o)
    ensures HasSuccessEvidence(states[k + 1].tables, o) <==>
            HasSuccessEvidence(states[k].tables, o) || Supplies(states[k], events[k], o)
  {
    RunSound(repo, states, events, k);
    assert StepBy(repo, states[k], events[k], states[k + 1]);
    if events[k].Commit? {
      CommitEvidence(repo, states[k], events[k].caller, o);
    } else {
      OtherStepsAddNoEvidence(repo, states[k], events[k], states[k + 1], o);
    }
  }

  lemma OtherStepsAddNoEvidence(repo: Repository, s: System, e: Event, s': System, o: Id)
    requires StepBy(repo, s, e, s') && !e.Commit? && o in s.tables.operations
    ensures HasSuccessEvidence(s'.tables, o) <==> HasSuccessEvidence(s.tables, o)
  {
    assert s'.tables.evidence == s.tables.evidence && o in s'.tables.operations;
    assert s'.tables.operations[o] == s.tables.operations[o];
    assert forall x :: IsSuccessEvidence(s'.tables, Some(x), o, s.tables.operations[o].tenant) <==>
                       IsSuccessEvidence(s.tables, Some(x), o, s.tables.operations[o].tenant);
  }

  ghost predicate SuppliedBetween(states: seq<System>, events: seq<Event>, o: Id, i: nat, j: nat) {
    exists m :: i <= m < j && m < |events| && m < |states| && Supplies(states[m], events[m], o)
  }

  /** From `i` on, each step adds success evidence for `o` exactly if it supplies it. */
  ghost predicate StepsSupply(states: seq<System>, events: seq<Event>, o: Id, i: nat) {
    && |states| == |events| + 1
    && forall k {:trigger events[k]} :: i <= k < |events| ==>
         (HasSuccessEvidence(states[k + 1].tables, o) <==>
          HasSuccessEvidence(states[k].tables, o) || Supplies(states[k], events[k], o))
  }

  lemma RunSupplies(repo: Repository, states: seq<System>, events: seq<Event>, o: Id, i: nat)
    requires IsRun(repo, states, events) && Present(states, i, o)
    ensures StepsSupply(states, events, o, i)
  {
    StaysPresent(repo, states, events, o, i);
    forall k {:trigger events[k]} | i <= k < |events|
      ensures HasSuccessEvidence(states[k + 1].tables, o) <==>
              HasSuccessEvidence(states[k].tables, o) || Supplies(states[k], events[k], o)
    {
      StepEvidence(repo, states, events, k, o);
    }
  }

  lemma {:induction false} SupplyHistory(states: seq<System>, events: seq<Event>, o: Id, i: nat, j: nat)
    requires StepsSupply(states, events, o, i) && i <= j < |states|
    ensures HasSuccessEvidence(states[j].tables, o) <==>
            HasSuccessEvidence(states[i].tables, o) || SuppliedBetween(states, events, o, i, j)
    decreases j - i
  {
    if i < j {
      var k := j - 1;
      SupplyHistory(states, events, o, i, k);
      var supplied := Supplies(states[k], events[k], o);
      assert HasSuccessEvidence(states[k + 1].tables, o) <==> HasSuccessEvidence(states[k].tables, o) || supplied;
    }
  }

  /** Success evidence at a later state was there earlier or was supplied by a commit in between. */
  lemma EvidenceHistory(repo: Repository, states: seq<System>, events: seq<Event>, o: Id, i: nat, j: nat)
    requires IsRun(repo, states, events) && i <= j < |states| && Present(states, i, o)
    ensures HasSuccessEvidence(states[j].tables, o) <==>
            HasSuccessEvidence(states[i].tables, o) || SuppliedBetween(states, events, o, i, j)
  {
    RunSupplies(repo, states, events, o, i);
    SupplyHistory(states, events, o, i, j);
  }

  /** Step `k` makes `o` active. */
  predicate EntersActive(states: seq<System>, o: Id, k: nat) {
    && Present(states, k, o) && Present(states, k + 1, o)
    && Status(states, k, o) != Active && Status(states, k + 1, o) == Active
  }

  /**
   * An operation becomes active with success evidence exactly if it does so otherwise than by a stage start naming
   * `active`, or the evidence was already persisted.
   */
  lemma ActivationIsEvidenced(repo: Repository, states: seq<System>, events: seq<Event>, o: Id, k: nat)
    requires IsRun(repo, states, events) && k < |events| && EntersActive(states, o, k)
    ensures HasSuccessEvidence(states[k + 1].tables, o) <==>
            DirectActivation(states[k], events[k]) != Some(o) || HasSuccessEvidence(states[k].tables, o)
  {
    StepEvidence(repo, states, events, k, o);
    RunIsRegular(repo, states, events);
    assert Linked(states[k].tables, states[k + 1].tables, DirectActivation(states[k], events[k]));
    assert OperationStep(states[k].tables, states[k + 1].tables, o, DirectActivation(states[k], events[k]));
  }

  lemma {:induction false} FindsActivation(repo: Repository, states: seq<System>, events: seq<Event>, o: Id, i: nat,
                                           j: nat) returns (k: nat)
    requires IsRun(repo, states, events) && i <= j < |states| && Present(states, i, o) && Present(states, j, o)
    requires Status(states, i, o) != Active && Status(states, j, o) == Active
    ensures i <= k < j && EntersActive(states, o, k)
    decreases j - i
  {
    StaysPresent(repo, states, events, o, i);
    if Status(states, j - 1, o) != Active {
      k := j - 1;
    } else {
      k := FindsActivation(repo, states, events, o, i, j - 1);
    }
  }

  /** Whether `o`, which became active at step `k`, has success evidence at `j`, told from the history. */
  ghost predicate BackedAt(states: seq<System>, events: seq<Event>, o: Id, k: nat, j: nat) {
    k < |events| && k < |states| && j < |states| &&
    (HasSuccessEvidence(states[j].tables, o) <==>
      || DirectActivation(states[k], events[k]) != Some(o)
      || HasSuccessEvidence(states[k].tables, o)
      || SuppliedBetween(states, events, o, k + 1, j))
  }

  lemma ActivationIsBacked(repo: Repository, states: seq<System>, events: seq<Event>, o: Id, k: nat, j: nat)
    requires IsRun(repo, states, events) && k < j < |states| && EntersActive(states, o, k)
    ensures BackedAt(states, events, o, k, j)
  {
    ActivationIsEvidenced(repo, states, events, o, k);
    EvidenceHistory(repo, states, events, o, k + 1, j);
  }

  /**
   * An operation that is active at `j` and was not at `i` became so at some step `k`, and at `j` has success evidence
   * exactly if that step was no direct stage start, or the evidence was persisted before it, or supplied since.
   */
  lemma ActiveIsProvenExactly(repo: Repository, states: seq<System>, events: seq<Event>, o: Id, i: nat, j: nat)
    returns (k: nat)
    requires IsRun(repo, states, events) && i <= j < |states| && Present(states, i, o) && Present(states, j, o)
    requires Status(states, i, o) != Active && Status(states, j, o) == Active
    ensures i <= k < j && EntersActive(states, o, k) && BackedAt(states, events, o, k, j)
  {
    k := FindsActivation(repo, states, events, o, i, j);
    ActivationIsBacked(repo, states, events, o, k, j);
  }
}
