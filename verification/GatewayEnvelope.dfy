/** The capability envelope row, the concurrent apply runs that compete for it, and one run as the code performs it. */
module GatewayEnvelope {
  import opened Outcomes
  import opened GatewayRollout

  datatype ExecutionStatus = NotExecuted | Referenced | Executed | Failed | Cancelled

  datatype Envelope = Envelope(status: ExecutionStatus, ref: string)

  predicate Claimable(e: Envelope) {
    e.status == NotExecuted && e.ref == ""
  }

  predicate Finalizable(e: Envelope, ref: string) {
    e.status == Referenced && e.ref == ref
  }

  /** The guarded updates a run makes to the envelope; other steps leave it alone. */
  predicate Guard(e: Envelope, ref: string, s: Step) {
    match s
    case Claim => Claimable(e)
    case FinalizeExecuted => Finalizable(e, ref)
    case FinalizeFailed => Finalizable(e, ref)
    case _ => false
  }

  function Updated(e: Envelope, ref: string, s: Step): Envelope {
    match s
    case Claim => Envelope(Referenced, ref)
    case FinalizeExecuted => e.(status := Executed)
    case FinalizeFailed => e.(status := Failed)
    case _ => e
  }

  predicate OnEnvelope(s: Step) {
    s == Claim || s == FinalizeExecuted || s == FinalizeFailed
  }

  /**
   * A step on the envelope answers `Ok` exactly when its guarded update took effect; when no answer arrives the
   * update may or may not have taken effect.
   */
  predicate EnvelopeStep(e: Envelope, e': Envelope, ref: string, s: Step, reply: Reply) {
    if !OnEnvelope(s) || !Guard(e, ref, s) then e' == e && (OnEnvelope(s) ==> reply != Ok)
    else if reply == Ok then e' == Updated(e, ref, s)
    else reply == Threw && (e' == e || e' == Updated(e, ref, s))
  }

  // ---------------------------------------------------------------- concurrent runs

  /** The envelope and what every run has done so far; `refs` gives each run's execution reference. */
  datatype System = System(envelope: Envelope, traces: map<nat, seq<Entry>>, refs: map<nat, string>)

  ghost predicate Started(s: System) {
    forall r :: r in s.traces ==> r in s.refs && s.traces[r] == []
  }

  ghost predicate Moves(s: System, s': System, r: nat, e: Entry) {
    && r in s.traces && r in s.refs && s'.refs == s.refs
    && Follow(s.traces[r]).Some? && Follow(s.traces[r]).value.pc == To(e.step)
    && s'.traces == s.traces[r := s.traces[r] + [e]]
    && EnvelopeStep(s.envelope, s'.envelope, s.refs[r], e.step, e.reply)
  }

  ghost predicate StepOf(s: System, s': System) {
    exists r, e :: Moves(s, s', r, e)
  }

  ghost predicate IsRun(states: seq<System>) {
    && |states| > 0 && Started(states[0])
    && forall i :: 0 < i < |states| ==> StepOf(states[i - 1], states[i])
  }

  ghost predicate Claimed(s: System, r: nat) {
    r in s.traces && Entry(Claim, Ok) in s.traces[r]
  }

  /** Kept by every step of every run. */
  ghost predicate Sound(s: System) {
    && (forall r :: r in s.traces ==> Follow(s.traces[r]).Some?)
    && (forall r :: Claimed(s, r) ==> s.envelope.status != NotExecuted)
    && (forall r, q :: Claimed(s, r) && Claimed(s, q) ==> r == q)
  }

  lemma MoveKeepsSound(s: System, s': System, r: nat, e: Entry)
    requires Sound(s) && Moves(s, s', r, e)
    ensures Sound(s')
  {
    FollowNext(s.traces[r], e);
    forall q | Claimed(s', q) ensures Claimed(s, q) || (q == r && e == Entry(Claim, Ok)) {
      assert q != r ==> s'.traces[q] == s.traces[q];
    }
  }

  lemma {:induction false} RunSound(states: seq<System>, n: nat)
    requires IsRun(states) && n < |states|
    ensures Sound(states[n])
  {
    if n > 0 {
      RunSound(states, n - 1);
      assert StepOf(states[n - 1], states[n]);
      var r, e :| Moves(states[n - 1], states[n], r, e);
      MoveKeepsSound(states[n - 1], states[n], r, e);
    }
  }

  /** Whatever the interleaving, at most one run on the envelope ever reaches the upload. */
  lemma OneRunUploads(states: seq<System>, n: nat, r: nat, q: nat)
    requires IsRun(states) && n < |states|
    requires r in states[n].traces && Tried(states[n].traces[r], Upload)
    requires q in states[n].traces && Tried(states[n].traces[q], Upload)
    ensures r == q
  {
    RunSound(states, n);
    TraceAccounted(states[n].traces[r]);
    TraceAccounted(states[n].traces[q]);
    assert Claimed(states[n], r) && Claimed(states[n], q);
  }

  /** An envelope that is not claimable never becomes so again. */
  lemma {:induction false} NeverClaimableAgain(states: seq<System>, i: nat, j: nat)
    requires IsRun(states) && i <= j < |states| && !Claimable(states[i].envelope)
    ensures !Claimable(states[j].envelope)
    decreases j
  {
    if i < j {
      NeverClaimableAgain(states, i, j - 1);
      assert StepOf(states[j - 1], states[j]);
    }
  }

  /** Once a run has claimed the envelope it is not claimable, now or later. */
  lemma ClaimIsForGood(states: seq<System>, i: nat, j: nat, r: nat)
    requires IsRun(states) && i <= j < |states| && Claimed(states[i], r)
    ensures !Claimable(states[j].envelope)
  {
    RunSound(states, i);
    NeverClaimableAgain(states, i, j);
  }

  /** A run that holds the claim and has not asked to record an outcome has its reference on the envelope. */
  ghost predicate Referring(s: System) {
    forall r :: Claimed(s, r) && !Tried(s.traces[r], FinalizeExecuted) && !Tried(s.traces[r], FinalizeFailed) ==>
      r in s.refs && s.envelope == Envelope(Referenced, s.refs[r])
  }

  /** Only the run that holds the claim asks to record an outcome. */
  lemma RecordsAreTheClaimers(s: System, r: nat)
    requires Sound(s) && r in s.traces && Follow(s.traces[r]).Some?
    requires Follow(s.traces[r]).value.pc == To(FinalizeExecuted) || Follow(s.traces[r]).value.pc == To(FinalizeFailed)
    ensures Claimed(s, r)
  {
    TraceAccounted(s.traces[r]);
  }

  lemma MoveKeepsReferring(s: System, s': System, q: nat, e: Entry)
    requires Sound(s) && Referring(s) && Moves(s, s', q, e)
    ensures Referring(s')
  {
    if e.step == FinalizeExecuted || e.step == FinalizeFailed {
      RecordsAreTheClaimers(s, q);
    }
    MoveKeepsSound(s, s', q, e);
    TriedGrows(s.traces[q], e, FinalizeExecuted);
    TriedGrows(s.traces[q], e, FinalizeFailed);
    forall r | Claimed(s', r) && !Tried(s'.traces[r], FinalizeExecuted) && !Tried(s'.traces[r], FinalizeFailed)
      ensures r in s'.refs && s'.envelope == Envelope(Referenced, s'.refs[r])
    {
      assert r != q ==> s'.traces[r] == s.traces[r] && Claimed(s, r);
    }
  }

  lemma {:induction false} RunRefers(states: seq<System>, n: nat)
    requires IsRun(states) && n < |states|
    ensures Referring(states[n])
  {
    if n > 0 {
      RunRefers(states, n - 1);
      RunSound(states, n - 1);
      assert StepOf(states[n - 1], states[n]);
      var r, e :| Moves(states[n - 1], states[n], r, e);
      MoveKeepsReferring(states[n - 1], states[n], r, e);
    }
  }

  // ---------------------------------------------------------------- what the answers say

  /** An answered claim took the envelope exactly if it was free, an answered record exactly if the run held it. */
  lemma EnvelopeAnswers(s: System, s': System, r: nat, e: Entry)
    requires Moves(s, s', r, e) && e.reply != Threw
    ensures e.step == Claim ==>
              && (e.reply == Ok <==> s.envelope == Envelope(NotExecuted, ""))
              && s'.envelope == if e.reply == Ok then Envelope(Referenced, s.refs[r]) else s.envelope
    ensures e.step == FinalizeExecuted ==>
              && (e.reply == Ok <==> s.envelope == Envelope(Referenced, s.refs[r]))
              && s'.envelope == if e.reply == Ok then Envelope(Executed, s.refs[r]) else s.envelope
    ensures e.step == FinalizeFailed ==>
              && (e.reply == Ok <==> s.envelope == Envelope(Referenced, s.refs[r]))
              && s'.envelope == if e.reply == Ok then Envelope(Failed, s.refs[r]) else s.envelope
    ensures e.step != Claim && e.step != FinalizeExecuted && e.step != FinalizeFailed ==> s'.envelope == s.envelope
  {
  }

  predicate AnsweredRecord(trace: seq<Entry>) {
    Entry(FinalizeExecuted, Ok) in trace || Entry(FinalizeFailed, Ok) in trace
  }

  /** An outcome a run was told is recorded is on the envelope, with its reference. */
  ghost predicate Recorded(s: System) {
    && (forall r :: r in s.traces && Entry(FinalizeExecuted, Ok) in s.traces[r] ==>
          r in s.refs && s.envelope == Envelope(Executed, s.refs[r]))
    && (forall r :: r in s.traces && Entry(FinalizeFailed, Ok) in s.traces[r] ==>
          r in s.refs && s.envelope == Envelope(Failed, s.refs[r]))
  }

  lemma MoveKeepsRecorded(s: System, s': System, q: nat, e: Entry)
    requires Recorded(s) && Moves(s, s', q, e)
    ensures Recorded(s')
  {
    if e.reply == Ok {
      EnvelopeAnswers(s, s', q, e);
    }
    forall r | r in s'.traces && AnsweredRecord(s'.traces[r])
      ensures || (r == q && e.reply == Ok && (e.step == FinalizeExecuted || e.step == FinalizeFailed))
              || (r in s.traces && AnsweredRecord(s.traces[r]))
    {
      assert r != q ==> s'.traces[r] == s.traces[r];
    }
  }

  /** In every interleaving, an outcome once answered stays on the envelope for good. */
  lemma {:induction false} OutcomesStayRecorded(states: seq<System>, n: nat)
    requires IsRun(states) && n < |states|
    ensures Recorded(states[n])
  {
    if n > 0 {
      OutcomesStayRecorded(states, n - 1);
      assert StepOf(states[n - 1], states[n]);
      var r, e :| Moves(states[n - 1], states[n], r, e);
      MoveKeepsRecorded(states[n - 1], states[n], r, e);
    }
  }

  ghost predicate FailedAtForm(s: System, r: nat) {
    r in s.traces && exists reply :: reply != Ok && Entry(BuildForm, reply) in s.traces[r]
  }

  /**
   * Once the claiming run has failed to build its form, the envelope carries its reference for good: no run ever claims
   * it again, and neither success nor failure is ever recorded.
   */
  lemma FormFailureKeepsTheClaim(states: seq<System>, i: nat, j: nat, r: nat)
    requires IsRun(states) && i <= j < |states| && FailedAtForm(states[i], r)
    ensures r in states[i].refs && states[j].envelope == Envelope(Referenced, states[i].refs[r])
  {
    TracesGrow(states, i, j, r);
    RefsStay(states, i, j);
    RunSound(states, j);
    RunRefers(states, j);
    FormFailureEndsTheRun(states[j].traces[r]);
    assert Claimed(states[j], r);
  }

  lemma {:induction false} RefsStay(states: seq<System>, i: nat, j: nat)
    requires IsRun(states) && i <= j < |states|
    ensures states[j].refs == states[i].refs
    decreases j
  {
    if i < j {
      RefsStay(states, i, j - 1);
      assert StepOf(states[j - 1], states[j]);
    }
  }

  ghost predicate Verified(s: System, r: nat) {
    r in s.traces &&
    Passed(s.traces[r], WRITES + READBACKS)
  }

  /** `executed` is on record only if some run passed its writes and all four readbacks. */
  lemma {:induction false} ExecutedIsVerified(states: seq<System>, n: nat)
    requires IsRun(states) && n < |states|
    requires states[0].envelope.status != Executed && states[n].envelope.status == Executed
    ensures exists r :: Verified(states[n], r)
  {
    var s, s' := states[n - 1], states[n];
    assert StepOf(s, s');
    var r, e :| Moves(s, s', r, e);
    assert forall x :: x in s.traces[r] ==> x in s'.traces[r];
    if s.envelope.status == Executed {
      ExecutedIsVerified(states, n - 1);
      var q :| Verified(s, q);
      assert Verified(s', q);
    } else {
      assert e.step == FinalizeExecuted;
      RunSound(states, n - 1);
      TraceAccounted(s.traces[r]);
      assert Verified(s', r);
    }
  }

  // ---------------------------------------------------------------- executed, and yet rolled back

  lemma {:induction false} ExecutedStays(states: seq<System>, i: nat, j: nat)
    requires IsRun(states) && i <= j < |states| && states[i].envelope.status == Executed
    ensures states[j].envelope == states[i].envelope
    decreases j
  {
    if i < j {
      ExecutedStays(states, i, j - 1);
      assert StepOf(states[j - 1], states[j]);
    }
  }

  lemma {:induction false} TracesGrow(states: seq<System>, i: nat, j: nat, r: nat)
    requires IsRun(states) && i <= j < |states| && r in states[i].traces
    ensures r in states[j].traces && states[i].traces[r] <= states[j].traces[r]
    decreases j
  {
    if i < j {
      TracesGrow(states, i, j - 1, r);
      assert StepOf(states[j - 1], states[j]);
    }
  }

  /** The run whose recording took effect, and where it stands since. */
  lemma {:induction false} RecordingLanded(states: seq<System>, n: nat) returns (r: nat)
    requires IsRun(states) && n < |states|
    requires states[0].envelope.status != Executed && states[n].envelope.status == Executed
    ensures r in states[n].traces
    ensures Entry(FinalizeExecuted, Ok) in states[n].traces[r] || Entry(FinalizeExecuted, Threw) in states[n].traces[r]
  {
    var s, s' := states[n - 1], states[n];
    assert StepOf(s, s');
    if s.envelope.status == Executed {
      r := RecordingLanded(states, n - 1);
      TracesGrow(states, n - 1, n, r);
    } else {
      var e: Entry;
      r, e :| Moves(s, s', r, e);
      assert e.step == FinalizeExecuted;
      assert e in s'.traces[r];
    }
  }

  /** A rollback is tried only by the run that holds the claim. */
  lemma RollbackIsTheClaimers(s: System, q: nat)
    requires Sound(s) && q in s.traces && Tried(s.traces[q], Rollback)
    ensures Claimed(s, q)
  {
    TraceAccounted(s.traces[q]);
  }

  lemma RecordedMeans(trace: seq<Entry>)
    requires Follow(trace).Some?
    requires Entry(FinalizeExecuted, Ok) in trace || Entry(FinalizeExecuted, Threw) in trace
    ensures Entry(Claim, Ok) in trace
    ensures Tried(trace, Rollback) <==>
            Entry(FinalizeExecuted, Threw) in trace && Follow(trace).value.pc != To(Rollback)
  {
    TraceAccounted(trace);
    assert Tried(trace, FinalizeExecuted);
    assert Entry(Upload, Ok) in trace && Entry(Claim, Ok) in trace;
  }

  /**
   * An executed envelope stands beside a tried rollback exactly when the answer to the recording that took effect was
   * lost and its run went on: the code then rolls back a deployment it has on record as executed.
   */
  lemma ExecutedYetRolledBack(states: seq<System>, n: nat) returns (r: nat)
    requires IsRun(states) && n < |states|
    requires states[0].envelope.status != Executed && states[n].envelope.status == Executed
    ensures Claimed(states[n], r) && Follow(states[n].traces[r]).Some?
    ensures (exists q :: q in states[n].traces && Tried(states[n].traces[q], Rollback)) <==>
            && Entry(FinalizeExecuted, Threw) in states[n].traces[r]
            && Follow(states[n].traces[r]).value.pc != To(Rollback)
  {
    r := RecordingLanded(states, n);
    RunSound(states, n);
    RecordedMeans(states[n].traces[r]);
    assert Claimed(states[n], r);
    if q :| q in states[n].traces && Tried(states[n].traces[q], Rollback) {
      RollbackIsTheClaimers(states[n], q);
    }
  }

  const REF := "ref"
  const HELD := Envelope(Referenced, REF)

  /** A run of the system with the one apply run 0, which stands at `p`. */
  ghost predicate Stands(states: seq<System>, envelope: Envelope, p: Progress) {
    && IsRun(states) && states[0].envelope.status != Executed
    && var s := states[|states| - 1];
       s.envelope == envelope && s.refs == map[0 := REF] && s.traces.Keys == {0} && Follow(s.traces[0]) == Some(p)
  }

  ghost predicate RolledBack(states: seq<System>) {
    states != [] && 0 in states[|states| - 1].traces && Tried(states[|states| - 1].traces[0], Rollback)
  }

  lemma Grow(states: seq<System>, envelope: Envelope, p: Progress, e: Entry, after: Envelope)
    returns (states': seq<System>)
    requires Stands(states, envelope, p) && p.pc == To(e.step) && EnvelopeStep(envelope, after, REF, e.step, e.reply)
    ensures Stands(states', after, After(p, e.reply))
    ensures RolledBack(states) || e.step == Rollback ==> RolledBack(states')
  {
    var s := states[|states| - 1];
    var s' := s.(envelope := after, traces := s.traces[0 := s.traces[0] + [e]]);
    FollowNext(s.traces[0], e);
    TriedGrows(s.traces[0], e, Rollback);
    assert Moves(s, s', 0, e);
    states' := states + [s'];
    forall i | 0 < i < |states'| ensures StepOf(states'[i - 1], states'[i]) {
      if i < |states| {
        assert StepOf(states[i - 1], states[i]);
      }
    }
  }

  lemma ReachSecrets() returns (states: seq<System>)
    ensures Stands(states, HELD, Progress(To(PutSecret(0)), true, true))
  {
    var free := Envelope(NotExecuted, "");
    states := [System(free, map[0 := []], map[0 := REF])];
    states := Grow(states, free, START, Entry(Claim, Ok), HELD);
    states := Grow(states, HELD, Progress(To(BuildForm), false, true), Entry(BuildForm, Ok), HELD);
    states := Grow(states, HELD, Progress(To(Upload), false, true), Entry(Upload, Ok), HELD);
  }

  /** One more provider request that is answered well. */
  lemma Pass(states: seq<System>, step: Step, next: Step) returns (states': seq<System>)
    requires Stands(states, HELD, Progress(To(step), true, true)) && !OnEnvelope(step)
    requires After(Progress(To(step), true, true), Ok) == Progress(To(next), true, true)
    ensures Stands(states', HELD, Progress(To(next), true, true))
  {
    states' := Grow(states, HELD, Progress(To(step), true, true), Entry(step, Ok), HELD);
  }

  lemma ReachReadbacks() returns (states: seq<System>)
    ensures Stands(states, HELD, Progress(To(ReadDeployments), true, true))
  {
    states := ReachSecrets();
    states := Pass(states, PutSecret(0), PutSecret(1));
    states := Pass(states, PutSecret(1), EnableSubdomain);
    states := Pass(states, EnableSubdomain, ReadDeployments);
  }

  lemma ReachSmoke() returns (states: seq<System>)
    ensures Stands(states, HELD, Progress(To(ReadHealth), true, true))
  {
    states := ReachReadbacks();
    states := Pass(states, ReadDeployments, ReadSubdomain);
    states := Pass(states, ReadSubdomain, ReadHealth);
  }

  lemma ReachRecording() returns (states: seq<System>)
    ensures Stands(states, HELD, Progress(To(FinalizeExecuted), true, true))
  {
    states := ReachSmoke();
    states := Pass(states, ReadHealth, ReadReady);
    states := Pass(states, ReadReady, Audit);
    states := Pass(states, Audit, FinalizeExecuted);
  }

  /** The recording takes effect, its answer is lost, and the rollback is tried. */
  lemma LoseRecording() returns (states: seq<System>)
    ensures Stands(states, Envelope(Executed, REF), Progress(To(FailureAudit), true, true)) && RolledBack(states)
  {
    var done := Envelope(Executed, REF);
    states := ReachRecording();
    states := Grow(states, HELD, Progress(To(FinalizeExecuted), true, true), Entry(FinalizeExecuted, Threw), done);
    states := Grow(states, done, Progress(To(Rollback), true, true), Entry(Rollback, Ok), done);
  }

  /** It does happen: the run ends in an error with a tried rollback, and the envelope stays executed. */
  lemma LostRecordingRollsBack() returns (states: seq<System>)
    ensures Stands(states, Envelope(Executed, REF), Progress(Errored, true, true)) && RolledBack(states)
  {
    var done := Envelope(Executed, REF);
    states := LoseRecording();
    states := Grow(states, done, Progress(To(FailureAudit), true, true), Entry(FailureAudit, Ok), done);
    states := Grow(states, done, Progress(To(FinalizeFailed), true, true), Entry(FinalizeFailed, Bad), done);
  }

  // ---------------------------------------------------------------- one run, as written

  /** An update of the envelope by some other run. */
  datatype Rival = Rival(ref: string, step: Step)

  function Contend(e: Envelope, rivals: seq<Rival>): Envelope
    decreases |rivals|
  {
    if rivals == [] then e
    else
      var first := rivals[0];
      Contend(if Guard(e, first.ref, first.step) then Updated(e, first.ref, first.step) else e, rivals[1..])
  }

  /** What the caller learns from a failed run. */
  datatype Failure = ReplayBlocked | FormFailed | DeployFailed(rollbackTried: bool)

  /**
   * `provider` answers each step's request, `lands` says whether an envelope update takes effect when its answer is
   * lost, and `rivals` what other runs do to the envelope before each step.
   */
  class DeployRun {
    var envelope: Envelope
    const ref: string
    const provider: Step -> Reply
    const lands: Step -> bool
    const rivals: Step -> seq<Rival>
    ghost var trace: seq<Entry>
    ghost var at: Progress

    constructor (e: Envelope, ref: string, provider: Step -> Reply, lands: Step -> bool, rivals: Step -> seq<Rival>)
      ensures Valid() && envelope == e && trace == []
      ensures this.ref == ref && this.provider == provider && this.lands == lands && this.rivals == rivals
    {
      envelope := e;
      trace := [];
      at := START;
      this.ref := ref;
      this.provider := provider;
      this.lands := lands;
      this.rivals := rivals;
    }

    /** The entries made so far are in the order the code makes them, and lead to where the run stands. */
    ghost predicate Valid()
      reads this
    {
      Follow(trace) == Some(at)
    }

    /** Nobody else touches the envelope, and every request is answered well. */
    ghost predicate Smooth() {
      forall s :: provider(s) == Ok && rivals(s) == []
    }

    /** One request; the envelope is touched by a guarded update only. */
    method Ask(s: Step) returns (reply: Reply)
      requires Valid() && at.pc == To(s)
      modifies this
      ensures Valid() && trace == old(trace) + [Entry(s, reply)] && at == After(old(at), reply)
      ensures EnvelopeStep(Contend(old(envelope), rivals(s)), envelope, ref, s, reply)
      ensures !OnEnvelope(s) ==> reply == provider(s)
      ensures provider(s) != Threw ==> reply != Threw
    {
      envelope := Contend(envelope, rivals(s));
      reply := provider(s);
      if OnEnvelope(s) {
        if !Guard(envelope, ref, s) {
          reply := if reply == Threw then Threw else Bad;
        } else if reply != Threw {
          reply := Ok;
          envelope := Updated(envelope, ref, s);
        } else if lands(s) {
          envelope := Updated(envelope, ref, s);
        }
      }
      FollowNext(trace, Entry(s, reply));
      trace := trace + [Entry(s, reply)];
      at := After(at, reply);
    }

    /** The provider writes of the try block. */
    method Write() returns (ok: bool, writesStarted: bool)
      requires Valid() && at == Progress(To(Upload), false, true)
      modifies this
      ensures Valid() && old(trace) <= trace && at.writesStarted == writesStarted
      ensures ok ==> at == Progress(To(ReadDeployments), true, true)
      ensures !ok ==> at.pc == To(if writesStarted then Rollback else FailureAudit)
      ensures Smooth() ==> ok && envelope == old(envelope)
    {
      writesStarted := false;
      var upload := Ask(Upload);
      if upload != Ok {
        return false, writesStarted;
      }
      writesStarted := true;
      for i := 0 to SECRETS
        invariant Valid() && old(trace) <= trace
        invariant at == Progress(To(if i < SECRETS then PutSecret(i) else EnableSubdomain), true, true)
        invariant Smooth() ==> envelope == old(envelope)
      {
        var stored := Ask(PutSecret(i));
        if stored != Ok {
          return false, writesStarted;
        }
      }
      var subdomain := Ask(EnableSubdomain);
      return subdomain == Ok, writesStarted;
    }

    /** The four readbacks, checked together at the end. */
    method ReadBack() returns (ok: bool)
      requires Valid() && at == Progress(To(ReadDeployments), true, true)
      modifies this
      ensures Valid() && old(trace) <= trace && at.writesStarted
      ensures at.pc == To(if ok then Audit else Rollback)
      ensures Smooth() ==> ok && envelope == old(envelope)
    {
      var deployments := Ask(ReadDeployments);
      if deployments == Threw {
        return false;
      }
      var enabled := Ask(ReadSubdomain);
      if enabled == Threw {
        return false;
      }
      var health := Ask(ReadHealth);
      var ready := Ask(ReadReady);
      return deployments == Ok && enabled == Ok && health == Ok && ready == Ok;
    }

    /** The audit and the recording of success. */
    method Record() returns (ok: bool)
      requires Valid() && at.pc == To(Audit) && at.writesStarted
      modifies this
      ensures Valid() && old(trace) <= trace && at.writesStarted
      ensures at.pc == if ok then Succeeded else To(Rollback)
      ensures Smooth() && old(envelope) == Envelope(Referenced, ref) ==> ok && envelope == Envelope(Executed, ref)
    {
      var audited := Ask(Audit);
      if audited == Threw {
        return false;
      }
      var recorded := Ask(FinalizeExecuted);
      return recorded == Ok;
    }

    /** The catch block. */
    method Recover(writesStarted: bool)
      requires Valid() && at.pc == To(if writesStarted then Rollback else FailureAudit)
      modifies this
      ensures Valid() && old(trace) <= trace && at == old(at).(pc := Errored)
    {
      if writesStarted {
        var _ := Ask(Rollback);
      }
      var _ := Ask(FailureAudit);
      var _ := Ask(FinalizeFailed);
    }

    /**
     * The whole run. Success means every write and readback passed. A refused claim or a form that cannot be built ends
     * it before any provider request; a later failure has tried a rollback exactly when the upload was accepted.
     */
    method DarkDeploy() returns (r: Result<(), Failure>)
      requires Valid() && trace == []
      modifies this
      ensures Valid() && at.pc == if r.Done? then Succeeded else Errored
      ensures r.Done? ==> Passed(trace, Before(FinalizeExecuted) + READBACKS)
      ensures r == Refused(ReplayBlocked) <==> Entry(Claim, Ok) !in trace
      ensures r == Refused(FormFailed) <==> Entry(Claim, Ok) in trace && Entry(BuildForm, Ok) !in trace
      ensures r == Refused(DeployFailed(true)) <==> r.Refused? && Entry(Upload, Ok) in trace
      ensures r == Refused(DeployFailed(true)) <==> Tried(trace, Rollback)
      ensures Ordered(Steps(trace), at)
      ensures Smooth() ==> if old(envelope) == Envelope(NotExecuted, "")
                           then r.Done? && envelope == Envelope(Executed, ref)
                           else r == Refused(ReplayBlocked) && envelope == old(envelope)
    {
      var claimed := Ask(Claim);
      if claimed != Ok {
        TraceAccounted(trace);
        RunsInOrder(trace);
        return Refused(ReplayBlocked);
      }
      assert trace[0] == Entry(Claim, Ok);
      var form := Ask(BuildForm);
      if form != Ok {
        TraceAccounted(trace);
        assert trace[0] == Entry(Claim, Ok) && trace[1] == Entry(BuildForm, form);
        RunsInOrder(trace);
        return Refused(FormFailed);
      }
      assert trace[1] == Entry(BuildForm, Ok);
      r := AfterForm();
      RunsInOrder(trace);
    }

    /** Everything from the upload on. */
    method AfterForm() returns (r: Result<(), Failure>)
      requires Valid() && at == Progress(To(Upload), false, true)
      modifies this
      ensures Valid() && old(trace) <= trace && at.pc == if r.Done? then Succeeded else Errored
      ensures r.Done? ==> Passed(trace, Before(FinalizeExecuted) + READBACKS)
      ensures r.Refused? ==> r.error.DeployFailed?
      ensures r == Refused(DeployFailed(true)) <==> r.Refused? && Entry(Upload, Ok) in trace
      ensures r == Refused(DeployFailed(true)) <==> Tried(trace, Rollback)
      ensures Smooth() && old(envelope) == Envelope(Referenced, ref) ==> r.Done? && envelope == Envelope(Executed, ref)
    {
      var ok, writesStarted := Write();
      if ok {
        ok := ReadBack();
        if ok {
          ok := Record();
        }
      }
      if ok {
        TraceAccounted(trace);
        assert Tried(trace, FinalizeExecuted);
        return Done(());
      }
      Recover(writesStarted);
      TraceAccounted(trace);
      return Refused(DeployFailed(writesStarted));
    }
  }
}
