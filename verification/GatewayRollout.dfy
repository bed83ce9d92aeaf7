/**
 * The claim-once deployment of the activation gateway. Any number of apply runs work on one capability envelope; each
 * is a sequence of provider, database and audit requests with their replies.
 */
module GatewayRollout {
  import opened Outcomes

  // ---------------------------------------------------------------- one run

  datatype Step =
    | Claim | BuildForm | Upload | PutSecret(index: nat) | EnableSubdomain
    | ReadDeployments | ReadSubdomain | ReadHealth | ReadReady
    | Audit | FinalizeExecuted | Rollback | FailureAudit | FinalizeFailed

  /** `Bad` is an answer that is not acceptable; `Threw` is no answer. */
  datatype Reply = Ok | Bad | Threw

  datatype Entry = Entry(step: Step, reply: Reply)

  datatype Pc = To(step: Step) | Succeeded | Errored

  /** Where a run is, whether its upload was accepted, and whether every readback so far passed. */
  datatype Progress = Progress(pc: Pc, writesStarted: bool, readsOk: bool)

  const SECRETS := 2

  /** The catch block: roll back if writes started, then record the failure. */
  function Caught(p: Progress): Progress {
    p.(pc := To(if p.writesStarted then Rollback else FailureAudit))
  }

  function AfterRead(p: Progress, reply: Reply, next: Step): Progress {
    p.(pc := To(next), readsOk := p.readsOk && reply == Ok)
  }

  function After(p: Progress, reply: Reply): Progress
    requires p.pc.To?
  {
    match p.pc.step
    case Claim => p.(pc := if reply == Ok then To(BuildForm) else Errored)
    case BuildForm => p.(pc := if reply == Ok then To(Upload) else Errored)
    case Upload => if reply == Ok then p.(pc := To(PutSecret(0)), writesStarted := true) else Caught(p)
    case PutSecret(i) =>
      if reply != Ok then Caught(p)
      else p.(pc := To(if i + 1 < SECRETS then PutSecret(i + 1) else EnableSubdomain))
    case EnableSubdomain => if reply == Ok then p.(pc := To(ReadDeployments)) else Caught(p)
    case ReadDeployments => if reply == Threw then Caught(p) else AfterRead(p, reply, ReadSubdomain)
    case ReadSubdomain => if reply == Threw then Caught(p) else AfterRead(p, reply, ReadHealth)
    case ReadHealth => AfterRead(p, reply, ReadReady)
    case ReadReady => if p.readsOk && reply == Ok then AfterRead(p, reply, Audit) else Caught(p)
    case Audit => if reply == Threw then Caught(p) else p.(pc := To(FinalizeExecuted))
    case FinalizeExecuted => if reply == Ok then p.(pc := Succeeded) else Caught(p)
    case Rollback => p.(pc := To(FailureAudit))
    case FailureAudit => p.(pc := To(FinalizeFailed))
    case FinalizeFailed => p.(pc := Errored)
  }

  const START := Progress(To(Claim), false, true)

  /** Where a run stands after making these entries, if the code makes them in this order. */
  function Follow(trace: seq<Entry>): Option<Progress> {
    if trace == [] then Some(START)
    else
      var before := Follow(trace[..|trace| - 1]);
      var last := trace[|trace| - 1];
      if before.Some? && before.value.pc == To(last.step) then Some(After(before.value, last.reply)) else None
  }

  lemma FollowNext(trace: seq<Entry>, e: Entry)
    requires Follow(trace).Some? && Follow(trace).value.pc == To(e.step)
    ensures Follow(trace + [e]) == Some(After(Follow(trace).value, e.reply))
  {
  }

  /** What must have passed before a run stands at `s`, on the path without failure. */
  function Before(s: Step): set<Step> {
    match s
    case Claim => {}
    case BuildForm => {Claim}
    case Upload => {Claim, BuildForm}
    case PutSecret(i) => if i == 0 then {Claim, BuildForm, Upload} else {Claim, BuildForm, Upload, PutSecret(0)}
    case EnableSubdomain => {Claim, BuildForm, Upload, PutSecret(0), PutSecret(1)}
    case _ => WRITES
  }

  /** Everything up to the last provider write. */
  const WRITES := {Claim, BuildForm, Upload, PutSecret(0), PutSecret(1), EnableSubdomain}

  const READBACKS := {ReadDeployments, ReadSubdomain, ReadHealth, ReadReady}

  function ReadBefore(s: Step): set<Step> {
    match s
    case ReadSubdomain => {ReadDeployments}
    case ReadHealth => {ReadDeployments, ReadSubdomain}
    case ReadReady => {ReadDeployments, ReadSubdomain, ReadHealth}
    case Audit => READBACKS
    case FinalizeExecuted => READBACKS
    case _ => {}
  }

  predicate Passed(trace: seq<Entry>, steps: set<Step>) {
    forall s :: s in steps ==> Entry(s, Ok) in trace
  }

  predicate Recovering(s: Step) {
    s == Rollback || s == FailureAudit || s == FinalizeFailed
  }

  ghost predicate Tried(trace: seq<Entry>, s: Step) {
    exists i :: 0 <= i < |trace| && trace[i].step == s
  }

  predicate InRange(s: Step) {
    s.PutSecret? ==> s.index < SECRETS
  }

  /** A run on the path without failure has passed everything before where it stands. */
  ghost predicate PathAccounted(trace: seq<Entry>, p: Progress) {
    && (p.pc == To(Claim) ==> trace == [])
    && (p.pc.To? && !Recovering(p.pc.step) ==>
          && InRange(p.pc.step)
          && Passed(trace, Before(p.pc.step))
          && (p.readsOk ==> Passed(trace, ReadBefore(p.pc.step)))
          && (p.pc.step == Audit || p.pc.step == FinalizeExecuted ==> p.readsOk))
  }

  /** Recording success was asked for only after every readback passed, and uploading only after the claim. */
  ghost predicate SuccessAccounted(trace: seq<Entry>, p: Progress) {
    && (p.pc == Succeeded ==> Entry(FinalizeExecuted, Ok) in trace)
    && (Tried(trace, FinalizeExecuted) ==> Passed(trace, Before(FinalizeExecuted) + READBACKS))
    && (Tried(trace, Upload) ==> Entry(Claim, Ok) in trace)
    && (p.pc.To? && Recovering(p.pc.step) ==> Entry(Claim, Ok) in trace)
  }

  /** Rollback is tried exactly on the way from an accepted upload to an error. */
  ghost predicate RollbackAccounted(trace: seq<Entry>, p: Progress) {
    && (p.writesStarted <==> Entry(Upload, Ok) in trace)
    && (p.pc == To(Claim) || p.pc == To(BuildForm) ==> !p.writesStarted)
    && (p.pc.To? && !Recovering(p.pc.step) ==> !Tried(trace, Rollback))
    && (p.pc == To(Rollback) ==> p.writesStarted && !Tried(trace, Rollback))
    && (p.pc == To(FailureAudit) || p.pc == To(FinalizeFailed) || p.pc == Errored ==>
          (Tried(trace, Rollback) <==> p.writesStarted))
    && (p.pc == Succeeded ==> !Tried(trace, Rollback))
  }

  /** Recording success is asked for at most once: answered it ends the run, otherwise recovery follows. */
  ghost predicate RecordingAccounted(trace: seq<Entry>, p: Progress) {
    && (p.pc.To? && !Recovering(p.pc.step) ==> !Tried(trace, FinalizeExecuted))
    && (Entry(FinalizeExecuted, Ok) in trace <==> p.pc == Succeeded)
    && (p.pc == Succeeded ==> Entry(FinalizeExecuted, Threw) !in trace)
  }

  lemma TriedGrows(trace: seq<Entry>, e: Entry, s: Step)
    ensures Tried(trace + [e], s) <==> Tried(trace, s) || e.step == s
  {
    var more := trace + [e];
    assert more[|trace|] == e;
    if Tried(trace, s) {
      var i :| 0 <= i < |trace| && trace[i].step == s;
      assert more[i].step == s;
    }
  }

  lemma PathNext(trace: seq<Entry>, p: Progress, e: Entry)
    requires PathAccounted(trace, p) && p.pc == To(e.step)
    ensures PathAccounted(trace + [e], After(p, e.reply))
  {
  }

  lemma SuccessNext(trace: seq<Entry>, p: Progress, e: Entry)
    requires PathAccounted(trace, p) && SuccessAccounted(trace, p) && p.pc == To(e.step)
    ensures SuccessAccounted(trace + [e], After(p, e.reply))
  {
    TriedGrows(trace, e, FinalizeExecuted);
    TriedGrows(trace, e, Upload);
    assert forall x :: x in trace + [e] <==> x in trace || x == e;
  }

  lemma RollbackNext(trace: seq<Entry>, p: Progress, e: Entry)
    requires RollbackAccounted(trace, p) && p.pc == To(e.step)
    ensures RollbackAccounted(trace + [e], After(p, e.reply))
  {
    TriedGrows(trace, e, Rollback);
    assert forall x :: x in trace + [e] <==> x in trace || x == e;
  }

  lemma RecordingNext(trace: seq<Entry>, p: Progress, e: Entry)
    requires RecordingAccounted(trace, p) && p.pc == To(e.step)
    ensures RecordingAccounted(trace + [e], After(p, e.reply))
  {
    TriedGrows(trace, e, FinalizeExecuted);
    assert forall x :: x in trace ==> Tried(trace, x.step);
    assert forall x :: x in trace + [e] <==> x in trace || x == e;
  }

  /** Every trace accounts for itself. */
  lemma {:induction false} TraceAccounted(trace: seq<Entry>)
    requires Follow(trace).Some?
    ensures PathAccounted(trace, Follow(trace).value)
    ensures SuccessAccounted(trace, Follow(trace).value)
    ensures RollbackAccounted(trace, Follow(trace).value)
    ensures RecordingAccounted(trace, Follow(trace).value)
  {
    if trace != [] {
      var front, e := trace[..|trace| - 1], trace[|trace| - 1];
      TraceAccounted(front);
      var p := Follow(front).value;
      PathNext(front, p, e);
      SuccessNext(front, p, e);
      RollbackNext(front, p, e);
      RecordingNext(front, p, e);
      assert trace == front + [e];
    }
  }

  // ---------------------------------------------------------------- the order of every run

  /** A run without failure, step by step. */
  const FORWARD := [Claim, BuildForm, Upload, PutSecret(0), PutSecret(1), EnableSubdomain, ReadDeployments,
                    ReadSubdomain, ReadHealth, ReadReady, Audit, FinalizeExecuted]

  function Steps(trace: seq<Entry>): seq<Step> {
    seq(|trace|, i requires 0 <= i < |trace| => trace[i].step)
  }

  predicate Goes(steps: seq<Step>) {
    |steps| <= |FORWARD| && steps == FORWARD[..|steps|]
  }

  /** Forward past an accepted upload, then the given recovery. */
  predicate GoesThen(steps: seq<Step>, tail: seq<Step>) {
    && |steps| >= 4 + |tail| && Goes(steps[..|steps| - |tail|])
    && steps[|steps| - |tail|..] == tail
  }

  /** Forward up to an upload that was not accepted, then the given recovery. */
  predicate StopsThen(steps: seq<Step>, tail: seq<Step>) {
    steps == FORWARD[..3] + tail
  }

  /** The steps a run has taken, told from where it stands. */
  predicate Ordered(steps: seq<Step>, p: Progress) {
    match p.pc
    case Succeeded => steps == FORWARD
    case Errored =>
      || steps == FORWARD[..1] || steps == FORWARD[..2]
      || (if p.writesStarted then GoesThen(steps, [Rollback, FailureAudit, FinalizeFailed])
          else StopsThen(steps, [FailureAudit, FinalizeFailed]))
    case To(s) =>
      if s == Rollback then GoesThen(steps, []) && p.writesStarted
      else if s == FailureAudit then
        if p.writesStarted then GoesThen(steps, [Rollback]) else StopsThen(steps, [])
      else if s == FinalizeFailed then
        if p.writesStarted then GoesThen(steps, [Rollback, FailureAudit]) else StopsThen(steps, [FailureAudit])
      else
        && Goes(steps) && |steps| < |FORWARD| && FORWARD[|steps|] == s
        && (p.writesStarted <==> |steps| > 2)
  }

  lemma GoesOn(steps: seq<Step>, s: Step)
    requires Goes(steps) && |steps| < |FORWARD| && FORWARD[|steps|] == s
    ensures Goes(steps + [s])
  {
    assert (steps + [s])[..|steps|] == steps;
  }

  lemma ThenMore(steps: seq<Step>, tail: seq<Step>, s: Step)
    requires GoesThen(steps, tail)
    ensures GoesThen(steps + [s], tail + [s])
  {
    var k := |steps| - |tail|;
    assert (steps + [s])[..k] == steps[..k];
    assert (steps + [s])[k..] == steps[k..] + [s];
  }

  lemma ForwardNext(steps: seq<Step>, p: Progress, s: Step, reply: Reply)
    requires Ordered(steps, p) && p.pc == To(s) && !Recovering(s)
    ensures Ordered(steps + [s], After(p, reply))
  {
    var next := steps + [s];
    GoesOn(steps, s);
    assert next[..|next|] == next && next[|next|..] == [];
    if |next| == |FORWARD| {
      assert FORWARD[..|FORWARD|] == FORWARD;
    }
    if |next| == 3 {
      assert FORWARD[..3] + [] == FORWARD[..3];
    }
  }

  lemma RecoveryNext(steps: seq<Step>, p: Progress, s: Step, reply: Reply)
    requires Ordered(steps, p) && p.pc == To(s) && Recovering(s)
    ensures Ordered(steps + [s], After(p, reply))
  {
    assert [] + [Rollback] == [Rollback] && [Rollback] + [FailureAudit] == [Rollback, FailureAudit];
    assert [Rollback, FailureAudit] + [FinalizeFailed] == [Rollback, FailureAudit, FinalizeFailed];
    assert [FailureAudit] + [FinalizeFailed] == [FailureAudit, FinalizeFailed];
    if s == Rollback {
      ThenMore(steps, [], Rollback);
    } else if s == FailureAudit {
      if p.writesStarted {
        ThenMore(steps, [Rollback], FailureAudit);
      }
    } else if p.writesStarted {
      ThenMore(steps, [Rollback, FailureAudit], FinalizeFailed);
    } else {
      assert steps + [FinalizeFailed] == FORWARD[..3] + ([FailureAudit] + [FinalizeFailed]);
    }
  }

  /**
   * Every run takes the twelve steps in order as far as it gets. It ends in success after all twelve, or in an error:
   * after the claim or the form alone, after a refused upload and the two records of the failure, or after a later
   * step, the rollback and the two records.
   */
  lemma {:induction false} RunsInOrder(trace: seq<Entry>)
    requires Follow(trace).Some?
    ensures Ordered(Steps(trace), Follow(trace).value)
  {
    if trace != [] {
      var front, e := trace[..|trace| - 1], trace[|trace| - 1];
      RunsInOrder(front);
      assert Steps(trace) == Steps(front) + [e.step];
      if Recovering(e.step) {
        RecoveryNext(Steps(front), Follow(front).value, e.step, e.reply);
      } else {
        ForwardNext(Steps(front), Follow(front).value, e.step, e.reply);
      }
    }
  }

  /** On the way forward the readbacks so far have all passed exactly when none of them answered otherwise. */
  ghost predicate ReadsAccounted(trace: seq<Entry>, p: Progress) {
    p.pc.To? && !Recovering(p.pc.step) ==>
      (p.readsOk <==> forall e :: e in trace && e.step in READBACKS ==> e.reply == Ok)
  }

  lemma ReadsNext(trace: seq<Entry>, p: Progress, e: Entry)
    requires ReadsAccounted(trace, p) && p.pc == To(e.step)
    ensures ReadsAccounted(trace + [e], After(p, e.reply))
  {
    assert forall x :: x in trace + [e] <==> x in trace || x == e;
  }

  lemma {:induction false} ReadsCounted(trace: seq<Entry>)
    requires Follow(trace).Some?
    ensures ReadsAccounted(trace, Follow(trace).value)
  {
    if trace != [] {
      var front, e := trace[..|trace| - 1], trace[|trace| - 1];
      ReadsCounted(front);
      ReadsNext(front, Follow(front).value, e);
      assert trace == front + [e];
    }
  }

  /**
   * An answer a run goes on from: writes and records must succeed, provider readbacks and the audit must answer, the
   * health probe need not, and the last readback must find all four good.
   */
  ghost predicate Acceptable(front: seq<Entry>, e: Entry) {
    match e.step
    case ReadDeployments => e.reply != Threw
    case ReadSubdomain => e.reply != Threw
    case ReadHealth => true
    case ReadReady => e.reply == Ok && forall x :: x in front && x.step in READBACKS ==> x.reply == Ok
    case Audit => e.reply != Threw
    case _ => e.reply == Ok
  }

  /** A run goes on, or succeeds, after exactly the acceptable answers; after any other it recovers or ends. */
  lemma GoesOnExactly(trace: seq<Entry>)
    requires trace != [] && Follow(trace).Some? && !Recovering(trace[|trace| - 1].step)
    ensures var pc := Follow(trace).value.pc;
            Acceptable(trace[..|trace| - 1], trace[|trace| - 1]) <==>
            pc == Succeeded || (pc.To? && !Recovering(pc.step))
  {
    ReadsCounted(trace[..|trace| - 1]);
  }

  /** In a run that ended in an error, rollback was tried exactly if the upload had been accepted, and after it. */
  lemma RollbackBeforeError(trace: seq<Entry>)
    requires Follow(trace).Some? && Follow(trace).value.pc == Errored
    ensures Entry(Upload, Ok) in trace <==> Tried(trace, Rollback)
    ensures forall j :: 0 <= j < |trace| && trace[j].step == Rollback ==> Entry(Upload, Ok) in trace[..j]
  {
    TraceAccounted(trace);
    forall j | 0 <= j < |trace| && trace[j].step == Rollback ensures Entry(Upload, Ok) in trace[..j] {
      FollowPrefix(trace, j);
      TraceAccounted(trace[..j]);
    }
  }

  lemma {:induction false} FollowPrefix(trace: seq<Entry>, j: nat)
    requires Follow(trace).Some? && j < |trace|
    ensures Follow(trace[..j]).Some? && Follow(trace[..j]).value.pc == To(trace[j].step)
  {
    var front := trace[..|trace| - 1];
    if j < |front| {
      FollowPrefix(front, j);
      assert front[..j] == trace[..j];
    }
  }

  /** Asking to record `executed` comes only after the claim, every write and all four readbacks passed. */
  lemma ExecutedAfterReadbacks(trace: seq<Entry>, j: nat)
    requires Follow(trace).Some? && j < |trace| && trace[j].step == FinalizeExecuted
    ensures Passed(trace[..j], WRITES + READBACKS)
  {
    FollowPrefix(trace, j);
    TraceAccounted(trace[..j]);
  }

  /** An upload whose answer was lost is not rolled back: the code only knows of accepted ones. */
  lemma LostUploadIsNotRolledBack()
    ensures var trace := [Entry(Claim, Ok), Entry(BuildForm, Ok), Entry(Upload, Threw), Entry(FailureAudit, Ok),
                          Entry(FinalizeFailed, Ok)];
            Follow(trace).Some? && Follow(trace).value.pc == Errored && !Tried(trace, Rollback)
  {
    var e0, e1, e2 := Entry(Claim, Ok), Entry(BuildForm, Ok), Entry(Upload, Threw);
    var e3, e4 := Entry(FailureAudit, Ok), Entry(FinalizeFailed, Ok);
    assert [] + [e0] == [e0] && [e0] + [e1] == [e0, e1] && [e0, e1] + [e2] == [e0, e1, e2];
    assert [e0, e1, e2] + [e3] == [e0, e1, e2, e3] && [e0, e1, e2, e3] + [e4] == [e0, e1, e2, e3, e4];
    FollowNext([], e0);
    FollowNext([e0], e1);
    FollowNext([e0, e1], e2);
    FollowNext([e0, e1, e2], e3);
    FollowNext([e0, e1, e2, e3], e4);
  }

  /** A failure to build the form falls between the claim and the recovery code: nothing else is attempted. */
  lemma FormFailureEndsTheRun(trace: seq<Entry>)
    requires Follow(trace).Some? && exists reply :: reply != Ok && Entry(BuildForm, reply) in trace
    ensures Follow(trace).value.pc == Errored && |trace| == 2 && trace[0] == Entry(Claim, Ok)
  {
    var reply :| reply != Ok && Entry(BuildForm, reply) in trace;
    var j :| 0 <= j < |trace| && trace[j] == Entry(BuildForm, reply);
    FollowPrefix(trace, j);
    AtForm(trace[..j]);
    FollowNext(trace[..j], trace[j]);
    assert trace[..j + 1] == trace[..j] + [trace[j]];
    ErroredIsTheEnd(trace, j + 1);
  }

  lemma ErroredIsTheEnd(trace: seq<Entry>, n: nat)
    requires Follow(trace).Some? && n <= |trace| && Follow(trace[..n]).Some? && Follow(trace[..n]).value.pc == Errored
    ensures n == |trace| && Follow(trace).value.pc == Errored
  {
    if n < |trace| {
      FollowPrefix(trace, n);
    } else {
      assert trace[..n] == trace;
    }
  }

  lemma AtForm(trace: seq<Entry>)
    requires Follow(trace).Some? && Follow(trace).value.pc == To(BuildForm)
    ensures trace == [Entry(Claim, Ok)]
  {
    var front, last := trace[..|trace| - 1], trace[|trace| - 1];
    OnlyClaimLeadsToForm(Follow(front).value, last.reply);
    TraceAccounted(front);
    assert trace == front + [last];
  }

  lemma OnlyClaimLeadsToForm(p: Progress, reply: Reply)
    requires p.pc.To? && After(p, reply).pc == To(BuildForm)
    ensures p.pc == To(Claim) && reply == Ok
  {
  }
}
