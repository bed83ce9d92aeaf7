/** Which observation answers for an environment at a request time, and how a deployment is classified from it. */
module DeploymentCorrelation {
  import opened Outcomes
  import opened StableOrder
  import opened DeploymentObservations
  import EvidenceSanitizer
  import CanonicalForm

  /** The order on observation ids; `localeCompare` in the source, any total order here. */
  ghost predicate TotalOrder(idLeq: (string, string) -> bool) {
    && TotalPreorder(idLeq)
    && forall a, b :: idLeq(a, b) && idLeq(b, a) ==> a == b
  }

  /** The order by code unit is one such order. */
  lemma CodeUnitOrderIsTotal()
    ensures TotalOrder(EvidenceSanitizer.TextLeq)
  {
    forall a, b ensures EvidenceSanitizer.TextLeq(a, b) || EvidenceSanitizer.TextLeq(b, a)
      ensures EvidenceSanitizer.TextLeq(a, b) && EvidenceSanitizer.TextLeq(b, a) ==> a == b
    {
      CanonicalForm.TextTotal(a, b);
    }
    forall a, b, c | EvidenceSanitizer.TextLeq(a, b) && EvidenceSanitizer.TextLeq(b, c)
      ensures EvidenceSanitizer.TextLeq(a, c)
    {
      CanonicalForm.TextTransitive(a, b, c);
    }
  }

  predicate Eligible(p: Payload, environment: string, requestTime: int) {
    p.environment == environment && p.observedAt <= requestTime
  }

  /** Newest first; of equally new ones the greater id first. */
  predicate Precedes(a: Payload, b: Payload, idLeq: (string, string) -> bool) {
    a.observedAt > b.observedAt || (a.observedAt == b.observedAt && idLeq(b.observationId, a.observationId))
  }

  datatype Correlation = NotFound(futureIgnored: nat) | Found(observation: Payload, age: nat, futureIgnored: nat)

  /** The observation selected, whatever was ignored on the way. */
  function Selected(c: Correlation): Option<Payload> {
    if c.Found? then Some(c.observation) else None
  }

  /** `drawn` holds, for each input, the id drawn if it carries none. */
  function BuildAll(inputs: seq<Input>, drawn: seq<string>, rules: Rules): (r: Result<seq<Payload>, Refusal>)
    requires |drawn| == |inputs|
    ensures r.Done? ==> |r.value| == |inputs|
  {
    if inputs == [] then Done([])
    else
      var first :- Build(inputs[0], drawn[0], rules);
      var rest :- BuildAll(inputs[1..], drawn[1..], rules);
      Done([first] + rest)
  }

  function CorrelateBuilt(ps: seq<Payload>, environment: string, requestTime: int, idLeq: (string, string) -> bool):
    Correlation
  {
    var matching := Filter(ps, (p: Payload) => p.environment == environment);
    var eligible := Sort(Filter(matching, (p: Payload) => p.observedAt <= requestTime),
                         (a: Payload, b: Payload) => Precedes(a, b, idLeq));
    var ignored := |matching| - |eligible|;
    if eligible == [] then NotFound(ignored)
    else
      var age := requestTime - eligible[0].observedAt;
      assert eligible[0] in eligible;
      Found(eligible[0], if age < 0 then 0 else age, ignored)
  }

  function Correlate(inputs: seq<Input>, drawn: seq<string>, environment: string, requestTime: int,
                     idLeq: (string, string) -> bool, rules: Rules): Result<Correlation, Refusal>
    requires |drawn| == |inputs|
  {
    if |inputs| > MAX_OBSERVATIONS then Refused(TooMany) else
    var ps :- BuildAll(inputs, drawn, rules);
    Done(CorrelateBuilt(ps, environment, requestTime, idLeq))
  }

  // ---------------------------------------------------------------- the greatest eligible observation

  /** `best` is eligible and no eligible observation is later, or as late with a greater id. */
  ghost predicate IsGreatest(best: Payload, ps: seq<Payload>, environment: string, requestTime: int,
                             idLeq: (string, string) -> bool) {
    && best in ps && best.environment == environment && best.observedAt <= requestTime
    && forall p :: p in ps && p.environment == environment && p.observedAt <= requestTime ==>
         && p.observedAt <= best.observedAt
         && (p.observedAt == best.observedAt ==> idLeq(p.observationId, best.observationId))
  }

  lemma PrecedesIsOrder(idLeq: (string, string) -> bool)
    requires TotalOrder(idLeq)
    ensures TotalPreorder((a: Payload, b: Payload) => Precedes(a, b, idLeq))
  {
  }

  lemma CorrelatedIsGreatest(ps: seq<Payload>, environment: string, requestTime: int,
                             idLeq: (string, string) -> bool)
    requires TotalOrder(idLeq)
    ensures var c := CorrelateBuilt(ps, environment, requestTime, idLeq);
            if c.Found? then
              && IsGreatest(c.observation, ps, environment, requestTime, idLeq)
              && c.age == requestTime - c.observation.observedAt
            else forall p :: p in ps ==> !Eligible(p, environment, requestTime)
  {
    var order := (a: Payload, b: Payload) => Precedes(a, b, idLeq);
    var chosen := Filter(Filter(ps, (p: Payload) => p.environment == environment),
                         (p: Payload) => p.observedAt <= requestTime);
    var eligible := Sort(chosen, order);
    PrecedesIsOrder(idLeq);
    SortSorts(chosen, order);
    assert forall p :: p in eligible <==> p in ps && Eligible(p, environment, requestTime);
    if eligible == [] {
      assert forall p :: p !in eligible;
    } else {
      assert eligible[0] in eligible;
      forall p | p in eligible ensures Precedes(eligible[0], p, idLeq) {
        var j :| 0 <= j < |eligible| && eligible[j] == p;
        assert j > 0 ==> order(eligible[0], eligible[j]);
        assert idLeq(p.observationId, p.observationId);
      }
    }
  }

  lemma {:induction false} FilterSplits<T(!new)>(s: seq<T>, p: T -> bool, rest: T -> bool, outer: T -> bool)
    requires forall x :: rest(x) <==> outer(x) && !p(x)
    ensures |Filter(s, outer)| == |Filter(Filter(s, outer), p)| + |Filter(s, rest)|
  {
    if s != [] {
      FilterSplits(s[1..], p, rest, outer);
      if outer(s[0]) {
        assert Filter(s, outer) == [s[0]] + Filter(s[1..], outer);
        assert ([s[0]] + Filter(s[1..], outer))[1..] == Filter(s[1..], outer);
      }
    }
  }

  /** The count of ignored observations is of those of the environment that are later than the request. */
  lemma IgnoredAreLater(ps: seq<Payload>, environment: string, requestTime: int, idLeq: (string, string) -> bool)
    ensures CorrelateBuilt(ps, environment, requestTime, idLeq).futureIgnored ==
            |Filter(ps, (p: Payload) => p.environment == environment && p.observedAt > requestTime)|
  {
    FilterSplits(ps, (p: Payload) => p.observedAt <= requestTime,
                 (p: Payload) => p.environment == environment && p.observedAt > requestTime,
                 (p: Payload) => p.environment == environment);
  }

  /** A list is built exactly when each of its inputs is, element by element. */
  lemma {:induction false} AllBuilt(inputs: seq<Input>, drawn: seq<string>, rules: Rules)
    requires |drawn| == |inputs|
    ensures BuildAll(inputs, drawn, rules).Done? <==>
            forall i :: 0 <= i < |inputs| ==> Build(inputs[i], drawn[i], rules).Done?
    ensures BuildAll(inputs, drawn, rules).Done? ==>
              forall i :: 0 <= i < |inputs| ==>
                Build(inputs[i], drawn[i], rules) == Done(BuildAll(inputs, drawn, rules).value[i])
  {
    if inputs != [] {
      AllBuilt(inputs[1..], drawn[1..], rules);
      assert Build(inputs[0], drawn[0], rules).Done? && BuildAll(inputs[1..], drawn[1..], rules).Done? ==>
          BuildAll(inputs, drawn, rules).Done?;
      forall i | 1 <= i < |inputs|
        ensures inputs[i] == inputs[1..][i - 1] && drawn[i] == drawn[1..][i - 1]
      {
      }
    }
  }

  /** Correlation is refused exactly for more than 256 observations or one that cannot be built. */
  lemma CorrelatesExactly(inputs: seq<Input>, drawn: seq<string>, environment: string, requestTime: int,
                          idLeq: (string, string) -> bool, rules: Rules)
    requires |drawn| == |inputs|
    ensures Correlate(inputs, drawn, environment, requestTime, idLeq, rules).Done? <==>
            |inputs| <= 256 && forall i :: 0 <= i < |inputs| ==> Build(inputs[i], drawn[i], rules).Done?
  {
    AllBuilt(inputs, drawn, rules);
  }

  ghost predicate DistinctIds(ps: seq<Payload>) {
    forall p, q :: p in ps && q in ps && p.observationId == q.observationId ==> p == q
  }

  /** The two lists hold the same eligible observations. */
  ghost predicate SameEligible(a: seq<Payload>, b: seq<Payload>, environment: string, requestTime: int) {
    forall p :: Eligible(p, environment, requestTime) ==> (p in a <==> p in b)
  }

  /**
   * With distinct ids the selection depends only on which eligible observations there are: not on the order of the
   * list, and not on later observations or those of other environments.
   */
  lemma SelectionIsHistorical(a: seq<Payload>, b: seq<Payload>, environment: string, requestTime: int,
                              idLeq: (string, string) -> bool)
    requires TotalOrder(idLeq) && DistinctIds(a) && SameEligible(a, b, environment, requestTime)
    ensures Selected(CorrelateBuilt(a, environment, requestTime, idLeq)) ==
            Selected(CorrelateBuilt(b, environment, requestTime, idLeq))
  {
    CorrelatedIsGreatest(a, environment, requestTime, idLeq);
    CorrelatedIsGreatest(b, environment, requestTime, idLeq);
    var ca := CorrelateBuilt(a, environment, requestTime, idLeq);
    var cb := CorrelateBuilt(b, environment, requestTime, idLeq);
    if ca.Found? && cb.Found? {
      var x, y := ca.observation, cb.observation;
      assert Eligible(x, environment, requestTime) && Eligible(y, environment, requestTime);
      assert x in b && y in a;
      assert x.observedAt == y.observedAt && idLeq(x.observationId, y.observationId);
    }
  }

  // ---------------------------------------------------------------- over the inputs

  function AllAgain(ps: seq<Payload>, rules: Rules): (r: seq<Input>)
    ensures |r| == |ps|
  {
    if ps == [] then [] else [Again(ps[0], rules)] + AllAgain(ps[1..], rules)
  }

  lemma {:induction false} AllBuildAgain(inputs: seq<Input>, drawn: seq<string>, redrawn: seq<string>, rules: Rules)
    requires |drawn| == |redrawn| == |inputs|
    requires InstantsRoundTrip(rules) && BuildAll(inputs, drawn, rules).Done?
    ensures BuildAll(AllAgain(BuildAll(inputs, drawn, rules).value, rules), redrawn, rules) ==
            BuildAll(inputs, drawn, rules)
  {
    if inputs != [] {
      BuildsAgain(inputs[0], drawn[0], redrawn[0], rules);
      AllBuildAgain(inputs[1..], drawn[1..], redrawn[1..], rules);
      var rest := BuildAll(inputs[1..], drawn[1..], rules).value;
      assert BuildAll(inputs, drawn, rules).value[1..] == rest;
      assert AllAgain(BuildAll(inputs, drawn, rules).value, rules)[1..] == AllAgain(rest, rules);
    }
  }

  /** Correlating stored observations, which are built a second time, is correlating the originals. */
  lemma StoredCorrelatesAlike(inputs: seq<Input>, drawn: seq<string>, redrawn: seq<string>, environment: string,
                              requestTime: int, idLeq: (string, string) -> bool, rules: Rules)
    requires |drawn| == |redrawn| == |inputs|
    requires InstantsRoundTrip(rules) && BuildAll(inputs, drawn, rules).Done?
    ensures var stored := AllAgain(BuildAll(inputs, drawn, rules).value, rules);
            Correlate(stored, redrawn, environment, requestTime, idLeq, rules) ==
            Correlate(inputs, drawn, environment, requestTime, idLeq, rules)
  {
    AllBuildAgain(inputs, drawn, redrawn, rules);
  }

  // ---------------------------------------------------------------- classification

  datatype DeploymentState = Current | Deploying | Stale | Diverged | Unknown

  datatype Reason =
    | ObservationUnavailable | OutsideFreshnessWindow | ContractEvidenceInvalid | LineageMismatch | EnvironmentMismatch
    | ReleaseInProgress | RuntimeOlder | RuntimeNewer | IdentitySequenceConflict | Match | HealthNotPass
    | OrderingUnavailable

  /** Evidence the caller supplies beside the observation. */
  datatype Context = Context(
    inProgress: Option<bool>, lineageMatch: Option<bool>, environmentMatch: Option<bool>,
    expectedSequence: Option<int>, deployedSequence: Option<int>)

  predicate ReleasesMatch(expected: Option<Release>, deployed: Option<Release>) {
    && expected.Some? && deployed.Some?
    && if expected.value.commitSha.Some? && deployed.value.commitSha.Some?
       then expected.value.commitSha == deployed.value.commitSha
       else expected.value.releaseId.Some? && expected.value.releaseId == deployed.value.releaseId
  }

  function Classify(c: Correlation, freshness: nat, x: Context): (DeploymentState, Reason) {
    if c.NotFound? then (Unknown, ObservationUnavailable)
    else if c.age > freshness then (Unknown, OutsideFreshnessWindow)
    else if c.observation.contract.None? || c.observation.contract.value.status != "pass"
      then (Unknown, ContractEvidenceInvalid)
    else if x.lineageMatch == Some(false) then (Diverged, LineageMismatch)
    else if x.environmentMatch == Some(false) then (Diverged, EnvironmentMismatch)
    else
      var exact := ReleasesMatch(c.observation.expectedRelease, c.observation.deployedRelease);
      if x.inProgress == Some(true) && !exact then (Deploying, ReleaseInProgress)
      else if x.expectedSequence.Some? && x.deployedSequence.Some? &&
              x.deployedSequence.value < x.expectedSequence.value then (Stale, RuntimeOlder)
      else if x.expectedSequence.Some? && x.deployedSequence.Some? &&
              x.deployedSequence.value > x.expectedSequence.value then (Diverged, RuntimeNewer)
      else if x.expectedSequence.Some? && x.deployedSequence.Some? && !exact then (Diverged, IdentitySequenceConflict)
      else if exact then
        if c.observation.health.Some? && c.observation.health.value.value == "pass" then (Current, Match)
        else (Unknown, HealthNotPass)
      else (Unknown, OrderingUnavailable)
  }

  /** Fresh evidence with a passing contract. */
  predicate Usable(c: Correlation, freshness: nat) {
    && c.Found? && c.age <= freshness
    && c.observation.contract.Some? && c.observation.contract.value.status == "pass"
  }

  predicate ForeignRuntime(x: Context) {
    x.lineageMatch == Some(false) || x.environmentMatch == Some(false)
  }

  /** Order of the runtime against what is expected, when both sequence numbers are known: negative when behind. */
  function Lead(x: Context): Option<int> {
    if x.expectedSequence.Some? && x.deployedSequence.Some?
    then Some(x.deployedSequence.value - x.expectedSequence.value) else None
  }

  /** What each state says about the evidence. */
  lemma StatesMean(c: Correlation, freshness: nat, x: Context)
    ensures var state := Classify(c, freshness, x).0;
            var usable := Usable(c, freshness);
            var home := usable && !ForeignRuntime(x);
            var exact := usable && ReleasesMatch(c.observation.expectedRelease, c.observation.deployedRelease);
            var moving := home && x.inProgress == Some(true) && !exact;
            && (state == Deploying <==> moving)
            && (state == Stale <==> home && !moving && Lead(x).Some? && Lead(x).value < 0)
            && (state == Diverged <==>
                  || (usable && ForeignRuntime(x))
                  || (home && !moving && Lead(x).Some? && (Lead(x).value > 0 || (Lead(x).value == 0 && !exact))))
            && (state == Unknown ==> !usable || (home && (!exact || c.observation.health.None? ||
                                                          c.observation.health.value.value != "pass")))
  {
  }

  /** Two known commit hashes decide alone; otherwise only two equal release ids match. */
  lemma MatchMeans(expected: Option<Release>, deployed: Option<Release>)
    ensures ReleasesMatch(expected, deployed) ==> expected.Some? && deployed.Some?
    ensures expected.Some? && deployed.Some? && expected.value.commitSha.Some? && deployed.value.commitSha.Some? ==>
              (ReleasesMatch(expected, deployed) <==> expected.value.commitSha.value == deployed.value.commitSha.value)
    ensures expected.Some? && deployed.Some? && (expected.value.commitSha.None? || deployed.value.commitSha.None?) ==>
              (ReleasesMatch(expected, deployed) <==>
                 && expected.value.releaseId.Some? && deployed.value.releaseId.Some?
                 && expected.value.releaseId.value == deployed.value.releaseId.value)
  {
  }

  /** The state a reason is given for. */
  function StateFor(reason: Reason): DeploymentState {
    match reason
    case Match => Current
    case ReleaseInProgress => Deploying
    case RuntimeOlder => Stale
    case LineageMismatch => Diverged
    case EnvironmentMismatch => Diverged
    case RuntimeNewer => Diverged
    case IdentitySequenceConflict => Diverged
    case _ => Unknown
  }

  /** Each of the twelve reasons is given on exactly one kind of evidence, and decides the state. */
  lemma ReasonsMean(c: Correlation, freshness: nat, x: Context)
    ensures var (state, reason) := Classify(c, freshness, x);
            var home := Usable(c, freshness) && !ForeignRuntime(x);
            var exact := home && ReleasesMatch(c.observation.expectedRelease, c.observation.deployedRelease);
            var moving := home && x.inProgress == Some(true) && !exact;
            var level := Lead(x).None? || Lead(x).value == 0;
            var healthy := home && c.observation.health.Some? && c.observation.health.value.value == "pass";
            && state == StateFor(reason)
            && (reason == ObservationUnavailable <==> c.NotFound?)
            && (reason == OutsideFreshnessWindow <==> c.Found? && c.age > freshness)
            && (reason == ContractEvidenceInvalid <==> c.Found? && c.age <= freshness && !Usable(c, freshness))
            && (reason == LineageMismatch <==> Usable(c, freshness) && x.lineageMatch == Some(false))
            && (reason == EnvironmentMismatch <==>
                  Usable(c, freshness) && x.lineageMatch != Some(false) && x.environmentMatch == Some(false))
            && (reason == ReleaseInProgress <==> moving)
            && (reason == RuntimeOlder <==> home && !moving && !level && Lead(x).value < 0)
            && (reason == RuntimeNewer <==> home && !moving && !level && Lead(x).value > 0)
            && (reason == IdentitySequenceConflict <==> home && !moving && Lead(x) == Some(0) && !exact)
            && (reason == Match <==> exact && level && healthy)
            && (reason == HealthNotPass <==> exact && level && !healthy)
            && (reason == OrderingUnavailable <==> home && !moving && Lead(x).None? && !exact)
  {
  }

  lemma ClassifiesBySelection(ca: Correlation, cb: Correlation, freshness: nat, x: Context)
    requires Selected(ca) == Selected(cb) && (ca.Found? && cb.Found? ==> ca.age == cb.age)
    ensures Classify(ca, freshness, x) == Classify(cb, freshness, x)
  {
  }

  lemma BuiltClassificationIsHistorical(a: seq<Payload>, b: seq<Payload>, environment: string, requestTime: int,
                                        idLeq: (string, string) -> bool, freshness: nat, x: Context)
    requires TotalOrder(idLeq) && DistinctIds(a) && SameEligible(a, b, environment, requestTime)
    ensures Classify(CorrelateBuilt(a, environment, requestTime, idLeq), freshness, x) ==
            Classify(CorrelateBuilt(b, environment, requestTime, idLeq), freshness, x)
  {
    SelectionIsHistorical(a, b, environment, requestTime, idLeq);
    CorrelatedIsGreatest(a, environment, requestTime, idLeq);
    CorrelatedIsGreatest(b, environment, requestTime, idLeq);
    ClassifiesBySelection(CorrelateBuilt(a, environment, requestTime, idLeq),
                          CorrelateBuilt(b, environment, requestTime, idLeq), freshness, x);
  }

  /**
   * Reordering the stored observations, or adding any that are later than the request or of another environment,
   * leaves the classification as it was, as long as the list stays within its limit.
   */
  lemma ClassificationIsHistorical(a: seq<Input>, drawnA: seq<string>, b: seq<Input>, drawnB: seq<string>,
                                   environment: string, requestTime: int, idLeq: (string, string) -> bool,
                                   rules: Rules, freshness: nat, x: Context)
    requires TotalOrder(idLeq) && |drawnA| == |a| <= MAX_OBSERVATIONS && |drawnB| == |b| <= MAX_OBSERVATIONS
    requires BuildAll(a, drawnA, rules).Done? && BuildAll(b, drawnB, rules).Done?
    requires DistinctIds(BuildAll(a, drawnA, rules).value)
    requires SameEligible(BuildAll(a, drawnA, rules).value, BuildAll(b, drawnB, rules).value, environment, requestTime)
    ensures var ca := Correlate(a, drawnA, environment, requestTime, idLeq, rules);
            var cb := Correlate(b, drawnB, environment, requestTime, idLeq, rules);
            ca.Done? && cb.Done? && Classify(ca.value, freshness, x) == Classify(cb.value, freshness, x)
  {
    BuiltClassificationIsHistorical(BuildAll(a, drawnA, rules).value, BuildAll(b, drawnB, rules).value, environment,
                                    requestTime, idLeq, freshness, x);
  }

  /** A deployment is current exactly on fresh passing evidence for the expected release, with nothing against it. */
  lemma CurrentMeans(ps: seq<Payload>, environment: string, requestTime: int, idLeq: (string, string) -> bool,
                     freshness: nat, x: Context)
    requires TotalOrder(idLeq) && DistinctIds(ps)
    ensures Classify(CorrelateBuilt(ps, environment, requestTime, idLeq), freshness, x).0 == Current <==>
            exists p :: IsGreatest(p, ps, environment, requestTime, idLeq)
                        && requestTime - freshness <= p.observedAt
                        && p.contract.Some? && p.contract.value.status == "pass"
                        && p.health.Some? && p.health.value.value == "pass"
                        && ReleasesMatch(p.expectedRelease, p.deployedRelease)
                        && x.lineageMatch != Some(false) && x.environmentMatch != Some(false)
                        && (x.expectedSequence.Some? && x.deployedSequence.Some? ==>
                              x.expectedSequence == x.deployedSequence)
  {
    CorrelatedIsGreatest(ps, environment, requestTime, idLeq);
    var c := CorrelateBuilt(ps, environment, requestTime, idLeq);
    forall p | IsGreatest(p, ps, environment, requestTime, idLeq) ensures c.Found? && p == c.observation {
      assert Eligible(p, environment, requestTime);
      assert c.Found? ==> p.observedAt == c.observation.observedAt;
    }
    if c.Found? {
      assert IsGreatest(c.observation, ps, environment, requestTime, idLeq);
    }
  }
}
