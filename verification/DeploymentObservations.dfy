/** Deployment observations: building them from caller input, and which one answers for a request time. */
module DeploymentObservations {
  import opened Outcomes
  import opened TextRules
  import opened EvidenceSanitizer
  import CanonicalForm

  /**
   * What is not spelled out here: which strings are UUIDs, governed references and sensitive keys, how instants are
   * read and written, and how large a payload is when serialised.
   */
  datatype Rules = Rules(
    isUuid: string -> bool, isReference: string -> bool, secret: string -> bool,
    readInstant: string -> Option<int>, writeInstant: int -> string, size: Payload -> nat)

  const DATE_LIMIT := 8_640_000_000_000_000

  /** Milliseconds that a date object can hold. */
  predicate InDateRange(t: int) {
    -DATE_LIMIT <= t <= DATE_LIMIT
  }

  /** Every instant of the date range is read back as written, and only such instants are ever read. */
  ghost predicate InstantsRoundTrip(rules: Rules) {
    && (forall t :: InDateRange(t) ==>
          && rules.readInstant(rules.writeInstant(t)) == Some(t)
          && Trimmed(rules.writeInstant(t))
          && 0 < |rules.writeInstant(t)| <= 64)
    && (forall s :: rules.readInstant(s).Some? ==> InDateRange(rules.readInstant(s).value))
  }

  /** Caller input; the empty string stands for an absent field. */
  datatype Slot<T> = Absent | NotAnObject | Given(input: T)
  datatype ReleaseInput = ReleaseInput(
    commitSha: string, releaseId: string, sourceType: string, sourceRef: string, observedAt: string, deployedAt: string)
  datatype StatusInput = StatusInput(value: string, sourceType: string, sourceRef: string, observedAt: string)
  datatype ContractInput = ContractInput(
    version: string, status: string, sourceType: string, sourceRef: string, observedAt: string)
  datatype Input = Input(
    observationId: string, environment: string, observedAt: string, expectedRelease: Slot<ReleaseInput>,
    deployedRelease: Slot<ReleaseInput>, health: Slot<StatusInput>, contract: Slot<ContractInput>,
    migration: Slot<StatusInput>, metadata: Json)

  /** Built evidence; instants are milliseconds. */
  datatype Release = Release(
    commitSha: Option<string>, releaseId: Option<string>, sourceType: string, sourceRef: string, observedAt: int,
    deployedAt: Option<int>)
  datatype Status = Status(value: string, sourceType: string, sourceRef: string, observedAt: int)
  datatype Contract = Contract(
    version: Option<string>, status: string, sourceType: string, sourceRef: string, observedAt: int)
  datatype Missing = MissingExpectedRelease | MissingDeployedRelease | MissingHealth | MissingContract
  datatype Payload = Payload(
    observationId: string, environment: string, observedAt: int, expectedRelease: Option<Release>,
    deployedRelease: Option<Release>, health: Option<Status>, contract: Option<Contract>, migration: Option<Status>,
    metadata: Json, missing: seq<Missing>)

  datatype Refusal =
    | FieldRequired | FieldTooLong | FieldInvalid | EvidenceInvalid | AfterObservation | TooLarge | TooMany

  const EVIDENCE_STATES: seq<string> := ["pass", "warn", "fail", "unknown", "not_observed"]
  const MAX_BYTES := 32768
  const MAX_OBSERVATIONS := 256

  // ---------------------------------------------------------------- field normalisers

  function TextField(value: string, max: nat): Result<Option<string>, Refusal> {
    var t := Trim(value);
    if t == "" then Done(None) else if |t| > max then Refused(FieldTooLong) else Done(Some(t))
  }

  function RequiredField(value: string, max: nat): Result<string, Refusal> {
    var t :- TextField(value, max);
    if t.None? then Refused(FieldRequired) else Done(t.value)
  }

  function KeyField(value: string): Result<string, Refusal> {
    var t := Lower(Trim(value));
    if IsKey(t) then Done(t) else Refused(FieldInvalid)
  }

  function ShaField(value: string): Result<Option<string>, Refusal> {
    var t :- TextField(value, 40);
    if t.None? then Done(None) else if IsSha(t.value) then Done(Some(Lower(t.value))) else Refused(FieldInvalid)
  }

  function UuidField(value: string, rules: Rules): Result<string, Refusal> {
    var t :- RequiredField(value, 36);
    if rules.isUuid(t) then Done(t) else Refused(FieldInvalid)
  }

  function ReferenceField(value: string, rules: Rules): Result<string, Refusal> {
    var t :- RequiredField(value, 240);
    if rules.isReference(t) then Done(t) else Refused(FieldInvalid)
  }

  function InstantField(value: string, rules: Rules): Result<int, Refusal> {
    var t :- RequiredField(value, 64);
    var instant := rules.readInstant(t);
    if instant.Some? then Done(instant.value) else Refused(FieldInvalid)
  }

  function OptionalInstantField(value: string, rules: Rules): Result<Option<int>, Refusal> {
    var t :- TextField(value, 64);
    if t.None? then Done(None) else
    var instant := rules.readInstant(t.value);
    if instant.Some? then Done(instant) else Refused(FieldInvalid)
  }

  function StateField(value: string): Result<string, Refusal> {
    var t :- KeyField(if value == "" then "not_observed" else value);
    if t in EVIDENCE_STATES then Done(t) else Refused(FieldInvalid)
  }

  // ---------------------------------------------------------------- building

  /** What building applies to each kind of field, whatever it is. */
  datatype Normalisers = Normalisers(
    text: (string, nat) -> Result<Option<string>, Refusal>,
    key: string -> Result<string, Refusal>,
    state: string -> Result<string, Refusal>,
    sha: string -> Result<Option<string>, Refusal>,
    uuid: string -> Result<string, Refusal>,
    reference: string -> Result<string, Refusal>,
    instant: string -> Result<int, Refusal>,
    optionalInstant: string -> Result<Option<int>, Refusal>,
    writeInstant: int -> string,
    metadata: Json -> Json,
    size: Payload -> nat)

  function Standard(rules: Rules): Normalisers {
    Normalisers(
      TextField, KeyField, StateField, ShaField,
      v => UuidField(v, rules), v => ReferenceField(v, rules), v => InstantField(v, rules),
      v => OptionalInstantField(v, rules), rules.writeInstant, m => KeptMetadata(m, rules), rules.size)
  }

  function KeptMetadata(metadata: Json, rules: Rules): Json {
    Sanitize(if CanonicalForm.Falsy(metadata) then Obj([]) else metadata, 0, METADATA_LIMITS, rules.secret)
  }

  function BuildRelease(slot: Slot<ReleaseInput>, n: Normalisers): Result<Option<Release>, Refusal> {
    match slot
    case Absent => Done(None)
    case NotAnObject => Refused(EvidenceInvalid)
    case Given(i) =>
      var commitSha :- n.sha(i.commitSha);
      var releaseId :- n.text(i.releaseId, 160);
      if commitSha.None? && releaseId.None? then Done(None) else
      var sourceType :- n.key(i.sourceType);
      var sourceRef :- n.reference(i.sourceRef);
      var observedAt :- n.instant(i.observedAt);
      var deployedAt :- n.optionalInstant(i.deployedAt);
      Done(Some(Release(commitSha, releaseId, sourceType, sourceRef, observedAt, deployedAt)))
  }

  function BuildStatus(slot: Slot<StatusInput>, n: Normalisers): Result<Option<Status>, Refusal> {
    match slot
    case Absent => Done(None)
    case NotAnObject => Refused(EvidenceInvalid)
    case Given(i) =>
      var value :- n.state(i.value);
      var sourceType :- n.key(i.sourceType);
      var sourceRef :- n.reference(i.sourceRef);
      var observedAt :- n.instant(i.observedAt);
      Done(Some(Status(value, sourceType, sourceRef, observedAt)))
  }

  function BuildContract(slot: Slot<ContractInput>, n: Normalisers): Result<Option<Contract>, Refusal> {
    match slot
    case Absent => Done(None)
    case NotAnObject => Refused(EvidenceInvalid)
    case Given(i) =>
      var version :- n.text(i.version, 160);
      var status :- n.state(i.status);
      var sourceType :- n.key(i.sourceType);
      var sourceRef :- n.reference(i.sourceRef);
      var observedAt :- n.instant(i.observedAt);
      Done(Some(Contract(version, status, sourceType, sourceRef, observedAt)))
  }

  /** No evidence is later than the observation, and no release was deployed after it was observed. */
  predicate OnTime(p: Payload) {
    && (p.expectedRelease.Some? ==> p.expectedRelease.value.observedAt <= p.observedAt)
    && (p.deployedRelease.Some? ==> p.deployedRelease.value.observedAt <= p.observedAt)
    && (p.health.Some? ==> p.health.value.observedAt <= p.observedAt)
    && (p.contract.Some? ==> p.contract.value.observedAt <= p.observedAt)
    && (p.migration.Some? ==> p.migration.value.observedAt <= p.observedAt)
    && (p.deployedRelease.Some? && p.deployedRelease.value.deployedAt.Some? ==>
          p.deployedRelease.value.deployedAt.value <= p.deployedRelease.value.observedAt)
  }

  /** What is missing, in the order it is reported. */
  function MissingEvidence(p: Payload): seq<Missing> {
    (if p.expectedRelease.None? || p.expectedRelease.value.commitSha.None? then [MissingExpectedRelease] else []) +
    (if p.deployedRelease.None? then [MissingDeployedRelease] else []) +
    (if p.health.None? || p.health.value.value == "not_observed" then [MissingHealth] else []) +
    (if p.contract.None? || p.contract.value.version.None? || p.contract.value.status == "not_observed"
     then [MissingContract] else [])
  }

  /** `freshId` is drawn when the input carries no id. */
  function BuildWith(i: Input, freshId: string, n: Normalisers): Result<Payload, Refusal> {
    var id :- n.uuid(if i.observationId == "" then freshId else i.observationId);
    var environment :- n.key(i.environment);
    var observedAt :- n.instant(i.observedAt);
    var expected :- BuildRelease(i.expectedRelease, n);
    var deployed :- BuildRelease(i.deployedRelease, n);
    var health :- BuildStatus(i.health, n);
    var contract :- BuildContract(i.contract, n);
    var migration :- BuildStatus(i.migration, n);
    Finish(Payload(id, environment, observedAt, expected, deployed, health, contract, migration,
                   n.metadata(i.metadata), []), n)
  }

  function Finish(draft: Payload, n: Normalisers): Result<Payload, Refusal> {
    if !OnTime(draft) then Refused(AfterObservation) else
    var p := draft.(missing := MissingEvidence(draft));
    if n.size(p) > MAX_BYTES then Refused(TooLarge) else Done(p)
  }

  function Build(i: Input, freshId: string, rules: Rules): Result<Payload, Refusal> {
    BuildWith(i, freshId, Standard(rules))
  }

  /** The list of missing evidence as the builder collects it. */
  method CollectMissing(p: Payload) returns (missing: seq<Missing>)
    ensures missing == MissingEvidence(p)
    ensures missing == [] <==>
            && p.expectedRelease.Some? && p.expectedRelease.value.commitSha.Some?
            && p.deployedRelease.Some?
            && p.health.Some? && p.health.value.value != "not_observed"
            && p.contract.Some? && p.contract.value.version.Some? && p.contract.value.status != "not_observed"
    ensures MissingExpectedRelease in missing <==> p.expectedRelease.None? || p.expectedRelease.value.commitSha.None?
    ensures MissingDeployedRelease in missing <==> p.deployedRelease.None?
    ensures MissingHealth in missing <==> p.health.None? || p.health.value.value == "not_observed"
    ensures MissingContract in missing <==>
            p.contract.None? || p.contract.value.version.None? || p.contract.value.status == "not_observed"
  {
    missing := [];
    if p.expectedRelease.None? || p.expectedRelease.value.commitSha.None? {
      missing := missing + [MissingExpectedRelease];
    }
    if p.deployedRelease.None? {
      missing := missing + [MissingDeployedRelease];
    }
    if p.health.None? || p.health.value.value == "not_observed" {
      missing := missing + [MissingHealth];
    }
    if p.contract.None? || p.contract.value.version.None? || p.contract.value.status == "not_observed" {
      missing := missing + [MissingContract];
    }
  }

  // ---------------------------------------------------------------- what a built observation says of its input

  /** An optional text: trimmed, absent when blank. */
  predicate IsText(value: string, max: nat, o: Option<string>) {
    |Trim(value)| <= max && o == if Trim(value) == "" then None else Some(Trim(value))
  }

  predicate IsKeyOf(value: string, key: string) {
    key == Lower(Trim(value)) && IsKey(key)
  }

  predicate IsStateOf(value: string, state: string) {
    && state in {"pass", "warn", "fail", "unknown", "not_observed"}
    && state == if value == "" then "not_observed" else Lower(Trim(value))
  }

  predicate IsReferenceOf(value: string, ref: string, rules: Rules) {
    ref == Trim(value) && 0 < |ref| <= 240 && rules.isReference(ref)
  }

  predicate IsInstantOf(value: string, instant: int, rules: Rules) {
    0 < |Trim(value)| <= 64 && rules.readInstant(Trim(value)) == Some(instant)
  }

  predicate IsShaOf(value: string, o: Option<string>) {
    if Trim(value) == "" then o.None? else IsSha(Trim(value)) && o == Some(Lower(Trim(value)))
  }

  predicate IsUuidOf(value: string, id: string, rules: Rules) {
    id == Trim(value) && 0 < |id| <= 36 && rules.isUuid(id)
  }

  predicate IsOptionalInstantOf(value: string, o: Option<int>, rules: Rules) {
    if Trim(value) == "" then o.None? else o.Some? && IsInstantOf(value, o.value, rules)
  }

  /** A release slot built: nothing when it names neither commit nor release, else each field from its own input. */
  predicate ReleaseIs(slot: Slot<ReleaseInput>, o: Option<Release>, rules: Rules) {
    match slot
    case Absent => o.None?
    case NotAnObject => false
    case Given(i) =>
      if Trim(i.commitSha) == "" && Trim(i.releaseId) == "" then o.None?
      else
        && o.Some?
        && var r := o.value;
           && IsShaOf(i.commitSha, r.commitSha)
           && IsText(i.releaseId, 160, r.releaseId)
           && IsKeyOf(i.sourceType, r.sourceType)
           && IsReferenceOf(i.sourceRef, r.sourceRef, rules)
           && IsInstantOf(i.observedAt, r.observedAt, rules)
           && IsOptionalInstantOf(i.deployedAt, r.deployedAt, rules)
  }

  predicate StatusIs(slot: Slot<StatusInput>, o: Option<Status>, rules: Rules) {
    match slot
    case Absent => o.None?
    case NotAnObject => false
    case Given(i) =>
      && o.Some?
      && IsStateOf(i.value, o.value.value)
      && IsKeyOf(i.sourceType, o.value.sourceType)
      && IsReferenceOf(i.sourceRef, o.value.sourceRef, rules)
      && IsInstantOf(i.observedAt, o.value.observedAt, rules)
  }

  predicate ContractIs(slot: Slot<ContractInput>, o: Option<Contract>, rules: Rules) {
    match slot
    case Absent => o.None?
    case NotAnObject => false
    case Given(i) =>
      && o.Some?
      && IsText(i.version, 160, o.value.version)
      && IsStateOf(i.status, o.value.status)
      && IsKeyOf(i.sourceType, o.value.sourceType)
      && IsReferenceOf(i.sourceRef, o.value.sourceRef, rules)
      && IsInstantOf(i.observedAt, o.value.observedAt, rules)
  }

  /** Every part of the payload comes from its own part of the input. */
  predicate FieldsAre(i: Input, freshId: string, rules: Rules, p: Payload) {
    && IsUuidOf(if i.observationId == "" then freshId else i.observationId, p.observationId, rules)
    && IsKeyOf(i.environment, p.environment)
    && IsInstantOf(i.observedAt, p.observedAt, rules)
    && ReleaseIs(i.expectedRelease, p.expectedRelease, rules)
    && ReleaseIs(i.deployedRelease, p.deployedRelease, rules)
    && StatusIs(i.health, p.health, rules)
    && ContractIs(i.contract, p.contract, rules)
    && StatusIs(i.migration, p.migration, rules)
    && p.metadata == KeptMetadata(i.metadata, rules)
  }

  /** Nothing observed later than the observation, and nothing deployed after it was observed. */
  predicate TimesAgree(p: Payload) {
    && (forall r :: r in {p.expectedRelease, p.deployedRelease} && r.Some? ==> r.value.observedAt <= p.observedAt)
    && (forall s :: s in {p.health, p.migration} && s.Some? ==> s.value.observedAt <= p.observedAt)
    && (p.contract.Some? ==> p.contract.value.observedAt <= p.observedAt)
    && (p.deployedRelease.Some? && p.deployedRelease.value.deployedAt.Some? ==>
          p.deployedRelease.value.deployedAt.value <= p.deployedRelease.value.observedAt)
  }

  /** What each normaliser accepts, and as what. */
  ghost predicate Means(n: Normalisers, rules: Rules) {
    && (forall v, m, o :: n.text(v, m) == Done(o) <==> IsText(v, m, o))
    && (forall v, x :: n.key(v) == Done(x) <==> IsKeyOf(v, x))
    && (forall v, x :: n.state(v) == Done(x) <==> IsStateOf(v, x))
    && (forall v, o :: n.sha(v) == Done(o) <==> IsShaOf(v, o))
    && (forall v, x :: n.uuid(v) == Done(x) <==> IsUuidOf(v, x, rules))
    && (forall v, x :: n.reference(v) == Done(x) <==> IsReferenceOf(v, x, rules))
    && (forall v, x :: n.instant(v) == Done(x) <==> IsInstantOf(v, x, rules))
    && (forall v, o :: n.optionalInstant(v) == Done(o) <==> IsOptionalInstantOf(v, o, rules))
    && (forall m :: n.metadata(m) == KeptMetadata(m, rules))
    && (forall p :: n.size(p) == rules.size(p))
  }

  lemma TextMeans(v: string, m: nat, o: Option<string>)
    ensures TextField(v, m) == Done(o) <==> IsText(v, m, o)
  {
  }

  lemma ShaMeans(v: string, o: Option<string>)
    ensures ShaField(v) == Done(o) <==> IsShaOf(v, o)
  {
  }

  lemma StateMeans(v: string, x: string)
    ensures StateField(v) == Done(x) <==> IsStateOf(v, x)
  {
    EveryStateIsAKey();
  }

  lemma EveryStateIsAKey()
    ensures forall x :: x in {"pass", "warn", "fail", "unknown", "not_observed"} ==> IsKey(x)
    ensures Lower(Trim("not_observed")) == "not_observed"
  {
    TrimmedStays("not_observed");
    assert Lower("not_observed") == "not_observed";
  }

  lemma ReferenceMeans(v: string, x: string, rules: Rules)
    ensures UuidField(v, rules) == Done(x) <==> IsUuidOf(v, x, rules)
    ensures ReferenceField(v, rules) == Done(x) <==> IsReferenceOf(v, x, rules)
  {
  }

  lemma InstantMeans(v: string, x: int, rules: Rules)
    ensures InstantField(v, rules) == Done(x) <==> IsInstantOf(v, x, rules)
  {
  }

  lemma OptionalInstantMeans(v: string, o: Option<int>, rules: Rules)
    ensures OptionalInstantField(v, rules) == Done(o) <==> IsOptionalInstantOf(v, o, rules)
  {
  }

  lemma StandardMeans(rules: Rules)
    ensures Means(Standard(rules), rules)
  {
    forall v, m, o ensures TextField(v, m) == Done(o) <==> IsText(v, m, o) { TextMeans(v, m, o); }
    forall v, x ensures StateField(v) == Done(x) <==> IsStateOf(v, x) { StateMeans(v, x); }
    forall v, o ensures ShaField(v) == Done(o) <==> IsShaOf(v, o) { ShaMeans(v, o); }
    forall v, x ensures UuidField(v, rules) == Done(x) <==> IsUuidOf(v, x, rules) { ReferenceMeans(v, x, rules); }
    forall v, x ensures ReferenceField(v, rules) == Done(x) <==> IsReferenceOf(v, x, rules) {
      ReferenceMeans(v, x, rules);
    }
    forall v, x ensures InstantField(v, rules) == Done(x) <==> IsInstantOf(v, x, rules) { InstantMeans(v, x, rules); }
    forall v, o ensures OptionalInstantField(v, rules) == Done(o) <==> IsOptionalInstantOf(v, o, rules) {
      OptionalInstantMeans(v, o, rules);
    }
  }

  lemma NoReleaseBuilt(i: ReleaseInput, n: Normalisers, rules: Rules)
    requires Means(n, rules)
    ensures BuildRelease(Given(i), n) == Done(None) <==> ReleaseIs(Given(i), None, rules)
  {
    assert n.sha(i.commitSha) == Done(None) <==> IsShaOf(i.commitSha, None);
    assert n.text(i.releaseId, 160) == Done(None) <==> IsText(i.releaseId, 160, None);
  }

  lemma SomeReleaseBuilt(i: ReleaseInput, r: Release, n: Normalisers, rules: Rules)
    requires Means(n, rules)
    ensures BuildRelease(Given(i), n) == Done(Some(r)) <==> ReleaseIs(Given(i), Some(r), rules)
  {
    assert n.sha(i.commitSha) == Done(r.commitSha) <==> IsShaOf(i.commitSha, r.commitSha);
    assert n.text(i.releaseId, 160) == Done(r.releaseId) <==> IsText(i.releaseId, 160, r.releaseId);
    assert r.commitSha.None? && r.releaseId.None? && IsShaOf(i.commitSha, None) && IsText(i.releaseId, 160, None) ==>
        Trim(i.commitSha) == "" && Trim(i.releaseId) == "";
  }

  lemma ReleaseBuilt(slot: Slot<ReleaseInput>, o: Option<Release>, n: Normalisers, rules: Rules)
    requires Means(n, rules)
    ensures BuildRelease(slot, n) == Done(o) <==> ReleaseIs(slot, o, rules)
  {
    match slot
    case Given(i) =>
      if o.None? {
        NoReleaseBuilt(i, n, rules);
      } else {
        SomeReleaseBuilt(i, o.value, n, rules);
      }
    case _ =>
  }

  lemma StatusBuilt(slot: Slot<StatusInput>, o: Option<Status>, n: Normalisers, rules: Rules)
    requires Means(n, rules)
    ensures BuildStatus(slot, n) == Done(o) <==> StatusIs(slot, o, rules)
  {
  }

  lemma ContractBuilt(slot: Slot<ContractInput>, o: Option<Contract>, n: Normalisers, rules: Rules)
    requires Means(n, rules)
    ensures BuildContract(slot, n) == Done(o) <==> ContractIs(slot, o, rules)
  {
  }

  lemma FinishIs(draft: Payload, n: Normalisers, p: Payload)
    requires draft.missing == []
    ensures Finish(draft, n) == Done(p) <==>
            && p.(missing := []) == draft && TimesAgree(p) && p.missing == MissingEvidence(p) && n.size(p) <= 32768
  {
    assert OnTime(draft) <==> TimesAgree(draft);
    assert MissingEvidence(draft) == MissingEvidence(p.(missing := [])) || p.(missing := []) != draft;
  }

  /** Building stops at the first part that is refused; past the last one it finishes the draft. */
  lemma BuiltFromParts(i: Input, freshId: string, n: Normalisers, rules: Rules, p: Payload)
    requires Means(n, rules)
    ensures var draft := p.(missing := []);
            if FieldsAre(i, freshId, rules, p) then BuildWith(i, freshId, n) == Finish(draft, n)
            else BuildWith(i, freshId, n) != Done(p)
  {
    ReleaseBuilt(i.expectedRelease, p.expectedRelease, n, rules);
    ReleaseBuilt(i.deployedRelease, p.deployedRelease, n, rules);
    StatusBuilt(i.health, p.health, n, rules);
    ContractBuilt(i.contract, p.contract, n, rules);
    StatusBuilt(i.migration, p.migration, n, rules);
  }

  /** An input is accepted as `p` exactly when each field of `p` says what its own input field says. */
  lemma BuildIs(i: Input, freshId: string, rules: Rules, p: Payload)
    ensures Build(i, freshId, rules) == Done(p) <==>
            && FieldsAre(i, freshId, rules, p) && TimesAgree(p)
            && p.missing == MissingEvidence(p) && rules.size(p) <= 32768
  {
    StandardMeans(rules);
    BuiltFromParts(i, freshId, Standard(rules), rules, p);
    FinishIs(p.(missing := []), Standard(rules), p);
  }

  // ---------------------------------------------------------------- a built observation, offered as input again

  function Shown(o: Option<string>): string {
    if o.Some? then o.value else ""
  }

  function Written(o: Option<int>, n: Normalisers): string {
    if o.Some? then n.writeInstant(o.value) else ""
  }

  function ReleaseAgain(o: Option<Release>, n: Normalisers): Slot<ReleaseInput> {
    if o.None? then Absent
    else
      var r := o.value;
      Given(ReleaseInput(Shown(r.commitSha), Shown(r.releaseId), r.sourceType, r.sourceRef,
                         n.writeInstant(r.observedAt), Written(r.deployedAt, n)))
  }

  function StatusAgain(o: Option<Status>, n: Normalisers): Slot<StatusInput> {
    if o.None? then Absent
    else Given(StatusInput(o.value.value, o.value.sourceType, o.value.sourceRef, n.writeInstant(o.value.observedAt)))
  }

  function ContractAgain(o: Option<Contract>, n: Normalisers): Slot<ContractInput> {
    if o.None? then Absent
    else Given(ContractInput(Shown(o.value.version), o.value.status, o.value.sourceType, o.value.sourceRef,
                             n.writeInstant(o.value.observedAt)))
  }

  function AgainWith(p: Payload, n: Normalisers): Input {
    Input(p.observationId, p.environment, n.writeInstant(p.observedAt), ReleaseAgain(p.expectedRelease, n),
          ReleaseAgain(p.deployedRelease, n), StatusAgain(p.health, n), ContractAgain(p.contract, n),
          StatusAgain(p.migration, n), p.metadata)
  }

  function Again(p: Payload, rules: Rules): Input {
    AgainWith(p, Standard(rules))
  }

  /** Every normaliser returns what it accepted unchanged. */
  ghost predicate Settled(n: Normalisers) {
    && (forall v, m :: n.text(v, m).Done? ==> n.text(Shown(n.text(v, m).value), m) == n.text(v, m))
    && (forall v :: n.key(v).Done? ==> n.key(n.key(v).value) == n.key(v))
    && (forall v :: n.state(v).Done? ==> n.state(n.state(v).value) == n.state(v))
    && (forall v :: n.sha(v).Done? ==> n.sha(Shown(n.sha(v).value)) == n.sha(v))
    && (forall v :: n.uuid(v).Done? ==> n.uuid(v).value != "" && n.uuid(n.uuid(v).value) == n.uuid(v))
    && (forall v :: n.reference(v).Done? ==> n.reference(n.reference(v).value) == n.reference(v))
    && (forall v :: n.instant(v).Done? ==> n.instant(n.writeInstant(n.instant(v).value)) == n.instant(v))
    && (forall v :: n.optionalInstant(v).Done? ==>
          n.optionalInstant(Written(n.optionalInstant(v).value, n)) == n.optionalInstant(v))
    && (forall m :: n.metadata(n.metadata(m)) == n.metadata(m))
  }

  lemma ReleaseBuildsAgain(slot: Slot<ReleaseInput>, n: Normalisers)
    requires Settled(n)
    ensures var built := BuildRelease(slot, n);
            built.Done? ==> BuildRelease(ReleaseAgain(built.value, n), n) == built
  {
  }

  lemma StatusBuildsAgain(slot: Slot<StatusInput>, n: Normalisers)
    requires Settled(n)
    ensures var built := BuildStatus(slot, n);
            built.Done? ==> BuildStatus(StatusAgain(built.value, n), n) == built
  {
  }

  lemma ContractBuildsAgain(slot: Slot<ContractInput>, n: Normalisers)
    requires Settled(n)
    ensures var built := BuildContract(slot, n);
            built.Done? ==> BuildContract(ContractAgain(built.value, n), n) == built
  {
  }

  lemma SettledBuildsAgain(i: Input, freshId: string, otherId: string, n: Normalisers)
    requires Settled(n)
    ensures var built := BuildWith(i, freshId, n);
            built.Done? ==> BuildWith(AgainWith(built.value, n), otherId, n) == built
  {
    ReleaseBuildsAgain(i.expectedRelease, n);
    ReleaseBuildsAgain(i.deployedRelease, n);
    StatusBuildsAgain(i.health, n);
    ContractBuildsAgain(i.contract, n);
    StatusBuildsAgain(i.migration, n);
  }

  // ---------------------------------------------------------------- the standard normalisers are settled

  lemma TextAgain(value: string, max: nat)
    ensures TextField(value, max).Done? ==> TextField(Shown(TextField(value, max).value), max) == TextField(value, max)
  {
    TrimmedStays(Trim(value));
  }

  lemma ReferenceAgain(value: string, rules: Rules)
    ensures ReferenceField(value, rules).Done? ==>
              ReferenceField(ReferenceField(value, rules).value, rules) == ReferenceField(value, rules)
  {
    TrimmedStays(Trim(value));
  }

  lemma UuidAgain(value: string, rules: Rules)
    ensures UuidField(value, rules).Done? ==>
              UuidField(value, rules).value != "" &&
              UuidField(UuidField(value, rules).value, rules) == UuidField(value, rules)
  {
    TrimmedStays(Trim(value));
  }

  lemma KeyAgain(value: string)
    ensures KeyField(value).Done? ==> KeyField(KeyField(value).value) == KeyField(value)
  {
    TrimmedStays(Trim(value));
  }

  lemma StateAgain(value: string)
    ensures StateField(value).Done? ==> StateField(StateField(value).value) == StateField(value)
  {
    KeyAgain(if value == "" then "not_observed" else value);
  }

  lemma ShaAgain(value: string)
    ensures ShaField(value).Done? ==> ShaField(Shown(ShaField(value).value)) == ShaField(value)
  {
    TrimmedStays(Trim(value));
    if IsSha(Trim(value)) {
      LowerSha(Trim(value));
    }
  }

  lemma InstantAgain(t: int, rules: Rules)
    requires InstantsRoundTrip(rules) && InDateRange(t)
    ensures InstantField(rules.writeInstant(t), rules) == Done(t)
    ensures OptionalInstantField(rules.writeInstant(t), rules) == Done(Some(t))
  {
    assert rules.readInstant(rules.writeInstant(t)) == Some(t);
    TrimmedStays(rules.writeInstant(t));
  }

  /** An accepted instant lies in the date range. */
  lemma InstantInRange(value: string, rules: Rules)
    requires InstantsRoundTrip(rules)
    ensures InstantField(value, rules).Done? ==> InDateRange(InstantField(value, rules).value)
    ensures var t := OptionalInstantField(value, rules);
            t.Done? && t.value.Some? ==> InDateRange(t.value.value)
  {
  }

  lemma MetadataAgain(metadata: Json, rules: Rules)
    ensures KeptMetadata(KeptMetadata(metadata, rules), rules) == KeptMetadata(metadata, rules)
  {
    var input := if CanonicalForm.Falsy(metadata) then Obj([]) else metadata;
    assert !CanonicalForm.Falsy(KeptMetadata(metadata, rules));
    SanitizeTwice(input, 0, METADATA_LIMITS, rules.secret);
  }

  lemma StandardInstantsSettle(rules: Rules, v: string)
    requires InstantsRoundTrip(rules)
    ensures var t := InstantField(v, rules);
            t.Done? ==> InstantField(rules.writeInstant(t.value), rules) == t
    ensures var t := OptionalInstantField(v, rules);
            t.Done? ==> OptionalInstantField(Written(t.value, Standard(rules)), rules) == t
  {
    InstantInRange(v, rules);
    var t, o := InstantField(v, rules), OptionalInstantField(v, rules);
    if t.Done? {
      InstantAgain(t.value, rules);
    }
    if o.Done? && o.value.Some? {
      InstantAgain(o.value.value, rules);
    }
  }

  lemma StandardIsSettled(rules: Rules)
    requires InstantsRoundTrip(rules)
    ensures Settled(Standard(rules))
  {
    var n := Standard(rules);
    forall v, m ensures n.text(v, m).Done? ==> n.text(Shown(n.text(v, m).value), m) == n.text(v, m) {
      TextAgain(v, m);
    }
    forall v ensures n.key(v).Done? ==> n.key(n.key(v).value) == n.key(v) {
      KeyAgain(v);
    }
    forall v ensures n.state(v).Done? ==> n.state(n.state(v).value) == n.state(v) {
      StateAgain(v);
    }
    forall v ensures n.sha(v).Done? ==> n.sha(Shown(n.sha(v).value)) == n.sha(v) {
      ShaAgain(v);
    }
    forall v ensures n.uuid(v).Done? ==> n.uuid(v).value != "" && n.uuid(n.uuid(v).value) == n.uuid(v) {
      UuidAgain(v, rules);
    }
    forall v ensures n.reference(v).Done? ==> n.reference(n.reference(v).value) == n.reference(v) {
      ReferenceAgain(v, rules);
    }
    forall v ensures n.instant(v).Done? ==> n.instant(n.writeInstant(n.instant(v).value)) == n.instant(v) {
      StandardInstantsSettle(rules, v);
    }
    forall v ensures n.optionalInstant(v).Done? ==>
                       n.optionalInstant(Written(n.optionalInstant(v).value, n)) == n.optionalInstant(v) {
      StandardInstantsSettle(rules, v);
    }
    forall m ensures n.metadata(n.metadata(m)) == n.metadata(m) {
      MetadataAgain(m, rules);
    }
  }

  /** Building an observation that was already built gives the same payload, and so the same hash. */
  lemma BuildsAgain(i: Input, freshId: string, otherId: string, rules: Rules)
    requires InstantsRoundTrip(rules)
    ensures var built := Build(i, freshId, rules);
            built.Done? ==> Build(Again(built.value, rules), otherId, rules) == built
  {
    StandardIsSettled(rules);
    SettledBuildsAgain(i, freshId, otherId, Standard(rules));
  }

  // ---------------------------------------------------------------- rules that round-trip

  function Digits(n: nat, width: nat): (s: string)
    ensures |s| == width && forall i :: 0 <= i < |s| ==> '0' <= s[i] <= '9'
  {
    if width == 0 then "" else Digits(n / 10, width - 1) + ['0' + (n % 10) as char]
  }

  function DigitValue(s: string): nat
    requires forall i :: 0 <= i < |s| ==> '0' <= s[i] <= '9'
  {
    if s == "" then 0 else 10 * DigitValue(s[..|s| - 1]) + (s[|s| - 1] - '0') as nat
  }

  function Tens(width: nat): nat {
    if width == 0 then 1 else 10 * Tens(width - 1)
  }

  lemma {:induction false} DigitsRoundTrip(n: nat, width: nat)
    requires n < Tens(width)
    ensures DigitValue(Digits(n, width)) == n
  {
    if width > 0 {
      DigitsRoundTrip(n / 10, width - 1);
      assert Digits(n, width)[..width - 1] == Digits(n / 10, width - 1);
    }
  }

  function WriteSigned(t: int): string {
    if t < 0 then "-" + Digits(-t, 16) else "+" + Digits(t, 16)
  }

  function ReadSigned(s: string): Option<int> {
    if |s| != 17 || (s[0] != '-' && s[0] != '+') || exists i :: 1 <= i < 17 && !('0' <= s[i] <= '9') then None
    else
      var n := DigitValue(s[1..]);
      var t := if s[0] == '-' then 0 - n as int else n as int;
      if InDateRange(t) then Some(t) else None
  }

  const SIGNED_RULES := Rules(_ => true, _ => true, _ => false, ReadSigned, WriteSigned, _ => 0)

  lemma DateLimitFits()
    ensures Tens(16) == 10_000_000_000_000_000
  {
    assert Tens(4) == 10_000;
    assert Tens(8) == 100_000_000;
    assert Tens(12) == 1_000_000_000_000;
  }

  lemma SignedRoundTrip(t: int)
    requires InDateRange(t)
    ensures ReadSigned(WriteSigned(t)) == Some(t)
  {
    var n := if t < 0 then -t else t;
    DateLimitFits();
    DigitsRoundTrip(n, 16);
    assert WriteSigned(t)[1..] == Digits(n, 16);
  }

  /** The hypothesis about instants can be met. */
  lemma SomeRulesRoundTrip()
    ensures InstantsRoundTrip(SIGNED_RULES)
  {
    forall t | InDateRange(t)
      ensures SIGNED_RULES.readInstant(SIGNED_RULES.writeInstant(t)) == Some(t)
    {
      SignedRoundTrip(t);
    }
    forall t ensures Trimmed(SIGNED_RULES.writeInstant(t)) && 0 < |SIGNED_RULES.writeInstant(t)| <= 64 {
      assert |WriteSigned(t)| == 17;
    }
  }

  function Bare(id: string, environment: string, observedAt: string): Input {
    Input(id, environment, observedAt, Absent, Absent, Absent, Absent, Absent, Null)
  }

  lemma BareBuilds(n: Normalisers, id: string, environment: string, observedAt: string)
    requires id != "" && n.uuid(id).Done? && n.key(environment).Done? && n.instant(observedAt).Done?
    requires forall p :: n.size(p) <= MAX_BYTES
    ensures BuildWith(Bare(id, environment, observedAt), "", n).Done?
  {
  }

  lemma KeyIsKept(key: string)
    requires Trimmed(key) && Lower(key) == key && IsKey(key)
    ensures KeyField(key) == Done(key)
  {
    TrimmedStays(key);
  }

  lemma AnyIdIsKept(id: string)
    requires Trimmed(id) && 0 < |id| <= 36
    ensures UuidField(id, SIGNED_RULES) == Done(id)
  {
    TrimmedStays(id);
  }

  /** And with them an observation can be built. */
  lemma SomeObservationBuilds() returns (i: Input)
    ensures Build(i, "", SIGNED_RULES).Done?
  {
    i := Bare("id", "prod", WriteSigned(0));
    AnyIdIsKept("id");
    assert Lower("prod") == "prod";
    KeyIsKept("prod");
    SomeRulesRoundTrip();
    InstantAgain(0, SIGNED_RULES);
    BareBuilds(Standard(SIGNED_RULES), "id", "prod", WriteSigned(0));
  }
}
