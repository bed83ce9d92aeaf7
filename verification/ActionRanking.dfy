/** Scoring and ranking of action candidates: allowed actions always outrank denied ones. */
module ActionRanking {
  import opened StableOrder

  /** A text column or argument: whether it is non-empty as given, and its trimmed lower-case form. */
  datatype Text = Text(present: bool, key: string)

  datatype Request = Request(
    actionKey: Text, pluginKey: Text, connectorFamily: Text, moduleBinding: Text, capabilityClass: Text,
    endpointGroup: Text, tenant: Text, actorRole: Text, governanceLevel: Text, clientKey: Text, teamKey: Text,
    isAdmin: bool)

  /** A joined registry row; the allow-list columns are given as their token sets. */
  datatype Row = Row(
    actionKey: Text, pluginKey: Text, connectorFamily: Text, moduleBinding: Text, capabilityClass: Text,
    endpointGroup: Text, status: Text, runtimeCallable: Text, adminOnly: Text, bindingStatus: Text,
    pluginStatus: Text, actorRoles: set<string>, governanceLevels: set<string>, clients: set<string>,
    teams: set<string>)

  datatype Reason =
    | NotActive | NotCallable | AdminOnly | ActionKeyMismatch | PluginKeyMismatch | FieldMismatch(field: nat)
    | BindingInactive | PluginInactive | RoleDenied | GovernanceDenied | ClientDenied | TeamDenied

  datatype Candidate = Candidate(row: Row, reasons: seq<Reason>, score: int)

  const TRUTHY := {"true", "1", "yes", "y", "active", "enabled", "allow", "allowed"}
  const DISABLED :=
    {"false", "0", "no", "n", "inactive", "disabled", "blocked", "archived", "retired", "deprecated"}
  const LIVE := {"active", "ready", "beta", "enabled"}
  const PLUGIN_LIVE := {"active", "beta"}

  predicate ActionActive(r: Row) {
    r.status.key !in DISABLED && (r.status.present ==> r.status.key in LIVE)
  }

  predicate Callable(r: Row) {
    r.runtimeCallable.present ==> r.runtimeCallable.key in TRUTHY
  }

  predicate FieldAllows(tokens: set<string>, requested: Text) {
    || tokens == {}
    || "*" in tokens || "all" in tokens || "any" in tokens
    || !requested.present || requested.key == ""
    || requested.key in tokens
  }

  /** The four optional fields: argument, column, and the points an exact match earns. */
  function OptionalFields(r: Row, q: Request): seq<(Text, Text, int)> {
    [(q.connectorFamily, r.connectorFamily, 45), (q.moduleBinding, r.moduleBinding, 40),
     (q.capabilityClass, r.capabilityClass, 35), (q.endpointGroup, r.endpointGroup, 30)]
  }

  predicate Matches(arg: Text, column: Text) {
    arg.present && column.key == arg.key
  }

  function When(c: bool, reason: Reason): seq<Reason> {
    if c then [reason] else []
  }

  function Points(c: bool, n: int): int {
    if c then n else 0
  }

  predicate FieldRefuses(f: (Text, Text, int)) {
    f.0.present && f.1.present && f.0.key != f.1.key
  }

  function ClientArgument(q: Request): Text {
    if q.clientKey.present then q.clientKey else q.tenant
  }

  /** Reasons found before the optional fields are compared. */
  function EarlyReasons(r: Row, q: Request): seq<Reason> {
    When(!ActionActive(r), NotActive)
    + When(!Callable(r), NotCallable)
    + When(r.adminOnly.key in TRUTHY && !(q.isAdmin || q.actorRole.key == "admin"), AdminOnly)
    + When(q.actionKey.present && r.actionKey.key != q.actionKey.key, ActionKeyMismatch)
    + When(q.pluginKey.present && r.pluginKey.key != q.pluginKey.key, PluginKeyMismatch)
  }

  function FieldReasons(fs: seq<(Text, Text, int)>): seq<Reason> {
    if fs == [] then []
    else FieldReasons(fs[..|fs| - 1]) + When(FieldRefuses(fs[|fs| - 1]), FieldMismatch(|fs| - 1))
  }

  function LateReasons(r: Row, q: Request): seq<Reason> {
    When(r.bindingStatus.present && r.bindingStatus.key != "active", BindingInactive)
    + When(r.pluginStatus.present && r.pluginStatus.key !in PLUGIN_LIVE, PluginInactive)
    + When(!FieldAllows(r.actorRoles, q.actorRole), RoleDenied)
    + When(!FieldAllows(r.governanceLevels, q.governanceLevel), GovernanceDenied)
    + When(!FieldAllows(r.clients, ClientArgument(q)), ClientDenied)
    + When(!FieldAllows(r.teams, q.teamKey), TeamDenied)
  }

  function Reasons(r: Row, q: Request): seq<Reason> {
    EarlyReasons(r, q) + FieldReasons(OptionalFields(r, q)) + LateReasons(r, q)
  }

  predicate Allowed(r: Row, q: Request) {
    Reasons(r, q) == []
  }

  function Score(r: Row, q: Request): int {
    Points(Matches(q.actionKey, r.actionKey), 180)
    + Points(Matches(q.pluginKey, r.pluginKey), 90)
    + Points(Matches(q.connectorFamily, r.connectorFamily), 45)
    + Points(Matches(q.moduleBinding, r.moduleBinding), 40)
    + Points(Matches(q.capabilityClass, r.capabilityClass), 35)
    + Points(Matches(q.endpointGroup, r.endpointGroup), 30)
    + Points(r.bindingStatus.present && r.bindingStatus.key == "active", 20)
    + Points(r.pluginStatus.present && r.pluginStatus.key in PLUGIN_LIVE, 15)
    + (if Allowed(r, q) then 20 else -200)
  }

  function Evaluate(r: Row, q: Request): Candidate {
    Candidate(r, Reasons(r, q), Score(r, q))
  }

  /** `evaluateAction`: reasons pushed one by one, then the score, then the penalty. */
  method EvaluateAction(r: Row, q: Request) returns (c: Candidate)
    ensures c == Evaluate(r, q)
    ensures forall x :: x in c.reasons <==> Applies(x, r, q)
  {
    var reasons := [];
    reasons := reasons + When(!ActionActive(r), NotActive);
    reasons := reasons + When(!Callable(r), NotCallable);
    var adminRequested := q.isAdmin || q.actorRole.key == "admin";
    reasons := reasons + When(r.adminOnly.key in TRUTHY && !adminRequested, AdminOnly);
    reasons := reasons + When(q.actionKey.present && r.actionKey.key != q.actionKey.key, ActionKeyMismatch);
    reasons := reasons + When(q.pluginKey.present && r.pluginKey.key != q.pluginKey.key, PluginKeyMismatch);
    assert reasons == EarlyReasons(r, q);
    reasons := PushFieldReasons(reasons, OptionalFields(r, q));
    reasons := reasons + LateReasons(r, q);
    var score := ActionScore(r, q, reasons == []);
    if reasons != [] { score := score - 200; }
    c := Candidate(r, reasons, score);
    forall x ensures x in c.reasons <==> Applies(x, r, q) { ReasonsAre(r, q, x); }
  }

  method PushFieldReasons(reasons: seq<Reason>, fs: seq<(Text, Text, int)>) returns (r: seq<Reason>)
    ensures r == reasons + FieldReasons(fs)
  {
    r := reasons;
    for i := 0 to |fs|
      invariant r == reasons + FieldReasons(fs[..i])
    {
      assert fs[..i + 1][..i] == fs[..i];
      if FieldRefuses(fs[i]) { r := r + [FieldMismatch(i)]; }
    }
    assert fs[..|fs|] == fs;
  }

  method ActionScore(r: Row, q: Request, allowed: bool) returns (score: int)
    requires allowed == Allowed(r, q)
    ensures score == Score(r, q) + if allowed then 0 else 200
  {
    score := 0;
    score := score + Points(Matches(q.actionKey, r.actionKey), 180);
    score := score + Points(Matches(q.pluginKey, r.pluginKey), 90);
    score := score + Points(Matches(q.connectorFamily, r.connectorFamily), 45);
    score := score + Points(Matches(q.moduleBinding, r.moduleBinding), 40);
    score := score + Points(Matches(q.capabilityClass, r.capabilityClass), 35);
    score := score + Points(Matches(q.endpointGroup, r.endpointGroup), 30);
    score := score + Points(r.bindingStatus.present && r.bindingStatus.key == "active", 20);
    score := score + Points(r.pluginStatus.present && r.pluginStatus.key in PLUGIN_LIVE, 15);
    score := score + Points(allowed, 20);
  }

  // ---------------------------------------------------------------- what the answer means

  predicate Listed(tokens: set<string>, wanted: Text) {
    tokens == {} || tokens * {"*", "all", "any"} != {} || !wanted.present || wanted.key == "" || wanted.key in tokens
  }

  predicate Differ(arg: Text, column: Text) {
    arg.present && column.present && arg.key != column.key
  }

  /** When a reason applies, told from the row's columns and the request's arguments. */
  predicate Applies(x: Reason, r: Row, q: Request) {
    match x
    case NotActive =>
      || r.status.key in {"false", "0", "no", "n", "inactive", "disabled", "blocked", "archived", "retired",
                          "deprecated"}
      || (r.status.present && r.status.key !in {"active", "ready", "beta", "enabled"})
    case NotCallable =>
      && r.runtimeCallable.present
      && r.runtimeCallable.key !in {"true", "1", "yes", "y", "active", "enabled", "allow", "allowed"}
    case AdminOnly =>
      && r.adminOnly.key in {"true", "1", "yes", "y", "active", "enabled", "allow", "allowed"}
      && !q.isAdmin && q.actorRole.key != "admin"
    case ActionKeyMismatch => q.actionKey.present && r.actionKey.key != q.actionKey.key
    case PluginKeyMismatch => q.pluginKey.present && r.pluginKey.key != q.pluginKey.key
    case FieldMismatch(i) =>
      || (i == 0 && Differ(q.connectorFamily, r.connectorFamily))
      || (i == 1 && Differ(q.moduleBinding, r.moduleBinding))
      || (i == 2 && Differ(q.capabilityClass, r.capabilityClass))
      || (i == 3 && Differ(q.endpointGroup, r.endpointGroup))
    case BindingInactive => r.bindingStatus.present && r.bindingStatus.key != "active"
    case PluginInactive => r.pluginStatus.present && r.pluginStatus.key != "active" && r.pluginStatus.key != "beta"
    case RoleDenied => !Listed(r.actorRoles, q.actorRole)
    case GovernanceDenied => !Listed(r.governanceLevels, q.governanceLevel)
    case ClientDenied => !Listed(r.clients, if q.clientKey.present then q.clientKey else q.tenant)
    case TeamDenied => !Listed(r.teams, q.teamKey)
  }

  /** The place of a reason in the order the checks are made. */
  function Place(x: Reason): nat {
    match x
    case NotActive => 0
    case NotCallable => 1
    case AdminOnly => 2
    case ActionKeyMismatch => 3
    case PluginKeyMismatch => 4
    case FieldMismatch(i) => if i < 4 then 5 + i else 99
    case BindingInactive => 9
    case PluginInactive => 10
    case RoleDenied => 11
    case GovernanceDenied => 12
    case ClientDenied => 13
    case TeamDenied => 14
  }

  lemma ListedIsAllowed(tokens: set<string>, wanted: Text)
    ensures Listed(tokens, wanted) <==> FieldAllows(tokens, wanted)
  {
    assert "*" in tokens ==> "*" in tokens * {"*", "all", "any"};
    assert "all" in tokens ==> "all" in tokens * {"*", "all", "any"};
    assert "any" in tokens ==> "any" in tokens * {"*", "all", "any"};
  }

  lemma EarlyAre(r: Row, q: Request, x: Reason)
    ensures x in EarlyReasons(r, q) <==> Place(x) < 5 && Applies(x, r, q)
  {
  }

  lemma FieldsAre(r: Row, q: Request, x: Reason)
    ensures x in FieldReasons(OptionalFields(r, q)) <==> x.FieldMismatch? && Applies(x, r, q)
  {
    var fs := OptionalFields(r, q);
    FieldMembers(fs, x);
  }

  lemma {:induction false} FieldMembers(fs: seq<(Text, Text, int)>, x: Reason)
    ensures x in FieldReasons(fs) <==> x.FieldMismatch? && x.field < |fs| && FieldRefuses(fs[x.field])
  {
    if fs != [] {
      FieldMembers(fs[..|fs| - 1], x);
    }
  }

  lemma LateAre(r: Row, q: Request, x: Reason)
    ensures x in LateReasons(r, q) <==> 9 <= Place(x) < 15 && Applies(x, r, q)
  {
    ListedIsAllowed(r.actorRoles, q.actorRole);
    ListedIsAllowed(r.governanceLevels, q.governanceLevel);
    ListedIsAllowed(r.clients, ClientArgument(q));
    ListedIsAllowed(r.teams, q.teamKey);
  }

  /** A reason is given exactly when it applies. */
  lemma ReasonsAre(r: Row, q: Request, x: Reason)
    ensures x in Evaluate(r, q).reasons <==> Applies(x, r, q)
  {
    EarlyAre(r, q, x);
    FieldsAre(r, q, x);
    LateAre(r, q, x);
  }

  /** An action is allowed exactly when every one of its columns admits the request. */
  lemma AllowedMeans(r: Row, q: Request)
    ensures Allowed(r, q) <==>
            && (r.status.present ==> r.status.key in {"active", "ready", "beta", "enabled"})
            && r.status.key !in {"false", "0", "no", "n", "inactive", "disabled", "blocked", "archived", "retired",
                                 "deprecated"}
            && (r.runtimeCallable.present ==>
                  r.runtimeCallable.key in {"true", "1", "yes", "y", "active", "enabled", "allow", "allowed"})
            && (r.adminOnly.key in {"true", "1", "yes", "y", "active", "enabled", "allow", "allowed"} ==>
                  q.isAdmin || q.actorRole.key == "admin")
            && (q.actionKey.present ==> r.actionKey.key == q.actionKey.key)
            && (q.pluginKey.present ==> r.pluginKey.key == q.pluginKey.key)
            && !Differ(q.connectorFamily, r.connectorFamily) && !Differ(q.moduleBinding, r.moduleBinding)
            && !Differ(q.capabilityClass, r.capabilityClass) && !Differ(q.endpointGroup, r.endpointGroup)
            && (r.bindingStatus.present ==> r.bindingStatus.key == "active")
            && (r.pluginStatus.present ==> r.pluginStatus.key == "active" || r.pluginStatus.key == "beta")
            && Listed(r.actorRoles, q.actorRole) && Listed(r.governanceLevels, q.governanceLevel)
            && Listed(r.clients, if q.clientKey.present then q.clientKey else q.tenant) && Listed(r.teams, q.teamKey)
  {
    NoReasonApplies(r, q);
    if !Allowed(r, q) {
      var x := Reasons(r, q)[0];
      assert Applies(x, r, q) by { ReasonsAre(r, q, x); }
    } else {
      assert !Applies(NotActive, r, q) && !Applies(NotCallable, r, q) && !Applies(AdminOnly, r, q);
      assert !Applies(ActionKeyMismatch, r, q) && !Applies(PluginKeyMismatch, r, q);
      assert !Applies(FieldMismatch(0), r, q) && !Applies(FieldMismatch(1), r, q);
      assert !Applies(FieldMismatch(2), r, q) && !Applies(FieldMismatch(3), r, q);
      assert !Applies(BindingInactive, r, q) && !Applies(PluginInactive, r, q);
      assert !Applies(RoleDenied, r, q) && !Applies(GovernanceDenied, r, q);
      assert !Applies(ClientDenied, r, q) && !Applies(TeamDenied, r, q);
    }
  }

  lemma NoReasonApplies(r: Row, q: Request)
    ensures Allowed(r, q) ==> forall x :: !Applies(x, r, q)
  {
    if Allowed(r, q) {
      forall x ensures !Applies(x, r, q) {
        ReasonsAre(r, q, x);
      }
    }
  }

  ghost predicate InOrder(rs: seq<Reason>) {
    forall i, j :: 0 <= i < j < |rs| ==> Place(rs[i]) < Place(rs[j])
  }

  lemma JoinInOrder(a: seq<Reason>, b: seq<Reason>, k: nat)
    requires InOrder(a) && InOrder(b)
    requires (forall x :: x in a ==> Place(x) < k) && (forall x :: x in b ==> Place(x) >= k)
    ensures InOrder(a + b)
  {
    forall i, j | 0 <= i < j < |a + b| ensures Place((a + b)[i]) < Place((a + b)[j]) {
      if i < |a| <= j {
        assert (a + b)[i] in a && (a + b)[j] in b;
      }
    }
  }

  /** Reasons stand in the order of the checks, each at most once; with `ReasonsAre` that fixes the whole list. */
  lemma ReasonsInOrder(r: Row, q: Request)
    ensures InOrder(Evaluate(r, q).reasons)
  {
    var (a, b, c) := (EarlyReasons(r, q), FieldReasons(OptionalFields(r, q)), LateReasons(r, q));
    forall x ensures x in a ==> Place(x) < 5 { EarlyAre(r, q, x); }
    forall x ensures x in b ==> 5 <= Place(x) < 9 { FieldsAre(r, q, x); }
    forall x ensures x in c ==> 9 <= Place(x) { LateAre(r, q, x); }
    EarlyInOrder(r, q);
    FieldsInOrder(OptionalFields(r, q));
    LateInOrder(r, q);
    JoinInOrder(a, b, 5);
    JoinInOrder(a + b, c, 9);
  }

  lemma PushInOrder(a: seq<Reason>, c: bool, x: Reason, k: nat)
    requires InOrder(a) && (forall y :: y in a ==> Place(y) < k) && k <= Place(x)
    ensures InOrder(a + When(c, x)) && forall y :: y in a + When(c, x) ==> Place(y) < Place(x) + 1
  {
  }

  lemma EarlyInOrder(r: Row, q: Request)
    ensures InOrder(EarlyReasons(r, q))
  {
    var a := When(!ActionActive(r), NotActive);
    PushInOrder(a, !Callable(r), NotCallable, 1);
    var b := a + When(!Callable(r), NotCallable);
    var admin := r.adminOnly.key in TRUTHY && !(q.isAdmin || q.actorRole.key == "admin");
    PushInOrder(b, admin, AdminOnly, 2);
    var c := b + When(admin, AdminOnly);
    PushInOrder(c, q.actionKey.present && r.actionKey.key != q.actionKey.key, ActionKeyMismatch, 3);
    var d := c + When(q.actionKey.present && r.actionKey.key != q.actionKey.key, ActionKeyMismatch);
    PushInOrder(d, q.pluginKey.present && r.pluginKey.key != q.pluginKey.key, PluginKeyMismatch, 4);
  }

  lemma LateInOrder(r: Row, q: Request)
    ensures InOrder(LateReasons(r, q))
  {
    var a := When(r.bindingStatus.present && r.bindingStatus.key != "active", BindingInactive);
    PushInOrder(a, r.pluginStatus.present && r.pluginStatus.key !in PLUGIN_LIVE, PluginInactive, 10);
    var b := a + When(r.pluginStatus.present && r.pluginStatus.key !in PLUGIN_LIVE, PluginInactive);
    PushInOrder(b, !FieldAllows(r.actorRoles, q.actorRole), RoleDenied, 11);
    var c := b + When(!FieldAllows(r.actorRoles, q.actorRole), RoleDenied);
    PushInOrder(c, !FieldAllows(r.governanceLevels, q.governanceLevel), GovernanceDenied, 12);
    var d := c + When(!FieldAllows(r.governanceLevels, q.governanceLevel), GovernanceDenied);
    PushInOrder(d, !FieldAllows(r.clients, ClientArgument(q)), ClientDenied, 13);
    var e := d + When(!FieldAllows(r.clients, ClientArgument(q)), ClientDenied);
    PushInOrder(e, !FieldAllows(r.teams, q.teamKey), TeamDenied, 14);
  }

  lemma {:induction false} FieldsInOrder(fs: seq<(Text, Text, int)>)
    requires |fs| <= 4
    ensures InOrder(FieldReasons(fs))
  {
    if fs != [] {
      var n := |fs| - 1;
      FieldsInOrder(fs[..n]);
      forall x ensures x in FieldReasons(fs[..n]) ==> Place(x) < 5 + n { FieldMembers(fs[..n], x); }
      JoinInOrder(FieldReasons(fs[..n]), When(FieldRefuses(fs[n]), FieldMismatch(n)), 5 + n);
    }
  }

  /** The points of every match, summed. */
  lemma ScoreAddsUp(r: Row, q: Request)
    ensures Score(r, q) ==
            (if q.actionKey.present && r.actionKey.key == q.actionKey.key then 180 else 0)
            + (if q.pluginKey.present && r.pluginKey.key == q.pluginKey.key then 90 else 0)
            + (if q.connectorFamily.present && r.connectorFamily.key == q.connectorFamily.key then 45 else 0)
            + (if q.moduleBinding.present && r.moduleBinding.key == q.moduleBinding.key then 40 else 0)
            + (if q.capabilityClass.present && r.capabilityClass.key == q.capabilityClass.key then 35 else 0)
            + (if q.endpointGroup.present && r.endpointGroup.key == q.endpointGroup.key then 30 else 0)
            + (if r.bindingStatus.present && r.bindingStatus.key == "active" then 20 else 0)
            + (if r.pluginStatus.present && r.pluginStatus.key in {"active", "beta"} then 15 else 0)
            + (if Allowed(r, q) then 20 else -200)
  {
  }

  // ---------------------------------------------------------------- the gap

  /** An allowed row earns the full points of the two required keys; no denied row can make that up. */
  lemma AllowedOutscoresDenied(a: Row, d: Row, q: Request)
    requires Allowed(a, q) && !Allowed(d, q)
    ensures Score(a, q) >= Score(d, q) + 35
  {
  }

  // ---------------------------------------------------------------- the candidate pipeline

  /** Descending score. */
  function ByScore(): (Candidate, Candidate) -> bool {
    (x: Candidate, y: Candidate) => x.score >= y.score
  }

  function IsAllowed(): Candidate -> bool {
    (c: Candidate) => c.reasons == []
  }

  function EvaluateAll(rows: seq<Row>, q: Request): (r: seq<Candidate>)
    ensures |r| == |rows| && forall i :: 0 <= i < |rows| ==> r[i] == Evaluate(rows[i], q)
  {
    if rows == [] then [] else [Evaluate(rows[0], q)] + EvaluateAll(rows[1..], q)
  }

  /** `Math.max(1, Math.min(limit || 10, 50))`. */
  function SafeLimit(limit: int): (n: nat)
    ensures 1 <= n <= 50
    ensures 1 <= limit <= 50 ==> n == limit
    ensures limit > 50 ==> n == 50
    ensures limit < 0 ==> n == 1
    ensures limit == 0 ==> n == 10
  {
    var n := if limit == 0 then 10 else limit;
    if n < 1 then 1 else if n > 50 then 50 else n
  }

  function Candidates(rows: seq<Row>, q: Request, includeDenied: bool, limit: int): seq<Candidate> {
    var all := EvaluateAll(rows, q);
    Take(Sort(if includeDenied then all else Filter(all, IsAllowed()), ByScore()), SafeLimit(limit))
  }

  /**
   * The answer is the head of the one stable order by descending score: no more than the limit, nobody outside it
   * scores more than anybody inside, and equal scores keep the order of the rows.
   */
  lemma CandidatesAreBest(rows: seq<Row>, q: Request, includeDenied: bool, limit: int)
    ensures var all := EvaluateAll(rows, q);
            var pool := if includeDenied then all else Filter(all, IsAllowed());
            var r := Candidates(rows, q, includeDenied, limit);
            && |r| == (if |pool| <= SafeLimit(limit) then |pool| else SafeLimit(limit))
            && HeadOfStableSort(pool, r, ByScore())
  {
    var all := EvaluateAll(rows, q);
    TakeOfSort(if includeDenied then all else Filter(all, IsAllowed()), ByScore(), SafeLimit(limit));
  }

  /** In score order every allowed candidate stands before every denied one. */
  lemma SortedIsAllowedFirst(rows: seq<Row>, q: Request)
    ensures Leads(Sort(EvaluateAll(rows, q), ByScore()), IsAllowed())
  {
    var all := EvaluateAll(rows, q);
    var s := Sort(all, ByScore());
    SortSorts(all, ByScore());
    forall i, j | 0 <= i < j < |s| && IsAllowed()(s[j]) ensures IsAllowed()(s[i]) {
      assert s[i] in s && s[j] in s;
      assert s[i] in all && s[j] in all;
      assert ByScore()(s[i], s[j]);
      if !IsAllowed()(s[i]) {
        AllowedOutscoresDenied(s[j].row, s[i].row, q);
      }
    }
  }

  /**
   * Asking for denied candidates too never changes the allowed ones: with any limit they are the same candidates
   * in the same order.
   */
  lemma DeniedNeverDisplaceAllowed(rows: seq<Row>, q: Request, limit: int)
    ensures Filter(Candidates(rows, q, true, limit), IsAllowed()) == Candidates(rows, q, false, limit)
  {
    var all := EvaluateAll(rows, q);
    SortedIsAllowedFirst(rows, q);
    TakeFilter(Sort(all, ByScore()), IsAllowed(), SafeLimit(limit));
    FilterSort(all, IsAllowed(), ByScore());
  }
}
