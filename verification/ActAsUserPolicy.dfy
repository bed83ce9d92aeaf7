/** Who may act as whom: resolving an Act-as-User execution context. Text fields are taken as already trimmed. */
module ActAsUserPolicy {
  import opened Outcomes

  datatype Principal = Principal(id: string, tenant: string, role: string, capabilities: seq<string>)

  datatype Instant = Missing | Malformed | At(ms: int)

  datatype Delegation = Delegation(
    id: string, active: bool, actor: string, subject: string, tenant: string, validFrom: Instant, expiresAt: Instant,
    idempotencyKey: string, revoked: bool, allowedOperations: seq<string>)

  datatype Request = Request(
    actor: Principal, target: Principal, tenant: string, delegation: Delegation, operation: string, tool: string,
    requested: seq<string>, toolCapabilities: seq<string>, tenantCapabilities: seq<string>, maxTtlSeconds: int)

  datatype Context = Context(
    actorId: string, targetId: string, tenantId: string, actorRole: string, targetRole: string, tool: string,
    operation: string, capabilities: set<string>, delegationId: string, idempotencyKey: string, expiresAt: int)

  datatype PolicyError =
    | ContextRequired | SameSubject | CrossTenant | RoleEscalation | OperationDenied | DelegationInvalid | InvalidDate
    | NotStarted | Expired | TtlExceeded | IdempotencyRequired | Revoked | WildcardScope | CapabilityDenied

  const MAX_TTL_SECONDS := 900

  /** 0 for a role that is not ranked. */
  function Rank(role: string): nat {
    if role == "viewer" then 10
    else if role == "member" then 20
    else if role == "manager" then 30
    else if role == "supervisor" then 40
    else if role == "admin" then 50
    else if role == "owner" || role == "tenant_responsible" then 60
    else 0
  }

  predicate Wildcard(operation: string) {
    operation == "*" || (|operation| >= 2 && operation[|operation| - 2..] == ".*")
  }

  function TenantOf(q: Request): string {
    if q.tenant != "" then q.tenant else if q.actor.tenant != "" then q.actor.tenant else q.target.tenant
  }

  function Listed(values: seq<string>): set<string> {
    set v | v in values && v != ""
  }

  /** What all lists have in common; none in common when there is no list. */
  function Intersection(lists: seq<seq<string>>): (r: set<string>)
    ensures lists != [] ==> forall c :: c in r <==> c != "" && forall i :: 0 <= i < |lists| ==> c in lists[i]
  {
    if lists == [] then {}
    else set c | c in Listed(lists[0]) && forall i :: 0 < i < |lists| ==> c in Listed(lists[i])
  }

  function Authorities(q: Request): seq<seq<string>> {
    [q.actor.capabilities, q.target.capabilities, q.tenantCapabilities, q.toolCapabilities,
     q.delegation.allowedOperations, q.requested]
  }

  function Resolve(q: Request, now: int): Result<Context, PolicyError> {
    var tenant := TenantOf(q);
    var d := q.delegation;
    if q.actor.id == "" || q.target.id == "" || tenant == "" then Refused(ContextRequired)
    else if q.actor.id == q.target.id then Refused(SameSubject)
    else if q.actor.tenant != tenant || q.target.tenant != tenant then Refused(CrossTenant)
    else if Rank(q.actor.role) == 0 || Rank(q.target.role) == 0 || Rank(q.target.role) >= Rank(q.actor.role)
      then Refused(RoleEscalation)
    else if q.operation != "call_tool" && q.operation != "execute" then Refused(OperationDenied)
    else if !d.active || d.actor != q.actor.id || d.subject != q.target.id || d.tenant != tenant
      then Refused(DelegationInvalid)
    else if !d.expiresAt.At? || d.validFrom.Malformed? then Refused(InvalidDate)
    else if d.validFrom.At? && d.validFrom.ms > now then Refused(NotStarted)
    else if d.expiresAt.ms <= now then Refused(Expired)
    else
      var ttlSeconds := (d.expiresAt.ms - now) / 1000;
      if ttlSeconds > q.maxTtlSeconds || ttlSeconds > MAX_TTL_SECONDS then Refused(TtlExceeded)
      else if d.idempotencyKey == "" then Refused(IdempotencyRequired)
      else if d.revoked then Refused(Revoked)
      else if exists o :: o in d.allowedOperations && o != "" && Wildcard(o) then Refused(WildcardScope)
      else
        var effective := Intersection(Authorities(q));
        if q.operation !in effective then Refused(CapabilityDenied)
        else Done(Context(q.actor.id, q.target.id, tenant, q.actor.role, q.target.role, q.tool, q.operation, effective,
                          d.id, d.idempotencyKey, d.expiresAt.ms))
  }

  /** The ranked roles, lowest first; every other role is unranked. */
  lemma RolesAreRanked(role: string)
    ensures 0 < Rank("viewer") < Rank("member") < Rank("manager") < Rank("supervisor") < Rank("admin") < Rank("owner")
    ensures Rank("owner") == Rank("tenant_responsible")
    ensures Rank(role) > 0 <==>
            role in {"viewer", "member", "manager", "supervisor", "admin", "owner", "tenant_responsible"}
  {
  }

  /** The authority behind a context: the same tenant, a strictly lower role, a live delegation, all six lists. */
  ghost predicate Entitled(q: Request, now: int) {
    && q.actor.id != "" && q.target.id != "" && q.actor.id != q.target.id
    && q.actor.tenant == q.target.tenant != "" && (q.tenant == "" || q.tenant == q.actor.tenant)
    && 0 < Rank(q.target.role) < Rank(q.actor.role)
    && q.operation in {"call_tool", "execute"}
    && q.operation in q.actor.capabilities && q.operation in q.target.capabilities
    && q.operation in q.tenantCapabilities && q.operation in q.toolCapabilities
    && q.operation in q.delegation.allowedOperations && q.operation in q.requested
    && Delegated(q, now)
  }

  ghost predicate Delegated(q: Request, now: int) {
    var d := q.delegation;
    && d.active && !d.revoked && d.idempotencyKey != ""
    && d.actor == q.actor.id && d.subject == q.target.id && d.tenant == q.actor.tenant
    && (d.validFrom.Missing? || (d.validFrom.At? && d.validFrom.ms <= now))
    && d.expiresAt.At? && now < d.expiresAt.ms < now + 1000 * (MAX_TTL_SECONDS + 1)
    && d.expiresAt.ms < now + 1000 * (q.maxTtlSeconds + 1)
    && forall o :: o in d.allowedOperations ==> o != "*" && !EndsOpen(o)
  }

  /** An operation name that covers everything below a prefix. */
  ghost predicate EndsOpen(operation: string) {
    exists prefix :: operation == prefix + ".*"
  }

  lemma WildcardIsOpen(operation: string)
    ensures Wildcard(operation) <==> operation == "*" || EndsOpen(operation)
  {
    if |operation| >= 2 && operation[|operation| - 2..] == ".*" {
      assert operation == operation[..|operation| - 2] + ".*";
    }
  }

  lemma NoWildcards(operations: seq<string>)
    ensures (exists o :: o in operations && o != "" && Wildcard(o)) <==>
            !forall o :: o in operations ==> o != "*" && !EndsOpen(o)
  {
    forall o ensures Wildcard(o) <==> o == "*" || EndsOpen(o) {
      WildcardIsOpen(o);
    }
    if o :| o in operations && !(o != "*" && !EndsOpen(o)) {
      assert Wildcard(o) && o != "";
    }
  }

  lemma TtlIsWindow(left: int, max: int)
    requires left > 0
    ensures left / 1000 <= max <==> left < 1000 * (max + 1)
  {
  }

  lemma InAllSix(q: Request)
    ensures q.operation in Intersection(Authorities(q)) <==>
            && q.operation != ""
            && q.operation in q.actor.capabilities && q.operation in q.target.capabilities
            && q.operation in q.tenantCapabilities && q.operation in q.toolCapabilities
            && q.operation in q.delegation.allowedOperations && q.operation in q.requested
  {
    var lists := Authorities(q);
    assert lists[0] == q.actor.capabilities && lists[1] == q.target.capabilities;
    assert lists[2] == q.tenantCapabilities && lists[3] == q.toolCapabilities;
    assert lists[4] == q.delegation.allowedOperations && lists[5] == q.requested;
  }

  /** A context is resolved exactly for an entitled request, and it carries that request's scope and expiry. */
  lemma ResolveIsEntitlement(q: Request, now: int)
    ensures Resolve(q, now).Done? <==> Entitled(q, now)
    ensures Resolve(q, now).Done? ==>
              var c := Resolve(q, now).value;
              && c.operation == q.operation && c.tool == q.tool
              && c.actorId == q.actor.id && c.targetId == q.target.id && c.tenantId == q.target.tenant
              && c.actorRole == q.actor.role && c.targetRole == q.target.role
              && c.delegationId == q.delegation.id && c.idempotencyKey == q.delegation.idempotencyKey
              && q.delegation.expiresAt == At(c.expiresAt)
              && c.capabilities == Intersection(Authorities(q))
  {
    InAllSix(q);
    NoWildcards(q.delegation.allowedOperations);
    if q.delegation.expiresAt.At? && q.delegation.expiresAt.ms > now {
      TtlIsWindow(q.delegation.expiresAt.ms - now, MAX_TTL_SECONDS);
      TtlIsWindow(q.delegation.expiresAt.ms - now, q.maxTtlSeconds);
    }
  }

  /** What each refusal says of the request. */
  ghost predicate Explains(q: Request, now: int, x: PolicyError) {
    var d := q.delegation;
    match x
    case ContextRequired =>
      q.actor.id == "" || q.target.id == "" || (q.tenant == "" && q.actor.tenant == "" && q.target.tenant == "")
    case SameSubject => q.actor.id == q.target.id
    case CrossTenant => q.actor.tenant != q.target.tenant || (q.tenant != "" && q.tenant != q.actor.tenant)
    case RoleEscalation => !(0 < Rank(q.target.role) < Rank(q.actor.role))
    case OperationDenied => q.operation !in {"call_tool", "execute"}
    case DelegationInvalid =>
      !d.active || d.actor != q.actor.id || d.subject != q.target.id || d.tenant != q.actor.tenant
    case InvalidDate => !d.expiresAt.At? || d.validFrom.Malformed?
    case NotStarted => d.validFrom.At? && d.validFrom.ms > now
    case Expired => d.expiresAt.At? && d.expiresAt.ms <= now
    case TtlExceeded =>
      && d.expiresAt.At?
      && (d.expiresAt.ms >= now + 1000 * (q.maxTtlSeconds + 1) || d.expiresAt.ms >= now + 1000 * (MAX_TTL_SECONDS + 1))
    case IdempotencyRequired => d.idempotencyKey == ""
    case Revoked => d.revoked
    case WildcardScope => exists o :: o in d.allowedOperations && (o == "*" || EndsOpen(o))
    case CapabilityDenied =>
      || q.operation !in q.actor.capabilities || q.operation !in q.target.capabilities
      || q.operation !in q.tenantCapabilities || q.operation !in q.toolCapabilities
      || q.operation !in d.allowedOperations || q.operation !in q.requested
  }

  /** A refused request is told something true of it. */
  lemma RefusalsAreTrue(q: Request, now: int)
    requires Resolve(q, now).Refused?
    ensures Explains(q, now, Resolve(q, now).error)
  {
    InAllSix(q);
    NoWildcards(q.delegation.allowedOperations);
    if q.delegation.expiresAt.At? && q.delegation.expiresAt.ms > now {
      TtlIsWindow(q.delegation.expiresAt.ms - now, MAX_TTL_SECONDS);
      TtlIsWindow(q.delegation.expiresAt.ms - now, q.maxTtlSeconds);
    }
  }
}
