/**
 * Act-as-User sessions in a shared store. A call reads and writes the store in several steps; before each step other
 * callers perform an arbitrary list of operations, and time passes.
 */
module ActAsUserSessions {
  import opened Outcomes
  import opened Folds
  import opened ActAsUserPolicy

  datatype Session = Session(context: Context, issuedAt: int, active: bool, version: nat)

  datatype Store = Store(sessions: map<string, Session>, now: int)

  /** What the unique idempotency key covers. */
  datatype Key = Key(
    tenant: string, actor: string, target: string, operation: string, tool: string, idempotencyKey: string)

  function KeyOf(c: Context): Key {
    Key(c.tenantId, c.actorId, c.targetId, c.operation, c.tool, c.idempotencyKey)
  }

  /** Two contexts have the same key exactly when tenant, both parties, operation, tool and client key agree. */
  lemma KeysAgree(a: Context, b: Context)
    ensures KeyOf(a) == KeyOf(b) <==>
            && a.tenantId == b.tenantId && a.actorId == b.actorId && a.targetId == b.targetId
            && a.operation == b.operation && a.tool == b.tool && a.idempotencyKey == b.idempotencyKey
  {
  }

  predicate KeyTaken(s: Store, k: Key) {
    exists id :: id in s.sessions && KeyOf(s.sessions[id].context) == k
  }

  /**
   * One effect on the store. An insertion stores a context its caller resolved at an earlier time; whether it did is
   * part of the operation.
   */
  datatype Op =
    | Tick(ms: nat)
    | Insert(id: string, request: Request, resolvedAt: int, issuedAt: int)
    | Revoke(id: string, expectedVersion: Option<nat>)

  predicate Takes(s: Store, op: Op) {
    match op
    case Tick(_) => true
    case Insert(id, request, resolvedAt, issuedAt) =>
      && resolvedAt <= issuedAt <= s.now
      && Resolve(request, resolvedAt).Done?
      && issuedAt < Resolve(request, resolvedAt).value.expiresAt
      && id !in s.sessions
      && !KeyTaken(s, KeyOf(Resolve(request, resolvedAt).value))
    case Revoke(id, expectedVersion) =>
      && id in s.sessions && s.sessions[id].active
      && (expectedVersion.Some? ==> expectedVersion.value == s.sessions[id].version)
  }

  function Perform(s: Store, op: Op): Store {
    if !Takes(s, op) then s
    else match op
      case Tick(ms) => s.(now := s.now + ms)
      case Insert(id, request, resolvedAt, issuedAt) =>
        s.(sessions := s.sessions[id := Session(Resolve(request, resolvedAt).value, issuedAt, true, 1)])
      case Revoke(id, _) =>
        var x := s.sessions[id];
        s.(sessions := s.sessions[id := x.(active := false, version := x.version + 1)])
  }

  function PerformAll(s: Store, ops: seq<Op>): Store {
    Fold(Perform, s, ops)
  }

  // ---------------------------------------------------------------- what every run keeps

  /** Some request was entitled to this session's context no later than the session was issued. */
  ghost predicate Justified(x: Session) {
    exists q, at :: EntitledTo(q, at, x)
  }

  ghost predicate EntitledTo(q: Request, at: int, x: Session) {
    && at <= x.issuedAt < x.context.expiresAt
    && Resolve(q, at) == Done(x.context)
  }

  ghost predicate AllJustified(s: Store) {
    forall id :: id in s.sessions ==> Justified(s.sessions[id])
  }

  /** Two sessions never share an idempotency key. */
  ghost predicate KeysUnique(s: Store) {
    forall id, id' :: id in s.sessions && id' in s.sessions && id != id' ==>
      KeyOf(s.sessions[id].context) != KeyOf(s.sessions[id'].context)
  }

  ghost predicate Consistent(s: Store) {
    AllJustified(s) && KeysUnique(s)
  }

  /** Sessions stay, their scope and expiry never change, revocation is for good, and time does not go back. */
  ghost predicate Continues(s: Store, s': Store) {
    && s.now <= s'.now
    && forall id :: id in s.sessions ==>
         && id in s'.sessions
         && s'.sessions[id].context == s.sessions[id].context
         && (!s.sessions[id].active ==> s'.sessions[id] == s.sessions[id])
  }

  lemma ContinuesTransitive(a: Store, b: Store, c: Store)
    requires Continues(a, b) && Continues(b, c)
    ensures Continues(a, c)
  {
  }

  lemma PerformKeepsKeys(s: Store, op: Op)
    requires KeysUnique(s)
    ensures KeysUnique(Perform(s, op))
  {
  }

  /** Done exactly for an active session at the expected version, which is then revoked under the next version. */
  predicate Revokes(s: Store, id: string, expectedVersion: Option<nat>, done: bool, s': Store) {
    && (done <==> && id in s.sessions && s.sessions[id].active
                  && (expectedVersion.None? || expectedVersion.value == s.sessions[id].version))
    && s' == if !done then s
             else s.(sessions := s.sessions[id := s.sessions[id].(
                       active := false, version := s.sessions[id].version + 1)])
  }

  lemma RevokePerforms(s: Store, id: string, expectedVersion: Option<nat>)
    ensures var op := Op.Revoke(id, expectedVersion);
            Revokes(s, id, expectedVersion, Takes(s, op), Perform(s, op))
  {
  }

  lemma PerformKeeps(s: Store, op: Op)
    requires Consistent(s)
    ensures Consistent(Perform(s, op)) && Continues(s, Perform(s, op))
  {
    PerformKeepsKeys(s, op);
    if Takes(s, op) {
      match op
      case Tick(_) =>
      case Insert(id, request, resolvedAt, issuedAt) =>
        assert EntitledTo(request, resolvedAt, Perform(s, op).sessions[id]);
      case Revoke(id, _) =>
        var q, at :| EntitledTo(q, at, s.sessions[id]);
        assert EntitledTo(q, at, Perform(s, op).sessions[id]);
    }
  }

  lemma {:induction false} RunKeeps(s: Store, ops: seq<Op>)
    requires Consistent(s)
    ensures Consistent(PerformAll(s, ops)) && Continues(s, PerformAll(s, ops))
    decreases |ops|
  {
    if ops != [] {
      PerformKeeps(s, ops[0]);
      RunKeeps(Perform(s, ops[0]), ops[1..]);
      ContinuesTransitive(s, Perform(s, ops[0]), PerformAll(s, ops));
    }
  }

  // ---------------------------------------------------------------- the adapter's calls

  datatype Refusal =
    | LiveExecutionDisabled | PromotionExpired | Policy(error: PolicyError) | WindowInvalid | IdempotencyConflict
    | ModeConflict | PromotionRequired | PromotionMismatch | AttestationRequired | SecretDenied
    | SessionNotFound | SessionRevoked | ContextExpired | ScopeMismatch | RevokeConflict

  datatype AuditEvent =
    | Created(id: string)
    | Authorized(id: string, operation: string, tool: string)
    | Revoked(id: string)

  datatype Receipt = Receipt(id: string, replayed: bool)

  /** What holds of the moment a dispatch was let through: `checked` is the store when revocation was read. */
  ghost predicate Covered(x: Session, q: Request, at: int, operation: string, tool: string, checked: Store, id: string)
  {
    && EntitledTo(q, at, x) && Entitled(q, at)
    && q.operation == operation && (q.tool != "" ==> q.tool == tool)
    && at < x.context.expiresAt < at + 901000
    && id in checked.sessions && checked.sessions[id].active && checked.now < x.context.expiresAt
  }

  /** A dispatch's outcome from the store as it was when the session, the revocation and the clock were read. */
  function Dispatch(read: Store, checked: Store, end: Store, id: string, operation: string, tool: string):
    Result<Context, Refusal>
  {
    if id !in read.sessions then Refused(SessionNotFound)
    else
      var context := read.sessions[id].context;
      if id !in checked.sessions || !checked.sessions[id].active ||
         checked.sessions[id].context.expiresAt <= checked.now
        then Refused(SessionRevoked)
      else if context.expiresAt <= end.now then Refused(ContextExpired)
      else if context.operation != operation || (context.tool != "" && context.tool != tool) then Refused(ScopeMismatch)
      else Done(context)
  }

  /** What each refusal of a dispatch says. */
  lemma DispatchRefusals(read: Store, checked: Store, end: Store, id: string, operation: string, tool: string)
    ensures var r := Dispatch(read, checked, end, id, operation, tool);
            && (r == Refused(SessionNotFound) <==> id !in read.sessions)
            && (r == Refused(SessionRevoked) ==>
                  id in checked.sessions ==>
                    !checked.sessions[id].active || checked.sessions[id].context.expiresAt <= checked.now)
            && (r == Refused(ContextExpired) ==> id in read.sessions && read.sessions[id].context.expiresAt <= end.now)
            && (r == Refused(ScopeMismatch) ==>
                  && id in read.sessions
                  && (|| read.sessions[id].context.operation != operation
                      || read.sessions[id].context.tool !in {"", tool}))
            && (r.Refused? ==> r.error in {SessionNotFound, SessionRevoked, ContextExpired, ScopeMismatch})
  {
  }

  function StoreAt(s: Store, run: seq<Op>, n: nat): Store
    requires n <= |run|
  {
    PerformAll(s, run[..n])
  }

  lemma RunContinues(s: Store, run: seq<Op>, i: nat, j: nat)
    requires Consistent(s) && i <= j <= |run|
    ensures Consistent(StoreAt(s, run, i)) && Consistent(StoreAt(s, run, j))
    ensures Continues(StoreAt(s, run, i), StoreAt(s, run, j))
  {
    FoldFrom(Perform, s, run, i, j);
    RunKeeps(s, run[..i]);
    RunKeeps(StoreAt(s, run, i), run[i..j]);
  }

  /** In every run, a dispatch that reads at `i`, checks at `j` and returns at `k` goes through only when covered. */
  lemma DispatchIsEntitled(s: Store, run: seq<Op>, i: nat, j: nat, k: nat, id: string, operation: string, tool: string)
    requires Consistent(s) && i <= j <= k <= |run|
    requires Dispatch(StoreAt(s, run, i), StoreAt(s, run, j), StoreAt(s, run, k), id, operation, tool).Done?
    ensures exists q, at :: Covered(StoreAt(s, run, i).sessions[id], q, at, operation, tool, StoreAt(s, run, j), id)
  {
    RunContinues(s, run, i, j);
    var x := StoreAt(s, run, i).sessions[id];
    assert Justified(x);
    var q, at :| EntitledTo(q, at, x);
    ResolveIsEntitlement(q, at);
    assert Covered(x, q, at, operation, tool, StoreAt(s, run, j), id);
  }

  /** Once a session is revoked, no dispatch that checks later goes through. */
  lemma RevokedIsRefused(s: Store, run: seq<Op>, v: nat, i: nat, j: nat, k: nat, id: string, operation: string,
                         tool: string)
    requires Consistent(s) && i <= j <= k <= |run| && v <= j
    requires id in StoreAt(s, run, v).sessions && !StoreAt(s, run, v).sessions[id].active
    ensures Dispatch(StoreAt(s, run, i), StoreAt(s, run, j), StoreAt(s, run, k), id, operation, tool).Refused?
  {
    RunContinues(s, run, v, j);
  }

  /** Operation `v` of the run revokes the session. */
  ghost predicate RevokedAt(s: Store, run: seq<Op>, v: nat, id: string) {
    && v < |run|
    && id in StoreAt(s, run, v).sessions && StoreAt(s, run, v).sessions[id].active
    && id in StoreAt(s, run, v + 1).sessions && !StoreAt(s, run, v + 1).sessions[id].active
  }

  lemma ActiveUntilRevoked(s: Store, run: seq<Op>, v: nat, j: nat, id: string)
    requires Consistent(s) && RevokedAt(s, run, v, id) && j <= |run| && id in StoreAt(s, run, j).sessions
    ensures StoreAt(s, run, j).sessions[id].active <==> j <= v
  {
    if j <= v {
      RunContinues(s, run, j, v);
    } else {
      RunContinues(s, run, v + 1, j);
    }
  }

  lemma ActiveDecides(read: Store, checked: Store, end: Store, id: string, operation: string, tool: string)
    requires Continues(read, checked) && Continues(checked, end) && id in read.sessions
    requires var context := read.sessions[id].context;
             context.operation == operation && context.tool in {"", tool} && end.now < context.expiresAt
    ensures id in checked.sessions
    ensures Dispatch(read, checked, end, id, operation, tool).Done? <==> checked.sessions[id].active
  {
  }

  /** A dispatch within its session's scope and time goes through exactly if it checked before the revocation. */
  lemma CheckDecidesRevocation(s: Store, run: seq<Op>, v: nat, i: nat, j: nat, k: nat, id: string, operation: string,
                               tool: string)
    requires Consistent(s) && i <= j <= k <= |run| && RevokedAt(s, run, v, id)
    requires id in StoreAt(s, run, i).sessions
    requires var context := StoreAt(s, run, i).sessions[id].context;
             && context.operation == operation && context.tool in {"", tool}
             && StoreAt(s, run, k).now < context.expiresAt
    ensures Dispatch(StoreAt(s, run, i), StoreAt(s, run, j), StoreAt(s, run, k), id, operation, tool).Done? <==> j <= v
  {
    RunContinues(s, run, i, j);
    RunContinues(s, run, j, k);
    ActiveDecides(StoreAt(s, run, i), StoreAt(s, run, j), StoreAt(s, run, k), id, operation, tool);
    ActiveUntilRevoked(s, run, v, j, id);
  }

  /**
   * The receipt names a session for an entitled request: its own, or one made before under the same key. Either way it
   * is the only session of that key.
   */
  ghost predicate Opened(q: Request, at: int, s: Store, receipt: Receipt) {
    && Entitled(q, at) && Resolve(q, at).Done? && receipt.id in s.sessions
    && var (stored, resolved) := (s.sessions[receipt.id].context, Resolve(q, at).value);
       && (if receipt.replayed then KeyOf(stored) == KeyOf(resolved) else stored == resolved)
       && forall id :: id in s.sessions && KeyOf(s.sessions[id].context) == KeyOf(resolved) ==> id == receipt.id
  }

  /** Evidence that live execution was promoted for this environment and policy snapshot. */
  datatype Promotion = Promotion(
    approved: bool, sameEnvironment: bool, sameRolePolicy: bool, sameCatalog: bool, attested: bool, expiresAt: Instant)

  /** What opening an adapter checks; the value is the promotion's expiry, if it is live. */
  function AdmitMode(live: bool, shadow: bool, promotion: Option<Promotion>, now: int):
    (r: Result<Option<int>, Refusal>)
    ensures r.Done? <==>
            && !(live && shadow)
            && (live ==> && promotion.Some? && promotion.value.approved && promotion.value.sameEnvironment
                         && promotion.value.sameRolePolicy && promotion.value.sameCatalog && promotion.value.attested
                         && promotion.value.expiresAt.At? && now < promotion.value.expiresAt.ms)
    ensures r.Done? ==> r.value == if live then Some(promotion.value.expiresAt.ms) else None
    ensures r == Refused(ModeConflict) <==> live && shadow
    ensures r == Refused(PromotionRequired) <==>
            live && !shadow && (promotion.None? || !promotion.value.approved)
    ensures r == Refused(PromotionMismatch) ==>
              promotion.Some? && !(&& promotion.value.sameEnvironment && promotion.value.sameRolePolicy
                                   && promotion.value.sameCatalog)
    ensures r == Refused(AttestationRequired) ==> promotion.Some? && !promotion.value.attested
    ensures r == Refused(PromotionExpired) ==>
              promotion.Some? && !(promotion.value.expiresAt.At? && now < promotion.value.expiresAt.ms)
  {
    if live && shadow then Refused(ModeConflict)
    else if !live then Done(None)
    else if promotion.None? || !promotion.value.approved then Refused(PromotionRequired)
    else if !promotion.value.sameEnvironment then Refused(PromotionMismatch)
    else if !promotion.value.sameRolePolicy || !promotion.value.sameCatalog then Refused(PromotionMismatch)
    else if !promotion.value.attested then Refused(AttestationRequired)
    else if !promotion.value.expiresAt.At? || promotion.value.expiresAt.ms <= now then Refused(PromotionExpired)
    else Done(Some(promotion.value.expiresAt.ms))
  }

  /** The store after others have acted in the first `n` gaps and nothing else happened. */
  function Gaps(s: Store, others: seq<seq<Op>>, n: nat): Store
    requires n <= |others|
  {
    if n == 0 then s else PerformAll(Gaps(s, others, n - 1), others[n - 1])
  }

  ghost predicate NobodyElse(others: seq<seq<Op>>) {
    forall i :: 0 <= i < |others| ==> others[i] == []
  }

  class Adapter {
    var store: Store
    var audit: seq<AuditEvent>
    const live: bool
    const shadow: bool
    const promotionExpires: Option<int>

    constructor (s: Store, live: bool, shadow: bool, promotion: Option<Promotion>)
      requires Consistent(s) && AdmitMode(live, shadow, promotion, s.now).Done?
      ensures Valid() && store == s && audit == [] && this.live == live && this.shadow == shadow
      ensures live ==> promotionExpires.Some? && s.now < promotionExpires.value
    {
      store := s;
      audit := [];
      this.live := live;
      this.shadow := shadow;
      promotionExpires := AdmitMode(live, shadow, promotion, s.now).value;
    }

    ghost predicate Valid()
      reads this
    {
      Consistent(store)
    }

    /** Other callers act, and time passes. */
    method Others(ops: seq<Op>)
      requires Valid()
      modifies `store
      ensures Valid() && store == PerformAll(old(store), ops) && Continues(old(store), store)
    {
      RunKeeps(store, ops);
      for i := 0 to |ops|
        invariant PerformAll(store, ops[i..]) == PerformAll(old(store), ops)
      {
        store := Perform(store, ops[i]);
      }
    }

    /** The session holding a key, if any. */
    method FindByKey(k: Key) returns (found: Option<string>)
      ensures found.Some? ==> found.value in store.sessions && KeyOf(store.sessions[found.value].context) == k
      ensures found.None? ==> !KeyTaken(store, k)
    {
      if id :| id in store.sessions && KeyOf(store.sessions[id].context) == k {
        return Some(id);
      }
      return None;
    }

    /**
     * Creates a session, or finds the one already created under the same key. `freshId` is drawn for the insertion,
     * `secretFound` is what the secret scan of the session says; `others` act before the resolution, the window check,
     * the lookup and the insertion.
     */
    method CreateSession(q: Request, freshId: string, secretFound: bool, others: seq<seq<Op>>)
      returns (r: Result<Receipt, Refusal>)
      requires Valid() && |others| == 4
      modifies this
      ensures Valid() && Continues(old(store), store)
      ensures r.Done? ==>
                && (live || shadow) && !secretFound
                && Opened(q, PerformAll(old(store), others[0]).now, store, r.value)
                && (!r.value.replayed ==> r.value.id == freshId && freshId !in old(store).sessions)
      ensures r.Done? && !r.value.replayed ==>
                var s := Gaps(old(store), others, 4);
                && Resolve(q, Gaps(old(store), others, 1).now).Done?
                && store == s.(sessions := s.sessions[freshId := Session(
                     Resolve(q, Gaps(old(store), others, 1).now).value, Gaps(old(store), others, 2).now, true, 1)])
      ensures r.Refused? || r.value.replayed ==> exists n :: 0 <= n <= 4 && store == Gaps(old(store), others, n)
      ensures NobodyElse(others) ==>
                (r.Done? <==> && (live || shadow) && !secretFound && Entitled(q, old(store).now)
                              && (live ==> promotionExpires.Some? && old(store).now < promotionExpires.value)
                              && Resolve(q, old(store).now).Done?
                              && (KeyTaken(old(store), KeyOf(Resolve(q, old(store).now).value)) ||
                                  freshId !in old(store).sessions))
      ensures audit == if r.Done? then old(audit) + [Created(r.value.id)] else old(audit)
    {
      Others(others[0]);
      assert store == Gaps(old(store), others, 1);
      if !live && !shadow {
        return Refused(LiveExecutionDisabled);
      }
      if live && (promotionExpires.None? || promotionExpires.value <= store.now) {
        return Refused(PromotionExpired);
      }
      var resolvedAt := store.now;
      var resolved := Resolve(q, resolvedAt);
      ResolveIsEntitlement(q, resolvedAt);
      if resolved.Refused? {
        return Refused(Policy(resolved.error));
      }
      var context := resolved.value;
      label Resolved:
      Others(others[1]);
      assert store == Gaps(old(store), others, 2);
      ContinuesTransitive(old(store), old@Resolved(store), store);
      var issuedAt := store.now;
      if context.expiresAt <= issuedAt {
        return Refused(WindowInvalid);
      }
      if secretFound {
        return Refused(SecretDenied);
      }
      label Windowed:
      Others(others[2]);
      assert store == Gaps(old(store), others, 3);
      ContinuesTransitive(old(store), old@Windowed(store), store);
      var existing := FindByKey(KeyOf(context));
      if existing.Some? {
        audit := audit + [Created(existing.value)];
        return Done(Receipt(existing.value, true));
      }
      label Looked:
      Others(others[3]);
      assert store == Gaps(old(store), others, 4);
      ContinuesTransitive(old(store), old@Looked(store), store);
      var op := Insert(freshId, q, resolvedAt, issuedAt);
      if !Takes(store, op) {
        return Refused(IdempotencyConflict);
      }
      PerformKeeps(store, op);
      ContinuesTransitive(old(store), store, Perform(store, op));
      store := Perform(store, op);
      audit := audit + [Created(freshId)];
      return Done(Receipt(freshId, false));
    }

    /**
     * Lets a dispatch through. Success means an entitled request created the session for this operation and tool, less
     * than 901 seconds before its expiry, and that it was neither revoked nor expired when checked; a session revoked
     * before the call is always refused.
     */
    method AuthorizeDispatch(id: string, operation: string, tool: string, others: seq<seq<Op>>)
      returns (r: Result<Context, Refusal>, ghost checked: Store)
      requires Valid() && |others| == 3
      modifies this
      ensures Valid() && Continues(old(store), store) && Continues(old(store), checked) && Continues(checked, store)
      ensures r.Done? ==>
                && id in store.sessions && store.sessions[id].context == r.value && store.now < r.value.expiresAt
                && exists q, at :: Covered(store.sessions[id], q, at, operation, tool, checked, id)
      ensures exists read :: Continues(old(store), read) && r == Dispatch(read, checked, store, id, operation, tool)
      ensures id in old(store).sessions && !old(store).sessions[id].active ==> r.Refused?
      ensures NobodyElse(others) ==>
                && store == old(store)
                && (r.Done? <==> && id in store.sessions && store.sessions[id].active
                                 && store.now < store.sessions[id].context.expiresAt
                                 && store.sessions[id].context.operation == operation
                                 && store.sessions[id].context.tool in {"", tool})
      ensures audit == if r.Done? then old(audit) + [Authorized(id, operation, tool)] else old(audit)
    {
      Others(others[0]);
      checked := store;
      ghost var read := store;
      if id !in store.sessions {
        assert Dispatch(read, checked, store, id, operation, tool) == Refused(SessionNotFound);
        return Refused(SessionNotFound), checked;
      }
      var context := store.sessions[id].context;
      label Read:
      Others(others[1]);
      ContinuesTransitive(old(store), old@Read(store), store);
      checked := store;
      if !store.sessions[id].active || store.sessions[id].context.expiresAt <= store.now {
        return Refused(SessionRevoked), checked;
      }
      label Checked:
      Others(others[2]);
      ContinuesTransitive(old(store), old@Checked(store), store);
      if context.expiresAt <= store.now {
        return Refused(ContextExpired), checked;
      }
      if context.operation != operation || (context.tool != "" && context.tool != tool) {
        return Refused(ScopeMismatch), checked;
      }
      ghost var x := store.sessions[id];
      assert Justified(x);
      ghost var q, at :| EntitledTo(q, at, x);
      ResolveIsEntitlement(q, at);
      assert Covered(x, q, at, operation, tool, checked, id);
      audit := audit + [Authorized(id, operation, tool)];
      return Done(context), checked;
    }

    /** Revokes an active session, at the expected version if one is given. */
    method RevokeSession(id: string, expectedVersion: Option<nat>, others: seq<Op>) returns (r: Result<(), Refusal>)
      requires Valid()
      modifies this
      ensures Valid() && Continues(old(store), store)
      ensures Revokes(PerformAll(old(store), others), id, expectedVersion, r.Done?, store)
      ensures audit == if r.Done? then old(audit) + [AuditEvent.Revoked(id)] else old(audit)
    {
      Others(others);
      var op := Op.Revoke(id, expectedVersion);
      RevokePerforms(store, id, expectedVersion);
      if !Takes(store, op) {
        return Refused(RevokeConflict);
      }
      PerformKeeps(store, op);
      ContinuesTransitive(old(store), store, Perform(store, op));
      store := Perform(store, op);
      audit := audit + [AuditEvent.Revoked(id)];
      return Done(());
    }
  }
}
