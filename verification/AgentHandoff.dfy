/**
 * One-time handoff between agents. Reading, consuming and revoking are separate database steps of many callers; a run
 * is any sequence of the steps that change the row, with time passing between them.
 */
module AgentHandoff {
  import opened Outcomes
  import opened Folds

  /** The empty string stands for an absent reference. */
  datatype Handoff = Handoff(
    tenant: string, sourceAgent: string, targetAgent: string, allowedActions: seq<string>, expiresAt: Option<int>,
    oneTime: bool, consumedAt: Option<int>, consumedBy: string, revokedAt: Option<int>, revokedBy: string)

  datatype Registry = Registry(row: Option<Handoff>, now: int)

  datatype Caller = Caller(actor: string, tenant: string, action: string)

  datatype Reason =
    | NotFound | AlreadyRevoked | Expired | AlreadyConsumed | TenantMismatch | TargetMismatch | ActionNotAllowed
    | NoLongerConsumable

  predicate Lapsed(h: Handoff, now: int) {
    h.expiresAt.Some? && h.expiresAt.value <= now
  }

  /** Why the handoff is not usable, if it is not. */
  function AssessState(row: Option<Handoff>, now: int): (refusal: Option<Reason>)
    ensures refusal.None? <==> && row.Some? && row.value.revokedAt.None? && !Lapsed(row.value, now)
                               && (row.value.consumedAt.None? || !row.value.oneTime)
    ensures refusal == Some(NotFound) <==> row.None?
    ensures refusal == Some(AlreadyRevoked) <==> row.Some? && row.value.revokedAt.Some?
    ensures refusal == Some(Expired) <==> row.Some? && row.value.revokedAt.None? && Lapsed(row.value, now)
    ensures refusal == Some(AlreadyConsumed) ==> row.Some? && row.value.oneTime && row.value.consumedAt.Some?
    ensures refusal.None? || refusal.value in {NotFound, AlreadyRevoked, Expired, AlreadyConsumed}
  {
    if row.None? then Some(NotFound)
    else if row.value.revokedAt.Some? then Some(AlreadyRevoked)
    else if Lapsed(row.value, now) then Some(Expired)
    else if row.value.oneTime && row.value.consumedAt.Some? then Some(AlreadyConsumed)
    else None
  }

  /** Why this caller may not use it, if they may not. */
  function AssessAccess(h: Handoff, c: Caller, allowSource: bool): (refusal: Option<Reason>)
    ensures refusal.None? <==>
            && h.tenant in {"", c.tenant}
            && (h.targetAgent in {"", c.actor} || (allowSource && c.actor == h.sourceAgent))
            && (c.action == "" || h.allowedActions == [] || c.action in h.allowedActions)
    ensures refusal == Some(TenantMismatch) <==> h.tenant != "" && h.tenant != c.tenant
    ensures refusal == Some(TargetMismatch) ==>
              h.targetAgent != "" && c.actor != h.targetAgent && !(allowSource && c.actor == h.sourceAgent)
    ensures refusal == Some(ActionNotAllowed) ==> h.allowedActions != [] && c.action !in h.allowedActions
    ensures refusal.None? || refusal.value in {TenantMismatch, TargetMismatch, ActionNotAllowed}
  {
    if h.tenant != "" && h.tenant != c.tenant then Some(TenantMismatch)
    else if h.targetAgent != "" && h.targetAgent != c.actor && !(allowSource && h.sourceAgent == c.actor)
      then Some(TargetMismatch)
    else if c.action != "" && h.allowedActions != [] && c.action !in h.allowedActions then Some(ActionNotAllowed)
    else None
  }

  /** What a read by `c` answers. */
  function ReadBy(g: Registry, c: Caller): Option<Reason> {
    var state := AssessState(g.row, g.now);
    if state.Some? then state else AssessAccess(g.row.value, c, false)
  }

  // ---------------------------------------------------------------- steps that change the row

  datatype Op = Tick(ms: nat) | Consume(actor: string) | Revoke(actor: string)

  /** The guard of the update statement. */
  predicate Takes(g: Registry, op: Op) {
    match op
    case Tick(_) => true
    case Consume(_) =>
      && g.row.Some?
      && (!g.row.value.oneTime || g.row.value.consumedAt.None?)
      && g.row.value.revokedAt.None?
      && (g.row.value.expiresAt.None? || g.row.value.expiresAt.value > g.now)
    case Revoke(_) => g.row.Some? && g.row.value.revokedAt.None?
  }

  /** A handoff reads as active exactly when a consumption at that moment would take effect. */
  lemma ActiveIsConsumable(g: Registry, actor: string)
    ensures AssessState(g.row, g.now).None? <==> Takes(g, Op.Consume(actor))
  {
  }

  function Perform(g: Registry, op: Op): Registry {
    if !Takes(g, op) then g
    else match op
      case Tick(ms) => g.(now := g.now + ms)
      case Consume(actor) => g.(row := Some(g.row.value.(consumedAt := Some(g.now), consumedBy := actor)))
      case Revoke(actor) => g.(row := Some(g.row.value.(revokedAt := Some(g.now), revokedBy := actor)))
  }

  function PerformAll(g: Registry, run: seq<Op>): Registry {
    Fold(Perform, g, run)
  }

  function At(g: Registry, run: seq<Op>, n: nat): Registry
    requires n <= |run|
  {
    PerformAll(g, run[..n])
  }

  /** The update at position `i` consumed the handoff. */
  predicate ConsumesAt(g: Registry, run: seq<Op>, i: nat)
    requires i < |run|
  {
    run[i].Consume? && Takes(At(g, run, i), run[i])
  }

  // ---------------------------------------------------------------- what every run keeps

  /** What access depends on is the same row content throughout; consumption and revocation are for good. */
  ghost predicate Continues(g: Registry, g': Registry) {
    && g.now <= g'.now
    && (g.row.Some? <==> g'.row.Some?)
    && (g.row.Some? ==>
          && g'.row.value.(consumedAt := None, consumedBy := "", revokedAt := None, revokedBy := "") ==
             g.row.value.(consumedAt := None, consumedBy := "", revokedAt := None, revokedBy := "")
          && (g.row.value.consumedAt.Some? ==> g'.row.value.consumedAt.Some?)
          && (g.row.value.revokedAt.Some? ==> g'.row.value.revokedAt == g.row.value.revokedAt))
  }

  lemma {:induction false} RunContinues(g: Registry, run: seq<Op>)
    ensures Continues(g, PerformAll(g, run))
    decreases |run|
  {
    if run != [] {
      RunContinues(Perform(g, run[0]), run[1..]);
    }
  }

  lemma Later(g: Registry, run: seq<Op>, i: nat, j: nat)
    requires i <= j <= |run|
    ensures At(g, run, j) == PerformAll(At(g, run, i), run[i..j]) && Continues(At(g, run, i), At(g, run, j))
  {
    FoldFrom(Perform, g, run, i, j);
    RunContinues(At(g, run, i), run[i..j]);
  }

  /** A consumption leaves the row consumed right after it. */
  lemma ConsumedNext(g: Registry, run: seq<Op>, i: nat)
    requires i < |run| && ConsumesAt(g, run, i)
    ensures At(g, run, i + 1).row.Some? && At(g, run, i + 1).row.value.consumedAt.Some?
  {
    FoldNext(Perform, g, run, i);
  }

  /** A one-time handoff is consumed at most once in any run. */
  lemma ConsumedAtMostOnce(g: Registry, run: seq<Op>, i: nat, j: nat)
    requires i < |run| && j < |run| && ConsumesAt(g, run, i) && ConsumesAt(g, run, j)
    requires g.row.Some? && g.row.value.oneTime
    ensures i == j
  {
    if i < j {
      NotConsumedAgain(g, run, i, j);
    } else if j < i {
      NotConsumedAgain(g, run, j, i);
    }
  }

  lemma NotConsumedAgain(g: Registry, run: seq<Op>, i: nat, j: nat)
    requires i < j < |run| && ConsumesAt(g, run, i)
    requires g.row.Some? && g.row.value.oneTime
    ensures !ConsumesAt(g, run, j)
  {
    ConsumedNext(g, run, i);
    Later(g, run, i + 1, j);
    Later(g, run, 0, j);
    assert run[..0] == [];
  }

  /** Nothing is consumed after a revocation or at or after the expiry. */
  lemma NeverAfterRevocationOrExpiry(g: Registry, run: seq<Op>, v: nat, j: nat)
    requires v <= j < |run| && At(g, run, v).row.Some?
    requires At(g, run, v).row.value.revokedAt.Some? || Lapsed(At(g, run, v).row.value, At(g, run, v).now)
    ensures !ConsumesAt(g, run, j)
  {
    Later(g, run, v, j);
  }

  /** A caller who read at `i` and whose update took effect at `j` still had access, and an active handoff, at `j`. */
  lemma AccessStillHolds(g: Registry, run: seq<Op>, i: nat, j: nat, c: Caller)
    requires i <= j < |run| && ReadBy(At(g, run, i), c) == None && ConsumesAt(g, run, j)
    ensures ReadBy(At(g, run, j), c) == None
  {
    Later(g, run, i, j);
  }

  /** The decision about access is the same at every moment of a run, for every caller. */
  lemma AccessNeverChanges(g: Registry, run: seq<Op>, i: nat, c: Caller, allowSource: bool)
    requires i <= |run| && g.row.Some?
    ensures At(g, run, i).row.Some?
    ensures AssessAccess(At(g, run, i).row.value, c, allowSource) == AssessAccess(g.row.value, c, allowSource)
  {
    RunContinues(g, run[..i]);
  }

  // ---------------------------------------------------------------- the calls

  datatype Access = Access(actor: string, action: string, allowed: bool)

  class HandoffRegistry {
    var registry: Registry
    var log: seq<Access>

    constructor (g: Registry)
      ensures registry == g && log == []
    {
      registry := g;
      log := [];
    }

    /** Other callers act, and time passes. */
    method Others(ops: seq<Op>)
      modifies `registry
      ensures registry == PerformAll(old(registry), ops) && Continues(old(registry), registry)
    {
      RunContinues(registry, ops);
      for i := 0 to |ops|
        invariant PerformAll(registry, ops[i..]) == PerformAll(old(registry), ops)
      {
        registry := Perform(registry, ops[i]);
      }
    }

    method Read(c: Caller) returns (refusal: Option<Reason>)
      modifies `log
      ensures refusal == ReadBy(registry, c)
      ensures log == old(log) + [Access(c.actor, "read", refusal.None?)]
    {
      var state := AssessState(registry.row, registry.now);
      refusal := if state.Some? then state else AssessAccess(registry.row.value, c, false);
      log := log + [Access(c.actor, "read", refusal.None?)];
    }

    /**
     * Consumes the handoff for `c`; `others` act between the read and the guarded update. Success means that at the
     * update the handoff was active and `c` had access, and that the update took effect; otherwise only others changed
     * the row.
     */
    method ConsumeFor(c: Caller, others: seq<Op>) returns (refusal: Option<Reason>)
      modifies this
      ensures refusal.None? ==>
                && ReadBy(PerformAll(old(registry), others), c) == None
                && Takes(PerformAll(old(registry), others), Op.Consume(c.actor))
                && registry == Perform(PerformAll(old(registry), others), Op.Consume(c.actor))
                && registry.row.Some? && registry.row.value.consumedBy == c.actor
                && registry.row.value.consumedAt == Some(registry.now)
      ensures refusal.Some? ==> registry == old(registry) || registry == PerformAll(old(registry), others)
      ensures refusal == if ReadBy(old(registry), c).Some? then ReadBy(old(registry), c)
                         else if AssessState(PerformAll(old(registry), others).row,
                                             PerformAll(old(registry), others).now).Some? then Some(NoLongerConsumable)
                         else None
      ensures log == old(log) + [Access(c.actor, "read", ReadBy(old(registry), c).None?)] +
                     (if ReadBy(old(registry), c).Some? then [] else [Access(c.actor, "consume", refusal.None?)])
    {
      refusal := Read(c);
      if refusal.Some? {
        return;
      }
      Others(others);
      var op := Op.Consume(c.actor);
      ActiveIsConsumable(registry, c.actor);
      if !Takes(registry, op) {
        log := log + [Access(c.actor, "consume", false)];
        return Some(NoLongerConsumable);
      }
      registry := Perform(registry, op);
      log := log + [Access(c.actor, "consume", true)];
    }

    /** Revokes the handoff for its target or source agent; an earlier revocation is kept as it is. */
    method RevokeFor(c: Caller, others: seq<Op>) returns (refusal: Option<Reason>)
      modifies this
      ensures refusal == if old(registry).row.None? then Some(NotFound)
                         else AssessAccess(old(registry).row.value, c, true)
      ensures refusal.None? ==> registry.row.Some? && registry.row.value.revokedAt.Some? &&
                                Continues(old(registry), registry)
      ensures refusal.None? ==>
                var g := PerformAll(old(registry), others);
                && g.row.Some?
                && registry == if g.row.value.revokedAt.Some? then g
                               else g.(row := Some(g.row.value.(revokedAt := Some(g.now), revokedBy := c.actor)))
      ensures refusal.Some? ==> registry == old(registry)
      ensures log == old(log) + [Access(c.actor, "revoke", refusal.None?)]
    {
      if registry.row.None? {
        log := log + [Access(c.actor, "revoke", false)];
        return Some(NotFound);
      }
      refusal := AssessAccess(registry.row.value, c, true);
      if refusal.Some? {
        log := log + [Access(c.actor, "revoke", false)];
        return;
      }
      Others(others);
      registry := Perform(registry, Op.Revoke(c.actor));
      log := log + [Access(c.actor, "revoke", true)];
    }
  }
}
