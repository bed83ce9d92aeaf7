/**
 * Attempt, reconciliation and delivery numbers. Each is read as a maximum plus one, possibly long before
 * the insert that uses it; the unique key refuses a number already taken, and the transaction rolls back.
 */
module AttemptNumbering {
  import opened Outcomes
  import opened ActivationStore
  import opened LifecycleCalls
  import opened StoreInvariants
  import opened LifecycleRuns

  /** A sequence of numbers: per operation and stage, per operation, or per operation and channel. */
  datatype Slot =
    | StageSlot(operation: Id, stage: string)
    | ReconciliationSlot(operation: Id)
    | DeliverySlot(operation: Id, channel: string)

  predicate HoldsNumber(t: Tables, slot: Slot, id: Id, n: nat) {
    match slot
    case StageSlot(o, stage) =>
      id in t.attempts && t.attempts[id].operation == o && t.attempts[id].stage == stage && t.attempts[id].number == n
    case ReconciliationSlot(o) =>
      id in t.reconciliations && t.reconciliations[id].operation == o && t.reconciliations[id].number == n
    case DeliverySlot(o, channel) =>
      id in t.deliveries && t.deliveries[id].operation == o && t.deliveries[id].channel == channel &&
      t.deliveries[id].number == n
  }

  ghost predicate Taken(t: Tables, slot: Slot, n: nat) {
    exists id :: HoldsNumber(t, slot, id, n)
  }

  /** The number below `n` is in use, so inserting `n` leaves no gap. */
  ghost predicate Follows(t: Tables, slot: Slot, n: nat) {
    n >= 1 && (n > 1 ==> Taken(t, slot, n - 1))
  }

  /** No gaps and no repeats, in every slot. */
  ghost predicate Numbered(t: Tables) {
    && (forall slot, n :: Taken(t, slot, n) ==> Follows(t, slot, n))
    && (forall slot, id, id', n :: HoldsNumber(t, slot, id, n) && HoldsNumber(t, slot, id', n) ==> id == id')
  }

  function SlotOf(c: Call): Slot {
    if c.BeginReconciliation? then ReconciliationSlot(c.operation)
    else if c.PrepareDelivery? then DeliverySlot(c.operation, c.channel)
    else StageSlot(c.operation, StageOf(c))
  }

  /** The slot and number a statement inserts, if it inserts a numbered row. */
  function Inserts(s: Statement): Option<(Slot, nat)> {
    match s
    case InsertAttempt(_, row) => Some((StageSlot(row.operation, row.stage), row.number))
    case InsertReconciliation(_, row) => Some((ReconciliationSlot(row.operation), row.number))
    case InsertDelivery(_, row) => Some((DeliverySlot(row.operation, row.channel), row.number))
    case _ => None
  }

  ghost predicate GapFree(t: Tables, s: Statement) {
    Inserts(s).Some? ==> Follows(t, Inserts(s).value.0, Inserts(s).value.1)
  }

  lemma TakenStays(t: Tables, t': Tables, slot: Slot, n: nat)
    requires Kept(t, t') && Taken(t, slot, n)
    ensures Taken(t', slot, n)
  {
    var id :| HoldsNumber(t, slot, id, n);
    assert HoldsNumber(t', slot, id, n);
  }

  lemma FollowsStays(t: Tables, t': Tables, slot: Slot, n: nat)
    requires Kept(t, t') && Follows(t, slot, n)
    ensures Follows(t', slot, n)
  {
    if n > 1 {
      TakenStays(t, t', slot, n - 1);
    }
  }

  /** A statement adds at most its own number, held by one fresh row; nobody else's number moves. */
  lemma ApplyHolds(repo: Repository, t: Tables, s: Statement, slot: Slot, id: Id, n: nat)
    requires Apply(repo, t, s).Done? && HoldsNumber(Apply(repo, t, s).value, slot, id, n)
    ensures HoldsNumber(t, slot, id, n) || (Inserts(s) == Some((slot, n)) && !Taken(t, slot, n))
  {
  }

  /** When a statement's own number is new, the row it inserts is the one that holds it. */
  lemma InsertHolder(repo: Repository, t: Tables, s: Statement, slot: Slot, id: Id, id': Id, n: nat)
    requires Apply(repo, t, s).Done? && Inserts(s) == Some((slot, n)) && !Taken(t, slot, n)
    requires HoldsNumber(Apply(repo, t, s).value, slot, id, n) && HoldsNumber(Apply(repo, t, s).value, slot, id', n)
    ensures id == id'
  {
  }

  lemma ApplyNumbered(repo: Repository, t: Tables, s: Statement, o: Id, tenant: Id)
    requires WellFormed(t) && Lawful(s, o, tenant) && TenantOf(t, o, tenant) && Apply(repo, t, s).Done?
    requires Numbered(t) && GapFree(t, s)
    ensures Numbered(Apply(repo, t, s).value)
  {
    var t' := Apply(repo, t, s).value;
    ApplyKeeps(repo, t, s, o, tenant);
    forall slot, n | Taken(t', slot, n) ensures Follows(t', slot, n) {
      var id :| HoldsNumber(t', slot, id, n);
      ApplyHolds(repo, t, s, slot, id, n);
      FollowsStays(t, t', slot, n);
    }
    forall slot, id, id', n | HoldsNumber(t', slot, id, n) && HoldsNumber(t', slot, id', n) ensures id == id' {
      ApplyHolds(repo, t, s, slot, id, n);
      ApplyHolds(repo, t, s, slot, id', n);
      if !Taken(t, slot, n) {
        InsertHolder(repo, t, s, slot, id, id', n);
      }
    }
  }

  lemma {:induction false} ExecNumbered(repo: Repository, t: Tables, ss: seq<Statement>, o: Id, tenant: Id)
    requires WellFormed(t) && AllLawful(ss, o, tenant) && TenantOf(t, o, tenant) && Exec(repo, t, ss).Done?
    requires Numbered(t) && forall i :: 0 <= i < |ss| ==> GapFree(t, ss[i])
    ensures Numbered(Exec(repo, t, ss).value)
    decreases |ss|
  {
    if ss != [] {
      var t1 := Apply(repo, t, ss[0]).value;
      ApplyKeeps(repo, t, ss[0], o, tenant);
      ApplyNumbered(repo, t, ss[0], o, tenant);
      forall i | 0 <= i < |ss[1..]| ensures GapFree(t1, ss[1..][i]) {
        assert GapFree(t, ss[i + 1]);
        if Inserts(ss[i + 1]).Some? {
          FollowsStays(t, t1, Inserts(ss[i + 1]).value.0, Inserts(ss[i + 1]).value.1);
        }
      }
      ExecNumbered(repo, t1, ss[1..], o, tenant);
    }
  }

  // ---------------------------------------------------------------- runs

  /** Every number a caller is holding, however old, still has its predecessor in use. */
  ghost predicate HeldNumbersFollow(s: System) {
    forall c :: c in s.txns ==> Follows(s.tables, SlotOf(s.txns[c].call), s.txns[c].views.number)
  }

  lemma PlanGapFree(t: Tables, c: Call, v: Views)
    requires Follows(t, SlotOf(c), v.number)
    ensures forall i :: 0 <= i < |Plan(c, v)| ==> GapFree(t, Plan(c, v)[i])
  {
    var ss := Plan(c, v);
    forall i | 0 <= i < |ss| ensures GapFree(t, ss[i]) {
      PlanInserts(c, v, i);
    }
  }

  /** The only number a plan inserts is the one the call read, in the call's own slot. */
  lemma PlanInserts(c: Call, v: Views, i: nat)
    requires i < |Plan(c, v)|
    ensures Inserts(Plan(c, v)[i]).Some? ==> Inserts(Plan(c, v)[i]).value == (SlotOf(c), v.number)
  {
    if v.operation.Some? && c.StartStageAttempt? {
      StartInserts(c, v.operation.value, v, i);
    } else if c.CompleteReconciliation? {
      assert forall k :: 0 <= k < |PlanOutcome(c)| ==> Inserts(PlanOutcome(c)[k]).None?;
    }
  }

  lemma StartInserts(c: Call, op: OperationRow, v: Views, i: nat)
    requires c.StartStageAttempt? && i < |PlanOn(c, op, v)|
    ensures Inserts(PlanOn(c, op, v)[i]).Some? ==> Inserts(PlanOn(c, op, v)[i]).value == (SlotOf(c), v.number)
  {
  }

  lemma ReadFollows(t: Tables, c: Call, n: nat)
    requires IsNext(n, NumbersFor(t, c))
    ensures Follows(t, SlotOf(c), n)
  {
    if n > 1 {
      var slot, k := SlotOf(c), n - 1;
      assert k in NumbersFor(t, c);
      if c.BeginReconciliation? {
        var id :| id in t.reconciliations && t.reconciliations[id].operation == c.operation &&
                  t.reconciliations[id].number == k;
        assert HoldsNumber(t, slot, id, k);
      } else if c.PrepareDelivery? {
        var id :| id in t.deliveries && t.deliveries[id].operation == c.operation &&
                  t.deliveries[id].channel == c.channel && t.deliveries[id].number == k;
        assert HoldsNumber(t, slot, id, k);
      } else {
        var id :| id in t.attempts && t.attempts[id].operation == c.operation &&
                  t.attempts[id].stage == StageOf(c) && t.attempts[id].number == k;
        assert HoldsNumber(t, slot, id, k);
      }
    }
  }

  lemma HeldStay(s: System, s': System)
    requires HeldNumbersFollow(s) && Kept(s.tables, s'.tables)
    requires forall c :: c in s'.txns ==> c in s.txns && s'.txns[c] == s.txns[c]
    ensures HeldNumbersFollow(s')
  {
    forall c | c in s'.txns ensures Follows(s'.tables, SlotOf(s'.txns[c].call), s'.txns[c].views.number) {
      FollowsStays(s.tables, s'.tables, SlotOf(s.txns[c].call), s.txns[c].views.number);
    }
  }

  lemma CommitNumbered(repo: Repository, s: System, c: nat)
    requires Sound(s) && c in s.txns && Outcome(repo, s, c).Done?
    requires Numbered(s.tables) && HeldNumbersFollow(s)
    ensures Numbered(Outcome(repo, s, c).value)
  {
    var call, v, t := s.txns[c].call, s.txns[c].views, s.tables;
    PlanLawful(call, v);
    PlanGapFree(t, call, v);
    if TenantOf(t, call.operation, call.subject.tenant) {
      ExecNumbered(repo, t, Plan(call, v), call.operation, call.subject.tenant);
    } else {
      ForeignMoveRefused(repo, t, call, v);
    }
  }

  lemma CreateNumbered(t: Tables, o: Id, row: OperationRow)
    requires Numbered(t)
    ensures Numbered(t.(operations := t.operations[o := row]))
  {
    var t' := t.(operations := t.operations[o := row]);
    assert forall slot, id, n :: HoldsNumber(t', slot, id, n) <==> HoldsNumber(t, slot, id, n);
    forall slot, n | Taken(t', slot, n) ensures Follows(t', slot, n) {
      assert Taken(t, slot, n) && Follows(t, slot, n);
    }
  }

  lemma StepNumbered(repo: Repository, s: System, e: Event, s': System)
    requires Sound(s) && Numbered(s.tables) && HeldNumbersFollow(s) && StepBy(repo, s, e, s')
    ensures Numbered(s'.tables) && HeldNumbersFollow(s')
  {
    StepSound(repo, s, e, s');
    match e
    case Create(o, row) =>
      CreateNumbered(s.tables, o, row);
      HeldStay(s, s');
    case Commit(c) =>
      CommitNumbered(repo, s, c);
      HeldStay(s, s');
    case ReadsNumber(c, n) =>
      ReadFollows(s.tables, s.txns[c].call, n);
    case _ =>
  }

  lemma {:induction false} RunNumbered(repo: Repository, states: seq<System>, events: seq<Event>, i: nat)
    requires IsRun(repo, states, events) && i < |states| && Numbered(states[0].tables)
    ensures Numbered(states[i].tables) && HeldNumbersFollow(states[i])
  {
    if i > 0 {
      RunNumbered(repo, states, events, i - 1);
      RunSound(repo, states, events, i - 1);
      StepNumbered(repo, states[i - 1], events[i - 1], states[i]);
    }
  }

  // ---------------------------------------------------------------- exactly 1..n

  /** `s` is exactly the numbers from 1 to its size. */
  ghost predicate ExactRange(s: set<nat>) {
    forall n: nat :: n in s <==> 1 <= n <= |s|
  }

  lemma {:induction false} NoGapsIsRange(s: set<nat>)
    requires forall n :: n in s ==> n >= 1 && (n > 1 ==> n - 1 in s)
    ensures ExactRange(s)
    decreases |s|
  {
    if s != {} {
      var m := MaxOf(s);
      var rest := s - {m};
      assert s == rest + {m};
      forall n | n in rest ensures n >= 1 && (n > 1 ==> n - 1 in rest) {
        assert n in s;
      }
      NoGapsIsRange(rest);
      assert m in s;
      if m > 1 {
        assert m - 1 in rest;
      }
      if |rest| > 0 {
        assert |rest| in rest;
        assert |rest| in s;
      }
    }
  }

  lemma {:induction false} MaxOf(s: set<nat>) returns (m: nat)
    requires s != {}
    ensures m in s && forall n :: n in s ==> n <= m
    decreases |s|
  {
    m :| m in s;
    var rest := s - {m};
    assert s == rest + {m};
    if rest != {} {
      var k := MaxOf(rest);
      if k > m {
        m := k;
      }
    }
  }

  lemma StageRange(t: Tables, o: Id, tenant: Id, stage: string)
    requires WellFormed(t) && Numbered(t)
    ensures ExactRange(StageNumbers(t, o, tenant, stage))
  {
    var s := StageNumbers(t, o, tenant, stage);
    forall n | n in s ensures n >= 1 && (n > 1 ==> n - 1 in s) {
      var id :| id in t.attempts && t.attempts[id].operation == o && t.attempts[id].tenant == tenant &&
                t.attempts[id].stage == stage && t.attempts[id].number == n;
      assert HoldsNumber(t, StageSlot(o, stage), id, n);
      assert Follows(t, StageSlot(o, stage), n);
      if n > 1 {
        var below :| HoldsNumber(t, StageSlot(o, stage), below, n - 1);
        assert t.attempts[below].tenant == tenant;
      }
    }
    NoGapsIsRange(s);
  }

  lemma ReconciliationRange(t: Tables, o: Id, tenant: Id)
    requires WellFormed(t) && Numbered(t)
    ensures ExactRange(ReconciliationNumbers(t, o, tenant))
  {
    var s := ReconciliationNumbers(t, o, tenant);
    forall n | n in s ensures n >= 1 && (n > 1 ==> n - 1 in s) {
      var id :| id in t.reconciliations && t.reconciliations[id].operation == o &&
                t.reconciliations[id].tenant == tenant && t.reconciliations[id].number == n;
      assert HoldsNumber(t, ReconciliationSlot(o), id, n);
      assert Follows(t, ReconciliationSlot(o), n);
      if n > 1 {
        var below :| HoldsNumber(t, ReconciliationSlot(o), below, n - 1);
        assert t.reconciliations[below].tenant == tenant;
      }
    }
    NoGapsIsRange(s);
  }

  lemma DeliveryRange(t: Tables, o: Id, tenant: Id, channel: string)
    requires WellFormed(t) && Numbered(t)
    ensures ExactRange(DeliveryNumbers(t, o, tenant, channel))
  {
    var s := DeliveryNumbers(t, o, tenant, channel);
    forall n | n in s ensures n >= 1 && (n > 1 ==> n - 1 in s) {
      var id :| id in t.deliveries && t.deliveries[id].operation == o && t.deliveries[id].tenant == tenant &&
                t.deliveries[id].channel == channel && t.deliveries[id].number == n;
      assert HoldsNumber(t, DeliverySlot(o, channel), id, n);
      assert Follows(t, DeliverySlot(o, channel), n);
      if n > 1 {
        var below :| HoldsNumber(t, DeliverySlot(o, channel), below, n - 1);
        assert t.deliveries[below].tenant == tenant;
      }
    }
    NoGapsIsRange(s);
  }

  /**
   * In every state of every run from numbered tables, the numbers per operation, tenant and stage, per operation,
   * and per channel are exactly 1..n, and no two rows of a slot share a number.
   */
  lemma NumbersAreExact(repo: Repository, states: seq<System>, events: seq<Event>, i: nat, o: Id, tenant: Id,
                        key: string)
    requires IsRun(repo, states, events) && i < |states| && Numbered(states[0].tables)
    ensures ExactRange(StageNumbers(states[i].tables, o, tenant, key))
    ensures ExactRange(ReconciliationNumbers(states[i].tables, o, tenant))
    ensures ExactRange(DeliveryNumbers(states[i].tables, o, tenant, key))
    ensures forall slot, id, id', n ::
              HoldsNumber(states[i].tables, slot, id, n) && HoldsNumber(states[i].tables, slot, id', n) ==> id == id'
  {
    RunSound(repo, states, events, i);
    RunNumbered(repo, states, events, i);
    StageRange(states[i].tables, o, tenant, key);
    ReconciliationRange(states[i].tables, o, tenant);
    DeliveryRange(states[i].tables, o, tenant, key);
  }
}
