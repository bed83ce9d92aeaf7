/** Callers racing to move one attempt, delivery, acknowledgement or reconciliation row out of the same state. */
module RowRaces {
  import opened Outcomes
  import opened LifecycleStateMachine
  import opened RetryPolicy
  import opened ActivationStore

  datatype RowStatus =
    | AttemptIs(attempt: AttemptStatus)
    | DeliveryIs(delivery: DeliveryStatus)
    | AcknowledgementIs(acknowledgement: AcknowledgementState)
    | ReconciliationIs(reconciliation: ReconciliationStatus)

  datatype Answer = Updated | Idempotent | Conflict

  predicate IsMove(s: Statement) {
    s.MoveAttempt? || s.MoveDelivery? || s.MoveAcknowledgement? || s.MoveReconciliation?
  }

  /** Moves that pass the transition table and the other checks made before the row is touched. */
  predicate LegalMove(s: Statement) {
    match s
    case MoveAttempt(_, _, _, from, to, _, _) => to in AttemptSuccessors(from)
    case MoveDelivery(_, _, _, from, to, report) => to in DeliverySuccessors(from) && ValidResponse(report.response)
    case MoveAcknowledgement(_, _, _, from, to, _) => to in AcknowledgementSuccessors(from)
    case MoveReconciliation(_, _, _, outcome, _, _) => outcome != ReconciliationPending
    case _ => false
  }

  function Source(s: Statement): RowStatus
    requires IsMove(s)
  {
    match s
    case MoveAttempt(_, _, _, from, _, _, _) => AttemptIs(from)
    case MoveDelivery(_, _, _, from, _, _) => DeliveryIs(from)
    case MoveAcknowledgement(_, _, _, from, _, _) => AcknowledgementIs(from)
    case MoveReconciliation(_, _, _, _, _, _) => ReconciliationIs(ReconciliationPending)
  }

  function Target(s: Statement): RowStatus
    requires IsMove(s)
  {
    match s
    case MoveAttempt(_, _, _, _, to, _, _) => AttemptIs(to)
    case MoveDelivery(_, _, _, _, to, _) => DeliveryIs(to)
    case MoveAcknowledgement(_, _, _, _, to, _) => AcknowledgementIs(to)
    case MoveReconciliation(_, _, _, outcome, _, _) => ReconciliationIs(outcome)
  }

  /** The status of the row a move names, if the row is in its operation and tenant. */
  function Current(t: Tables, s: Statement): Option<RowStatus>
    requires IsMove(s)
  {
    match s
    case MoveAttempt(id, o, tenant, _, _, _, _) =>
      if id in t.attempts && t.attempts[id].operation == o && t.attempts[id].tenant == tenant
      then Some(AttemptIs(t.attempts[id].status)) else None
    case MoveDelivery(id, o, tenant, _, _, _) =>
      if id in t.deliveries && t.deliveries[id].operation == o && t.deliveries[id].tenant == tenant
      then Some(DeliveryIs(t.deliveries[id].status)) else None
    case MoveAcknowledgement(id, o, tenant, _, _, _) =>
      if id in t.acknowledgements && t.acknowledgements[id].operation == o && t.acknowledgements[id].tenant == tenant
      then Some(AcknowledgementIs(t.acknowledgements[id].state)) else None
    case MoveReconciliation(id, o, tenant, _, _, _) =>
      if id in t.reconciliations && t.reconciliations[id].operation == o && t.reconciliations[id].tenant == tenant
      then Some(ReconciliationIs(t.reconciliations[id].status)) else None
  }

  /** Two statements naming the same row. */
  predicate SameRow(s: Statement, s': Statement) {
    match s
    case MoveAttempt(id, o, tenant, _, _, _, _) =>
      s'.MoveAttempt? && s'.attemptId == id && s'.operation == o && s'.tenant == tenant
    case MoveDelivery(id, o, tenant, _, _, _) =>
      s'.MoveDelivery? && s'.deliveryId == id && s'.operation == o && s'.tenant == tenant
    case MoveAcknowledgement(id, o, tenant, _, _, _) =>
      s'.MoveAcknowledgement? && s'.acknowledgementId == id && s'.operation == o && s'.tenant == tenant
    case MoveReconciliation(id, o, tenant, _, _, _) =>
      s'.MoveReconciliation? && s'.reconciliationId == id && s'.operation == o && s'.tenant == tenant
    case _ => false
  }

  /** The guarded update: it takes effect exactly when the row has the source status. */
  predicate Hits(t: Tables, s: Statement)
    requires IsMove(s)
  {
    Current(t, s) == Some(Source(s))
  }

  function Update(repo: Repository, t: Tables, s: Statement): Tables
    requires IsMove(s)
  {
    if Hits(t, s) && Apply(repo, t, s).Done? then Apply(repo, t, s).value else t
  }

  /** The separate read that follows an update that hit nothing. */
  function ReadBack(t: Tables, s: Statement): Answer
    requires IsMove(s)
  {
    if Current(t, s) == Some(Target(s)) then Idempotent else Conflict
  }

  /** A hit sets the target; and an update followed at once by its read is what one statement of the store does. */
  lemma MoveIsGuarded(repo: Repository, t: Tables, s: Statement)
    requires LegalMove(s)
    ensures IsMove(s) && Source(s) != Target(s)
    ensures Hits(t, s) ==> Current(Update(repo, t, s), s) == Some(Target(s))
    ensures Apply(repo, t, s).Done? <==> Hits(t, s) || ReadBack(t, s) == Idempotent
    ensures Apply(repo, t, s).Done? ==> Apply(repo, t, s).value == Update(repo, t, s)
  {
  }

  lemma SameRowSameStatus(t: Tables, a: Statement, b: Statement)
    requires SameRow(a, b)
    ensures IsMove(a) && IsMove(b) && Current(t, a) == Current(t, b)
  {
  }

  /** Statuses only rise, so a row never returns to a status it left. */
  function Height(s: RowStatus): nat {
    match s
    case AttemptIs(a) => if a == Pending then 0 else if a == Running then 1 else 2
    case DeliveryIs(d) => if d == DeliveryPrepared then 0 else 1
    case AcknowledgementIs(a) => if a == AckNotRequested then 0 else if a == AckPending then 1 else 2
    case ReconciliationIs(r) => if r == ReconciliationPending then 0 else 1
  }

  lemma MovesRise(s: Statement)
    requires LegalMove(s)
    ensures IsMove(s) && Height(Source(s)) < Height(Target(s))
  {
  }

  // ---------------------------------------------------------------- the race

  /** A caller has yet to update, has hit nothing and has yet to read, or has its answer. */
  datatype Phase = Waiting | Missed | Answered(answer: Answer)

  datatype Contest = Contest(tables: Tables, phases: seq<Phase>)

  /** One query of racer `i`, or a legal move of the same row by somebody else. */
  datatype Turn = By(racer: nat) | Outside(move: Statement)

  /** Every racer names the same row and wants it out of the same status. */
  predicate Racers(ss: seq<Statement>) {
    && ss != [] && IsMove(ss[0])
    && forall i :: 0 <= i < |ss| ==>
         IsMove(ss[i]) && LegalMove(ss[i]) && SameRow(ss[0], ss[i]) && Source(ss[i]) == Source(ss[0])
  }

  predicate Allowed(ss: seq<Statement>, turn: Turn) {
    match turn
    case By(i) => i < |ss|
    case Outside(move) => ss != [] && LegalMove(move) && SameRow(ss[0], move)
  }

  function Next(repo: Repository, ss: seq<Statement>, w: Contest, turn: Turn): (w': Contest)
    requires Racers(ss) && |w.phases| == |ss| && Allowed(ss, turn)
    ensures |w'.phases| == |ss|
  {
    match turn
    case Outside(move) => if IsMove(move) then w.(tables := Update(repo, w.tables, move)) else w
    case By(i) =>
      match w.phases[i]
      case Waiting =>
        if Hits(w.tables, ss[i])
        then Contest(Update(repo, w.tables, ss[i]), w.phases[i := Answered(Updated)])
        else w.(phases := w.phases[i := Missed])
      case Missed => w.(phases := w.phases[i := Answered(ReadBack(w.tables, ss[i]))])
      case Answered(_) => w
  }

  function Start(t: Tables, ss: seq<Statement>): Contest {
    Contest(t, seq(|ss|, _ => Waiting))
  }

  function Play(repo: Repository, t: Tables, ss: seq<Statement>, turns: seq<Turn>): (w: Contest)
    requires Racers(ss) && forall n :: 0 <= n < |turns| ==> Allowed(ss, turns[n])
    ensures |w.phases| == |ss|
  {
    if turns == [] then Start(t, ss)
    else Next(repo, ss, Play(repo, t, ss, turns[..|turns| - 1]), turns[|turns| - 1])
  }

  // ---------------------------------------------------------------- with anybody else moving the row too

  /** Nobody has updated and the row is where it was, or it has risen above the source and at most one racer updated. */
  ghost predicate AtMostOne(ss: seq<Statement>, w: Contest)
    requires Racers(ss)
  {
    && |w.phases| == |ss| && Current(w.tables, ss[0]).Some?
    && (forall i, j :: 0 <= i < j < |ss| ==> w.phases[i] != Answered(Updated) || w.phases[j] != Answered(Updated))
    && (Height(Current(w.tables, ss[0]).value) > Height(Source(ss[0])) ||
        forall i :: 0 <= i < |ss| ==> w.phases[i] != Answered(Updated))
  }

  lemma UpdateRises(repo: Repository, t: Tables, first: Statement, s: Statement)
    requires LegalMove(s) && SameRow(first, s) && IsMove(first) && Current(t, first).Some?
    ensures IsMove(s) && Current(Update(repo, t, s), first).Some?
    ensures Height(Current(Update(repo, t, s), first).value) >= Height(Current(t, first).value)
    ensures Hits(t, s) ==> Height(Current(Update(repo, t, s), first).value) > Height(Source(s))
  {
    SameRowSameStatus(t, first, s);
    SameRowSameStatus(Update(repo, t, s), first, s);
    MoveIsGuarded(repo, t, s);
    MovesRise(s);
  }

  lemma NextAtMostOne(repo: Repository, ss: seq<Statement>, w: Contest, turn: Turn)
    requires Racers(ss) && AtMostOne(ss, w) && Allowed(ss, turn)
    ensures AtMostOne(ss, Next(repo, ss, w, turn))
  {
    match turn
    case Outside(move) => UpdateRises(repo, w.tables, ss[0], move);
    case By(i) =>
      assert LegalMove(ss[i]) && SameRow(ss[0], ss[i]) && Source(ss[i]) == Source(ss[0]);
      SameRowSameStatus(w.tables, ss[0], ss[i]);
      UpdateRises(repo, w.tables, ss[0], ss[i]);
  }

  /** Whoever else moves the row and in whatever order queries are served, at most one racer updates it. */
  lemma {:induction false} AtMostOneUpdates(repo: Repository, t: Tables, ss: seq<Statement>, turns: seq<Turn>)
    requires Racers(ss) && Current(t, ss[0]).Some?
    requires forall n :: 0 <= n < |turns| ==> Allowed(ss, turns[n])
    ensures AtMostOne(ss, Play(repo, t, ss, turns))
  {
    if turns != [] {
      var front, last := turns[..|turns| - 1], turns[|turns| - 1];
      AtMostOneUpdates(repo, t, ss, front);
      NextAtMostOne(repo, ss, Play(repo, t, ss, front), last);
    }
  }

  // ---------------------------------------------------------------- the racers alone

  predicate OnlyRacers(ss: seq<Statement>, turns: seq<Turn>) {
    forall n :: 0 <= n < |turns| ==> turns[n].By? && turns[n].racer < |ss|
  }

  /** Racer `k` won: its update is the only change, and every other answer follows from its target. */
  ghost predicate Won(repo: Repository, t: Tables, ss: seq<Statement>, w: Contest, k: nat)
    requires Racers(ss)
  {
    && k < |ss| == |w.phases|
    && w.tables == Update(repo, t, ss[k]) && w.phases[k] == Answered(Updated)
    && forall i :: 0 <= i < |ss| && i != k ==>
         w.phases[i] in {Waiting, Missed, Answered(if Target(ss[i]) == Target(ss[k]) then Idempotent else Conflict)}
  }

  lemma NextWon(repo: Repository, t: Tables, ss: seq<Statement>, w: Contest, k: nat, i: nat)
    requires Racers(ss) && Current(t, ss[0]) == Some(Source(ss[0])) && Won(repo, t, ss, w, k) && i < |ss|
    ensures Won(repo, t, ss, Next(repo, ss, w, By(i)), k)
  {
    assert LegalMove(ss[k]) && SameRow(ss[0], ss[k]) && Source(ss[k]) == Source(ss[0]);
    assert LegalMove(ss[i]) && SameRow(ss[0], ss[i]) && Source(ss[i]) == Source(ss[0]);
    SameRowSameStatus(t, ss[0], ss[k]);
    SameRowSameStatus(w.tables, ss[0], ss[k]);
    SameRowSameStatus(w.tables, ss[0], ss[i]);
    MoveIsGuarded(repo, t, ss[k]);
  }

  lemma FirstWins(repo: Repository, t: Tables, ss: seq<Statement>, k: nat)
    requires Racers(ss) && Current(t, ss[0]) == Some(Source(ss[0])) && k < |ss|
    ensures Won(repo, t, ss, Next(repo, ss, Start(t, ss), By(k)), k)
  {
    assert SameRow(ss[0], ss[k]) && Source(ss[k]) == Source(ss[0]);
    SameRowSameStatus(t, ss[0], ss[k]);
  }

  /**
   * Any number of callers whose updates and reads are served in any order: the first to act updates the row and nobody
   * else changes it; the others are idempotent when they asked for the same target and get a conflict when not.
   */
  lemma {:induction false} OneWinner(repo: Repository, t: Tables, ss: seq<Statement>, turns: seq<Turn>)
    requires Racers(ss) && Current(t, ss[0]) == Some(Source(ss[0])) && turns != [] && OnlyRacers(ss, turns)
    ensures Won(repo, t, ss, Play(repo, t, ss, turns), turns[0].racer)
  {
    var front, last := turns[..|turns| - 1], turns[|turns| - 1];
    if front == [] {
      FirstWins(repo, t, ss, last.racer);
    } else {
      OneWinner(repo, t, ss, front);
      NextWon(repo, t, ss, Play(repo, t, ss, front), turns[0].racer, last.racer);
    }
  }

  /** A caller that has had two turns has its answer. */
  lemma {:induction false} TwoTurnsAnswer(repo: Repository, t: Tables, ss: seq<Statement>, turns: seq<Turn>, i: nat)
    requires Racers(ss) && (forall n :: 0 <= n < |turns| ==> Allowed(ss, turns[n])) && i < |ss|
    ensures multiset(turns)[By(i)] >= 1 ==> Play(repo, t, ss, turns).phases[i] != Waiting
    ensures multiset(turns)[By(i)] >= 2 ==> Play(repo, t, ss, turns).phases[i].Answered?
  {
    if turns != [] {
      var front, last := turns[..|turns| - 1], turns[|turns| - 1];
      TwoTurnsAnswer(repo, t, ss, front, i);
      assert turns == front + [last];
    }
  }
}
