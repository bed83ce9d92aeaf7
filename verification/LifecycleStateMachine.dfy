/** Operation and stage-attempt statuses, their transition tables, and the checks over them. */
module LifecycleStateMachine {
  import opened Outcomes

  /** The 23 declared operation statuses; any other text stored in the column is `Undeclared`. */
  datatype OperationStatus =
    | Created | Authenticating | Authorized | ResolvingSession | Bootstrapping | Validating | PreparingTools
    | Ready | Active | Executing | ReadbackPending | DeliveryPending | AcknowledgementPending
    | RetryScheduled | UnknownOutcome | Reconciling
    | Degraded | AuthorizationGated | ValidationRateLimited | ContractDegraded | Failed | Cancelled | RolledBack
    | Undeclared(name: string)

  datatype AttemptStatus =
    | Pending | Running | AttemptSucceeded | AttemptDegraded | AttemptFailed | AttemptUnknown | AttemptCancelled
    | UndeclaredAttempt(attemptName: string)

  datatype StateClass = CoreNonterminal | AggregateOverlay | StableReported

  datatype StateRefusal =
    | StatusInvalid | OverlayTransitionInvalid | TerminalState | GovernedRetryRequired | TransitionInvalid
    | AttemptStatusInvalid | AttemptTerminal | AttemptTransitionInvalid

  const OVERLAYS := {DeliveryPending, AcknowledgementPending}
  const TERMINAL_WITHOUT_RETRY := {Active, Cancelled, RolledBack}
  const STABLE_RETRY := {Degraded, AuthorizationGated, ValidationRateLimited, ContractDegraded, Failed}

  /** The frozen transition table. */
  function Successors(s: OperationStatus): set<OperationStatus> {
    match s
    case Created => {Authenticating, Authorized, Cancelled}
    case Authenticating => {Authorized, AuthorizationGated, Failed, Cancelled}
    case Authorized => {ResolvingSession, Cancelled}
    case ResolvingSession => {Bootstrapping, AuthorizationGated, Degraded, Cancelled}
    case Bootstrapping => {Validating, PreparingTools, Ready, Degraded, Cancelled}
    case Validating => {PreparingTools, Ready, Degraded, ValidationRateLimited, ContractDegraded, Cancelled}
    case PreparingTools => {Ready, Degraded, ContractDegraded, Cancelled}
    case Ready => {Active, Executing, Cancelled}
    case Executing => {ReadbackPending, UnknownOutcome, Failed, Cancelled}
    case ReadbackPending => {Active, Degraded, Failed, UnknownOutcome}
    case UnknownOutcome => {Reconciling}
    case Reconciling => {Active, Degraded, Failed, UnknownOutcome}
    case RetryScheduled =>
      {Authenticating, ResolvingSession, Bootstrapping, Validating, PreparingTools, Executing, Reconciling}
    case _ => {}
  }

  function Classify(s: OperationStatus): Result<StateClass, StateRefusal> {
    if s.Undeclared? then Refused(StatusInvalid)
    else if s in OVERLAYS then Done(AggregateOverlay)
    else if s in TERMINAL_WITHOUT_RETRY || s in STABLE_RETRY then Done(StableReported)
    else Done(CoreNonterminal)
  }

  /** The layered check: declared, no overlay, not terminal, not a stable retry state, then the table. */
  function CheckTransition(from: OperationStatus, to: OperationStatus): Result<(), StateRefusal> {
    if from.Undeclared? || to.Undeclared? then Refused(StatusInvalid)
    else if from in OVERLAYS || to in OVERLAYS then Refused(OverlayTransitionInvalid)
    else if from in TERMINAL_WITHOUT_RETRY then Refused(TerminalState)
    else if from in STABLE_RETRY then Refused(GovernedRetryRequired)
    else if to !in Successors(from) then Refused(TransitionInvalid)
    else Done(())
  }

  predicate AttemptTerminalStatus(s: AttemptStatus) {
    s in {AttemptSucceeded, AttemptDegraded, AttemptFailed, AttemptUnknown, AttemptCancelled}
  }

  function AttemptSuccessors(s: AttemptStatus): set<AttemptStatus> {
    match s
    case Pending => {Running, AttemptCancelled}
    case Running => {AttemptSucceeded, AttemptDegraded, AttemptFailed, AttemptUnknown, AttemptCancelled}
    case _ => {}
  }

  function CheckAttemptTransition(from: AttemptStatus, to: AttemptStatus): Result<(), StateRefusal> {
    if from.UndeclaredAttempt? || to.UndeclaredAttempt? then Refused(AttemptStatusInvalid)
    else if AttemptTerminalStatus(from) then Refused(AttemptTerminal)
    else if to !in AttemptSuccessors(from) then Refused(AttemptTransitionInvalid)
    else Done(())
  }

  /** A status change one committed call can make: a table edge, or a governed retry out of a stable retry state. */
  predicate Edge(from: OperationStatus, to: OperationStatus) {
    to in Successors(from) || GovernedRetryEdge(from, to)
  }

  predicate GovernedRetryEdge(from: OperationStatus, to: OperationStatus) {
    from in STABLE_RETRY && to == RetryScheduled
  }

  predicate ReopenEdge(from: OperationStatus, to: OperationStatus) {
    from == Reconciling && to == UnknownOutcome
  }

  /** Longest path out of a status that uses neither a governed retry nor a reopened unknown outcome. */
  function Rank(s: OperationStatus): nat {
    match s
    case Created => 12
    case RetryScheduled => 12
    case Authenticating => 11
    case Authorized => 10
    case ResolvingSession => 9
    case Bootstrapping => 8
    case Validating => 7
    case PreparingTools => 6
    case Ready => 5
    case Executing => 4
    case ReadbackPending => 3
    case UnknownOutcome => 2
    case Reconciling => 1
    case _ => 0
  }

  /** The statuses an operation that started as `created` can ever hold. */
  predicate ReachableFromCreated(s: OperationStatus) {
    !s.Undeclared? && s !in OVERLAYS && s != RolledBack
  }

  /** The five layers decide exactly table membership, and what they let through keeps out of the overlays. */
  lemma CheckIsTable(from: OperationStatus, to: OperationStatus)
    ensures CheckTransition(from, to).Done? <==> to in Successors(from)
    ensures to in Successors(from) ==> from != to && to != RetryScheduled && ReachableFromCreated(to)
  {
  }

  /** The table read the other way: the statuses from which each status can be entered. */
  function Predecessors(to: OperationStatus): set<OperationStatus> {
    match to
    case Authenticating => {Created, RetryScheduled}
    case Authorized => {Created, Authenticating}
    case ResolvingSession => {Authorized, RetryScheduled}
    case Bootstrapping => {ResolvingSession, RetryScheduled}
    case Validating => {Bootstrapping, RetryScheduled}
    case PreparingTools => {Bootstrapping, Validating, RetryScheduled}
    case Ready => {Bootstrapping, Validating, PreparingTools}
    case Active => {Ready, ReadbackPending, Reconciling}
    case Executing => {Ready, RetryScheduled}
    case ReadbackPending => {Executing}
    case UnknownOutcome => {Executing, ReadbackPending, Reconciling}
    case Reconciling => {UnknownOutcome, RetryScheduled}
    case Degraded =>
      {ResolvingSession, Bootstrapping, Validating, PreparingTools, ReadbackPending, Reconciling}
    case AuthorizationGated => {Authenticating, ResolvingSession}
    case ValidationRateLimited => {Validating}
    case ContractDegraded => {Validating, PreparingTools}
    case Failed => {Authenticating, Executing, ReadbackPending, Reconciling}
    case Cancelled =>
      {Created, Authenticating, Authorized, ResolvingSession, Bootstrapping, Validating, PreparingTools, Ready,
       Executing}
    case _ => {}
  }

  lemma SuccessorHasPredecessor(from: OperationStatus, to: OperationStatus)
    requires to in Successors(from)
    ensures from in Predecessors(to)
  {
  }

  lemma PredecessorHasSuccessor(from: OperationStatus, to: OperationStatus)
    requires from in Predecessors(to)
    ensures to in Successors(from)
  {
  }

  /** A check admits a move exactly when the status it enters can be entered from there. */
  lemma EnteredFromPredecessors(from: OperationStatus, to: OperationStatus)
    ensures CheckTransition(from, to).Done? <==> from in Predecessors(to)
  {
    CheckIsTable(from, to);
    if to in Successors(from) {
      SuccessorHasPredecessor(from, to);
    }
    if from in Predecessors(to) {
      PredecessorHasSuccessor(from, to);
    }
  }

  /** The attempt check is its table too, and the table has no path back into `pending`. */
  lemma AttemptCheckIsTable(from: AttemptStatus, to: AttemptStatus)
    ensures CheckAttemptTransition(from, to).Done? <==> to in AttemptSuccessors(from)
    ensures to in AttemptSuccessors(from) ==> from != to && to != Pending && !AttemptTerminalStatus(from)
  {
  }

  lemma EdgeLowersRank(from: OperationStatus, to: OperationStatus)
    requires Edge(from, to) && !GovernedRetryEdge(from, to) && !ReopenEdge(from, to)
    ensures Rank(to) < Rank(from)
  {
  }

  /** The price of one status change: its rank drop pays for it, a retry costs 13 and a reopened outcome 2. */
  lemma EdgePrice(from: OperationStatus, to: OperationStatus)
    requires Edge(from, to)
    ensures 1 + Rank(to) <=
            Rank(from) + (if GovernedRetryEdge(from, to) then 13 else 0) + (if ReopenEdge(from, to) then 2 else 0)
  {
    if !GovernedRetryEdge(from, to) && !ReopenEdge(from, to) {
      EdgeLowersRank(from, to);
    }
  }
}
