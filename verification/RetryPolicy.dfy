/** Who may schedule a retry, and what a finished reconciliation turns an operation into. */
module RetryPolicy {
  import opened Outcomes
  import opened LifecycleStateMachine

  datatype EvidenceKind =
    | ActivationSuccessReadback | ExecutionReadback | ProviderReadback | ReconciliationReadback
    | GovernedRetryAuthorization | OtherKind(kindName: string)

  datatype ReconciliationStatus =
    | ReconciliationPending | OutcomeExecuted | OutcomeNotExecuted | OutcomeConflicting | OutcomeStillUnknown
    | OutcomeFailed

  datatype PolicyRefusal =
    | StatusUnknownToPolicy | RetryTerminal | ReconciliationRequired | ReconciliationInProgress
    | RetrySourceInvalid | RetryApprovalRequired | RetryTargetRequired | RetryTargetInvalid
    | ApprovalRefRequired | OutcomeInvalid | SameOperationEvidenceRequired | SuccessKindInvalid

  datatype RetryDecision = RetryDecision(source: OperationStatus, target: OperationStatus, approvalRef: string)

  const SUCCESS_KINDS := {ActivationSuccessReadback, ExecutionReadback, ProviderReadback, ReconciliationReadback}

  /** `authorizeActivationRetryRequest`; an empty `approvalRef` is a missing one. */
  function AuthorizeRetry(status: OperationStatus, target: Option<OperationStatus>, approved: bool,
                          approvalRef: string): (r: Result<RetryDecision, PolicyRefusal>)
    ensures r.Done? <==>
            && status in STABLE_RETRY
            && approved
            && target.Some? && target.value in Successors(RetryScheduled)
            && approvalRef != ""
    ensures r.Done? ==> r.value == RetryDecision(status, target.value, approvalRef)
  {
    if status.Undeclared? then Refused(StatusUnknownToPolicy)
    else if status in TERMINAL_WITHOUT_RETRY then Refused(RetryTerminal)
    else if status == UnknownOutcome then Refused(ReconciliationRequired)
    else if status == Reconciling then Refused(ReconciliationInProgress)
    else if status !in STABLE_RETRY then Refused(RetrySourceInvalid)
    else if !approved then Refused(RetryApprovalRequired)
    else if target.None? then Refused(RetryTargetRequired)
    else if target.value !in Successors(RetryScheduled) then Refused(RetryTargetInvalid)
    else if approvalRef == "" then Refused(ApprovalRefRequired)
    else Done(RetryDecision(status, target.value, approvalRef))
  }

  /**
   * `resolveActivationReconciliationOutcome`: the status an outcome moves the operation to.
   * `evidence` is the kind of the evidence row appended by the same call, if there is one.
   */
  function ResolveOutcome(outcome: ReconciliationStatus, evidence: Option<EvidenceKind>)
    : (r: Result<OperationStatus, PolicyRefusal>)
    ensures r.Done? <==>
            && outcome != ReconciliationPending
            && (outcome == OutcomeExecuted ==> evidence.Some? && evidence.value in SUCCESS_KINDS)
    ensures r.Done? ==>
              && r.value in Successors(Reconciling)
              && (r.value == Active <==> outcome == OutcomeExecuted)
              && (r.value == Failed <==> outcome == OutcomeConflicting)
              && (r.value == UnknownOutcome <==> outcome == OutcomeStillUnknown)
              && (r.value == Degraded <==> outcome == OutcomeNotExecuted || outcome == OutcomeFailed)
  {
    match outcome
    case ReconciliationPending => Refused(OutcomeInvalid)
    case OutcomeExecuted =>
      if evidence.None? then Refused(SameOperationEvidenceRequired)
      else if evidence.value !in SUCCESS_KINDS then Refused(SuccessKindInvalid)
      else Done(Active)
    case OutcomeNotExecuted => Done(Degraded)
    case OutcomeConflicting => Done(Failed)
    case OutcomeStillUnknown => Done(UnknownOutcome)
    case OutcomeFailed => Done(Degraded)
  }
}
