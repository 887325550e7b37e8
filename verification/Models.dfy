// The records and enumerations the control plane passes around.
module Models {

  datatype Option<+T> = None | Some(value: T)

  datatype ExecutionState =
    | Created | Validating | ScopeCheck | AuthorizationCheck | RiskAssessment
    | WaitingForApproval | Approved | Planned | Dispatched | Running | Executing
    | CollectingEvidence | ValidatingResult | Reporting
    | Completed | Blocked | Failed | TimedOut | Cancelled

  datatype Tier = Low | Medium | High | Critical

  function TierRank(t: Tier): nat {
    match t
    case Low => 0
    case Medium => 1
    case High => 2
    case Critical => 3
  }

  predicate RequiresApproval(t: Tier) {
    TierRank(t) >= TierRank(High)
  }

  // Raising an assessed tier to the floor of the registered tool.
  function Floored(assessed: Tier, floor: Tier): Tier {
    if TierRank(assessed) < TierRank(floor) then floor else assessed
  }

  datatype Outcome =
    | SuccessWithFindings | SuccessNoFindings | BlockedPolicy | DeniedAuthorization
    | ApprovalIsRequired | ApprovalHasExpired | ApprovalIsInvalid | ToolIsUnavailable | ToolHasFailed
    | Timeout | InvalidScope | OutputInvalid | Inconclusive | RateIsLimited | InputInvalid
    | SandboxUnavailable | NetworkIsDenied | InternalError

  // What component calls may raise: the typed failures, the library failures the
  // engine catches, and anything else (an interrupt, say), which it does not.
  datatype Fault =
    | ScopeDenied | ScopeUnknown | AuthorizationDenied
    | ApprovalRequired | ApprovalExpired | ApprovalInvalid | SelfApprovalDenied
    | ToolUnavailable | ToolUnknown | ToolExecutionFailed | ToolTimeout
    | SandboxFailure | NetworkDenied | RateLimited | InvalidInput | InvalidOutput
    | EvidenceValidationFailed | ConfigurationInvalid | PolicyDenied
    | OsError | StoreError | RuntimeFault | ValueFault | TypeFault
    | Uncaught

  datatype Request = Request(
    id: string, requester: string, action: string, target: string, tool: string, purpose: string,
    parameters: string, approvalToken: string, grantId: string)

  // A capability grant, bound to principal, target, action, purpose and time.
  datatype Grant = Grant(
    principal: string, role: string, capability: string, action: string, targetPattern: string,
    purpose: string, privileges: seq<string>, validFrom: real, validUntil: real)

  predicate ActiveAt(g: Grant, moment: real) {
    g.validFrom <= moment <= g.validUntil
  }

  datatype ApprovalState = Pending | Granted | Rejected | Expired | Revoked

  datatype Approval = Approval(
    fingerprint: string, action: string, target: string, tier: Tier, requester: string,
    scopeDigest: string, state: ApprovalState, expiresAt: real,
    approver: Option<string>, decidedAt: Option<real>, reason: string)

  // What a call returns or raises.
  datatype Reply<+T> = Value(value: T) | Raised(fault: Fault) {
    predicate IsFailure() {
      Raised?
    }

    function PropagateFailure<U>(): Reply<U>
      requires Raised?
    {
      Raised(fault)
    }

    function Extract(): T
      requires Value?
    {
      value
    }
  }
}
