/** The typed values that cross component boundaries. */
module Contracts {
  datatype AbortReason =
    | BaselineUnhealthy
    | SloBreach
    | BudgetExceeded
    | UserKill
    | BlastRadiusViolation
    | ClusterDenied
    | ApprovalRejected
    | AgentFailure

  datatype ExperimentState =
    | INITIALIZING
    | BASELINE
    | BASELINE_OK
    | BASELINE_FAIL
    | INJECT
    | INJECTED
    | INJECT_FAILED
    | VERIFY
    | STEADY
    | REGRESSED
    | DIAGNOSE
    | DIAGNOSED
    | PROPOSE_FIX
    | FIX_PROPOSED
    | FIX_DECLINED
    | PAUSED
    | ABORTED
    | RECORDED

  datatype FaultSpec = FaultSpec(name: string, durationSeconds: nat)

  datatype SafetyConstraints = SafetyConstraints(clusterContext: string, namespace: string, maxDurationSeconds: nat,
                                                 allowMultiFault: bool, requireAnnotation: bool, forbidden: seq<string>)

  datatype TokenBudget = TokenBudget(softCap: real, hardCap: real, wallClockSeconds: real)

  datatype TesterReport = TesterReport(steady: bool)

  /** The findings that count, and whether the bill of materials drifted. */
  datatype SecurityReport = SecurityReport(criticalOrHigh: bool, drifted: bool)

  datatype ChaosTimeline = ChaosTimeline(success: bool)
}
