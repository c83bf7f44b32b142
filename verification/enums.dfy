/**
 * The enumerations of the learning loop (project/models/enums.py and the
 * identical `IncidentType` of project/models/incident.py). Each enum member
 * carries the string value Python serialises it as; parsing a string back is
 * `IncidentType(s)`, which raises `ValueError` for anything that is not a
 * value — modelled as `None`.
 */
module Enums {
  import opened Wrappers

  /** States of the incident-by-incident learning loop. */
  datatype EvooState =
    | Idle | DetectingIncident | PlanningRemediation | ExecutingRemediation
    | EvaluatingOutcome | Learning | Completed | Failed

  function EvooStateName(s: EvooState): string
  {
    match s
    case Idle => "IDLE"
    case DetectingIncident => "DETECTING_INCIDENT"
    case PlanningRemediation => "PLANNING_REMEDIATION"
    case ExecutingRemediation => "EXECUTING_REMEDIATION"
    case EvaluatingOutcome => "EVALUATING_OUTCOME"
    case Learning => "LEARNING"
    case Completed => "COMPLETED"
    case Failed => "FAILED"
  }

  datatype IncidentType =
    | ServiceCrash | HighLatency | CpuSpike | MemoryLeak
    | NetworkDegradation | TimeoutMisconfiguration

  /** Declaration order, which is also `list(IncidentType)`. */
  const AllIncidentTypes: seq<IncidentType> :=
    [ServiceCrash, HighLatency, CpuSpike, MemoryLeak, NetworkDegradation, TimeoutMisconfiguration]

  function IncidentTypeName(t: IncidentType): string
  {
    match t
    case ServiceCrash => "service_crash"
    case HighLatency => "high_latency"
    case CpuSpike => "cpu_spike"
    case MemoryLeak => "memory_leak"
    case NetworkDegradation => "network_degradation"
    case TimeoutMisconfiguration => "timeout_misconfiguration"
  }

  /** `IncidentType(s)`: the member whose value is `s`, or `None` (`ValueError`). */
  function ParseIncidentType(s: string): (r: Option<IncidentType>)
    ensures r.Some? ==> IncidentTypeName(r.value) == s
    ensures r.None? ==> forall t :: IncidentTypeName(t) != s
  {
    if s == "service_crash" then Some(ServiceCrash)
    else if s == "high_latency" then Some(HighLatency)
    else if s == "cpu_spike" then Some(CpuSpike)
    else if s == "memory_leak" then Some(MemoryLeak)
    else if s == "network_degradation" then Some(NetworkDegradation)
    else if s == "timeout_misconfiguration" then Some(TimeoutMisconfiguration)
    else None
  }

  /** Values are pairwise distinct, so a name determines its member. */
  lemma IncidentTypeNameInjective(a: IncidentType, b: IncidentType)
    requires IncidentTypeName(a) == IncidentTypeName(b)
    ensures a == b
  {
    var r := ParseIncidentType(IncidentTypeName(a));
    assert r.Some?;
  }

  lemma ParseIncidentTypeRoundTrip(t: IncidentType)
    ensures ParseIncidentType(IncidentTypeName(t)) == Some(t)
  {
    var r := ParseIncidentType(IncidentTypeName(t));
    assert r.Some?;
    IncidentTypeNameInjective(r.value, t);
  }

  datatype IncidentSeverity = Low | Medium | High | Critical

  function SeverityName(s: IncidentSeverity): string
  {
    match s
    case Low => "low"
    case Medium => "medium"
    case High => "high"
    case Critical => "critical"
  }

  datatype RemediationActionType =
    | RestartService | ScaleHorizontal | ScaleVertical | ChangeTimeout
    | RollbackDeployment | ClearCache | RebalanceLoad

  function ActionTypeName(a: RemediationActionType): string
  {
    match a
    case RestartService => "restart_service"
    case ScaleHorizontal => "scale_horizontal"
    case ScaleVertical => "scale_vertical"
    case ChangeTimeout => "change_timeout"
    case RollbackDeployment => "rollback_deployment"
    case ClearCache => "clear_cache"
    case RebalanceLoad => "rebalance_load"
  }

  /** `RemediationActionType(s)`, `None` for a string that is not a value. */
  function ParseActionType(s: string): (r: Option<RemediationActionType>)
    ensures r.Some? ==> ActionTypeName(r.value) == s
    ensures r.None? ==> forall a :: ActionTypeName(a) != s
  {
    if s == "restart_service" then Some(RestartService)
    else if s == "scale_horizontal" then Some(ScaleHorizontal)
    else if s == "scale_vertical" then Some(ScaleVertical)
    else if s == "change_timeout" then Some(ChangeTimeout)
    else if s == "rollback_deployment" then Some(RollbackDeployment)
    else if s == "clear_cache" then Some(ClearCache)
    else if s == "rebalance_load" then Some(RebalanceLoad)
    else None
  }

  /** States of the per-run agent loop (project/state_machines/evoo_agent.py). */
  datatype AgentState =
    | WaitingForIncident | AgentPlanning | AgentExecuting | AgentEvaluating
    | UpdatingStrategy | AgentCompleted | AgentFailed

  function AgentStateName(s: AgentState): string
  {
    match s
    case WaitingForIncident => "waiting_for_incident"
    case AgentPlanning => "planning_remediation"
    case AgentExecuting => "executing_remediation"
    case AgentEvaluating => "evaluating_outcome"
    case UpdatingStrategy => "updating_strategy"
    case AgentCompleted => "completed"
    case AgentFailed => "failed"
  }
}
