/**
 * The metric record, strategy enumeration and incident record of the
 * remediation domain model (`project/models/incident.py`).
 */
module IncidentModel {
  import opened Wrappers
  import Enums
  type IncidentType = Enums.IncidentType
  type IncidentSeverity = Enums.IncidentSeverity

  /** One snapshot of the service; `timestamp` is not modelled. */
  datatype SystemMetrics = SystemMetrics(
    latencyMs: real,
    cpuPercent: real,
    memoryPercent: real,
    errorRate: real,
    availability: real,
    recoveryTimeSeconds: real,
    activeInstances: int,
    timeoutMs: int)

  const DefaultMetrics := SystemMetrics(0.0, 0.0, 0.0, 0.0, 1.0, 0.0, 1, 30000)

  /** The field constraints the record's validators impose. */
  predicate WithinFieldBounds(m: SystemMetrics)
  {
    0.0 <= m.cpuPercent <= 100.0 && 0.0 <= m.memoryPercent <= 100.0
    && 0.0 <= m.errorRate <= 1.0 && 0.0 <= m.availability <= 1.0
    && m.recoveryTimeSeconds >= 0.0 && m.activeInstances >= 1 && m.timeoutMs >= 1000
  }

  predicate IsHealthy(m: SystemMetrics)
  {
    m.availability >= 0.95 && m.errorRate <= 0.05 && m.latencyMs < 500.0
    && m.cpuPercent < 80.0 && m.memoryPercent < 85.0
  }

  function LatencySeverity(m: SystemMetrics): real { Min(1.0, m.latencyMs / 10000.0) }

  function CpuSeverity(m: SystemMetrics): real
  {
    if m.cpuPercent > 80.0 then (m.cpuPercent - 80.0) / 20.0 else 0.0
  }

  function MemorySeverity(m: SystemMetrics): real
  {
    if m.memoryPercent > 85.0 then (m.memoryPercent - 85.0) / 15.0 else 0.0
  }

  /** Mean of five per-dimension severities; `round(_, 3)` is left out. */
  function SeverityScore(m: SystemMetrics): (r: real)
    ensures WithinFieldBounds(m) && m.latencyMs >= 0.0 ==> 0.0 <= r <= 1.0
  {
    ((1.0 - m.availability) + m.errorRate + LatencySeverity(m) + CpuSeverity(m) + MemorySeverity(m)) / 5.0
  }

  /** A healthy snapshot is almost free of severity: every term is small. */
  lemma HealthyHasLowSeverity(m: SystemMetrics)
    requires WithinFieldBounds(m) && IsHealthy(m)
    ensures SeverityScore(m) < 0.03
  {
  }

  /** Severity is zero exactly on a perfect snapshot. */
  lemma SeverityZeroIff(m: SystemMetrics)
    requires WithinFieldBounds(m) && m.latencyMs >= 0.0
    ensures SeverityScore(m) == 0.0 <==>
      (m.availability == 1.0 && m.errorRate == 0.0 && m.latencyMs == 0.0
       && m.cpuPercent <= 80.0 && m.memoryPercent <= 85.0)
  {
  }

  /** The five deltas `improvement_from` reports; positive means better. */
  datatype Improvement = Improvement(latency: real, cpu: real, memory: real, errorRate: real, availability: real)

  function ImprovementFrom(after: SystemMetrics, before: SystemMetrics): (r: Improvement)
    ensures after.latencyMs == before.latencyMs - r.latency
    ensures after.cpuPercent == before.cpuPercent - r.cpu
    ensures after.memoryPercent == before.memoryPercent - r.memory
    ensures after.errorRate == before.errorRate - r.errorRate
    ensures after.availability == before.availability + r.availability
  {
    Improvement(
      before.latencyMs - after.latencyMs,
      before.cpuPercent - after.cpuPercent,
      before.memoryPercent - after.memoryPercent,
      before.errorRate - after.errorRate,
      after.availability - before.availability)
  }

  predicate NoWorse(d: Improvement)
  {
    d.latency >= 0.0 && d.cpu >= 0.0 && d.memory >= 0.0 && d.errorRate >= 0.0 && d.availability >= 0.0
  }

  lemma ImprovementFromSelf(m: SystemMetrics)
    ensures ImprovementFrom(m, m) == Improvement(0.0, 0.0, 0.0, 0.0, 0.0)
  {
  }

  /** Swapping the two snapshots negates every delta. */
  lemma ImprovementAntisymmetric(a: SystemMetrics, b: SystemMetrics)
    ensures var d := ImprovementFrom(a, b); var e := ImprovementFrom(b, a);
      d.latency == -e.latency && d.cpu == -e.cpu && d.memory == -e.memory
      && d.errorRate == -e.errorRate && d.availability == -e.availability
  {
  }

  /** A change that worsens nothing keeps a healthy service healthy and does not raise severity. */
  lemma NoWorseKeepsHealth(after: SystemMetrics, before: SystemMetrics)
    requires NoWorse(ImprovementFrom(after, before))
    ensures IsHealthy(before) ==> IsHealthy(after)
    ensures SeverityScore(after) <= SeverityScore(before)
  {
  }

  datatype RemediationStrategy =
    | RestartService | ScaleHorizontal | ScaleVertical | ChangeTimeout
    | RollbackDeployment | ClearCache | RebalanceLoad
    | CombinedRestartScale | CombinedCacheRebalance | CombinedRollbackScale

  function StrategyName(s: RemediationStrategy): string
  {
    match s
    case RestartService => "restart_service"
    case ScaleHorizontal => "scale_horizontal"
    case ScaleVertical => "scale_vertical"
    case ChangeTimeout => "change_timeout"
    case RollbackDeployment => "rollback_deployment"
    case ClearCache => "clear_cache"
    case RebalanceLoad => "rebalance_load"
    case CombinedRestartScale => "combined_restart_scale"
    case CombinedCacheRebalance => "combined_cache_rebalance"
    case CombinedRollbackScale => "combined_rollback_scale"
  }

  const AllStrategies: seq<RemediationStrategy> := [
    RestartService, ScaleHorizontal, ScaleVertical, ChangeTimeout, RollbackDeployment,
    ClearCache, RebalanceLoad, CombinedRestartScale, CombinedCacheRebalance, CombinedRollbackScale]

  const SingleActionStrategies: seq<RemediationStrategy> := [
    RestartService, ScaleHorizontal, ScaleVertical, ChangeTimeout, RollbackDeployment,
    ClearCache, RebalanceLoad]

  const CombinedStrategies: seq<RemediationStrategy> := [
    CombinedRestartScale, CombinedCacheRebalance, CombinedRollbackScale]

  predicate IsCombined(s: RemediationStrategy)
  {
    s.CombinedRestartScale? || s.CombinedCacheRebalance? || s.CombinedRollbackScale?
  }

  /** The single-action and combined lists partition the ten strategies, and no list repeats one. */
  lemma StrategyPartition()
    ensures |AllStrategies| == 10 && |SingleActionStrategies| == 7 && |CombinedStrategies| == 3
    ensures forall s: RemediationStrategy :: s in AllStrategies
    ensures forall s :: s in SingleActionStrategies <==> !IsCombined(s)
    ensures forall s :: s in CombinedStrategies <==> IsCombined(s)
    ensures forall i, j :: 0 <= i < j < |AllStrategies| ==> AllStrategies[i] != AllStrategies[j]
  {
    forall s: RemediationStrategy ensures s in AllStrategies {
      match s
      case RestartService =>
      case ScaleHorizontal =>
      case ScaleVertical =>
      case ChangeTimeout =>
      case RollbackDeployment =>
      case ClearCache =>
      case RebalanceLoad =>
      case CombinedRestartScale =>
      case CombinedCacheRebalance =>
      case CombinedRollbackScale =>
    }
  }

  /** Relative infrastructure cost of a strategy. */
  function EstimatedCost(s: RemediationStrategy): (r: real)
    ensures 0.0 < r <= 3.5
    ensures IsCombined(s) ==> r >= 1.2
  {
    match s
    case RestartService => 1.0
    case ScaleHorizontal => 2.5
    case ScaleVertical => 2.0
    case ChangeTimeout => 0.5
    case RollbackDeployment => 1.5
    case ClearCache => 0.3
    case RebalanceLoad => 0.8
    case CombinedRestartScale => 3.0
    case CombinedCacheRebalance => 1.2
    case CombinedRollbackScale => 3.5
  }

  function SeverityRank(s: IncidentSeverity): nat
  {
    match s
    case Low => 0
    case Medium => 1
    case High => 2
    case Critical => 3
  }

  /** Urgency weight: higher severity, strictly higher weight, topping out at 1. */
  function PriorityWeight(s: IncidentSeverity): (r: real)
    ensures 0.0 < r <= 1.0
    ensures r == 1.0 <==> s == Enums.Critical
  {
    match s
    case Low => 0.25
    case Medium => 0.5
    case High => 0.75
    case Critical => 1.0
  }

  lemma PriorityWeightStrictlyIncreasing(a: IncidentSeverity, b: IncidentSeverity)
    ensures SeverityRank(a) < SeverityRank(b) <==> PriorityWeight(a) < PriorityWeight(b)
  {
  }

  /** The incident record; `detected_at` and `raw_data` are not modelled. */
  datatype Incident = Incident(
    id: string,
    incidentType: IncidentType,
    severity: string,
    affectedService: string,
    metricsAtDetection: SystemMetrics,
    description: string)

  const DefaultIncident := Incident("", Enums.ServiceCrash, "medium", "api-service", DefaultMetrics, "")

  /** Three distinct suggestions for every incident type. */
  function SuggestedStrategies(t: IncidentType): (r: seq<RemediationStrategy>)
    ensures |r| == 3
    ensures r[0] != r[1] && r[1] != r[2] && r[0] != r[2]
  {
    match t
    case ServiceCrash => [RestartService, RollbackDeployment, CombinedRestartScale]
    case HighLatency => [ScaleHorizontal, RebalanceLoad, ClearCache]
    case CpuSpike => [ScaleVertical, ScaleHorizontal, RestartService]
    case MemoryLeak => [RestartService, ClearCache, CombinedCacheRebalance]
    case NetworkDegradation => [RebalanceLoad, ScaleHorizontal, CombinedCacheRebalance]
    case TimeoutMisconfiguration => [ChangeTimeout, RollbackDeployment, CombinedRollbackScale]
  }
}
