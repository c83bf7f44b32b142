/**
 * The service-metrics record of the learning loop and its weighted health
 * score (`project/models/incidents.py`).
 */
module Health {
  import opened Wrappers

  datatype Metrics = Metrics(
    latencyMs: real,
    cpuPercent: real,
    memoryPercent: real,
    errorRate: real,
    availability: real,
    recoveryTimeSeconds: real,
    activeInstances: int,
    requestsPerSecond: real,
    timeoutMs: int,
    cacheHitRate: real)

  const DefaultMetrics := Metrics(50.0, 30.0, 40.0, 0.01, 0.999, 0.0, 2, 100.0, 5000, 0.8)

  const LatencyWeight: real := 0.25
  const CpuWeight: real := 0.15
  const MemoryWeight: real := 0.15
  const ErrorWeight: real := 0.25
  const AvailabilityWeight: real := 0.20

  predicate Plausible(m: Metrics)
  {
    m.latencyMs >= 0.0 && m.cpuPercent >= 0.0 && m.memoryPercent >= 0.0
    && m.errorRate >= 0.0 && 0.0 <= m.availability <= 1.0
  }

  /** Weighted blend of five per-dimension scores, 0 worst and 1 best. */
  function HealthScore(m: Metrics): (r: real)
    ensures Plausible(m) ==> 0.0 <= r <= 1.0
  {
    Max(0.0, 1.0 - m.latencyMs / 5000.0) * LatencyWeight
    + Max(0.0, 1.0 - m.cpuPercent / 100.0) * CpuWeight
    + Max(0.0, 1.0 - m.memoryPercent / 100.0) * MemoryWeight
    + Max(0.0, 1.0 - m.errorRate) * ErrorWeight
    + m.availability * AvailabilityWeight
  }

  /** The weights sum to one, so a perfect snapshot scores exactly 1. */
  lemma PerfectScoresOne(m: Metrics)
    requires m.latencyMs == 0.0 && m.cpuPercent == 0.0 && m.memoryPercent == 0.0
    requires m.errorRate == 0.0 && m.availability == 1.0
    ensures LatencyWeight + CpuWeight + MemoryWeight + ErrorWeight + AvailabilityWeight == 1.0
    ensures HealthScore(m) == 1.0
  {
  }

  /** Lower latency, cpu, memory and error rate and higher availability never lower the score. */
  lemma HealthScoreMonotone(worse: Metrics, better: Metrics)
    requires better.latencyMs <= worse.latencyMs && better.cpuPercent <= worse.cpuPercent
    requires better.memoryPercent <= worse.memoryPercent && better.errorRate <= worse.errorRate
    requires better.availability >= worse.availability
    ensures HealthScore(worse) <= HealthScore(better)
  {
  }

  lemma DefaultHealth()
    ensures HealthScore(DefaultMetrics) == 0.8898
    ensures HealthScore(DefaultMetrics) >= 0.7
  {
  }
}
