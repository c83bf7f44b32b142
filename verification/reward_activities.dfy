/**
 * The reward activity of `project/activities/reward_activities.py`
 * (`calculate_reward_activity`) and the heuristic verdict the LLM judge
 * activity falls back to (`_fallback_evaluation`). Parameters the caller
 * may leave out are `Option`s; `round(x, 2)` is the identity here.
 */
module RewardActivities {
  import opened Wrappers
  import opened EvaluationTools

  /** The activity's parameter dictionary. Absent metric dictionaries read as empty ones. */
  datatype RewardRequest = RewardRequest(
    metricsBefore: MetricsDict,
    metricsAfter: MetricsDict,
    recoveryTimeSeconds: Option<real>,
    serviceRestored: Option<bool>,
    infrastructureCost: Option<real>,
    strategyName: Option<string>,
    incidentType: Option<string>)

  datatype ActivityBreakdown = ActivityBreakdown(
    restoration: real,
    recoveryTimePenalty: real,
    costPenalty: real,
    errorRatePenalty: real,
    latencyBonus: real,
    availabilityBonus: real,
    scalingPenalty: real,
    cpuBonus: real)

  datatype ActivityReward = ActivityReward(reward: real, breakdown: ActivityBreakdown, serviceRestored: bool, recoveryTimeSeconds: real)

  /** Strategies that add capacity, and the incident types where added capacity is wasted. */
  const ScalingStrategies: set<string> := {"scale_horizontal", "combined_restart_scale", "combined_rollback_scale"}
  const ScalingMisfits: set<string> := {"timeout_misconfiguration", "memory_leak"}

  function ActivityTotal(b: ActivityBreakdown): real
  {
    b.restoration + b.recoveryTimePenalty + b.costPenalty + b.errorRatePenalty
    + b.latencyBonus + b.availabilityBonus + b.scalingPenalty + b.cpuBonus
  }

  /** `calculate_reward_activity` */
  function CalculateRewardActivity(q: RewardRequest): (r: ActivityReward)
    ensures r.reward == ActivityTotal(r.breakdown)
    ensures r.serviceRestored == q.serviceRestored.GetOr(false)
    ensures r.recoveryTimeSeconds == q.recoveryTimeSeconds.GetOr(120.0)
    ensures r.breakdown.restoration == if q.serviceRestored.GetOr(false) then 100.0 else -50.0
    ensures r.breakdown.recoveryTimePenalty == -0.5 * q.recoveryTimeSeconds.GetOr(120.0)
    ensures r.breakdown.costPenalty == -0.2 * q.infrastructureCost.GetOr(1.0)
    ensures 0.0 <= r.breakdown.latencyBonus <= 10.0
    ensures r.breakdown.availabilityBonus >= 0.0 && r.breakdown.cpuBonus >= 0.0
    ensures r.breakdown.scalingPenalty == -10.0 <==>
      (q.strategyName.GetOr("") in ScalingStrategies && q.incidentType.GetOr("") in ScalingMisfits)
    ensures r.breakdown.scalingPenalty == 0.0 || r.breakdown.scalingPenalty == -10.0
  {
    var before := q.metricsBefore;
    var after := q.metricsAfter;
    var restored := q.serviceRestored.GetOr(false);
    var recovery := q.recoveryTimeSeconds.GetOr(120.0);
    var b := ActivityBreakdown(
      if restored then 100.0 else -50.0,
      -(recovery * 0.5),
      -(q.infrastructureCost.GetOr(1.0) * 0.2),
      -(Get(after, "error_rate", 0.0) * 50.0),
      Min(Gain(Get(before, "latency_ms", 0.0) - Get(after, "latency_ms", 0.0)), 500.0) * 0.02,
      Gain(Get(after, "availability", 0.5) - Get(before, "availability", 0.5)) * 50.0,
      if q.strategyName.GetOr("") in ScalingStrategies && q.incidentType.GetOr("") in ScalingMisfits then -10.0 else 0.0,
      Gain(Get(before, "cpu_percent", 0.0) - Get(after, "cpu_percent", 0.0)) * 0.05);
    ActivityReward(ActivityTotal(b), b, restored, recovery)
  }

  /** Missing availability reads as 0.5 on both sides, so a reading on one side only is compared with 0.5. */
  lemma MissingAvailabilityIsHalf(q: RewardRequest)
    requires "availability" !in q.metricsBefore && "availability" !in q.metricsAfter
    ensures CalculateRewardActivity(q).breakdown.availabilityBonus == 0.0
  {
  }

  /** Leaving out recovery time, restoration and cost is the same as passing 120 s, not restored and cost 1.0. */
  lemma ActivityDefaults(q: RewardRequest)
    requires q.recoveryTimeSeconds.None? && q.serviceRestored.None? && q.infrastructureCost.None?
    ensures CalculateRewardActivity(q)
      == CalculateRewardActivity(q.(recoveryTimeSeconds := Some(120.0), serviceRestored := Some(false), infrastructureCost := Some(1.0)))
  {
  }

  /** A slower recovery never raises the activity's reward. */
  lemma ActivityRewardNonIncreasingInRecovery(q: RewardRequest, t1: real, t2: real)
    requires t1 <= t2
    ensures CalculateRewardActivity(q.(recoveryTimeSeconds := Some(t2))).reward
      <= CalculateRewardActivity(q.(recoveryTimeSeconds := Some(t1))).reward
  {
  }

  function ExampleRequest(strategy: string, incident: string): RewardRequest
  {
    RewardRequest(ExampleBefore, ExampleAfter, Some(28.5), Some(true), Some(0.0), Some(strategy), Some(incident))
  }

  /** The documented example, scored by the activity for a cache-and-rebalance fix of high latency: 102.75. */
  lemma ActivityWorkedExample()
    ensures CalculateRewardActivity(ExampleRequest("cache_and_rebalance", "high_latency")).reward == 102.75
  {
  }

  /** The same outcome for a horizontal scale-out of a memory leak loses the ten-point scaling penalty. */
  lemma ScalingPenaltyExample()
    ensures CalculateRewardActivity(ExampleRequest("scale_horizontal", "memory_leak")).reward == 92.75
  {
  }

  /** Unlike `calculate_reward`, the activity does not clamp: a large CPU drop pushes it past 200. */
  lemma ActivityNotClamped()
    ensures CalculateRewardActivity(RewardRequest(map["cpu_percent" := 5000.0], map[], Some(0.0), Some(true), Some(0.0), None, None)).reward > 200.0
  {
  }

  /** The fallback judge's verdict and score. */
  datatype Verdict = Excellent | Good | Adequate | Poor | Failed

  function VerdictName(v: Verdict): string
  {
    match v
    case Excellent => "excellent"
    case Good => "good"
    case Adequate => "adequate"
    case Poor => "poor"
    case Failed => "failed"
  }

  function VerdictScore(v: Verdict): int
  {
    match v
    case Excellent => 9
    case Good => 7
    case Adequate => 5
    case Poor => 3
    case Failed => 1
  }

  /** `_fallback_evaluation`: missing availability reads as 0, missing error rate as 1. */
  function FallbackVerdict(after: MetricsDict): (v: Verdict)
    ensures var a := Get(after, "availability", 0.0);
      var e := Get(after, "error_rate", 1.0);
      (v == Excellent <==> a >= 0.99 && e <= 0.01)
      && (v == Good <==> a >= 0.95 && !(a >= 0.99 && e <= 0.01))
      && (v == Adequate <==> 0.80 <= a < 0.95)
      && (v == Poor <==> 0.50 <= a < 0.80)
      && (v == Failed <==> a < 0.50)
  {
    var a := Get(after, "availability", 0.0);
    var e := Get(after, "error_rate", 1.0);
    if a >= 0.99 && e <= 0.01 then Excellent
    else if a >= 0.95 then Good
    else if a >= 0.80 then Adequate
    else if a >= 0.50 then Poor
    else Failed
  }

  /** Higher availability with no higher error rate never earns a lower fallback score. */
  lemma FallbackScoreMonotone(a1: MetricsDict, a2: MetricsDict)
    requires Get(a1, "availability", 0.0) <= Get(a2, "availability", 0.0)
    requires Get(a2, "error_rate", 1.0) <= Get(a1, "error_rate", 1.0)
    ensures VerdictScore(FallbackVerdict(a1)) <= VerdictScore(FallbackVerdict(a2))
  {
  }

  /** The judge's result: its own verdict and 0-10 score, or the heuristic one. */
  datatype JudgeResult = JudgeResult(status: string, score: int, verdict: string, modelUsed: string)

  /** `llm_evaluate_remediation_activity`: any failure to obtain a verdict falls back to the heuristic. */
  function JudgeOrFallback(llm: Option<(int, string)>, model: string, after: MetricsDict): (r: JudgeResult)
    ensures llm.None? ==>
      (r.status == "fallback" && r.modelUsed == "fallback_heuristic"
       && r.score == VerdictScore(FallbackVerdict(after)) && r.verdict == VerdictName(FallbackVerdict(after)))
    ensures llm.Some? ==> r.status == "success" && r.score == llm.value.0 && r.verdict == llm.value.1 && r.modelUsed == model
    ensures llm.None? ==> 1 <= r.score <= 9
  {
    match llm
    case None =>
      var v := FallbackVerdict(after);
      JudgeResult("fallback", VerdictScore(v), VerdictName(v), "fallback_heuristic")
    case Some((score, verdict)) => JudgeResult("success", score, verdict, model)
  }
}
