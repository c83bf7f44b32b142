/**
 * The deterministic reward of `project/activities/evaluation_tools.py`
 * (`calculate_reward`) and the arithmetic `evaluate_remediation_with_llm`
 * applies to the judge's reply. Metric dictionaries are maps from key to
 * value; a missing key reads as 0.0. `round(x, 2)` is the identity here.
 */
module EvaluationTools {
  import opened Wrappers

  type MetricsDict = map<string, real>

  /** The per-term breakdown the activity reports next to the reward. */
  datatype Breakdown = Breakdown(
    baseRestoration: real,
    recoveryTimePenalty: real,
    costPenalty: real,
    errorRatePenalty: real,
    latencyBonus: real,
    availabilityBonus: real,
    cpuBonus: real,
    memoryBonus: real)

  datatype RewardResult = RewardResult(
    reward: real,
    breakdown: Breakdown,
    serviceRestored: bool,
    recoveryTimeSeconds: real,
    infrastructureCost: real)

  /** `max(0, x)`: an improvement that is really a worsening counts as none. */
  function Gain(x: real): (r: real)
    ensures r >= 0.0 && r >= x
    ensures x <= 0.0 ==> r == 0.0
  {
    if x > 0.0 then x else 0.0
  }

  /** The unclamped sum of the reward's terms. */
  function RawReward(b: Breakdown): real
  {
    b.baseRestoration + b.recoveryTimePenalty + b.costPenalty + b.errorRatePenalty
    + b.latencyBonus + b.availabilityBonus + b.cpuBonus + b.memoryBonus
  }

  /** `calculate_reward` */
  function CalculateReward(before: MetricsDict, after: MetricsDict, recoveryTime: real, cost: real, restored: bool): (r: RewardResult)
    ensures -100.0 <= r.reward <= 200.0
    ensures r.reward == Clamp(RawReward(r.breakdown), -100.0, 200.0)
    ensures r.breakdown.baseRestoration == if restored then 100.0 else 0.0
    ensures r.breakdown.recoveryTimePenalty == -0.5 * recoveryTime
    ensures r.breakdown.costPenalty == -0.2 * cost
    ensures r.breakdown.errorRatePenalty == -50.0 * Get(after, "error_rate", 0.0)
    ensures r.breakdown.latencyBonus >= 0.0 && r.breakdown.availabilityBonus >= 0.0
    ensures r.breakdown.cpuBonus >= 0.0 && r.breakdown.memoryBonus >= 0.0
    ensures r.serviceRestored == restored && r.recoveryTimeSeconds == recoveryTime && r.infrastructureCost == cost
  {
    var b := Breakdown(
      if restored then 100.0 else 0.0,
      -(recoveryTime * 0.5),
      -(cost * 0.2),
      -(Get(after, "error_rate", 0.0) * 50.0),
      Gain(Get(before, "latency_ms", 0.0) - Get(after, "latency_ms", 0.0)) * 0.1,
      Gain(Get(after, "availability", 0.0) - Get(before, "availability", 0.0)) * 100.0,
      Gain(Get(before, "cpu_percent", 0.0) - Get(after, "cpu_percent", 0.0)) * 0.3,
      Gain(Get(before, "memory_percent", 0.0) - Get(after, "memory_percent", 0.0)) * 0.3);
    RewardResult(Clamp(RawReward(b), -100.0, 200.0), b, restored, recoveryTime, cost)
  }

  /** A slower recovery, a costlier one or a higher remaining error rate never raises the reward. */
  lemma RewardNonIncreasing(before: MetricsDict, after: MetricsDict, t1: real, t2: real, c1: real, c2: real, e: real, restored: bool)
    requires t1 <= t2 && c1 <= c2 && e >= Get(after, "error_rate", 0.0)
    ensures CalculateReward(before, after["error_rate" := e], t2, c2, restored).reward
      <= CalculateReward(before, after, t1, c1, restored).reward
  {
  }

  /** A metric that got worse contributes exactly what an unchanged one would: nothing. */
  lemma WorseLatencyCostsNothing(before: MetricsDict, after: MetricsDict, x: real, t: real, c: real, restored: bool)
    requires x >= Get(before, "latency_ms", 0.0)
    ensures CalculateReward(before, after["latency_ms" := x], t, c, restored).reward
      == CalculateReward(before, after["latency_ms" := Get(before, "latency_ms", 0.0)], t, c, restored).reward
  {
  }

  /** Restoring the service is worth up to 100 more than not restoring it, never less. */
  lemma RestorationNeverHurts(before: MetricsDict, after: MetricsDict, t: real, c: real)
    ensures CalculateReward(before, after, t, c, false).reward <= CalculateReward(before, after, t, c, true).reward
    ensures CalculateReward(before, after, t, c, true).reward <= CalculateReward(before, after, t, c, false).reward + 100.0
  {
  }

  const ExampleBefore: MetricsDict := map[
    "latency_ms" := 850.0, "cpu_percent" := 45.0, "memory_percent" := 60.0,
    "error_rate" := 0.15, "availability" := 0.85]
  const ExampleAfter: MetricsDict := map[
    "latency_ms" := 120.0, "cpu_percent" := 35.0, "memory_percent" := 55.0,
    "error_rate" := 0.01, "availability" := 0.99]

  /** The documented example: a restored service recovering in 28.5 s at no cost scores 176.75. */
  lemma WorkedExample()
    ensures CalculateReward(ExampleBefore, ExampleAfter, 28.5, 0.0, true).reward == 176.75
  {
  }

  /** The `reward_adjustment` field of a parsed judge reply. */
  datatype AdjustmentField = Missing | Number(value: real) | NotANumber

  /** What the judge returned: unparseable text, or a JSON object. */
  datatype JudgeReply = Unparseable | Parsed(assessment: Option<string>, adjustment: AdjustmentField)

  datatype LlmEvaluation = LlmEvaluation(assessment: string, rewardAdjustment: real, originalReward: real, adjustedReward: real)

  /**
   * The reward arithmetic of `evaluate_remediation_with_llm`. `None` is any
   * failure to obtain a reply; a non-numeric adjustment makes the addition
   * raise, which lands in the same fallback.
   */
  function JudgeAdjustment(reply: Option<JudgeReply>, numericalReward: real): (r: LlmEvaluation)
    ensures r.originalReward == numericalReward
    ensures r.adjustedReward == numericalReward + r.rewardAdjustment
    ensures reply.None? ==> r.assessment == "unable_to_evaluate" && r.adjustedReward == numericalReward
    ensures reply == Some(Unparseable) ==> r.assessment == "unknown" && r.rewardAdjustment == 0.0
    ensures reply.Some? && reply.value.Parsed? && reply.value.adjustment.Number? ==>
      r.rewardAdjustment == reply.value.adjustment.value
    ensures reply.Some? && reply.value.Parsed? && reply.value.adjustment.NotANumber? ==>
      r.assessment == "unable_to_evaluate" && r.adjustedReward == numericalReward
  {
    match reply
    case None => LlmEvaluation("unable_to_evaluate", 0.0, numericalReward, numericalReward)
    case Some(Unparseable) => LlmEvaluation("unknown", 0.0, numericalReward, numericalReward)
    case Some(Parsed(assessment, adjustment)) =>
      match adjustment
      case Missing => LlmEvaluation(assessment.GetOr("unknown"), 0.0, numericalReward, numericalReward)
      case Number(a) => LlmEvaluation(assessment.GetOr("unknown"), a, numericalReward, numericalReward + a)
      case NotANumber => LlmEvaluation("unable_to_evaluate", 0.0, numericalReward, numericalReward)
  }

  /** The adjustment is not clamped: a judge can move the reward by any amount. */
  lemma AdjustmentUnclamped(numericalReward: real, a: real)
    ensures JudgeAdjustment(Some(Parsed(None, Number(a))), numericalReward).adjustedReward - numericalReward == a
  {
  }
}
