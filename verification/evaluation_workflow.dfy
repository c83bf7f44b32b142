/**
 * The evaluation state of the learning loop
 * (`project/workflows/evaluation/evaluation_workflow.py`): compute the
 * numerical reward of the cycle, have it judged, store both and go on to
 * learning. When anything raises, the rewards are zeroed and the loop
 * learns from what it has.
 *
 * The judge's reply and the point at which something raised (an activity
 * timing out, a chat message failing) are an oracle.
 */
module EvaluationWorkflow {
  import opened Wrappers
  import opened Enums
  import opened EvooMachine
  import EvaluationTools

  const BreakdownKeys: seq<string> := [
    "base_restoration", "recovery_time_penalty", "cost_penalty", "error_rate_penalty",
    "latency_bonus", "availability_bonus", "cpu_bonus", "memory_bonus"]

  /** The `breakdown` object of the reward's JSON, as the record keeps it. */
  function BreakdownMap(b: EvaluationTools.Breakdown): (r: map<string, real>)
    ensures r.Keys == set k | k in BreakdownKeys
  {
    map["base_restoration" := b.baseRestoration, "recovery_time_penalty" := b.recoveryTimePenalty,
        "cost_penalty" := b.costPenalty, "error_rate_penalty" := b.errorRatePenalty,
        "latency_bonus" := b.latencyBonus, "availability_bonus" := b.availabilityBonus,
        "cpu_bonus" := b.cpuBonus, "memory_bonus" := b.memoryBonus]
  }

  /** Reads a breakdown back from a dictionary; a missing key reads as 0. */
  function BreakdownOf(m: map<string, real>): EvaluationTools.Breakdown
  {
    EvaluationTools.Breakdown(
      Get(m, "base_restoration", 0.0), Get(m, "recovery_time_penalty", 0.0),
      Get(m, "cost_penalty", 0.0), Get(m, "error_rate_penalty", 0.0),
      Get(m, "latency_bonus", 0.0), Get(m, "availability_bonus", 0.0),
      Get(m, "cpu_bonus", 0.0), Get(m, "memory_bonus", 0.0))
  }

  /** The stored breakdown loses nothing: reading it back gives every term. */
  lemma BreakdownRoundTrip(b: EvaluationTools.Breakdown)
    ensures BreakdownOf(BreakdownMap(b)) == b
  {
  }

  /** Where the `try` block raised: before the reward was stored, after it, or after the judge's verdict too (the closing message). */
  datatype Stage = CalculatingReward | Judging | Reporting

  /** The judge's reply as `evaluate_remediation_with_llm` saw it, and what raised where, if anything did. */
  datatype Oracle = Oracle(judge: Option<EvaluationTools.JudgeReply>, raised: Option<(Stage, string)>)

  const EvaluationFailedAssessment := "evaluation_failed"

  /** Only the evaluation fields and the error message may differ between `a` and `b`. */
  predicate OutsideEvaluation(a: EvooData, b: EvooData)
  {
    SameLoopFields(a, b)
    && a.currentIncidentId == b.currentIncidentId && a.currentIncidentType == b.currentIncidentType
    && a.currentIncidentSeverity == b.currentIncidentSeverity && a.incidentDescription == b.incidentDescription
    && a.metricsBefore == b.metricsBefore && a.metricsAfter == b.metricsAfter
    && a.selectedStrategy == b.selectedStrategy && a.strategyDetails == b.strategyDetails
    && a.planningReasoning == b.planningReasoning && a.planningConfidence == b.planningConfidence
    && a.isExploration == b.isExploration
    && a.actionsExecuted == b.actionsExecuted && a.toolsCalled == b.toolsCalled
    && a.executionResults == b.executionResults
    && a.totalRecoveryTime == b.totalRecoveryTime && a.totalCost == b.totalCost
    && a.serviceRestored == b.serviceRestored
    && a.experienceStored == b.experienceStored && a.strategyRankingsUpdated == b.strategyRankingsUpdated
    && a.retryCount == b.retryCount
  }

  /** `calculate_reward` on the record's own measurements. */
  function RewardOf(d: EvooData): EvaluationTools.RewardResult
  {
    EvaluationTools.CalculateReward(d.metricsBefore, d.metricsAfter, d.totalRecoveryTime, d.totalCost, d.serviceRestored)
  }

  /** The record after the reward and its breakdown are stored. */
  function WithReward(d: EvooData): (r: EvooData)
    ensures OutsideEvaluation(d, r) && r.errorMessage == d.errorMessage
    ensures r.llmEvaluation == d.llmEvaluation && r.adjustedReward == d.adjustedReward
  {
    var res := RewardOf(d);
    d.(reward := res.reward, rewardBreakdown := BreakdownMap(res.breakdown))
  }

  /** The record after the judge's assessment and adjusted reward are stored as well. */
  function WithJudgement(d: EvooData, judge: Option<EvaluationTools.JudgeReply>): (r: EvooData)
    ensures OutsideEvaluation(d, r) && r.errorMessage == d.errorMessage
  {
    var e := EvaluationTools.JudgeAdjustment(judge, RewardOf(d).reward);
    WithReward(d).(llmEvaluation := e.assessment, adjustedReward := e.adjustedReward)
  }

  /** The `except` branch, applied to the record as it was when the exception came. */
  function AfterFailure(d: EvooData, error: string): (r: EvooData)
    ensures OutsideEvaluation(d, r) && r.rewardBreakdown == d.rewardBreakdown
  {
    d.(reward := 0.0, adjustedReward := 0.0, llmEvaluation := EvaluationFailedAssessment,
       errorMessage := "Evaluation failed: " + error)
  }

  /** Whether the raise the oracle names happens: the closing message is sent only with a task. */
  predicate RaisesFor(d: EvooData, o: Oracle)
  {
    o.raised.Some? && (o.raised.value.0 != Reporting || d.taskId.Some?)
  }

  /** `EvaluationWorkflow.execute` */
  function Evaluate(data: Option<EvooData>, o: Oracle): (r: Transition)
    ensures data.None? ==> r == Transition(Failed, None)
    ensures data.Some? ==> r.next == Learning && r.data.Some? && OutsideEvaluation(data.value, r.data.value)
    ensures data.Some? && RaisesFor(data.value, o) ==>
      (r.data.value.reward == 0.0 && r.data.value.adjustedReward == 0.0
       && r.data.value.llmEvaluation == EvaluationFailedAssessment
       && r.data.value.errorMessage == "Evaluation failed: " + o.raised.value.1)
  {
    match data
    case None => Transition(Failed, None)
    case Some(d) =>
      if RaisesFor(d, o) then
        var (stage, error) := o.raised.value;
        var at := match stage
          case CalculatingReward => d
          case Judging => WithReward(d)
          case Reporting => WithJudgement(d, o.judge);
        Transition(Learning, Some(AfterFailure(at, error)))
      else Transition(Learning, Some(WithJudgement(d, o.judge)))
  }

  /**
   * An evaluation that does not raise stores the reward `calculate_reward`
   * computes from the record's own measurements, within its bounds, with
   * its full breakdown, and the judge's adjustment on top of it.
   */
  lemma EvaluationStoresReward(d: EvooData, o: Oracle)
    requires !RaisesFor(d, o)
    ensures var r := Evaluate(Some(d), o).data.value;
      var res := EvaluationTools.CalculateReward(d.metricsBefore, d.metricsAfter, d.totalRecoveryTime, d.totalCost, d.serviceRestored);
      r.reward == res.reward && -100.0 <= r.reward <= 200.0
      && BreakdownOf(r.rewardBreakdown) == res.breakdown
      && r.adjustedReward == r.reward + EvaluationTools.JudgeAdjustment(o.judge, r.reward).rewardAdjustment
      && r.errorMessage == d.errorMessage
  {
    BreakdownRoundTrip(RewardOf(d).breakdown);
  }

  /** Without a judge the adjusted reward is the numerical one. */
  lemma UnjudgedRewardStands(d: EvooData, raised: Option<(Stage, string)>)
    requires !RaisesFor(d, Oracle(None, raised))
    ensures var r := Evaluate(Some(d), Oracle(None, raised)).data.value;
      r.adjustedReward == r.reward && r.llmEvaluation == "unable_to_evaluate"
  {
  }

  /**
   * A failure after the reward was stored zeroes the reward but keeps the
   * computed breakdown, so the stored terms no longer add up to the stored
   * reward whenever the computed reward was not 0.
   */
  lemma LateFailureKeepsBreakdown(d: EvooData, judge: Option<EvaluationTools.JudgeReply>, stage: Stage, error: string)
    requires stage != CalculatingReward && d.taskId.Some?
    ensures var r := Evaluate(Some(d), Oracle(judge, Some((stage, error)))).data.value;
      r.reward == 0.0 && BreakdownOf(r.rewardBreakdown) == RewardOf(d).breakdown
  {
    BreakdownRoundTrip(RewardOf(d).breakdown);
  }

  /** An early failure keeps the breakdown the record had, which after a reset is empty. */
  lemma EarlyFailureKeepsOldBreakdown(d: EvooData, judge: Option<EvaluationTools.JudgeReply>, error: string)
    ensures var r := Evaluate(Some(d), Oracle(judge, Some((CalculatingReward, error)))).data.value;
      r.rewardBreakdown == d.rewardBreakdown && r.reward == 0.0
  {
  }
}
