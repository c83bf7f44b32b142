/**
 * The learning-loop memory records of `project/models/experience.py`: one
 * remediation experience, the per-(incident type, strategy) performance
 * record with its bounded reward history, and the memory summary's derived
 * learning status. Wall-clock times are integers supplied by the caller.
 */
module ExperienceModel {
  import opened Wrappers
  import opened Enums
  import IncidentModel

  type SystemMetrics = IncidentModel.SystemMetrics
  type RemediationStrategy = IncidentModel.RemediationStrategy

  /**
   * One stored remediation outcome. The strategy is kept as the name string
   * the loop hands over; the free-form tool results and parameters are not
   * modelled.
   */
  datatype Experience = Experience(
    id: string,
    incidentType: IncidentType,
    incidentSeverity: string,
    metricsBefore: SystemMetrics,
    strategyUsed: string,
    toolsCalled: seq<string>,
    metricsAfter: SystemMetrics,
    recoveryTimeSeconds: real,
    serviceRestored: bool,
    infrastructureCost: real,
    reward: real,
    rewardBreakdown: map<string, real>,
    llmEvaluation: string,
    llmVerdict: string,
    llmScore: int,
    success: bool,
    timestamp: Option<int>,
    runIndex: int,
    isExploratory: bool)

  const DefaultExperience := Experience(
    "", ServiceCrash, "medium", IncidentModel.DefaultMetrics, "restart_service", [],
    IncidentModel.DefaultMetrics, 0.0, false, 1.0, 0.0, map[], "", "unknown", 0, false, None, 0, false)

  /** The field constraints the record's validators impose. */
  predicate ValidExperience(e: Experience)
  {
    e.recoveryTimeSeconds >= 0.0 && e.infrastructureCost >= 0.0
    && 0 <= e.llmScore <= 10 && e.runIndex >= 0
  }

  /** The weighted metric improvement behind `effectiveness`, before its +0.5 offset. */
  function WeightedImprovement(before: SystemMetrics, after: SystemMetrics): real
  {
    (after.availability - before.availability) * 0.4
    + (before.errorRate - after.errorRate) * 0.3
    + (before.latencyMs - after.latencyMs) / Max(before.latencyMs, 1.0) * 0.3
  }

  /** `Experience.effectiveness`: a 0-1 score of how much the metrics improved. */
  function Effectiveness(e: Experience): (r: real)
    ensures 0.0 <= r <= 1.0
    ensures e.metricsBefore.availability <= 0.0 ==> r == 0.0
    ensures e.metricsBefore.availability > 0.0 && WeightedImprovement(e.metricsBefore, e.metricsAfter) >= 0.5 ==> r == 1.0
    ensures e.metricsBefore.availability > 0.0 && WeightedImprovement(e.metricsBefore, e.metricsAfter) <= -0.5 ==> r == 0.0
  {
    if e.metricsBefore.availability <= 0.0 then 0.0
    else Clamp(WeightedImprovement(e.metricsBefore, e.metricsAfter) + 0.5, 0.0, 1.0)
  }

  /** A remediation that changed nothing scores exactly the midpoint. */
  lemma EffectivenessOfNoChange(e: Experience)
    requires e.metricsBefore.availability > 0.0 && e.metricsAfter == e.metricsBefore
    ensures Effectiveness(e) == 0.5
  {
  }

  /** Better availability afterwards never lowers effectiveness. */
  lemma EffectivenessMonotoneInAvailability(e: Experience, a: real)
    requires a >= e.metricsAfter.availability
    ensures Effectiveness(e) <= Effectiveness(e.(metricsAfter := e.metricsAfter.(availability := a)))
  {
  }

  /** How many rewards a record's history retains. */
  const HistoryLimit: nat := 20

  /** `xs[-n:]` for a list that may be shorter than `n`. */
  function LastN(xs: seq<real>, n: nat): (r: seq<real>)
    ensures |r| == if |xs| <= n then |xs| else n
  {
    if |xs| <= n then xs else xs[|xs| - n..]
  }

  /** `StrategyRecord` of the experience model. */
  datatype HistoryRecord = HistoryRecord(
    incidentType: IncidentType,
    strategy: RemediationStrategy,
    totalUses: int,
    totalReward: real,
    successCount: int,
    failureCount: int,
    averageReward: real,
    successRate: real,
    averageRecoveryTime: real,
    totalRecoveryTime: real,
    lastUsed: Option<int>,
    firstUsed: Option<int>,
    rewardsHistory: seq<real>)

  function NewHistoryRecord(t: IncidentType, s: RemediationStrategy): HistoryRecord
  {
    HistoryRecord(t, s, 0, 0.0, 0, 0, 0.0, 0.0, 0.0, 0.0, None, None, [])
  }

  /** What every record keeps true from the zero defaults onward. */
  predicate HistoryConsistent(r: HistoryRecord)
  {
    r.successCount >= 0 && r.failureCount >= 0
    && r.totalUses == r.successCount + r.failureCount
    && (r.totalUses > 0 ==>
          r.averageReward == r.totalReward / r.totalUses as real
          && r.successRate == r.successCount as real / r.totalUses as real
          && r.averageRecoveryTime == r.totalRecoveryTime / r.totalUses as real)
    && 0.0 <= r.successRate <= 1.0
    && |r.rewardsHistory| <= HistoryLimit && |r.rewardsHistory| <= r.totalUses
    && (r.totalUses > 0 <==> r.firstUsed.Some?)
    && (r.lastUsed.Some? <==> r.firstUsed.Some?)
  }

  /** `StrategyRecord.update` at wall-clock time `now`. */
  function Update(r: HistoryRecord, reward: real, success: bool, recoveryTime: real, now: int): (u: HistoryRecord)
    requires r.totalUses >= 0
    ensures u.incidentType == r.incidentType && u.strategy == r.strategy
    ensures u.totalUses == r.totalUses + 1
    ensures u.totalReward == r.totalReward + reward
    ensures u.totalRecoveryTime == r.totalRecoveryTime + recoveryTime
    ensures success ==> u.successCount == r.successCount + 1 && u.failureCount == r.failureCount
    ensures !success ==> u.failureCount == r.failureCount + 1 && u.successCount == r.successCount
    ensures |u.rewardsHistory| <= HistoryLimit && |u.rewardsHistory| > 0
    ensures u.rewardsHistory[|u.rewardsHistory| - 1] == reward
    ensures |u.rewardsHistory| <= |r.rewardsHistory| + 1
    ensures u.rewardsHistory == (r.rewardsHistory + [reward])[|r.rewardsHistory| + 1 - |u.rewardsHistory|..]
    ensures |r.rewardsHistory| < HistoryLimit ==> u.rewardsHistory == r.rewardsHistory + [reward]
    ensures u.lastUsed == Some(now)
    ensures r.firstUsed.Some? ==> u.firstUsed == r.firstUsed
    ensures r.firstUsed.None? ==> u.firstUsed == Some(now)
  {
    var uses := r.totalUses + 1;
    var total := r.totalReward + reward;
    var recovery := r.totalRecoveryTime + recoveryTime;
    var successes := if success then r.successCount + 1 else r.successCount;
    var failures := if success then r.failureCount else r.failureCount + 1;
    HistoryRecord(
      r.incidentType, r.strategy, uses, total, successes, failures,
      total / uses as real, successes as real / uses as real, recovery / uses as real, recovery,
      Some(now), if r.firstUsed.None? then Some(now) else r.firstUsed,
      LastN(r.rewardsHistory + [reward], HistoryLimit))
  }

  lemma RatioInUnitInterval(a: int, n: int)
    requires 0 <= a <= n && n > 0
    ensures 0.0 <= a as real / n as real <= 1.0
  {
  }

  /** The update rule keeps the record consistent. */
  lemma UpdateKeepsConsistent(r: HistoryRecord, reward: real, success: bool, recoveryTime: real, now: int)
    requires HistoryConsistent(r)
    ensures HistoryConsistent(Update(r, reward, success, recoveryTime, now))
  {
    var u := Update(r, reward, success, recoveryTime, now);
    assert u.successRate == u.successCount as real / u.totalUses as real;
    RatioInUnitInterval(u.successCount, u.totalUses);
    assert |u.rewardsHistory| <= u.totalUses;
  }

  /** One call of `update`: its arguments and the time it ran. */
  datatype Use = Use(reward: real, success: bool, recoveryTime: real, now: int)

  function ReplayUses(t: IncidentType, s: RemediationStrategy, us: seq<Use>): (r: HistoryRecord)
    ensures r.totalUses == |us|
  {
    if |us| == 0 then NewHistoryRecord(t, s)
    else
      var u := us[|us| - 1];
      Update(ReplayUses(t, s, us[..|us| - 1]), u.reward, u.success, u.recoveryTime, u.now)
  }

  function UseRewards(us: seq<Use>): (r: seq<real>)
    ensures |r| == |us| && forall i :: 0 <= i < |us| ==> r[i] == us[i].reward
  {
    seq(|us|, i requires 0 <= i < |us| => us[i].reward)
  }

  /** Keeping the last n after one more append is the same as appending to everything and keeping the last n. */
  lemma LastNAppend(xs: seq<real>, x: real, n: nat)
    requires n > 0
    ensures LastN(LastN(xs, n) + [x], n) == LastN(xs + [x], n)
  {
  }

  lemma {:induction false} ReplayConsistent(t: IncidentType, s: RemediationStrategy, us: seq<Use>)
    ensures HistoryConsistent(ReplayUses(t, s, us))
  {
    if |us| > 0 {
      var u := us[|us| - 1];
      ReplayConsistent(t, s, us[..|us| - 1]);
      UpdateKeepsConsistent(ReplayUses(t, s, us[..|us| - 1]), u.reward, u.success, u.recoveryTime, u.now);
    }
  }

  lemma UseRewardsSnoc(us: seq<Use>)
    requires |us| > 0
    ensures UseRewards(us) == UseRewards(us[..|us| - 1]) + [us[|us| - 1].reward]
  {
  }

  lemma ReplayHistoryStep(t: IncidentType, s: RemediationStrategy, us: seq<Use>)
    requires |us| > 0
    ensures ReplayUses(t, s, us).rewardsHistory
      == LastN(ReplayUses(t, s, us[..|us| - 1]).rewardsHistory + [us[|us| - 1].reward], HistoryLimit)
  {
  }

  /** After any sequence of updates from a fresh record the history holds the most recent (at most 20) rewards, newest last. */
  lemma {:induction false} ReplayHistoryWindow(t: IncidentType, s: RemediationStrategy, us: seq<Use>)
    ensures ReplayUses(t, s, us).rewardsHistory == LastN(UseRewards(us), HistoryLimit)
  {
    if |us| > 0 {
      var pre := us[..|us| - 1];
      var u := us[|us| - 1];
      ReplayHistoryWindow(t, s, pre);
      ReplayHistoryStep(t, s, us);
      LastNAppend(UseRewards(pre), u.reward, HistoryLimit);
      UseRewardsSnoc(us);
    }
  }

  /** `first_used` is the time of the first update and `last_used` that of the latest. */
  lemma {:induction false} ReplayTimestamps(t: IncidentType, s: RemediationStrategy, us: seq<Use>)
    requires |us| > 0
    ensures ReplayUses(t, s, us).firstUsed == Some(us[0].now)
    ensures ReplayUses(t, s, us).lastUsed == Some(us[|us| - 1].now)
  {
    var pre := us[..|us| - 1];
    if |pre| > 0 {
      ReplayTimestamps(t, s, pre);
      assert pre[0] == us[0];
    }
  }

  function Square(d: real): (r: real)
    ensures r >= 0.0
  {
    if d >= 0.0 then d * d else (-d) * (-d)
  }

  /** Σ (x − m)² over the list. */
  function SquaredDeviations(xs: seq<real>, m: real): (r: real)
    ensures r >= 0.0
  {
    if |xs| == 0 then 0.0
    else SquaredDeviations(xs[..|xs| - 1], m) + Square(xs[|xs| - 1] - m)
  }

  /** `reward_variance`: the population variance of the retained rewards. */
  function RewardVariance(h: seq<real>): (v: real)
    ensures v >= 0.0
    ensures |h| < 2 ==> v == 0.0
  {
    if |h| < 2 then 0.0 else SquaredDeviations(h, Mean(h)) / |h| as real
  }

  lemma {:induction false} SumOfConstant(h: seq<real>, c: real)
    requires forall i :: 0 <= i < |h| ==> h[i] == c
    ensures Sum(h) == |h| as real * c
  {
    if |h| > 0 {
      SumOfConstant(h[..|h| - 1], c);
    }
  }

  lemma {:induction false} DeviationsFromConstant(h: seq<real>, c: real)
    requires forall i :: 0 <= i < |h| ==> h[i] == c
    ensures SquaredDeviations(h, c) == 0.0
  {
    if |h| > 0 {
      DeviationsFromConstant(h[..|h| - 1], c);
    }
  }

  /** Rewards that never vary have variance zero. */
  lemma ConstantRewardsHaveNoVariance(h: seq<real>, c: real)
    requires forall i :: 0 <= i < |h| ==> h[i] == c
    ensures RewardVariance(h) == 0.0
  {
    if |h| >= 2 {
      SumOfConstant(h, c);
      assert Mean(h) == c;
      DeviationsFromConstant(h, c);
    }
  }

  /** `confidence_score`: more uses, steadier rewards and more successes give more confidence. */
  function ConfidenceScore(r: HistoryRecord): (c: real)
    ensures r.totalUses == 0 ==> c == 0.0
    ensures r.totalUses >= 0 && 0.0 <= r.successRate <= 1.0 ==> 0.0 <= c <= 1.0
  {
    if r.totalUses == 0 then 0.0
    else
      var usage := Min(1.0, r.totalUses as real / 20.0);
      var variancePenalty := Min(1.0, RewardVariance(r.rewardsHistory) / 500.0);
      usage * 0.4 + (1.0 - variancePenalty) * 0.3 + r.successRate * 0.3
  }

  /** Every record the update rule can build has its confidence in [0, 1]. */
  lemma ConfidenceInUnitInterval(r: HistoryRecord)
    requires HistoryConsistent(r)
    ensures 0.0 <= ConfidenceScore(r) <= 1.0
  {
  }

  /** Twenty or more uses, all successful, with one repeated reward: full confidence. */
  lemma FullConfidence(r: HistoryRecord, c: real)
    requires r.totalUses >= 20 && r.successRate == 1.0
    requires forall i :: 0 <= i < |r.rewardsHistory| ==> r.rewardsHistory[i] == c
    ensures ConfidenceScore(r) == 1.0
  {
    ConstantRewardsHaveNoVariance(r.rewardsHistory, c);
  }

  /** `MemorySummary.learning_status` */
  datatype LearningStatus = WarmingUp | RapidlyImproving | Improving | Stable | NeedsAdjustment

  function LearningStatusName(s: LearningStatus): string
  {
    match s
    case WarmingUp => "warming_up"
    case RapidlyImproving => "rapidly_improving"
    case Improving => "improving"
    case Stable => "stable"
    case NeedsAdjustment => "needs_adjustment"
  }

  /** One ranked strategy of a summary's per-type ranking. */
  datatype RankEntry = RankEntry(strategy: string, avgReward: real, uses: nat)

  /**
   * `MemorySummary`. The best recovery time defaults to infinity, written
   * `None`; the std-dev, worst and per-type breakdown fields are never
   * filled in by the loop and are not modelled.
   */
  datatype MemorySummary = MemorySummary(
    totalExperiences: nat,
    totalRuns: nat,
    averageReward: real,
    bestReward: real,
    averageRecoveryTime: real,
    bestRecoveryTime: Option<real>,  // `None` stands for the default `float("inf")`
    overallSuccessRate: real,
    strategyRankings: map<IncidentType, seq<RankEntry>>,
    improvementTrend: seq<real>,
    earlyAverage: real,
    recentAverage: real,
    improvementDelta: real)

  const DefaultSummary := MemorySummary(0, 0, 0.0, 0.0, 0.0, None, 0.0, map[], [], 0.0, 0.0, 0.0)

  /** `is_improving` */
  predicate IsImproving(s: MemorySummary)
  {
    s.improvementDelta > 0.0
  }

  function Status(s: MemorySummary): (r: LearningStatus)
    ensures r == WarmingUp <==> s.totalRuns < 5
    ensures r == RapidlyImproving <==> s.totalRuns >= 5 && s.improvementDelta > 10.0
    ensures r == Improving <==> s.totalRuns >= 5 && 0.0 < s.improvementDelta <= 10.0
    ensures r == Stable <==> s.totalRuns >= 5 && -5.0 < s.improvementDelta <= 0.0
    ensures r == NeedsAdjustment <==> s.totalRuns >= 5 && s.improvementDelta <= -5.0
  {
    if s.totalRuns < 5 then WarmingUp
    else if s.improvementDelta > 10.0 then RapidlyImproving
    else if s.improvementDelta > 0.0 then Improving
    else if s.improvementDelta > -5.0 then Stable
    else NeedsAdjustment
  }

  /** Past the warm-up, the status reports improvement exactly when `is_improving` holds. */
  lemma StatusAgreesWithIsImproving(s: MemorySummary)
    requires s.totalRuns >= 5
    ensures Status(s) in {RapidlyImproving, Improving} <==> IsImproving(s)
  {
  }
}
