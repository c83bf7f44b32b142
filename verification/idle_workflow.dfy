/**
 * The IDLE state of the learning loop (`project/workflows/idle/idle_workflow.py`):
 * complete once the incident budget is spent, otherwise clear the record
 * for a new cycle and go on to detection. Also the two classifications the
 * state reports: the phase named in the banner at the start of a cycle and
 * the verdict of the final evolution report.
 */
module IdleWorkflow {
  import opened Wrappers
  import opened Enums
  import opened EvooMachine
  import ExperienceStore
  import StrategyManager

  /** The phase the banner at the start of a cycle names. */
  datatype Phase = ExplorationPhase | LearningPhase | OptimizationPhase

  /** `_send_cycle_banner`'s phase ladder; the rate is the manager's epsilon, or 0.3 when there is no manager. */
  function PhaseOf(nextCycle: int, explorationRate: real): (p: Phase)
    ensures p == ExplorationPhase <==> nextCycle <= 3
    ensures p == OptimizationPhase <==> nextCycle > 3 && explorationRate <= 0.15
  {
    if nextCycle <= 3 then ExplorationPhase
    else if explorationRate > 0.15 then LearningPhase
    else OptimizationPhase
  }

  /**
   * A manager whose epsilon floor lies above 0.15 never lets the banner
   * announce the optimization phase, whatever selections, successes and
   * failures it sees.
   */
  lemma HighFloorNeverOptimizes(m: StrategyManager.Manager, es: seq<StrategyManager.Event>, nextCycle: int)
    requires StrategyManager.EpsilonFloor(m) && m.minEpsilon > 0.15
    ensures PhaseOf(nextCycle, StrategyManager.Run(m, es).epsilon) != OptimizationPhase
  {
    StrategyManager.EpsilonNeverBelowFloor(m, es);
  }

  /** The verdict at the foot of the final evolution report. */
  datatype EvolutionVerdict = ClearImprovement | ModestImprovement | NeedsTuning | NotEnoughData

  /** Mean of the later half of the rewards against the earlier half; with an odd count the later half is the longer. */
  function FinalVerdict(rewards: seq<real>): (v: EvolutionVerdict)
    ensures v == NotEnoughData <==> |rewards| < 4
    ensures |rewards| >= 4 ==>
      var h := |rewards| / 2;
      (v == ClearImprovement <==> Mean(rewards[h..]) > Mean(rewards[..h]) + 10.0)
      && (v == NeedsTuning <==> Mean(rewards[h..]) <= Mean(rewards[..h]))
  {
    if |rewards| >= 4 then
      var h := |rewards| / 2;
      var early := Mean(rewards[..h]);
      var late := Mean(rewards[h..]);
      if late > early + 10.0 then ClearImprovement
      else if late > early then ModestImprovement
      else NeedsTuning
    else NotEnoughData
  }

  /**
   * With ten rewards or more the verdict and the store's improvement trend
   * split the history at the same place, so the report claims improvement
   * exactly when the trend is positive, and clear improvement exactly when
   * it exceeds ten.
   */
  lemma VerdictAgreesWithTrend(m: ExperienceStore.AgentMetrics)
    requires |m.rewardHistory| >= 10
    ensures var v := FinalVerdict(m.rewardHistory);
      var trend := ExperienceStore.AgentMetricsView(m).rewardImprovementTrend;
      (v == ClearImprovement || v == ModestImprovement <==> trend > 0.0)
      && (v == ClearImprovement <==> trend > 10.0)
  {
  }

  /** The counts the report reads from the record's metrics; the empty dictionary reads as zeros. */
  function Totals(m: Option<ExperienceStore.MetricsView>): (r: (int, int))
    ensures m.None? ==> r == (0, 0)
    ensures m.Some? ==> r == (m.value.base.totalIncidents, m.value.base.totalSuccessful)
  {
    match m
    case None => (0, 0)
    case Some(v) => (v.base.totalIncidents, v.base.totalSuccessful)
  }

  function RewardsOf(m: Option<ExperienceStore.MetricsView>): seq<real>
  {
    match m
    case None => []
    case Some(v) => v.base.rewardHistory
  }

  /** The part of the final report that is more than formatting. */
  datatype FinalReport = FinalReport(total: int, successRate: real, verdict: EvolutionVerdict)

  /** `_send_final_evolution_report` as written: the success rate divides by the total, and `None` is the `ZeroDivisionError`. */
  function FinalReportAsWritten(m: Option<ExperienceStore.MetricsView>): (r: Option<FinalReport>)
    ensures r.None? <==> Totals(m).0 == 0
    ensures r.Some? ==> r.value.successRate * Totals(m).0 as real == Totals(m).1 as real
  {
    var (total, successes) := Totals(m);
    if total == 0 then None
    else Some(FinalReport(total, successes as real / total as real, FinalVerdict(RewardsOf(m))))
  }

  /** The report as the rest of the code guards its divisions: no incidents read as a zero success rate. */
  function FinalReportOf(m: Option<ExperienceStore.MetricsView>): (r: FinalReport)
    ensures Totals(m).0 != 0 ==> FinalReportAsWritten(m) == Some(r)
    ensures Totals(m).0 == 0 ==> r.successRate == 0.0
    ensures 0 <= Totals(m).1 <= Totals(m).0 ==> 0.0 <= r.successRate <= 1.0
    ensures r.verdict == FinalVerdict(RewardsOf(m))
  {
    var (total, successes) := Totals(m);
    FinalReport(total, if total == 0 then 0.0 else successes as real / total as real, FinalVerdict(RewardsOf(m)))
  }

  /** The text of the `ZeroDivisionError` the report raises; the loop records it and moves to FAILED. */
  const DivisionByZero := "division by zero"

  /** The record as the new cycle starts: manual mode has waited until input cleared the flag; then the reset. */
  function StartCycle(d: EvooData): (r: EvooData)
    ensures CycleCleared(r)
    ensures d.autoMode ==> SameLoopFields(d, r)
    ensures !d.autoMode ==> !r.waitingForUserInput && SameLoopFields(d.(waitingForUserInput := false), r)
  {
    if d.autoMode then ResetForNewIncident(d)
    else ResetForNewIncident(d.(waitingForUserInput := false))
  }

  /** `IdleWorkflow.execute` as written: a task's final report raises when no incident was ever recorded. */
  function IdleAsWritten(data: Option<EvooData>): (r: Transition)
  {
    match data
    case None => Transition(Failed, None)
    case Some(d) =>
      if d.incidentCount >= d.maxIncidents then
        if d.taskId.Some? && FinalReportAsWritten(d.agentMetrics).None? then
          Transition(Failed, Some(d.(errorMessage := DivisionByZero)))
        else Transition(Completed, data)
      else Transition(DetectingIncident, Some(StartCycle(d)))
  }

  /** `IdleWorkflow.execute`, with the report's division guarded. */
  function Idle(data: Option<EvooData>): (r: Transition)
    ensures data.None? <==> r.data.None?
    ensures data.None? ==> r.next == Failed
    ensures r.next == Completed <==> data.Some? && data.value.incidentCount >= data.value.maxIncidents
    ensures r.next == Completed ==> r.data == data
    ensures r.next == DetectingIncident <==> data.Some? && data.value.incidentCount < data.value.maxIncidents
    ensures r.next == DetectingIncident ==> CycleCleared(r.data.value)
    ensures r.next == DetectingIncident && !data.value.autoMode ==> !r.data.value.waitingForUserInput
  {
    match data
    case None => Transition(Failed, None)
    case Some(d) =>
      if d.incidentCount >= d.maxIncidents then Transition(Completed, data)
      else Transition(DetectingIncident, Some(StartCycle(d)))
  }

  /**
   * IDLE never touches the incident counter or the budget, and apart from
   * the wait flag it keeps every field that outlives a cycle.
   */
  lemma IdleKeepsLoopFields(d: EvooData)
    ensures var e := Idle(Some(d)).data.value;
      SameLoopFields(d.(waitingForUserInput := e.waitingForUserInput), e)
      && e.incidentCount == d.incidentCount && e.maxIncidents == d.maxIncidents
  {
  }

  /** Starting a cycle twice is starting it once: the new cycle's record is a fixed point of the reset. */
  lemma StartCycleSettles(d: EvooData)
    ensures ResetForNewIncident(StartCycle(d)) == StartCycle(d)
  {
    ResetFixesClearedRecords(StartCycle(d));
  }

  /** Whenever the report can divide, the code as written and the guarded one agree. */
  lemma IdleAgreesWithHistory(data: Option<EvooData>)
    requires data.Some? ==> data.value.taskId.None? || Totals(data.value.agentMetrics).0 != 0
    ensures IdleAsWritten(data) == Idle(data)
  {
  }

  /**
   * A task that reaches its incident budget before any experience was
   * recorded (the metrics dictionary still empty) ends in FAILED with a
   * division error under the code as written, and in COMPLETED once the
   * division is guarded.
   */
  lemma EmptyHistoryFailsAtCompletion(d: EvooData)
    requires d.taskId.Some? && d.agentMetrics.None? && d.incidentCount >= d.maxIncidents
    ensures IdleAsWritten(Some(d)) == Transition(Failed, Some(d.(errorMessage := DivisionByZero)))
    ensures Idle(Some(d)) == Transition(Completed, Some(d))
  {
  }

  /** The smallest such record: a fresh task whose budget was set to zero. */
  lemma ZeroBudgetExample()
    ensures IdleAsWritten(Some(Initial.(taskId := Some("task"), maxIncidents := 0))).next == Failed
    ensures Idle(Some(Initial.(taskId := Some("task"), maxIncidents := 0))).next == Completed
  {
    EmptyHistoryFailsAtCompletion(Initial.(taskId := Some("task"), maxIncidents := 0));
  }
}
