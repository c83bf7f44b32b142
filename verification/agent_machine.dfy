/**
 * The per-run agent loop (`project/state_machines/evoo_agent.py` and the
 * five workflows it runs): WAITING_FOR_INCIDENT -> PLANNING_REMEDIATION ->
 * EXECUTING_REMEDIATION -> EVALUATING_OUTCOME -> UPDATING_STRATEGY ->
 * WAITING_FOR_INCIDENT, until `max_runs` runs are done.
 *
 * Each workflow is a function from the record to the next state and the
 * new record. What the activities compute deterministically is computed
 * here (the executor loop, the reward); the generated incident, the
 * strategy selection, the simulator's outcome, the LLM judge and the
 * memory summary are parameters. What a workflow hands to the memory and
 * strategy stores is returned as its effect rather than applied.
 */
module AgentMachine {
  import opened Wrappers
  import opened Values
  import Enums
  import opened IncidentModel
  import ExperienceModel
  import StrategyActivities
  import RewardActivities
  import RemediationActivities
  import SreAgentLoop

  type State = Enums.AgentState

  /** `RemediationPlan`; the free-text reasoning is not modelled. */
  datatype RemediationPlan = RemediationPlan(
    strategy: string,
    toolsToCall: seq<string>,
    toolParameters: Params,
    confidence: real,
    isExploratory: bool,
    llmSelected: bool)

  /** What `apply_remediation_to_simulation_activity` reports; absent keys are `None`. */
  datatype SimResult = SimResult(
    metricsAfter: Option<SystemMetrics>,
    serviceRestored: Option<bool>,
    recoveryTimeSeconds: Option<real>,
    infrastructureCost: Option<real>)

  /** `simulated_system_state`: the keys the workflows write and read. */
  datatype SimState = SimState(serviceName: Option<string>, isHealthy: Option<bool>, simResult: Option<SimResult>)

  /** `EVOOData` */
  datatype AgentData = AgentData(
    taskId: string,
    waitingForUserInput: bool,
    currentIncident: Option<Incident>,
    currentPlan: Option<RemediationPlan>,
    metricsBefore: Option<SystemMetrics>,
    metricsAfter: Option<SystemMetrics>,
    toolExecutionResults: seq<RemediationActivities.ToolResult>,
    simulated: SimState,
    runIndex: int,
    maxRuns: int,
    currentReward: real,
    lastLlmEvaluation: string,
    currentExperience: Option<ExperienceModel.Experience>,
    memorySummary: Option<ExperienceModel.MemorySummary>,
    rewardHistory: seq<real>,
    recoveryTimeHistory: seq<real>,
    strategyHistory: seq<string>,
    incidentTypeHistory: seq<string>,
    verdictHistory: seq<string>,
    restoredHistory: seq<bool>,
    agentLoopIterations: int,
    agentLoopActions: seq<string>,
    errorMessage: string,
    isLearningComplete: bool)

  const InitialData := AgentData("", true, None, None, None, None, [], SimState(None, None, None),
    0, 50, 0.0, "", None, None, [], [], [], [], [], [], 0, [], "", false)

  /** `EVOOStateMachine.terminal_condition` */
  predicate Terminal(d: AgentData)
  {
    d.isLearningComplete
  }

  /** What a workflow hands to the stores outside the record. */
  datatype Effect =
    | NoEffect
    | StoreExperience(experience: ExperienceModel.Experience)
    | UpdateRecord(request: StrategyActivities.UpdateRequest, summaryFetched: bool, milestoneReported: bool, rollingSummaryReported: bool)

  datatype Transition = Transition(next: State, data: Option<AgentData>, effect: Effect)

  const FailedTransition := Transition(Enums.AgentFailed, None, NoEffect)

  /** The six observability histories have one entry per evaluated run. */
  predicate HistoriesAligned(d: AgentData)
  {
    |d.recoveryTimeHistory| == |d.rewardHistory| && |d.strategyHistory| == |d.rewardHistory|
    && |d.incidentTypeHistory| == |d.rewardHistory| && |d.verdictHistory| == |d.rewardHistory|
    && |d.restoredHistory| == |d.rewardHistory|
  }

  // ---------------------------------------------------------------------
  // WAITING_FOR_INCIDENT
  // ---------------------------------------------------------------------

  /** `WaitingForIncidentWorkflow.execute`, `incident` being what `generate_incident_activity` produced. */
  function Waiting(data: Option<AgentData>, incident: Incident): (t: Transition)
    ensures data.None? ==> t == FailedTransition
    ensures data.Some? && data.value.runIndex >= data.value.maxRuns ==>
      t == Transition(Enums.AgentCompleted, Some(data.value.(isLearningComplete := true)), NoEffect)
    ensures data.Some? && data.value.runIndex < data.value.maxRuns ==>
      t.next == Enums.AgentPlanning && t.effect == NoEffect && t.data.Some?
      && var (d, r) := (data.value, t.data.value);
      r.currentIncident == Some(incident) && r.metricsBefore == Some(incident.metricsAtDetection)
      && r.toolExecutionResults == [] && r.currentPlan.None? && r.metricsAfter.None?
      && r.currentReward == 0.0 && r.lastLlmEvaluation == ""
      && r.simulated == SimState(Some(incident.affectedService), Some(false), None)
      && r == d.(currentIncident := r.currentIncident, metricsBefore := r.metricsBefore,
                 toolExecutionResults := [], currentPlan := None, metricsAfter := None,
                 currentReward := 0.0, lastLlmEvaluation := "", simulated := r.simulated)
  {
    match data
    case None => FailedTransition
    case Some(d) =>
      if d.runIndex >= d.maxRuns then Transition(Enums.AgentCompleted, Some(d.(isLearningComplete := true)), NoEffect)
      else
        Transition(Enums.AgentPlanning, Some(d.(
          currentIncident := Some(incident), metricsBefore := Some(incident.metricsAtDetection),
          toolExecutionResults := [], currentPlan := None, metricsAfter := None,
          currentReward := 0.0, lastLlmEvaluation := "",
          simulated := SimState(Some(incident.affectedService), Some(false), None))), NoEffect)
  }

  // ---------------------------------------------------------------------
  // PLANNING_REMEDIATION
  // ---------------------------------------------------------------------

  /** The plan built from what `select_strategy_activity` returned. */
  function PlanOf(sel: StrategyActivities.Selection): (p: RemediationPlan)
    ensures p.confidence == (if sel.isExploratory then 0.5 else 0.8)
    ensures p.strategy == sel.strategy && p.toolsToCall == sel.toolsToCall && p.toolParameters == sel.toolParameters
    ensures p.isExploratory == sel.isExploratory && p.llmSelected == sel.llmSelected
  {
    RemediationPlan(sel.strategy, sel.toolsToCall, sel.toolParameters,
      if !sel.isExploratory then 0.8 else 0.5, sel.isExploratory, sel.llmSelected)
  }

  /** The label the planner's report shows. */
  function PlanLabel(p: RemediationPlan): (s: string)
    ensures p.isExploratory <==> s == "EXPLORE (random)"
    ensures !p.isExploratory && p.llmSelected <==> s == "EXPLOIT (LLM)"
  {
    if p.isExploratory then "EXPLORE (random)" else if p.llmSelected then "EXPLOIT (LLM)" else "EXPLOIT (heuristic)"
  }

  /** `PlanningRemediationWorkflow.execute`, `sel` being the strategy selection. */
  function Planning(data: Option<AgentData>, sel: StrategyActivities.Selection): (t: Transition)
    ensures data.None? || data.value.currentIncident.None? ==> t == FailedTransition
    ensures data.Some? && data.value.currentIncident.Some? ==>
      t == Transition(Enums.AgentExecuting, Some(data.value.(currentPlan := Some(PlanOf(sel)))), NoEffect)
  {
    if data.None? || data.value.currentIncident.None? then FailedTransition
    else Transition(Enums.AgentExecuting, Some(data.value.(currentPlan := Some(PlanOf(sel)))), NoEffect)
  }

  /** A workflow that either hands back a transition or raises an error nothing in the machine catches. */
  datatype Step = Moved(t: Transition) | Raised(error: string)

  /** What Python raises when `.value` is read on text. */
  const SeverityValueError := "'str' object has no attribute 'value'"

  /**
   * `PlanningRemediationWorkflow.execute` as written: the strategy request
   * reads `incident.severity.value`, but an incident's severity is text,
   * so after the two memory activities the read raises, and nothing in the
   * workflow or the machine catches it.
   */
  function PlanningAsWritten(data: Option<AgentData>, sel: StrategyActivities.Selection): (s: Step)
    ensures s.Moved? ==> s.t == FailedTransition
    ensures s.Raised? <==> data.Some? && data.value.currentIncident.Some?
    ensures s.Raised? ==> s.error == SeverityValueError
  {
    if data.None? || data.value.currentIncident.None? then Moved(FailedTransition)
    else Raised(SeverityValueError)
  }

  /**
   * The planner as written agrees with the corrected one exactly where the
   * corrected one fails, and raises exactly where the corrected one would
   * go on to execution.
   */
  lemma PlanningAsWrittenRaisesWherePlanningExecutes(data: Option<AgentData>, sel: StrategyActivities.Selection)
    ensures PlanningAsWritten(data, sel) == Moved(Planning(data, sel)) <==> Planning(data, sel).next == Enums.AgentFailed
    ensures PlanningAsWritten(data, sel).Raised? <==> Planning(data, sel).next == Enums.AgentExecuting
  {
  }

  // ---------------------------------------------------------------------
  // EXECUTING_REMEDIATION
  // ---------------------------------------------------------------------

  /** The `incident` dictionary handed to the executor loop. */
  function LoopIncident(i: Option<Incident>): (p: Params)
    ensures "incident_type" in p && "affected_service" in p
    ensures i.None? ==> p["incident_type"] == TextV("unknown") && p["affected_service"] == TextV("api-service")
    ensures i.Some? ==>
      p["incident_type"] == TextV(Enums.IncidentTypeName(i.value.incidentType))
      && p["affected_service"] == TextV(i.value.affectedService)
  {
    match i
    case None => map["incident_type" := TextV("unknown"), "affected_service" := TextV("api-service"),
                     "severity" := TextV("unknown"), "description" := TextV("")]
    case Some(inc) => map["incident_type" := TextV(Enums.IncidentTypeName(inc.incidentType)),
                          "affected_service" := TextV(inc.affectedService),
                          "severity" := TextV(inc.severity), "description" := TextV(inc.description)]
  }

  /** The executor loop's answer for this record's plan. */
  function LoopOf(d: AgentData, plan: RemediationPlan, maxIterations: nat,
                  replies: nat -> Option<string>, dumps: Params -> string): (r: SreAgentLoop.LoopResult)
    ensures r.iterationsUsed <= maxIterations && |r.toolResults| == |r.actionsTaken| <= r.iterationsUsed
  {
    SreAgentLoop.RunLoop(LoopIncident(d.currentIncident), SreAgentLoop.Plan(plan.toolsToCall, plan.toolParameters),
      maxIterations, replies, dumps)
  }

  /**
   * `ExecutingRemediationWorkflow.execute`: the executor loop runs with the
   * LLM's replies `replies`, then the simulator reports `sim`.
   */
  function Executing(data: Option<AgentData>, maxIterations: nat, replies: nat -> Option<string>,
                     dumps: Params -> string, sim: SimResult): (t: Transition)
    ensures data.None? || data.value.currentPlan.None? ==> t == FailedTransition
    ensures data.Some? && data.value.currentPlan.Some? ==>
      t.next == Enums.AgentEvaluating && t.effect == NoEffect && t.data.Some?
      && var (d, r) := (data.value, t.data.value);
      var loop := LoopOf(d, d.currentPlan.value, maxIterations, replies, dumps);
      r.toolExecutionResults == loop.toolResults
      && r.agentLoopIterations == loop.iterationsUsed && r.agentLoopActions == loop.actionsTaken
      && |r.toolExecutionResults| <= r.agentLoopIterations <= maxIterations
      && r.metricsAfter == Some(sim.metricsAfter.GetOr(DefaultMetrics))
      && r.simulated == d.simulated.(isHealthy := Some(sim.serviceRestored.GetOr(false)), simResult := Some(sim))
      && r == d.(toolExecutionResults := r.toolExecutionResults, agentLoopIterations := r.agentLoopIterations,
                 agentLoopActions := r.agentLoopActions, metricsAfter := r.metricsAfter, simulated := r.simulated)
  {
    match data
    case None => FailedTransition
    case Some(d) =>
      match d.currentPlan
      case None => FailedTransition
      case Some(plan) =>
        var loop := LoopOf(d, plan, maxIterations, replies, dumps);
        Transition(Enums.AgentEvaluating, Some(d.(
          toolExecutionResults := loop.toolResults,
          agentLoopIterations := loop.iterationsUsed,
          agentLoopActions := loop.actionsTaken,
          metricsAfter := Some(sim.metricsAfter.GetOr(DefaultMetrics)),
          simulated := d.simulated.(isHealthy := Some(sim.serviceRestored.GetOr(false)), simResult := Some(sim)))), NoEffect)
  }

  // ---------------------------------------------------------------------
  // EVALUATING_OUTCOME
  // ---------------------------------------------------------------------

  /** The `evaluation` object `llm_evaluate_remediation_activity` returned; absent keys are `None`. */
  datatype Judgement = Judgement(verdict: Option<string>, analysis: Option<string>)

  /** `model_dump` of a metrics record, as the reward activity reads it. */
  function AsDict(m: SystemMetrics): (r: map<string, real>)
    ensures "latency_ms" in r && "cpu_percent" in r && "memory_percent" in r && "error_rate" in r && "availability" in r
    ensures r["latency_ms"] == m.latencyMs && r["cpu_percent"] == m.cpuPercent
    ensures r["memory_percent"] == m.memoryPercent && r["error_rate"] == m.errorRate
    ensures r["availability"] == m.availability
  {
    map["latency_ms" := m.latencyMs, "cpu_percent" := m.cpuPercent, "memory_percent" := m.memoryPercent,
        "error_rate" := m.errorRate, "availability" := m.availability,
        "recovery_time_seconds" := m.recoveryTimeSeconds,
        "active_instances" := m.activeInstances as real, "timeout_ms" := m.timeoutMs as real]
  }

  /** The simulator's outcome as the evaluator reads it, with the defaults 120 s, not restored, cost 1.0. */
  function Outcome(s: SimState): (o: (real, bool, real))
    ensures s.simResult.None? ==> o == (120.0, false, 1.0)
  {
    var sim := s.simResult.GetOr(SimResult(None, None, None, None));
    (sim.recoveryTimeSeconds.GetOr(120.0), sim.serviceRestored.GetOr(false), sim.infrastructureCost.GetOr(1.0))
  }

  /** The numerical reward `calculate_reward_activity` gives the run. */
  function RunReward(incident: Incident, plan: RemediationPlan, before: SystemMetrics, after: SystemMetrics, s: SimState): real
  {
    var (recovery, restored, cost) := Outcome(s);
    RewardActivities.CalculateRewardActivity(RewardActivities.RewardRequest(
      AsDict(before), AsDict(after), Some(recovery), Some(restored), Some(cost),
      Some(plan.strategy), Some(Enums.IncidentTypeName(incident.incidentType)))).reward
  }

  /** The experience tuple of the run, `id` standing for the random identifier. */
  function ExperienceOf(d: AgentData, incident: Incident, plan: RemediationPlan, before: SystemMetrics,
                        after: SystemMetrics, reward: real, analysis: string, id: string): (e: ExperienceModel.Experience)
    ensures e.reward == reward && e.success == Outcome(d.simulated).1
    ensures e.incidentType == incident.incidentType && e.strategyUsed == plan.strategy
    ensures e.recoveryTimeSeconds == Outcome(d.simulated).0 && e.runIndex == d.runIndex
  {
    var (recovery, restored, _) := Outcome(d.simulated);
    ExperienceModel.DefaultExperience.(
      id := id, incidentType := incident.incidentType, metricsBefore := before,
      strategyUsed := plan.strategy, toolsCalled := plan.toolsToCall, metricsAfter := after,
      recoveryTimeSeconds := recovery, reward := reward, llmEvaluation := analysis,
      success := restored, runIndex := d.runIndex)
  }

  /** Whether the evaluator has everything it reads. */
  predicate ReadyToEvaluate(d: AgentData)
  {
    d.currentIncident.Some? && d.metricsBefore.Some? && d.metricsAfter.Some? && d.currentPlan.Some?
  }

  /** `EvaluatingOutcomeWorkflow.execute`, `judge` being the judge's evaluation and `id` the experience's identifier. */
  function Evaluating(data: Option<AgentData>, judge: Judgement, id: string): (t: Transition)
    ensures data.None? || !ReadyToEvaluate(data.value) ==> t == FailedTransition
    ensures data.Some? && ReadyToEvaluate(data.value) ==>
      t.next == Enums.UpdatingStrategy && t.data.Some? && t.effect.StoreExperience?
      && var (d, r) := (data.value, t.data.value);
      var reward := RunReward(d.currentIncident.value, d.currentPlan.value, d.metricsBefore.value, d.metricsAfter.value, d.simulated);
      r.currentReward == reward && r.currentExperience == Some(t.effect.experience)
      && t.effect.experience.reward == reward && t.effect.experience.success == Outcome(d.simulated).1
      && r.lastLlmEvaluation == judge.analysis.GetOr("")
      && r.rewardHistory == d.rewardHistory + [reward]
      && r.recoveryTimeHistory == d.recoveryTimeHistory + [Outcome(d.simulated).0]
      && r.strategyHistory == d.strategyHistory + [d.currentPlan.value.strategy]
      && r.incidentTypeHistory == d.incidentTypeHistory + [Enums.IncidentTypeName(d.currentIncident.value.incidentType)]
      && r.verdictHistory == d.verdictHistory + [judge.verdict.GetOr("unknown")]
      && r.restoredHistory == d.restoredHistory + [Outcome(d.simulated).1]
      && r.runIndex == d.runIndex && r.maxRuns == d.maxRuns && r.isLearningComplete == d.isLearningComplete
      && r.currentIncident == d.currentIncident && r.currentPlan == d.currentPlan
  {
    if data.None? || !ReadyToEvaluate(data.value) then FailedTransition
    else
      var d := data.value;
      var incident := d.currentIncident.value;
      var plan := d.currentPlan.value;
      var reward := RunReward(incident, plan, d.metricsBefore.value, d.metricsAfter.value, d.simulated);
      var analysis := judge.analysis.GetOr("");
      var e := ExperienceOf(d, incident, plan, d.metricsBefore.value, d.metricsAfter.value, reward, analysis, id);
      var (recovery, restored, _) := Outcome(d.simulated);
      Transition(Enums.UpdatingStrategy, Some(d.(
        currentReward := reward, lastLlmEvaluation := analysis, currentExperience := Some(e),
        rewardHistory := d.rewardHistory + [reward],
        recoveryTimeHistory := d.recoveryTimeHistory + [recovery],
        strategyHistory := d.strategyHistory + [plan.strategy],
        incidentTypeHistory := d.incidentTypeHistory + [Enums.IncidentTypeName(incident.incidentType)],
        verdictHistory := d.verdictHistory + [judge.verdict.GetOr("unknown")],
        restoredHistory := d.restoredHistory + [restored])), StoreExperience(e))
  }

  // ---------------------------------------------------------------------
  // UPDATING_STRATEGY
  // ---------------------------------------------------------------------

  /** `UpdatingStrategyWorkflow.execute`, `summary` being what `get_memory_summary_activity` returned. */
  function Updating(data: Option<AgentData>, summary: ExperienceModel.MemorySummary): (t: Transition)
    ensures (data.None? || data.value.currentIncident.None? || data.value.currentPlan.None?
             || data.value.currentExperience.None?) ==> t == FailedTransition
    ensures data.Some? && data.value.currentIncident.Some? && data.value.currentPlan.Some?
            && data.value.currentExperience.Some? ==>
      t.next == Enums.WaitingForIncident && t.data.Some? && t.effect.UpdateRecord?
      && var (d, r, e) := (data.value, t.data.value, t.effect);
      e.request == StrategyActivities.UpdateRequest(Some(Enums.IncidentTypeName(d.currentIncident.value.incidentType)),
        Some(d.currentPlan.value.strategy), Some(d.currentReward), Some(d.currentExperience.value.success))
      && (e.summaryFetched <==> (d.runIndex + 1) % 5 == 0)
      && (e.milestoneReported <==> (d.runIndex + 1) % 10 == 0 && d.taskId != "")
      && (e.rollingSummaryReported <==> d.taskId != "" && |d.rewardHistory| >= 5)
      && r.memorySummary == (if (d.runIndex + 1) % 5 == 0 then Some(summary) else d.memorySummary)
      && r == d.(runIndex := d.runIndex + 1, memorySummary := r.memorySummary)
  {
    if data.None? || data.value.currentIncident.None? then FailedTransition
    else if data.value.currentPlan.None? || data.value.currentExperience.None? then FailedTransition
    else
      var d := data.value;
      var request := StrategyActivities.UpdateRequest(Some(Enums.IncidentTypeName(d.currentIncident.value.incidentType)),
        Some(d.currentPlan.value.strategy), Some(d.currentReward), Some(d.currentExperience.value.success));
      var fetch := (d.runIndex + 1) % 5 == 0;
      Transition(Enums.WaitingForIncident,
        Some(d.(runIndex := d.runIndex + 1, memorySummary := if fetch then Some(summary) else d.memorySummary)),
        UpdateRecord(request, fetch, (d.runIndex + 1) % 10 == 0 && d.taskId != "", d.taskId != "" && |d.rewardHistory| >= 5))
  }

  // ---------------------------------------------------------------------
  // Whole runs
  // ---------------------------------------------------------------------

  /** Everything from outside one run consults. */
  datatype RunOracle = RunOracle(
    incident: Incident,
    selection: StrategyActivities.Selection,
    maxIterations: nat,
    replies: nat -> Option<string>,
    dumps: Params -> string,
    sim: SimResult,
    judge: Judgement,
    experienceId: string,
    summary: ExperienceModel.MemorySummary)

  /** The record after one full run, from WAITING_FOR_INCIDENT back to it. */
  function OneRun(d: AgentData, o: RunOracle): (r: Option<AgentData>)
  {
    var t1 := Waiting(Some(d), o.incident);
    var t2 := Planning(t1.data, o.selection);
    var t3 := Executing(t2.data, o.maxIterations, o.replies, o.dumps, o.sim);
    var t4 := Evaluating(t3.data, o.judge, o.experienceId);
    Updating(t4.data, o.summary).data
  }

  /** Waiting, planning and executing leave a record ready for the evaluator, with its counters untouched. */
  lemma RunReachesEvaluation(d: AgentData, o: RunOracle)
    requires d.runIndex < d.maxRuns
    ensures var t1 := Waiting(Some(d), o.incident);
      var t2 := Planning(t1.data, o.selection);
      var t3 := Executing(t2.data, o.maxIterations, o.replies, o.dumps, o.sim);
      t1.next == Enums.AgentPlanning && t2.next == Enums.AgentExecuting && t3.next == Enums.AgentEvaluating
      && t3.data.Some? && ReadyToEvaluate(t3.data.value)
      && t3.data.value.runIndex == d.runIndex && t3.data.value.maxRuns == d.maxRuns
      && t3.data.value.isLearningComplete == d.isLearningComplete
      && t3.data.value.rewardHistory == d.rewardHistory
      && (HistoriesAligned(d) ==> HistoriesAligned(t3.data.value))
  {
    var t1 := Waiting(Some(d), o.incident);
    var t2 := Planning(t1.data, o.selection);
    assert t2.data.Some? && t2.data.value.currentPlan.Some?;
  }

  /** Evaluating then updating a ready record returns to waiting with one more run and one more entry per history. */
  lemma EvaluatedRunUpdates(d: AgentData, o: RunOracle)
    requires ReadyToEvaluate(d)
    ensures var t4 := Evaluating(Some(d), o.judge, o.experienceId);
      var t5 := Updating(t4.data, o.summary);
      t4.next == Enums.UpdatingStrategy && t5.next == Enums.WaitingForIncident && t5.data.Some?
      && t5.data.value.runIndex == d.runIndex + 1 && t5.data.value.maxRuns == d.maxRuns
      && t5.data.value.isLearningComplete == d.isLearningComplete
      && |t5.data.value.rewardHistory| == |d.rewardHistory| + 1
      && (HistoriesAligned(d) ==> HistoriesAligned(t5.data.value))
  {
    var t4 := Evaluating(Some(d), o.judge, o.experienceId);
    assert t4.data.Some? && t4.data.value.currentExperience.Some?;
  }

  /**
   * A run that starts with runs left never fails: every workflow finds
   * what the previous one stored, the run counter goes up by exactly one,
   * and each history grows by exactly one entry.
   */
  lemma RunCompletes(d: AgentData, o: RunOracle)
    requires d.runIndex < d.maxRuns
    ensures var t1 := Waiting(Some(d), o.incident);
      var t2 := Planning(t1.data, o.selection);
      var t3 := Executing(t2.data, o.maxIterations, o.replies, o.dumps, o.sim);
      var t4 := Evaluating(t3.data, o.judge, o.experienceId);
      var t5 := Updating(t4.data, o.summary);
      t1.next == Enums.AgentPlanning && t2.next == Enums.AgentExecuting && t3.next == Enums.AgentEvaluating
      && t4.next == Enums.UpdatingStrategy && t5.next == Enums.WaitingForIncident
      && t5.data.Some? && t5.data == OneRun(d, o)
      && t5.data.value.runIndex == d.runIndex + 1 && t5.data.value.maxRuns == d.maxRuns
      && t5.data.value.isLearningComplete == d.isLearningComplete
      && |t5.data.value.rewardHistory| == |d.rewardHistory| + 1
      && (HistoriesAligned(d) ==> HistoriesAligned(t5.data.value))
  {
    RunReachesEvaluation(d, o);
    var t1 := Waiting(Some(d), o.incident);
    var t2 := Planning(t1.data, o.selection);
    var t3 := Executing(t2.data, o.maxIterations, o.replies, o.dumps, o.sim);
    EvaluatedRunUpdates(t3.data.value, o);
  }

  /** What one completed run changes in the record, from the outside. */
  lemma OneRunAdvances(d: AgentData, o: RunOracle)
    requires d.runIndex < d.maxRuns
    ensures OneRun(d, o).Some?
    ensures var r := OneRun(d, o).value;
      r.runIndex == d.runIndex + 1 && r.maxRuns == d.maxRuns && r.isLearningComplete == d.isLearningComplete
      && |r.rewardHistory| == |d.rewardHistory| + 1
      && (HistoriesAligned(d) ==> HistoriesAligned(r))
  {
    RunCompletes(d, o);
  }

  /**
   * The agent from WAITING_FOR_INCIDENT on, run `i` consulting `oracles(i)`,
   * until the waiting state finds `max_runs` reached.
   */
  function RunAll(d: AgentData, oracles: int -> RunOracle): (r: AgentData)
    decreases d.maxRuns - d.runIndex
  {
    if d.runIndex >= d.maxRuns then d.(isLearningComplete := true)
    else
      OneRunAdvances(d, oracles(d.runIndex));
      RunAll(OneRun(d, oracles(d.runIndex)).value, oracles)
  }

  /**
   * The loop completes after exactly `max_runs - run_index` runs: the
   * terminal condition holds, the counter stands at `max_runs`, one reward
   * was recorded per run, and the histories stay aligned.
   */
  lemma {:induction false} RunAllCompletes(d: AgentData, oracles: int -> RunOracle)
    ensures var r := RunAll(d, oracles);
      Terminal(r) && r.maxRuns == d.maxRuns
      && r.runIndex == (if d.runIndex >= d.maxRuns then d.runIndex else d.maxRuns)
      && |r.rewardHistory| == |d.rewardHistory| + (if d.runIndex >= d.maxRuns then 0 else d.maxRuns - d.runIndex)
      && (HistoriesAligned(d) ==> HistoriesAligned(r))
    decreases d.maxRuns - d.runIndex
  {
    if d.runIndex < d.maxRuns {
      OneRunAdvances(d, oracles(d.runIndex));
      RunAllCompletes(OneRun(d, oracles(d.runIndex)).value, oracles);
    }
  }

  /**
   * With the planner as written no run gets past planning: whenever the
   * waiting state starts a run, planning raises where the corrected
   * planner would go on to EXECUTING_REMEDIATION, so no run is counted.
   */
  lemma NoRunPassesPlanningAsWritten(d: AgentData, o: RunOracle)
    requires d.runIndex < d.maxRuns
    ensures var t1 := Waiting(Some(d), o.incident);
      t1.next == Enums.AgentPlanning
      && PlanningAsWritten(t1.data, o.selection) == Raised(SeverityValueError)
      && Planning(t1.data, o.selection).next == Enums.AgentExecuting
  {
    var t1 := Waiting(Some(d), o.incident);
    assert t1.data.Some? && t1.data.value.currentIncident.Some?;
  }

  /** Only the waiting state ends the loop, and it does so exactly when the runs are used up. */
  lemma CompletionIsTheRunBound(d: AgentData, incident: Incident)
    requires !d.isLearningComplete
    ensures var t := Waiting(Some(d), incident);
      (t.next == Enums.AgentCompleted <==> d.runIndex >= d.maxRuns)
      && (t.next == Enums.AgentCompleted <==> Terminal(t.data.value))
  {
  }
}
