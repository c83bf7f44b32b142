/**
 * The data of the incident-by-incident learning loop and its machine-level
 * predicates (`project/state_machines/evoo.py`): the record every workflow
 * of the loop reads and writes, the per-cycle reset, and the terminal test.
 *
 * Dictionaries whose shape the loop relies on are given their own
 * datatypes: a planned action (`action_type`, `parameters`), an entry of
 * `actions_executed`, a remediation tool's result. Tracing spans are not
 * modelled.
 */
module EvooMachine {
  import opened Wrappers
  import opened Enums
  import ExperienceStore

  type MetricsDict = map<string, real>

  /** An entry of `strategy_details["actions"]`; a missing `action_type` reads as `restart_service`. */
  datatype PlannedAction = PlannedAction(actionType: Option<string>, parameters: map<string, real>)

  /** The part of `strategy_details` the loop reads: its action list. The empty dictionary has none. */
  datatype StrategyDetails = StrategyDetails(actions: seq<PlannedAction>)

  const NoDetails := StrategyDetails([])

  /** What a remediation tool reports; each key may be absent. An absent `metrics` is the empty dictionary. */
  datatype DispatchResult = DispatchResult(
    success: Option<bool>,
    cost: Option<real>,
    recoveryTimeAdded: Option<real>,
    metrics: MetricsDict)

  /**
   * An entry of `actions_executed`: a dispatched action with the tool's
   * success flag and cost, or an action a guardrail blocked (`blockedBy`
   * names the rule; success false, cost 0).
   */
  datatype ExecutedAction = ExecutedAction(
    action: string,
    parameters: map<string, real>,
    success: bool,
    cost: real,
    blockedBy: Option<string>)

  /** An entry of `conversation_history`. */
  datatype ChatEntry = ChatEntry(role: string, content: string)

  datatype EvooData = EvooData(
    // task tracking
    taskId: Option<string>,
    currentTurn: int,
    messagesReceived: int,
    // incident
    currentIncidentId: Option<string>,
    currentIncidentType: Option<string>,
    currentIncidentSeverity: Option<string>,
    incidentDescription: string,
    metricsBefore: MetricsDict,
    metricsAfter: MetricsDict,
    // planning
    selectedStrategy: Option<string>,
    strategyDetails: StrategyDetails,
    planningReasoning: string,
    planningConfidence: real,
    isExploration: bool,
    // execution
    actionsExecuted: seq<ExecutedAction>,
    toolsCalled: seq<string>,
    executionResults: seq<DispatchResult>,
    totalRecoveryTime: real,
    totalCost: real,
    // evaluation
    serviceRestored: bool,
    reward: real,
    rewardBreakdown: map<string, real>,
    llmEvaluation: string,
    adjustedReward: real,
    // learning
    experienceStored: bool,
    strategyRankingsUpdated: bool,
    conversationHistory: seq<ChatEntry>,
    // loop control
    incidentCount: int,
    maxIncidents: int,
    waitingForUserInput: bool,
    autoMode: bool,
    learningLoopActive: bool,
    // error handling
    errorMessage: string,
    retryCount: int,
    maxRetries: int,
    // observability; `None` is the empty metrics dictionary
    agentMetrics: Option<ExperienceStore.MetricsView>,
    strategyRankings: seq<ExperienceStore.RankingRow>)

  /** A freshly constructed `EvooData()`: every field at its declared default. */
  const Initial := EvooData(
    None, 0, 0,
    None, None, None, "", map[], map[],
    None, NoDetails, "", 0.0, false,
    [], [], [], 0.0, 0.0,
    false, 0.0, map[], "", 0.0,
    false, false, [],
    0, 10, false, true, true,
    "", 0, 3,
    None, [])

  /** The fields one incident cycle fills in, all at their declared defaults. */
  predicate CycleCleared(d: EvooData)
  {
    d.currentIncidentId == Initial.currentIncidentId
    && d.currentIncidentType == Initial.currentIncidentType
    && d.currentIncidentSeverity == Initial.currentIncidentSeverity
    && d.incidentDescription == Initial.incidentDescription
    && d.metricsBefore == Initial.metricsBefore && d.metricsAfter == Initial.metricsAfter
    && d.selectedStrategy == Initial.selectedStrategy
    && d.strategyDetails == Initial.strategyDetails
    && d.planningReasoning == Initial.planningReasoning
    && d.planningConfidence == Initial.planningConfidence
    && d.isExploration == Initial.isExploration
    && d.actionsExecuted == Initial.actionsExecuted
    && d.toolsCalled == Initial.toolsCalled
    && d.executionResults == Initial.executionResults
    && d.totalRecoveryTime == Initial.totalRecoveryTime && d.totalCost == Initial.totalCost
    && d.serviceRestored == Initial.serviceRestored
    && d.reward == Initial.reward && d.rewardBreakdown == Initial.rewardBreakdown
    && d.llmEvaluation == Initial.llmEvaluation && d.adjustedReward == Initial.adjustedReward
    && d.experienceStored == Initial.experienceStored
    && d.strategyRankingsUpdated == Initial.strategyRankingsUpdated
    && d.errorMessage == Initial.errorMessage && d.retryCount == Initial.retryCount
  }

  /** The fields that outlive an incident cycle agree in `a` and `b`. */
  predicate SameLoopFields(a: EvooData, b: EvooData)
  {
    a.taskId == b.taskId && a.currentTurn == b.currentTurn && a.messagesReceived == b.messagesReceived
    && a.conversationHistory == b.conversationHistory
    && a.incidentCount == b.incidentCount && a.maxIncidents == b.maxIncidents
    && a.waitingForUserInput == b.waitingForUserInput && a.autoMode == b.autoMode
    && a.learningLoopActive == b.learningLoopActive && a.maxRetries == b.maxRetries
    && a.agentMetrics == b.agentMetrics && a.strategyRankings == b.strategyRankings
  }

  /** `reset_for_new_incident` */
  function ResetForNewIncident(d: EvooData): (r: EvooData)
    ensures CycleCleared(r)
    ensures SameLoopFields(d, r)
  {
    d.(currentIncidentId := None, currentIncidentType := None, currentIncidentSeverity := None,
       incidentDescription := "", metricsBefore := map[], metricsAfter := map[],
       selectedStrategy := None, strategyDetails := NoDetails, planningReasoning := "",
       planningConfidence := 0.0, isExploration := false,
       actionsExecuted := [], toolsCalled := [], executionResults := [],
       totalRecoveryTime := 0.0, totalCost := 0.0,
       serviceRestored := false, reward := 0.0, rewardBreakdown := map[], llmEvaluation := "",
       adjustedReward := 0.0, experienceStored := false, strategyRankingsUpdated := false,
       errorMessage := "", retryCount := 0)
  }

  /** The two halves of the record together determine it. */
  lemma ClearedAndLoopFieldsDetermine(a: EvooData, b: EvooData)
    requires CycleCleared(a) && CycleCleared(b) && SameLoopFields(a, b)
    ensures a == b
  {
  }

  /** Two records reset to the same record exactly when their loop fields agree. */
  lemma ResetForgetsTheCycle(a: EvooData, b: EvooData)
    ensures ResetForNewIncident(a) == ResetForNewIncident(b) <==> SameLoopFields(a, b)
  {
    if SameLoopFields(a, b) {
      ClearedAndLoopFieldsDetermine(ResetForNewIncident(a), ResetForNewIncident(b));
    }
  }

  /** Resetting twice is resetting once. */
  lemma ResetIdempotent(d: EvooData)
    ensures ResetForNewIncident(ResetForNewIncident(d)) == ResetForNewIncident(d)
  {
    ResetForgetsTheCycle(ResetForNewIncident(d), d);
  }

  /** A record with nothing cycle-specific in it is left as it is; a fresh record in particular. */
  lemma ResetFixesClearedRecords(d: EvooData)
    ensures ResetForNewIncident(d) == d <==> CycleCleared(d)
  {
    if CycleCleared(d) {
      ClearedAndLoopFieldsDetermine(ResetForNewIncident(d), d);
    }
  }

  /** What a state's workflow returns: the next state and the record as it left it (`None` when there was none). */
  datatype Transition = Transition(next: EvooState, data: Option<EvooData>)

  /** The loop has used up its incident budget and will not continue on its own. */
  predicate BudgetExhausted(d: EvooData)
  {
    d.incidentCount >= d.maxIncidents && !d.learningLoopActive
  }

  /** `terminal_condition` */
  function TerminalCondition(s: EvooState, d: Option<EvooData>): (r: bool)
    ensures r <==> s == Completed || s == Failed || (d.Some? && BudgetExhausted(d.value))
  {
    if s == Completed || s == Failed then true
    else if d.Some? && d.value.incidentCount >= d.value.maxIncidents then !d.value.learningLoopActive
    else false
  }

  /** Outside the two terminal states the test depends only on fields a reset keeps. */
  lemma TerminalConditionSurvivesReset(s: EvooState, d: EvooData)
    ensures TerminalCondition(s, Some(ResetForNewIncident(d))) == TerminalCondition(s, Some(d))
  {
  }

  /** A fresh record is not terminal in any working state: its loop is active. */
  lemma FreshRecordNotTerminal(s: EvooState)
    requires s != Completed && s != Failed
    ensures !TerminalCondition(s, Some(Initial))
  {
  }
}
