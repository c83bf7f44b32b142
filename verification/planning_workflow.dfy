/**
 * The planning state of the learning loop
 * (`project/workflows/planning/planning_workflow.py`): look up the best
 * strategy so far, ask `plan_remediation` for a plan, store it, and go on
 * to execution; when anything raises, retry with `restart_and_verify` while
 * retries remain, and fail otherwise.
 *
 * The two activities and the chat messages are an oracle: the activity's
 * reply (or the text of what it raised), and whether the last message,
 * sent after the plan is stored, raised.
 */
module PlanningWorkflow {
  import opened Wrappers
  import opened Enums
  import opened EvooMachine
  import Catalog
  import StrategyManager
  import StrategyStats
  import PlanningTools
  import ExecutionWorkflow

  const DefaultStrategy := "restart_and_verify"
  const FallbackReasoning := "Fallback strategy due to planning error"

  /** The type name handed to the activities: the incident's, or `service_crash` when it is unset or empty. */
  function IncidentTypeArg(d: EvooData): (r: string)
    ensures r != ""
    ensures d.currentIncidentType.Some? && d.currentIncidentType.value != "" ==> r == d.currentIncidentType.value
    ensures d.currentIncidentType.None? ==> ParseIncidentType(r) == Some(ServiceCrash)
  {
    match d.currentIncidentType
    case Some(s) => if s == "" then "service_crash" else s
    case None => "service_crash"
  }

  /**
   * What the planning calls did: `Answered` with the activity's reply, and
   * the text of what the closing chat message raised, if it did; `Raised`
   * when an activity, the JSON decoding or an earlier message raised,
   * before anything was stored.
   */
  datatype PlanOutcome =
    | Answered(reply: PlanningTools.PlanReply, raisedAfter: Option<string>)
    | Raised(error: string)

  /** The planning fields, the error message and the retry count are the only fields in which `a` and `b` may differ. */
  predicate OutsidePlanning(a: EvooData, b: EvooData)
  {
    SameLoopFields(a, b)
    && a.currentIncidentId == b.currentIncidentId && a.currentIncidentType == b.currentIncidentType
    && a.currentIncidentSeverity == b.currentIncidentSeverity && a.incidentDescription == b.incidentDescription
    && a.metricsBefore == b.metricsBefore && a.metricsAfter == b.metricsAfter
    && a.actionsExecuted == b.actionsExecuted && a.toolsCalled == b.toolsCalled
    && a.executionResults == b.executionResults
    && a.totalRecoveryTime == b.totalRecoveryTime && a.totalCost == b.totalCost
    && a.serviceRestored == b.serviceRestored && a.reward == b.reward
    && a.rewardBreakdown == b.rewardBreakdown && a.llmEvaluation == b.llmEvaluation
    && a.adjustedReward == b.adjustedReward && a.experienceStored == b.experienceStored
    && a.strategyRankingsUpdated == b.strategyRankingsUpdated
  }

  /** The reply's keys stored in the record, each absent key read as its default. */
  function StorePlan(d: EvooData, reply: PlanningTools.PlanReply): (r: EvooData)
    ensures OutsidePlanning(d, r) && r.errorMessage == d.errorMessage && r.retryCount == d.retryCount
  {
    d.(selectedStrategy := Some(reply.selectedStrategy.GetOr(DefaultStrategy)),
       strategyDetails := reply.strategyDetails.GetOr(NoDetails),
       planningReasoning := reply.reasoning.GetOr(""),
       planningConfidence := reply.confidence.GetOr(0.5),
       isExploration := reply.isExploration.GetOr(false))
  }

  /** The `except` branch: record the error, then retry with the default strategy or fail. */
  function Recover(d: EvooData, error: string): (r: Transition)
    ensures r.data.Some? && OutsidePlanning(d, r.data.value)
    ensures r.data.value.errorMessage == "Planning failed: " + error
    ensures r.next == ExecutingRemediation <==> d.retryCount < d.maxRetries
    ensures r.next == ExecutingRemediation ==>
      (r.data.value.retryCount == d.retryCount + 1
       && r.data.value.selectedStrategy == Some(DefaultStrategy)
       && r.data.value.planningReasoning == FallbackReasoning && r.data.value.planningConfidence == 0.3)
    ensures r.next != ExecutingRemediation ==> r.next == Failed && r.data.value == d.(errorMessage := "Planning failed: " + error)
    ensures r.data.value.strategyDetails == d.strategyDetails && r.data.value.isExploration == d.isExploration
  {
    var failed := d.(errorMessage := "Planning failed: " + error);
    if d.retryCount < d.maxRetries then
      Transition(ExecutingRemediation,
                 Some(failed.(retryCount := d.retryCount + 1, selectedStrategy := Some(DefaultStrategy),
                              planningReasoning := FallbackReasoning, planningConfidence := 0.3)))
    else Transition(Failed, Some(failed))
  }

  /** Whether planning ends in the `except` branch: the activity side raised, or the closing message did (it is sent only with a task). */
  predicate Raises(d: EvooData, o: PlanOutcome)
  {
    o.Raised? || (o.raisedAfter.Some? && d.taskId.Some?)
  }

  /** `PlanningWorkflow.execute` */
  function Planning(data: Option<EvooData>, o: PlanOutcome): (r: Transition)
    ensures data.None? ==> r == Transition(Failed, None)
    ensures data.Some? ==> r.data.Some? && OutsidePlanning(data.value, r.data.value)
    ensures r.next == Failed || r.next == ExecutingRemediation
    ensures r.next == Failed <==> data.None? || (Raises(data.value, o) && data.value.retryCount >= data.value.maxRetries)
    ensures data.Some? && !Raises(data.value, o) ==>
      (r.data.value.retryCount == data.value.retryCount && r.data.value.errorMessage == data.value.errorMessage)
  {
    match data
    case None => Transition(Failed, None)
    case Some(d) =>
      match o
      case Raised(e) => Recover(d, e)
      case Answered(reply, after) =>
        var stored := StorePlan(d, reply);
        if after.Some? && d.taskId.Some? then Recover(stored, after.value)
        else Transition(ExecutingRemediation, Some(stored))
  }

  /** Retries never run past the limit: a record within its retry budget stays within it, and each pass spends at most one retry. */
  lemma RetriesStayWithinLimit(d: EvooData, o: PlanOutcome)
    requires 0 <= d.retryCount <= d.maxRetries
    ensures var r := Planning(Some(d), o).data.value;
      d.retryCount <= r.retryCount <= d.maxRetries && r.retryCount <= d.retryCount + 1
      && r.maxRetries == d.maxRetries
  {
    match o
    case Raised(e) =>
    case Answered(reply, after) =>
      assert StorePlan(d, reply).retryCount == d.retryCount;
  }

  /** A retry is spent exactly when planning raised and a retry was left. */
  lemma RetrySpentOnlyOnError(d: EvooData, o: PlanOutcome)
    ensures Planning(Some(d), o).data.value.retryCount == d.retryCount + 1
      <==> Raises(d, o) && d.retryCount < d.maxRetries
  {
  }

  /**
   * A plan produced by `plan_remediation` and stored without error names a
   * catalog strategy for the incident's type and carries that strategy's
   * own action list; for a type the catalog does not know, the default
   * strategy is stored with no actions, which execution runs as one restart.
   */
  lemma StoredPlanIsCatalogPlan(d: EvooData, m: StrategyManager.Manager, records: seq<StrategyStats.StrategyRecord>,
                                llm: PlanningTools.LlmPlan, bonus: StrategyManager.Bonus)
    ensures var typeName := IncidentTypeArg(d);
      var reply := PlanningTools.PlanRemediation(typeName, m, records, llm, bonus).reply;
      var r := Planning(Some(d), Answered(reply, None));
      r.next == ExecutingRemediation
      && (ParseIncidentType(typeName).Some? ==>
            exists s :: s in Catalog.StrategiesFor(ParseIncidentType(typeName).value)
              && r.data.value.selectedStrategy == Some(s.name)
              && r.data.value.strategyDetails == PlanningTools.DetailsOf(s))
      && (ParseIncidentType(typeName).None? ==>
            r.data.value.selectedStrategy == Some(DefaultStrategy)
            && ExecutionWorkflow.ActionsToRun(r.data.value.strategyDetails) == ExecutionWorkflow.RestartOnly)
  {
    var typeName := IncidentTypeArg(d);
    if ParseIncidentType(typeName).Some? {
      PlanningTools.PlanNamesApplicableStrategy(typeName, m, records, llm, bonus);
    }
  }

  /** With nothing stored, the default strategy's name and the actions that run agree: `restart_and_verify` is one restart. */
  lemma DefaultStrategyRunsAsNamed()
    ensures Catalog.GetByName(DefaultStrategy) == Some(Catalog.RestartAndVerify)
    ensures ExecutionWorkflow.ActionsToRun(NoDetails) == PlanningTools.DetailsOf(Catalog.RestartAndVerify).actions
  {
    var acts := PlanningTools.DetailsOf(Catalog.RestartAndVerify).actions;
    assert |acts| == 1;
    assert ParseActionType(acts[0].actionType.value) == Some(RestartService);
    assert acts[0].actionType.value == "restart_service";
  }

  /**
   * A fallback at the start of a cycle, when no plan has been stored,
   * executes exactly the actions of the strategy it names.
   */
  lemma EarlyFallbackRunsDefaultStrategy(d: EvooData, error: string)
    requires d.strategyDetails == NoDetails && d.retryCount < d.maxRetries
    ensures var r := Planning(Some(d), Raised(error)).data.value;
      r.selectedStrategy == Some(DefaultStrategy)
      && ExecutionWorkflow.ActionsToRun(r.strategyDetails) == PlanningTools.DetailsOf(Catalog.RestartAndVerify).actions
  {
    DefaultStrategyRunsAsNamed();
  }

  /**
   * A fallback after the plan was stored (the closing message raised)
   * renames the strategy but keeps the stored plan's actions: the record
   * says `restart_and_verify` while execution runs the planned actions.
   */
  lemma LateFallbackKeepsPlannedActions(d: EvooData, reply: PlanningTools.PlanReply, error: string)
    requires d.taskId.Some? && d.retryCount < d.maxRetries
    ensures var r := Planning(Some(d), Answered(reply, Some(error)));
      r.next == ExecutingRemediation
      && r.data.value.selectedStrategy == Some(DefaultStrategy)
      && r.data.value.strategyDetails == reply.strategyDetails.GetOr(NoDetails)
      && r.data.value.isExploration == reply.isExploration.GetOr(false)
  {
  }
}
