/**
 * The learning state of the learning loop
 * (`project/workflows/learning/learning_workflow.py`): turn the cycle's
 * record into an experience, store it, tell the strategy manager whether
 * the strategy worked, refresh the metrics and rankings the record shows,
 * and go back to idle whatever happens.
 *
 * The shared store and manager are optional inputs and come back as
 * outputs. The experience's identifier, the text of a validation error and
 * a failing chat message are an oracle; saving the store to disk is not
 * modelled.
 */
module LearningWorkflow {
  import opened Wrappers
  import opened Enums
  import opened EvooMachine
  import IncidentModel
  import ExperienceModel
  import ExperienceStore
  import StrategyManager
  import Catalog
  import EvaluationWorkflow

  /** Python's `s or default` on an optional string: `None` and the empty string both give the default. */
  function OrDefault(s: Option<string>, default: string): (r: string)
    ensures s.Some? && s.value != "" ==> r == s.value
    ensures s.None? || s.value == "" ==> r == default
  {
    if s.Some? && s.value != "" then s.value else default
  }

  /** The experience's incident type: the record's, or `service_crash` when it is unset or names no type. */
  function IncidentTypeOf(d: EvooData): (t: IncidentType)
    ensures d.currentIncidentType.Some? && ParseIncidentType(d.currentIncidentType.value).Some? ==>
      IncidentTypeName(t) == d.currentIncidentType.value
  {
    match d.currentIncidentType
    case None => ServiceCrash
    case Some(s) => ParseIncidentType(s).GetOr(ServiceCrash)
  }

  /** The reward the loop learns from: the judge-adjusted reward, or the numerical one when that is exactly 0. */
  function LearnedReward(d: EvooData): (r: real)
    ensures r == d.adjustedReward || r == d.reward
    ensures d.adjustedReward != 0.0 ==> r == d.adjustedReward
  {
    if d.adjustedReward != 0.0 then d.adjustedReward else d.reward
  }

  /** The name the strategy is stored and marked under. */
  function StrategyUsed(d: EvooData): string
  {
    OrDefault(d.selectedStrategy, "unknown")
  }

  /** A whole number held in a float, as an integer field accepts it. */
  function WholeNumber(x: real): (r: Option<int>)
    ensures r.Some? ==> r.value as real == x
  {
    if x.Floor as real == x then Some(x.Floor) else None
  }

  /** A metrics dictionary validated as `SystemMetrics`: absent keys take their defaults; `None` is the validation error. */
  function MetricsFrom(m: MetricsDict): (r: Option<IncidentModel.SystemMetrics>)
    ensures r.Some? ==> IncidentModel.WithinFieldBounds(r.value)
    ensures r.Some? ==> r.value.cpuPercent == Get(m, "cpu_percent", 0.0) && r.value.availability == Get(m, "availability", 1.0)
    ensures r.None? ==>
      (!IncidentModel.WithinFieldBounds(IncidentModel.SystemMetrics(
         Get(m, "latency_ms", 0.0), Get(m, "cpu_percent", 0.0), Get(m, "memory_percent", 0.0),
         Get(m, "error_rate", 0.0), Get(m, "availability", 1.0), Get(m, "recovery_time_seconds", 0.0),
         Get(m, "active_instances", 1.0).Floor, Get(m, "timeout_ms", 30000.0).Floor))
       || WholeNumber(Get(m, "active_instances", 1.0)).None? || WholeNumber(Get(m, "timeout_ms", 30000.0)).None?)
  {
    var instances := WholeNumber(Get(m, "active_instances", 1.0));
    var timeout := WholeNumber(Get(m, "timeout_ms", 30000.0));
    if instances.None? || timeout.None? then None
    else
      var s := IncidentModel.SystemMetrics(
        Get(m, "latency_ms", 0.0), Get(m, "cpu_percent", 0.0), Get(m, "memory_percent", 0.0),
        Get(m, "error_rate", 0.0), Get(m, "availability", 1.0), Get(m, "recovery_time_seconds", 0.0),
        instances.value, timeout.value);
      if IncidentModel.WithinFieldBounds(s) then Some(s) else None
  }

  /** The values of the `RemediationStrategy` enumeration the experience's `strategy_used` field is declared with. */
  function StrategyValue(name: string): (r: Option<IncidentModel.RemediationStrategy>)
    ensures r.Some? ==> IncidentModel.StrategyName(r.value) == name
    ensures r.None? ==> forall s :: IncidentModel.StrategyName(s) != name
  {
    if name == "restart_service" then Some(IncidentModel.RestartService)
    else if name == "scale_horizontal" then Some(IncidentModel.ScaleHorizontal)
    else if name == "scale_vertical" then Some(IncidentModel.ScaleVertical)
    else if name == "change_timeout" then Some(IncidentModel.ChangeTimeout)
    else if name == "rollback_deployment" then Some(IncidentModel.RollbackDeployment)
    else if name == "clear_cache" then Some(IncidentModel.ClearCache)
    else if name == "rebalance_load" then Some(IncidentModel.RebalanceLoad)
    else if name == "combined_restart_scale" then Some(IncidentModel.CombinedRestartScale)
    else if name == "combined_cache_rebalance" then Some(IncidentModel.CombinedCacheRebalance)
    else if name == "combined_rollback_scale" then Some(IncidentModel.CombinedRollbackScale)
    else None
  }

  /** The experience the record describes, once its metrics have been validated. Unset fields keep their defaults. */
  function ExperienceOf(d: EvooData, id: string, before: IncidentModel.SystemMetrics, after: IncidentModel.SystemMetrics)
    : (e: ExperienceModel.Experience)
    ensures e.strategyUsed == StrategyUsed(d) && e.incidentType == IncidentTypeOf(d)
    ensures e.reward == LearnedReward(d) && e.success == d.serviceRestored
    ensures e.recoveryTimeSeconds == d.totalRecoveryTime && e.toolsCalled == d.toolsCalled
  {
    ExperienceModel.DefaultExperience.(
      id := id, incidentType := IncidentTypeOf(d), incidentSeverity := OrDefault(d.currentIncidentSeverity, "medium"),
      metricsBefore := before, strategyUsed := StrategyUsed(d), toolsCalled := d.toolsCalled,
      metricsAfter := after, recoveryTimeSeconds := d.totalRecoveryTime, reward := LearnedReward(d),
      rewardBreakdown := d.rewardBreakdown, success := d.serviceRestored, llmEvaluation := d.llmEvaluation)
  }

  /**
   * The `Experience(...)` construction; `None` is its validation error.
   * `strictStrategy` says whether `strategy_used` must be a value of the
   * `RemediationStrategy` enumeration, as the declared field type demands,
   * or may be any strategy name.
   */
  function BuildExperience(d: EvooData, id: string, strictStrategy: bool): (r: Option<ExperienceModel.Experience>)
    ensures r.Some? ==> ExperienceModel.ValidExperience(r.value)
    ensures r.Some? <==>
      (MetricsFrom(d.metricsBefore).Some? && MetricsFrom(d.metricsAfter).Some?
       && d.totalRecoveryTime >= 0.0 && (strictStrategy ==> StrategyValue(StrategyUsed(d)).Some?))
    ensures r.Some? ==> r.value == ExperienceOf(d, id, MetricsFrom(d.metricsBefore).value, MetricsFrom(d.metricsAfter).value)
  {
    var before := MetricsFrom(d.metricsBefore);
    var after := MetricsFrom(d.metricsAfter);
    if before.None? || after.None? || d.totalRecoveryTime < 0.0 then None
    else if strictStrategy && StrategyValue(StrategyUsed(d)).None? then None
    else Some(ExperienceOf(d, id, before.value, after.value))
  }

  /** What the learning calls depend on: the experience's identifier, a validation error's text, and a failing chat message. */
  datatype Oracle = Oracle(id: string, validationError: string, messageError: Option<string>)

  /** The next state and record, and the shared store and manager as learning left them. */
  datatype Learned = Learned(transition: Transition, store: Option<ExperienceStore.Store>, manager: Option<StrategyManager.Manager>)

  const ZeroDivision := "division by zero"

  /** Only the learning fields and the error message may differ between `a` and `b`. */
  predicate OutsideLearning(a: EvooData, b: EvooData)
  {
    a.taskId == b.taskId && a.currentTurn == b.currentTurn && a.messagesReceived == b.messagesReceived
    && a.conversationHistory == b.conversationHistory
    && a.incidentCount == b.incidentCount && a.maxIncidents == b.maxIncidents
    && a.waitingForUserInput == b.waitingForUserInput && a.autoMode == b.autoMode
    && a.learningLoopActive == b.learningLoopActive && a.maxRetries == b.maxRetries
    && a.currentIncidentId == b.currentIncidentId && a.currentIncidentType == b.currentIncidentType
    && a.currentIncidentSeverity == b.currentIncidentSeverity && a.incidentDescription == b.incidentDescription
    && a.metricsBefore == b.metricsBefore && a.metricsAfter == b.metricsAfter
    && a.selectedStrategy == b.selectedStrategy && a.strategyDetails == b.strategyDetails
    && a.planningReasoning == b.planningReasoning && a.planningConfidence == b.planningConfidence
    && a.isExploration == b.isExploration
    && a.actionsExecuted == b.actionsExecuted && a.toolsCalled == b.toolsCalled
    && a.executionResults == b.executionResults
    && a.totalRecoveryTime == b.totalRecoveryTime && a.totalCost == b.totalCost
    && a.serviceRestored == b.serviceRestored && a.reward == b.reward
    && a.rewardBreakdown == b.rewardBreakdown && a.llmEvaluation == b.llmEvaluation
    && a.adjustedReward == b.adjustedReward && a.retryCount == b.retryCount
  }

  /** The manager told of the outcome: a success when the service was restored, a failure otherwise. */
  function Mark(m: StrategyManager.Manager, d: EvooData, e: ExperienceModel.Experience): StrategyManager.Manager
  {
    if d.serviceRestored then StrategyManager.MarkSuccess(m, StrategyUsed(d), IncidentTypeOf(d), e.reward)
    else StrategyManager.MarkFailure(m, StrategyUsed(d), IncidentTypeOf(d))
  }

  /** The record, store and manager after the experience is stored and the manager told, when there is a store. */
  function Remember(d: EvooData, s: ExperienceStore.Store, manager: Option<StrategyManager.Manager>, e: ExperienceModel.Experience)
    : (r: Learned)
    requires ExperienceStore.WellFormed(s)
    ensures r.store == Some(ExperienceStore.StoreExperience(s, e))
    ensures r.manager == (if manager.Some? then Some(Mark(manager.value, d, e)) else None)
    ensures r.transition.next == Idle && r.transition.data.Some?
    ensures OutsideLearning(d, r.transition.data.value) && r.transition.data.value.errorMessage == d.errorMessage
    ensures r.transition.data.value.experienceStored && r.transition.data.value.strategyRankingsUpdated
    ensures r.transition.data.value.agentMetrics == Some(ExperienceStore.AgentMetricsView(r.store.value.metrics))
    ensures r.transition.data.value.strategyRankings == ExperienceStore.Rankings(r.store.value, None)
  {
    var s' := ExperienceStore.StoreExperience(s, e);
    var m' := if manager.Some? then Some(Mark(manager.value, d, e)) else None;
    var d' := d.(experienceStored := true,
                 agentMetrics := Some(ExperienceStore.AgentMetricsView(s'.metrics)),
                 strategyRankings := ExperienceStore.Rankings(s', None),
                 strategyRankingsUpdated := true);
    Learned(Transition(Idle, Some(d')), Some(s'), m')
  }

  /** The `except` branch: the error recorded, and nothing else about the record changed. */
  function Failing(d: EvooData, error: string): (r: EvooData)
    ensures OutsideLearning(d, r) && r.errorMessage == "Learning failed: " + error
    ensures r.experienceStored == d.experienceStored && r.strategyRankingsUpdated == d.strategyRankingsUpdated
    ensures r.agentMetrics == d.agentMetrics && r.strategyRankings == d.strategyRankings
  {
    d.(errorMessage := "Learning failed: " + error)
  }

  /** What the closing summary message raises, if anything: it is sent only with a task, and divides by the incident budget. */
  function MessageError(d: EvooData, o: Oracle): (r: Option<string>)
    ensures d.taskId.None? ==> r.None?
    ensures d.taskId.Some? && d.maxIncidents == 0 ==> r == Some(ZeroDivision)
  {
    if d.taskId.None? then None
    else if d.maxIncidents == 0 then Some(ZeroDivision)
    else o.messageError
  }

  /** The stored cycle with the closing message sent: a raise from it is recorded in the record, after the store and manager changed. */
  function Report(l: Learned, d: EvooData, o: Oracle): (r: Learned)
    requires l.transition.data.Some?
    ensures r.store == l.store && r.manager == l.manager && r.transition.next == Idle && r.transition.data.Some?
    ensures OutsideLearning(l.transition.data.value, r.transition.data.value)
    ensures var a := l.transition.data.value; var b := r.transition.data.value;
      b.experienceStored == a.experienceStored && b.strategyRankingsUpdated == a.strategyRankingsUpdated
      && b.agentMetrics == a.agentMetrics && b.strategyRankings == a.strategyRankings
    ensures MessageError(d, o).None? ==> r.transition.data == l.transition.data
    ensures MessageError(d, o).Some? ==>
      r.transition.data.value.errorMessage == "Learning failed: " + MessageError(d, o).value
  {
    match MessageError(d, o)
    case None => l.(transition := Transition(Idle, l.transition.data))
    case Some(err) => l.(transition := Transition(Idle, Some(Failing(l.transition.data.value, err))))
  }

  function LearnWith(data: Option<EvooData>, store: Option<ExperienceStore.Store>, manager: Option<StrategyManager.Manager>,
                     o: Oracle, strictStrategy: bool): (r: Learned)
    requires store.Some? ==> ExperienceStore.WellFormed(store.value)
    ensures data.None? ==> r == Learned(Transition(Failed, None), store, manager)
    ensures data.Some? ==> r.transition.next == Idle && r.transition.data.Some?
    ensures data.Some? ==> OutsideLearning(data.value, r.transition.data.value)
    ensures r.store.Some? <==> store.Some?
    ensures r.manager.Some? <==> manager.Some?
  {
    match data
    case None => Learned(Transition(Failed, None), store, manager)
    case Some(d) =>
      match BuildExperience(d, o.id, strictStrategy)
      case None => Learned(Transition(Idle, Some(Failing(d, o.validationError))), store, manager)
      case Some(e) =>
        var stored := if store.Some? then Remember(d, store.value, manager, e)
                      else Learned(Transition(Idle, Some(d)), store, manager);
        Report(stored, d, o)
  }

  /** `LearningWorkflow.execute` as written: `strategy_used` is validated against the `RemediationStrategy` values. */
  function LearnAsWritten(data: Option<EvooData>, store: Option<ExperienceStore.Store>, manager: Option<StrategyManager.Manager>,
                          o: Oracle): (r: Learned)
    requires store.Some? ==> ExperienceStore.WellFormed(store.value)
    ensures data.Some? ==> r.transition.next == Idle && r.transition.data.Some?
    ensures data.Some? ==> OutsideLearning(data.value, r.transition.data.value)
  {
    LearnWith(data, store, manager, o, true)
  }

  /** `LearningWorkflow.execute`, with the strategy stored under the name the loop selected. */
  function Learn(data: Option<EvooData>, store: Option<ExperienceStore.Store>, manager: Option<StrategyManager.Manager>,
                 o: Oracle): (r: Learned)
    requires store.Some? ==> ExperienceStore.WellFormed(store.value)
    ensures data.None? ==> r == Learned(Transition(Failed, None), store, manager)
    ensures data.Some? ==> r.transition.next == Idle && r.transition.data.Some?
    ensures data.Some? ==> OutsideLearning(data.value, r.transition.data.value)
    ensures r.store.Some? <==> store.Some?
    ensures r.manager.Some? <==> manager.Some?
  {
    LearnWith(data, store, manager, o, false)
  }

  /**
   * With a store, a record whose metrics validate is learned from exactly
   * once: the store gains one experience carrying the strategy's name, the
   * learned reward and the outcome, the record shows the store's refreshed
   * metrics and rankings, and the incident counter is left alone.
   */
  lemma LearningStoresOneExperience(d: EvooData, s: ExperienceStore.Store, manager: Option<StrategyManager.Manager>, o: Oracle)
    requires ExperienceStore.WellFormed(s)
    requires MetricsFrom(d.metricsBefore).Some? && MetricsFrom(d.metricsAfter).Some? && d.totalRecoveryTime >= 0.0
    ensures var r := Learn(Some(d), Some(s), manager, o);
      var s' := r.store.value;
      var e := s'.experiences[|s.experiences|];
      |s'.experiences| == |s.experiences| + 1 && s'.experiences[..|s.experiences|] == s.experiences
      && e.strategyUsed == StrategyUsed(d) && e.reward == LearnedReward(d) && e.success == d.serviceRestored
      && r.transition.data.value.experienceStored && r.transition.data.value.strategyRankingsUpdated
      && r.transition.data.value.agentMetrics == Some(ExperienceStore.AgentMetricsView(s'.metrics))
      && r.transition.data.value.incidentCount == d.incidentCount
  {
    assert BuildExperience(d, o.id, false).Some?;
    var e := BuildExperience(d, o.id, false).value;
    var l := Remember(d, s, manager, e);
    assert Learn(Some(d), Some(s), manager, o) == Report(l, d, o);
    var s' := ExperienceStore.StoreExperience(s, e);
    assert l.store == Some(s');
    assert s'.experiences[..|s.experiences|] == s.experiences;
  }

  /** The manager hears of every stored outcome exactly once: a success when the service was restored, a failure otherwise. */
  lemma LearningMarksOutcome(d: EvooData, s: ExperienceStore.Store, m: StrategyManager.Manager, o: Oracle)
    requires ExperienceStore.WellFormed(s)
    requires BuildExperience(d, o.id, false).Some?
    ensures var r := Learn(Some(d), Some(s), Some(m), o).manager.value;
      (d.serviceRestored ==> r == StrategyManager.MarkSuccess(m, StrategyUsed(d), IncidentTypeOf(d), LearnedReward(d)))
      && (!d.serviceRestored ==> r == StrategyManager.MarkFailure(m, StrategyUsed(d), IncidentTypeOf(d)))
  {
  }

  /** Without a store nothing is learned: the manager is untouched and the record keeps its learning fields. */
  lemma NoStoreLearnsNothing(d: EvooData, manager: Option<StrategyManager.Manager>, o: Oracle)
    ensures var r := Learn(Some(d), None, manager, o);
      r.store.None? && r.manager == manager
      && r.transition.data.value.experienceStored == d.experienceStored
      && r.transition.data.value.strategyRankings == d.strategyRankings
  {
  }

  /** Learning keeps the store's bookkeeping invariant. */
  lemma LearningKeepsStoreInvariant(data: Option<EvooData>, s: ExperienceStore.Store, manager: Option<StrategyManager.Manager>, o: Oracle)
    requires ExperienceStore.StoreInvariant(s)
    ensures ExperienceStore.StoreInvariant(Learn(data, Some(s), manager, o).store.value)
  {
    if data.Some? {
      match BuildExperience(data.value, o.id, false)
      case None =>
      case Some(e) => ExperienceStore.StorePreservesInvariant(s, e);
    }
  }

  /**
   * The reward learned from a cycle whose evaluation did not raise is the
   * judge-adjusted reward, unless that came out exactly 0.
   */
  lemma LearnsFromEvaluatedReward(d: EvooData, eo: EvaluationWorkflow.Oracle)
    requires !EvaluationWorkflow.RaisesFor(d, eo)
    ensures var e := EvaluationWorkflow.Evaluate(Some(d), eo).data.value;
      LearnedReward(e) == (if e.adjustedReward != 0.0 then e.adjustedReward else EvaluationWorkflow.RewardOf(d).reward)
  {
  }

  /** With a task and a zero incident budget the summary divides by zero: the experience is stored, and the record reports a failure. */
  lemma ZeroBudgetReportsFailure(d: EvooData, s: ExperienceStore.Store, manager: Option<StrategyManager.Manager>, o: Oracle)
    requires ExperienceStore.WellFormed(s)
    requires d.taskId.Some? && d.maxIncidents == 0 && BuildExperience(d, o.id, false).Some?
    ensures var r := Learn(Some(d), Some(s), manager, o);
      r.transition.next == Idle && r.transition.data.value.experienceStored
      && r.transition.data.value.errorMessage == "Learning failed: " + ZeroDivision
      && |r.store.value.experiences| == |s.experiences| + 1
  {
    var e := BuildExperience(d, o.id, false).value;
    assert Learn(Some(d), Some(s), manager, o) == Report(Remember(d, s, manager, e), d, o);
  }

  /** None of the entries' keys is a value of the `RemediationStrategy` enumeration. */
  predicate NoStrategyValues(es: seq<(string, Catalog.Strategy)>)
  {
    forall i :: 0 <= i < |es| ==> StrategyValue(es[i].0).None?
  }

  /**
   * The ninth-character codes (`Catalog.CharCode(v, 8)`) of the enumeration
   * values, worked out by hand; `NotAStrategyValue` checks each one.
   */
  const StrategyValueCodes: set<int> := {2035, 2162, 1906, 1897, 2527, 1507, 1893, 2911, 3167, 3039}

  /** A name whose code no enumeration value has is not an enumeration value. */
  lemma NotAStrategyValue(name: string)
    requires Catalog.CharCode(name, 8) !in StrategyValueCodes
    ensures StrategyValue(name).None?
  {
    assert Catalog.CharCode("restart_service", 8) == 2035;
    assert Catalog.CharCode("scale_horizontal", 8) == 2162;
    assert Catalog.CharCode("scale_vertical", 8) == 1906;
    assert Catalog.CharCode("change_timeout", 8) == 1897;
    assert Catalog.CharCode("rollback_deployment", 8) == 2527;
    assert Catalog.CharCode("clear_cache", 8) == 1507;
    assert Catalog.CharCode("rebalance_load", 8) == 1893;
    assert Catalog.CharCode("combined_restart_scale", 8) == 2911;
    assert Catalog.CharCode("combined_cache_rebalance", 8) == 3167;
    assert Catalog.CharCode("combined_rollback_scale", 8) == 3039;
  }

  lemma NinthCodesFrom0()
    ensures forall i :: 0 <= i < 6 ==> Catalog.CharCode(Catalog.KeyNames[i], 8) !in StrategyValueCodes
  {
    var ns := Catalog.KeyNames;
    assert Catalog.CharCode(ns[0], 8) == 2401;
    assert Catalog.CharCode(ns[1], 8) == 2655;
    assert Catalog.CharCode(ns[2], 8) == 2276;
    assert Catalog.CharCode(ns[3], 8) == 2804;
    assert Catalog.CharCode(ns[4], 8) == 2532;
    assert Catalog.CharCode(ns[5], 8) == 3423;
  }

  lemma NinthCodesFrom6()
    ensures forall i :: 6 <= i < 12 ==> Catalog.CharCode(Catalog.KeyNames[i], 8) !in StrategyValueCodes
  {
    var ns := Catalog.KeyNames;
    assert Catalog.CharCode(ns[6], 8) == 2399;
    assert Catalog.CharCode(ns[7], 8) == 2657;
    assert Catalog.CharCode(ns[8], 8) == 2022;
    assert Catalog.CharCode(ns[9], 8) == 2406;
    assert Catalog.CharCode(ns[10], 8) == 2655;
    assert Catalog.CharCode(ns[11], 8) == 2916;
  }

  lemma NinthCodesFrom12()
    ensures forall i :: 12 <= i < 18 ==> Catalog.CharCode(Catalog.KeyNames[i], 8) !in StrategyValueCodes
  {
    var ns := Catalog.KeyNames;
    assert Catalog.CharCode(ns[12], 8) == 2277;
    assert Catalog.CharCode(ns[13], 8) == 3300;
    assert Catalog.CharCode(ns[14], 8) == 3809;
    assert Catalog.CharCode(ns[15], 8) == 1519;
    assert Catalog.CharCode(ns[16], 8) == 2143;
    assert Catalog.CharCode(ns[17], 8) == 2529;
  }

  /** No catalog key, nor the `unknown` placeholder, is a value of the `RemediationStrategy` enumeration. */
  lemma CatalogNamesAreNotStrategyValues()
    ensures NoStrategyValues(Catalog.Entries)
    ensures StrategyValue("unknown").None?
  {
    NinthCodesFrom0();
    NinthCodesFrom6();
    NinthCodesFrom12();
    var ns := Catalog.KeyNames;
    forall i | 0 <= i < |ns|
      ensures StrategyValue(ns[i]).None?
    {
      NotAStrategyValue(ns[i]);
    }
    Catalog.KeysAreNames();
    NotAStrategyValue("unknown");
  }

  /**
   * As written, the experience can never be built for a strategy the
   * planner chose: every planned name comes from the catalog, and none of
   * them is an enumeration value. The store and manager are left as they
   * were and the cycle ends with a learning failure.
   */
  lemma CatalogStrategiesNeverLearned(d: EvooData, store: Option<ExperienceStore.Store>, manager: Option<StrategyManager.Manager>,
                                      o: Oracle)
    requires store.Some? ==> ExperienceStore.WellFormed(store.value)
    requires d.selectedStrategy.None? || Catalog.GetByName(d.selectedStrategy.value).Some?
    ensures var r := LearnAsWritten(Some(d), store, manager, o);
      r.store == store && r.manager == manager
      && r.transition.data.value == d.(errorMessage := "Learning failed: " + o.validationError)
  {
    CatalogNamesAreNotStrategyValues();
    var name := StrategyUsed(d);
    if d.selectedStrategy.Some? && d.selectedStrategy.value != "" {
      Catalog.GetByNameFindsName(d.selectedStrategy.value);
      var ks := Catalog.Keys(Catalog.Entries);
      var i :| 0 <= i < |ks| && ks[i] == name;
      assert Catalog.Entries[i].0 == name;
    }
    assert StrategyValue(name).None?;
  }

  /** Where the strategy name is an enumeration value, or the metrics do not validate, both versions agree. */
  lemma LearnAgreesOnStrategyValues(data: Option<EvooData>, store: Option<ExperienceStore.Store>, manager: Option<StrategyManager.Manager>,
                                    o: Oracle)
    requires store.Some? ==> ExperienceStore.WellFormed(store.value)
    requires data.Some? ==> StrategyValue(StrategyUsed(data.value)).Some?
    ensures LearnAsWritten(data, store, manager, o) == Learn(data, store, manager, o)
  {
  }
}
