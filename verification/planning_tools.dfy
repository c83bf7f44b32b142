/**
 * The planning activities (`project/activities/planning_tools.py`):
 * `plan_remediation` asks the LLM for a strategy among the catalog's
 * strategies for the incident type and falls back on the strategy
 * manager whenever the reply cannot be used; `get_strategy_recommendation`
 * reports the manager's view of a type.
 *
 * The LLM's reply is an oracle value, already sorted into the cases the
 * activity distinguishes. The store's strategy records and the manager's
 * exploration bonus are parameters, as in the manager's own model.
 */
module PlanningTools {
  import opened Wrappers
  import opened Enums
  import opened EvooMachine
  import Catalog
  import StrategyManager
  import StrategyStats
  import ExperienceStore
  import ExecutionWorkflow

  /** Every action type's name reads back as that action type. */
  lemma ActionTypeNameRoundTrip(a: RemediationActionType)
    ensures ParseActionType(ActionTypeName(a)) == Some(a)
  {
  }

  /** `strategy.to_dict()` as the execution loop reads it: the action list with each action's type name and parameters. */
  function DetailsOf(s: Catalog.Strategy): (r: StrategyDetails)
    ensures |r.actions| == |s.actions|
    ensures forall i :: 0 <= i < |s.actions| ==>
      r.actions[i].actionType.Some?
      && ParseActionType(r.actions[i].actionType.value) == Some(s.actions[i].actionType)
      && r.actions[i].parameters == s.actions[i].parameters
  {
    var r := StrategyDetails(seq(|s.actions|, i requires 0 <= i < |s.actions| =>
      PlannedAction(Some(ActionTypeName(s.actions[i].actionType)), s.actions[i].parameters)));
    assert forall i :: 0 <= i < |s.actions| ==> r.actions[i].actionType.Some? && ParseActionType(r.actions[i].actionType.value) == Some(s.actions[i].actionType) by {
      forall i | 0 <= i < |s.actions|
        ensures ParseActionType(r.actions[i].actionType.value) == Some(s.actions[i].actionType)
      {
        ActionTypeNameRoundTrip(s.actions[i].actionType);
      }
    }
    r
  }

  /** A catalog strategy's plan is never shortened by the loop: every action has an activity. */
  lemma CatalogPlansRunInFull(s: Catalog.Strategy)
    ensures forall a :: a in DetailsOf(s).actions ==> ExecutionWorkflow.ActivityFor(ExecutionWorkflow.TypeOf(a)).Some?
  {
    forall a | a in DetailsOf(s).actions
      ensures ExecutionWorkflow.ActivityFor(ExecutionWorkflow.TypeOf(a)).Some?
    {
      var i :| 0 <= i < |DetailsOf(s).actions| && DetailsOf(s).actions[i] == a;
      assert ExecutionWorkflow.TypeOf(a) == a.actionType.value;
    }
  }

  /**
   * The LLM's reply, sorted into the cases the activity distinguishes:
   * the call raised (`error` is the exception's text), the content is not
   * JSON, the JSON is not an object (reading it raises with `error`), or an
   * object whose keys are `None` when absent.
   */
  datatype LlmPlan =
    | LlmFailed(error: string)
    | LlmUnparseable
    | LlmNotObject(error: string)
    | LlmObject(selected: Option<string>, reasoning: Option<string>, confidence: Option<real>, isExploration: Option<bool>)

  /** The JSON the activity returns, with `None` for an absent key. The unknown-type error carries none of these keys. */
  datatype PlanReply = PlanReply(
    selectedStrategy: Option<string>,
    strategyDetails: Option<StrategyDetails>,
    reasoning: Option<string>,
    confidence: Option<real>,
    isExploration: Option<bool>)

  const ErrorReply := PlanReply(None, None, None, None, None)

  /** The reply and the manager after the call: a fallback selection updates the manager. */
  datatype Planned = Planned(reply: PlanReply, manager: StrategyManager.Manager)

  const ParseFailedReasoning := "LLM response parsing failed, using strategy manager selection"

  /** The outer fallback's reasoning, which quotes the exception. */
  function PlanningFailedReasoning(error: string): string
  {
    "LLM planning failed (" + error + "), using strategy manager selection"
  }

  /** The text of the `KeyError` that `plan["reasoning"] += ...` raises when the key is absent. */
  const MissingReasoningError := "'reasoning'"

  /** The text appended to the LLM's reasoning when its pick is not an available strategy. */
  function NotFoundNote(name: string): string
  {
    " (original selection '" + name + "' not found, using fallback)"
  }

  /** The manager's selection for the type; there is always one, since every type has strategies. */
  function ManagerPick(m: StrategyManager.Manager, records: seq<StrategyStats.StrategyRecord>, t: IncidentType,
                       bonus: StrategyManager.Bonus): (r: StrategyManager.Selection)
    ensures r.strategy in Catalog.StrategiesFor(t)
    ensures Some(r) == StrategyManager.Select(m, records, t, false, bonus)
    ensures r.manager.epsilon == StrategyManager.Decayed(m)
    ensures r.manager.minEpsilon == m.minEpsilon && r.manager.epsilonDecay == m.epsilonDecay
    ensures r.manager.lastSelected == m.lastSelected[t := r.strategy.name]
  {
    StrategyManager.SelectAlwaysApplicable(m, records, t, false, bonus);
    Catalog.ThreePerType(t);
    StrategyManager.Select(m, records, t, false, bonus).value
  }

  /** The outer `except`: a fresh manager selection with confidence 0.4, marked exploratory. */
  function Fallback(m: StrategyManager.Manager, records: seq<StrategyStats.StrategyRecord>, t: IncidentType,
                    bonus: StrategyManager.Bonus, error: string): Planned
  {
    var sel := ManagerPick(m, records, t, bonus);
    Planned(PlanReply(Some(sel.strategy.name), Some(DetailsOf(sel.strategy)), Some(PlanningFailedReasoning(error)), Some(0.4), Some(true)),
            sel.manager)
  }

  /** The available strategy of the given name, if there is one. */
  function Named(ss: seq<Catalog.Strategy>, name: string): (r: Option<Catalog.Strategy>)
    ensures r.Some? ==> r.value in ss && r.value.name == name
    ensures r.None? ==> forall s :: s in ss ==> s.name != name
  {
    if |ss| == 0 then None
    else if ss[0].name == name then Some(ss[0])
    else Named(ss[1..], name)
  }

  /**
   * The JSON-object case. A pick that names an available strategy is kept
   * with the LLM's other keys. Otherwise the manager picks, and its pick's
   * note is appended to the reasoning; `appendToMissing` says whether a
   * missing reasoning is read as empty (true) or makes `+=` raise into the
   * outer fallback, which selects once more (false).
   */
  function FromObject(m: StrategyManager.Manager, records: seq<StrategyStats.StrategyRecord>, t: IncidentType,
                      bonus: StrategyManager.Bonus, selected: Option<string>, reasoning: Option<string>,
                      confidence: Option<real>, isExploration: Option<bool>, appendToMissing: bool): Planned
  {
    var available := Catalog.StrategiesFor(t);
    var name := selected.GetOr("");
    match Named(available, name)
    case Some(s) => Planned(PlanReply(Some(name), Some(DetailsOf(s)), reasoning, confidence, isExploration), m)
    case None =>
      var sel := ManagerPick(m, records, t, bonus);
      if reasoning.None? && !appendToMissing then Fallback(sel.manager, records, t, bonus, MissingReasoningError)
      else
        Planned(PlanReply(Some(sel.strategy.name), Some(DetailsOf(sel.strategy)),
                          Some(reasoning.GetOr("") + NotFoundNote(name)), confidence, isExploration),
                sel.manager)
  }

  function PlanWith(typeName: string, m: StrategyManager.Manager, records: seq<StrategyStats.StrategyRecord>,
                    llm: LlmPlan, bonus: StrategyManager.Bonus, appendToMissing: bool): Planned
  {
    match ParseIncidentType(typeName)
    case None => Planned(ErrorReply, m)
    case Some(t) => PlanFor(t, m, records, llm, bonus, appendToMissing)
  }

  /** The plan for a known incident type. */
  function PlanFor(t: IncidentType, m: StrategyManager.Manager, records: seq<StrategyStats.StrategyRecord>,
                   llm: LlmPlan, bonus: StrategyManager.Bonus, appendToMissing: bool): Planned
  {
      match llm
      case LlmFailed(error) => Fallback(m, records, t, bonus, error)
      case LlmNotObject(error) => Fallback(m, records, t, bonus, error)
      case LlmUnparseable =>
        var sel := ManagerPick(m, records, t, bonus);
        Planned(PlanReply(Some(sel.strategy.name), Some(DetailsOf(sel.strategy)), Some(ParseFailedReasoning), Some(0.5), Some(true)),
                sel.manager)
      case LlmObject(selected, reasoning, confidence, isExploration) =>
        FromObject(m, records, t, bonus, selected, reasoning, confidence, isExploration, appendToMissing)
  }

  /** `plan_remediation` as written: an unusable pick with no reasoning selects twice. */
  function PlanRemediationAsWritten(typeName: string, m: StrategyManager.Manager, records: seq<StrategyStats.StrategyRecord>,
                                    llm: LlmPlan, bonus: StrategyManager.Bonus): Planned
  {
    PlanWith(typeName, m, records, llm, bonus, false)
  }

  /** `plan_remediation`, with a missing reasoning read as empty so that the fallback selects once. */
  function PlanRemediation(typeName: string, m: StrategyManager.Manager, records: seq<StrategyStats.StrategyRecord>,
                           llm: LlmPlan, bonus: StrategyManager.Bonus): (r: Planned)
    ensures ParseIncidentType(typeName).None? ==> r == Planned(ErrorReply, m)
    ensures ParseIncidentType(typeName).Some? ==> r.reply.selectedStrategy.Some? && r.reply.strategyDetails.Some?
    ensures ParseIncidentType(typeName).Some? && llm.LlmUnparseable? ==>
      r.reply.confidence == Some(0.5) && r.reply.isExploration == Some(true)
    ensures ParseIncidentType(typeName).Some? && (llm.LlmFailed? || llm.LlmNotObject?) ==>
      r.reply.confidence == Some(0.4) && r.reply.isExploration == Some(true)
      && r.reply.reasoning == Some(PlanningFailedReasoning(llm.error))
  {
    PlanWith(typeName, m, records, llm, bonus, true)
  }

  /** One manager selection or none: the manager afterwards is the input or the manager after one `select_strategy`. */
  predicate AtMostOneSelection(m: StrategyManager.Manager, m': StrategyManager.Manager,
                               records: seq<StrategyStats.StrategyRecord>, t: IncidentType, bonus: StrategyManager.Bonus)
  {
    m' == m || m' == ManagerPick(m, records, t, bonus).manager
  }

  /**
   * Whatever the LLM replies, a plan for a known type names one of the
   * catalog's strategies for that type, carries that strategy's action
   * list, and costs the manager at most one selection; the LLM's own pick
   * is kept exactly when it names such a strategy.
   */
  lemma PlanNamesApplicableStrategy(typeName: string, m: StrategyManager.Manager, records: seq<StrategyStats.StrategyRecord>,
                                    llm: LlmPlan, bonus: StrategyManager.Bonus)
    requires ParseIncidentType(typeName).Some?
    ensures var t := ParseIncidentType(typeName).value;
      var r := PlanRemediation(typeName, m, records, llm, bonus);
      (exists s :: s in Catalog.StrategiesFor(t) && r.reply.selectedStrategy == Some(s.name)
        && r.reply.strategyDetails == Some(DetailsOf(s)))
      && AtMostOneSelection(m, r.manager, records, t, bonus)
      && (llm.LlmObject? && llm.selected.Some? && Named(Catalog.StrategiesFor(t), llm.selected.value).Some? ==>
            r.reply.selectedStrategy == llm.selected && r.manager == m)
  {
    var t := ParseIncidentType(typeName).value;
    var r := PlanRemediation(typeName, m, records, llm, bonus);
    match llm
    case LlmFailed(_) =>
      assert ManagerPick(m, records, t, bonus).strategy in Catalog.StrategiesFor(t);
    case LlmNotObject(_) =>
      assert ManagerPick(m, records, t, bonus).strategy in Catalog.StrategiesFor(t);
    case LlmUnparseable =>
      assert ManagerPick(m, records, t, bonus).strategy in Catalog.StrategiesFor(t);
    case LlmObject(selected, reasoning, confidence, isExploration) =>
      var name := selected.GetOr("");
      match Named(Catalog.StrategiesFor(t), name)
      case Some(s) =>
      case None =>
        assert ManagerPick(m, records, t, bonus).strategy in Catalog.StrategiesFor(t);
  }

  /** Wherever the reply is not an object with an unusable pick and no reasoning, both versions agree. */
  lemma PlanAgreesWithReasoning(typeName: string, m: StrategyManager.Manager, records: seq<StrategyStats.StrategyRecord>,
                                llm: LlmPlan, bonus: StrategyManager.Bonus)
    requires llm.LlmObject? ==> llm.reasoning.Some?
    ensures PlanRemediationAsWritten(typeName, m, records, llm, bonus) == PlanRemediation(typeName, m, records, llm, bonus)
  {
  }

  /** For a known type, an object reply is read by `FromObject`. */
  lemma ObjectReplyReadsObject(typeName: string, t: IncidentType, m: StrategyManager.Manager,
                               records: seq<StrategyStats.StrategyRecord>, selected: Option<string>, reasoning: Option<string>,
                               confidence: Option<real>, isExploration: Option<bool>, bonus: StrategyManager.Bonus,
                               appendToMissing: bool)
    requires ParseIncidentType(typeName) == Some(t)
    ensures PlanWith(typeName, m, records, LlmObject(selected, reasoning, confidence, isExploration), bonus, appendToMissing)
      == FromObject(m, records, t, bonus, selected, reasoning, confidence, isExploration, appendToMissing)
  {
    var llm := LlmObject(selected, reasoning, confidence, isExploration);
    assert PlanWith(typeName, m, records, llm, bonus, appendToMissing) == PlanFor(t, m, records, llm, bonus, appendToMissing);
  }

  /** Two selections in a row decay epsilon twice, each time to no less than the floor. */
  lemma PickTwiceDecaysTwice(m: StrategyManager.Manager, records: seq<StrategyStats.StrategyRecord>, t: IncidentType,
                             bonus: StrategyManager.Bonus)
    ensures var once := ManagerPick(m, records, t, bonus).manager;
      ManagerPick(once, records, t, bonus).manager.epsilon
        == StrategyManager.Decay(StrategyManager.Decayed(m), m.minEpsilon, m.epsilonDecay)
  {
    var once := ManagerPick(m, records, t, bonus).manager;
    assert once.minEpsilon == m.minEpsilon && once.epsilonDecay == m.epsilonDecay;
  }

  /** An unusable pick with no reasoning: as written the outer fallback selects again; corrected, the first selection stands. */
  lemma UnusablePickWithoutReasoning(m: StrategyManager.Manager, records: seq<StrategyStats.StrategyRecord>, t: IncidentType,
                                     bonus: StrategyManager.Bonus, selected: Option<string>,
                                     confidence: Option<real>, isExploration: Option<bool>)
    requires Named(Catalog.StrategiesFor(t), selected.GetOr("")).None?
    ensures var once := ManagerPick(m, records, t, bonus).manager;
      FromObject(m, records, t, bonus, selected, None, confidence, isExploration, false).manager
        == ManagerPick(once, records, t, bonus).manager
      && FromObject(m, records, t, bonus, selected, None, confidence, isExploration, true).manager == once
  {
  }

  /**
   * An LLM object that names no available strategy and gives no reasoning
   * makes the code as written select twice: the manager's epsilon decays
   * twice and its last pick is the second selection's, where one selection
   * decays it once.
   */
  lemma MissingReasoningSelectsTwice(typeName: string, m: StrategyManager.Manager, records: seq<StrategyStats.StrategyRecord>,
                                     confidence: Option<real>, isExploration: Option<bool>, bonus: StrategyManager.Bonus)
    requires ParseIncidentType(typeName).Some?
    ensures var t := ParseIncidentType(typeName).value;
      var llm := LlmObject(None, None, confidence, isExploration);
      var once := ManagerPick(m, records, t, bonus).manager;
      PlanRemediationAsWritten(typeName, m, records, llm, bonus).manager == ManagerPick(once, records, t, bonus).manager
      && PlanRemediationAsWritten(typeName, m, records, llm, bonus).manager.epsilon
         == StrategyManager.Decay(StrategyManager.Decayed(m), m.minEpsilon, m.epsilonDecay)
      && PlanRemediation(typeName, m, records, llm, bonus).manager == once
      && once.epsilon == StrategyManager.Decayed(m)
  {
    var t := ParseIncidentType(typeName).value;
    PickTwiceDecaysTwice(m, records, t, bonus);
    Catalog.NamesNonEmpty(t);
    var none: Option<string> := None;
    assert Named(Catalog.StrategiesFor(t), none.GetOr("")).None?;
    UnusablePickWithoutReasoning(m, records, t, bonus, none, confidence, isExploration);
    ObjectReplyReadsObject(typeName, t, m, records, none, none, confidence, isExploration, bonus, false);
    ObjectReplyReadsObject(typeName, t, m, records, none, none, confidence, isExploration, bonus, true);
  }

  /** With the default manager the difference is visible in epsilon: 0.27075 where one selection leaves 0.285. */
  lemma DefaultManagerDoubleDecay(records: seq<StrategyStats.StrategyRecord>, bonus: StrategyManager.Bonus)
    ensures PlanRemediationAsWritten("service_crash", StrategyManager.DefaultManager, records, LlmObject(None, None, None, None), bonus)
      .manager.epsilon == 0.27075
    ensures PlanRemediation("service_crash", StrategyManager.DefaultManager, records, LlmObject(None, None, None, None), bonus)
      .manager.epsilon == 0.285
  {
    MissingReasoningSelectsTwice("service_crash", StrategyManager.DefaultManager, records, None, None, bonus);
  }

  /** `get_strategy_recommendation`; `None` is the error reply for a string that names no incident type. */
  function GetStrategyRecommendation(typeName: string, m: StrategyManager.Manager, store: ExperienceStore.Store)
    : (r: Option<StrategyManager.Recommendation>)
    ensures r.None? <==> forall t :: IncidentTypeName(t) != typeName
    ensures r.Some? ==> IncidentTypeName(r.value.incidentType) == typeName && r.value.currentEpsilon == m.epsilon
  {
    match ParseIncidentType(typeName)
    case None => None
    case Some(t) => Some(StrategyManager.RecommendationFor(m, store, t))
  }
}
