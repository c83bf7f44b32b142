/**
 * The deterministic parts of the LLM-driven analysis tools
 * (`project/activities/analysis_tools.py`): what `predict_incident_type`
 * does with the LLM's predictions, what `apply_previous_successful_strategy`
 * reads out of the experience store, and the answers `analyze_logs` gives
 * without an incident or without the LLM.
 *
 * The LLM's reply reaches the model already decoded, as the datatypes
 * below; whatever raises on the way (the call itself, a JSON object that
 * does not decode) is the reply `Failed`.
 */
module AnalysisTools {
  import opened Wrappers
  import opened Sorting
  import Enums
  import Health
  import Catalog
  import opened StrategyStats
  import ExperienceStore
  import RemediationActivities

  // ---------------------------------------------------------------------
  // predict_incident_type
  // ---------------------------------------------------------------------

  /** One entry of the `predictions` list: its `type` when that is a string, its `confidence` when present. */
  datatype RawPrediction = RawPrediction(typeName: Option<string>, confidence: Option<real>)

  /** What the LLM's reply decodes to. */
  datatype PredictReply =
    | Failed                                  // the call or the decoding raised
    | NoJson                                  // no `{...}` anywhere in the reply
    | Parsed(predictions: seq<RawPrediction>) // the object's `predictions` list (default `[]`)

  /** The tool's JSON result: the kept predictions and `prediction_method`. */
  datatype PredictResult = PredictResult(predictions: seq<RawPrediction>, predictionMethod: string)

  const UnparsedPrediction := RawPrediction(Some("service_crash"), Some(0.5))

  /** A prediction survives validation when its type is a value of the incident-type enumeration. */
  predicate Valid(p: RawPrediction)
  {
    p.typeName.Some? && p.typeName.value in RemediationActivities.ValidIncidentTypes
  }

  /** The validation loop: the valid predictions, in the order given. */
  function Validate(ps: seq<RawPrediction>): (r: seq<RawPrediction>)
    ensures forall p :: p in r <==> p in ps && Valid(p)
    ensures |r| <= |ps|
  {
    if |ps| == 0 then []
    else
      var rest := Validate(ps[1..]);
      assert forall p :: p in ps <==> p == ps[0] || p in ps[1..];
      if Valid(ps[0]) then [ps[0]] + rest else rest
  }

  /** The sort key `p.get("confidence", 0)`. */
  function ConfidenceKey(p: RawPrediction): Key
  {
    (p.confidence.GetOr(0.0), 0.0)
  }

  /** `validated_predictions` after the sort. */
  function Ranked(ps: seq<RawPrediction>): (r: seq<RawPrediction>)
    ensures multiset(r) == multiset(Validate(ps))
    ensures SortedDesc(r, ConfidenceKey)
  {
    SortDesc(Validate(ps), ConfidenceKey)
  }

  /** The `except` answer: the health score alone decides between a crash and slowness. */
  function FallbackPrediction(metrics: Health.Metrics): (r: PredictResult)
    ensures r.predictionMethod == "fallback" && |r.predictions| == 1 && r.predictions[0].confidence == Some(0.4)
    ensures r.predictions[0].typeName == Some("service_crash") <==> Health.HealthScore(metrics) < 0.3
    ensures Valid(r.predictions[0])
  {
    var t := if Health.HealthScore(metrics) < 0.3 then "service_crash" else "high_latency";
    PredictResult([RawPrediction(Some(t), Some(0.4))], "fallback")
  }

  /**
   * The predictions the LLM path keeps, or `None` where that path raises:
   * reporting the top prediction reads its `confidence` key without a
   * default.
   */
  function LlmPredictions(ps: seq<RawPrediction>): (r: Option<seq<RawPrediction>>)
    ensures r.None? <==> |Ranked(ps)| > 0 && Ranked(ps)[0].confidence.None?
    ensures r.Some? ==> r.value == Take(Ranked(ps), 3)
  {
    var ranked := Ranked(ps);
    if |ranked| > 0 && ranked[0].confidence.None? then None else Some(Take(ranked, 3))
  }

  /** `predict_incident_type`, as written. */
  function PredictAsWritten(reply: PredictReply, metrics: Health.Metrics): (r: PredictResult)
    ensures reply.Failed? ==> r == FallbackPrediction(metrics)
    ensures reply.Parsed? && LlmPredictions(reply.predictions).None? ==> r == FallbackPrediction(metrics)
    ensures reply.Parsed? && LlmPredictions(reply.predictions).Some? ==>
      r == PredictResult(LlmPredictions(reply.predictions).value, "llm_reasoning")
  {
    var ps := match reply
      case Failed => None
      case NoJson => LlmPredictions([UnparsedPrediction])
      case Parsed(ps) => LlmPredictions(ps);
    match ps
    case None => FallbackPrediction(metrics)
    case Some(kept) => PredictResult(kept, "llm_reasoning")
  }

  /**
   * A valid prediction without a confidence outranks nothing, yet when it
   * is the only one the reply has, the report of the top prediction raises
   * and the LLM's answer is thrown away for the health-score guess.
   */
  lemma MissingConfidenceDiscardsPrediction(metrics: Health.Metrics)
    ensures var p := RawPrediction(Some("cpu_spike"), None);
      Validate([p]) == [p] && PredictAsWritten(Parsed([p]), metrics).predictionMethod == "fallback"
  {
    var p := RawPrediction(Some("cpu_spike"), None);
    assert Validate([p]) == [p];
    assert Ranked([p]) == [p];
  }

  /** The LLM path's answer: the three most confident valid predictions. */
  function Kept(ps: seq<RawPrediction>): (r: PredictResult)
    ensures r.predictionMethod == "llm_reasoning" && r.predictions == Take(Ranked(ps), 3)
    ensures forall i :: 0 <= i < |r.predictions| ==> Valid(r.predictions[i])
    ensures |r.predictions| <= 3
    ensures SortedDesc(r.predictions, ConfidenceKey)
  {
    var ranked := Ranked(ps);
    TakeSorted(ranked, 3, ConfidenceKey);
    SameElements(ranked, Validate(ps));
    assert forall i :: 0 <= i < |Take(ranked, 3)| ==> Take(ranked, 3)[i] == ranked[i] && ranked[i] in Validate(ps);
    PredictResult(Take(ranked, 3), "llm_reasoning")
  }

  /** `predict_incident_type`, reporting the top prediction with `confidence` defaulting to 0 as the sort does. */
  function Predict(reply: PredictReply, metrics: Health.Metrics): (r: PredictResult)
    ensures reply.Failed? ==> r == FallbackPrediction(metrics)
    ensures reply.Parsed? ==> r == Kept(reply.predictions)
    ensures forall i :: 0 <= i < |r.predictions| ==> Valid(r.predictions[i])
    ensures |r.predictions| <= 3
    ensures SortedDesc(r.predictions, ConfidenceKey)
  {
    match reply
    case Failed => FallbackPrediction(metrics)
    case NoJson => Kept([UnparsedPrediction])
    case Parsed(ps) => Kept(ps)
  }

  /**
   * Where both versions answer from the LLM they agree; they differ only
   * where the top prediction has no confidence.
   */
  lemma PredictCorrectsOnlyMissingConfidence(reply: PredictReply, metrics: Health.Metrics)
    requires reply.Parsed? ==> LlmPredictions(reply.predictions).Some?
    ensures PredictAsWritten(reply, metrics) == Predict(reply, metrics)
  {
    if reply.NoJson? {
      assert Validate([UnparsedPrediction]) == [UnparsedPrediction];
      assert Ranked([UnparsedPrediction]) == [UnparsedPrediction];
    }
  }

  /** A reply with no JSON object in it counts as one service-crash guess at confidence 0.5. */
  lemma UnparseableReplyPredictsCrash(metrics: Health.Metrics)
    ensures Predict(NoJson, metrics) == PredictResult([UnparsedPrediction], "llm_reasoning")
  {
    assert Validate([UnparsedPrediction]) == [UnparsedPrediction];
    assert Ranked([UnparsedPrediction]) == [UnparsedPrediction];
  }

  /**
   * Nothing the LLM proposed with a valid type is left out in favour of a
   * less confident one: what is dropped is at most as confident as all
   * that is kept, and with at most three valid predictions all are kept.
   */
  lemma KeptAreMostConfident(ps: seq<RawPrediction>, metrics: Health.Metrics)
    ensures var r := Predict(Parsed(ps), metrics).predictions;
      (forall p, q :: p in ps && Valid(p) && p !in r && q in r ==> AtLeast(ConfidenceKey(q), ConfidenceKey(p)))
      && (|Validate(ps)| <= 3 ==> multiset(r) == multiset(Validate(ps)))
  {
    var ranked := Ranked(ps);
    SameElements(ranked, Validate(ps));
    PrefixDominance(ranked, 3, ConfidenceKey);
    assert Predict(Parsed(ps), metrics).predictions == Prefix(ranked, 3);
    if |Validate(ps)| <= 3 {
      assert Take(ranked, 3) == ranked;
    }
  }

  // ---------------------------------------------------------------------
  // apply_previous_successful_strategy
  // ---------------------------------------------------------------------

  /** What the tool reports. */
  datatype PreviousResult =
    | UnknownType(incidentType: string)
    | NoHistory(available: seq<string>)
    | Found(best: StrategyRecord, alternatives: seq<StrategyRecord>)

  function Names(ss: seq<Catalog.Strategy>): (r: seq<string>)
    ensures |r| == |ss| && forall i :: 0 <= i < |ss| ==> r[i] == ss[i].name
  {
    seq(|ss|, i requires 0 <= i < |ss| => ss[i].name)
  }

  /**
   * `apply_previous_successful_strategy`: the store's best three records
   * for the type; without any, the catalog's strategies for it (the LLM's
   * suggestion among them is not modelled).
   */
  function ApplyPrevious(store: ExperienceStore.Store, incidentType: string): (r: PreviousResult)
    ensures Enums.ParseIncidentType(incidentType).None? <==> r.UnknownType?
    ensures r.Found? ==> |r.alternatives| <= 2
    ensures r.Found? ==> r.best in store.records && forall x :: x in r.alternatives ==> x in store.records
  {
    match Enums.ParseIncidentType(incidentType)
    case None => UnknownType(incidentType)
    case Some(t) =>
      var best := ExperienceStore.BestStrategies(store, t, 3);
      if |best| == 0 then NoHistory(Names(Catalog.StrategiesFor(t)))
      else Found(best[0], best[1..])
  }

  /**
   * A known type with used records yields the record with the highest
   * (average reward, success rate) among them, with at most two runners-up
   * that are records of the same type too; without used records the
   * catalog's strategies for the type are listed instead.
   */
  lemma ApplyPreviousPicksBest(store: ExperienceStore.Store, t: Enums.IncidentType)
    ensures var r := ApplyPrevious(store, Enums.IncidentTypeName(t));
      (r.NoHistory? <==> |ExperienceStore.UsedRecordsOf(store.records, t)| == 0)
      && (r.NoHistory? ==> r.available == Names(Catalog.StrategiesFor(t)))
      && (r.Found? ==>
            r.best in store.records && r.best.incidentType == t && r.best.totalUses > 0
            && (forall x :: x in store.records && x.incidentType == t && x.totalUses > 0 ==>
                  AtLeast(ExperienceStore.RewardThenRate(r.best), ExperienceStore.RewardThenRate(x)))
            && (forall x :: x in r.alternatives ==> x in store.records && x.incidentType == t))
  {
    Enums.ParseIncidentTypeRoundTrip(t);
    var used := ExperienceStore.UsedRecordsOf(store.records, t);
    var best := ExperienceStore.BestStrategies(store, t, 3);
    if |used| == 0 {
      assert best == [];
    } else {
      var x0 := used[0];
      assert x0 in store.records && x0.incidentType == t && x0.totalUses > 0;
      assert |best| > 0;
      forall x | x in store.records && x.incidentType == t && x.totalUses > 0
        ensures AtLeast(ExperienceStore.RewardThenRate(best[0]), ExperienceStore.RewardThenRate(x))
      {
        if x !in best {
          assert best[0] in best;
        } else {
          var j :| 0 <= j < |best| && best[j] == x;
          if j > 0 { assert SortedDesc(best, ExperienceStore.RewardThenRate); }
        }
      }
      forall x | x in best[1..] ensures x in store.records && x.incidentType == t {
        assert x in best;
      }
    }
  }

  // ---------------------------------------------------------------------
  // analyze_logs
  // ---------------------------------------------------------------------

  datatype RootCause = RootCause(cause: string, confidence: real)

  /** What the LLM's log analysis decodes to. */
  datatype LogsReply =
    | LogsFailed(error: string)
    | LogsNoJson(text: string)
    | LogsParsed(patterns: seq<string>, rootCauses: seq<RootCause>)

  /** The tool's JSON result. */
  datatype LogAnalysis = LogAnalysis(analysis: string, patterns: seq<string>, rootCauses: seq<RootCause>, analysisMethod: Option<string>)

  const NoIncidentAnalysis := "No active incident detected in logs"

  /** `analyze_logs`; `incidentType` is the incident's `incident_type`, `"unknown"` when it has none. */
  function AnalyzeLogs(hasIncident: bool, incidentType: string, reply: LogsReply): (r: LogAnalysis)
    ensures !hasIncident <==> r.analysisMethod.None?
    ensures !hasIncident ==> r == LogAnalysis(NoIncidentAnalysis, [], [], None)
    ensures hasIncident && reply.LogsFailed? ==>
      r.analysisMethod == Some("fallback") && |r.patterns| == 1 && r.rootCauses == [RootCause("Potential " + incidentType + " based on metric anomalies", 0.5)]
    ensures hasIncident && reply.LogsNoJson? ==>
      r.analysisMethod == Some("llm_reasoning") && |r.patterns| == 1 && r.rootCauses == [RootCause("Unable to parse structured analysis", 0.5)]
    ensures hasIncident && reply.LogsParsed? ==>
      r.analysisMethod == Some("llm_reasoning") && r.patterns == reply.patterns && r.rootCauses == reply.rootCauses
    ensures hasIncident ==> (r.analysisMethod == Some("fallback") <==> reply.LogsFailed?)
  {
    if !hasIncident then LogAnalysis(NoIncidentAnalysis, [], [], None)
    else match reply
      case LogsFailed(_) =>
        LogAnalysis("Log analysis for " + incidentType + " incident (LLM unavailable)",
                    ["Anomalous metrics detected for " + incidentType],
                    [RootCause("Potential " + incidentType + " based on metric anomalies", 0.5)], Some("fallback"))
      case LogsNoJson(text) =>
        LogAnalysis("LLM-driven log analysis for " + incidentType + " incident",
                    ["LLM analysis: " + Take(text, 200)],
                    [RootCause("Unable to parse structured analysis", 0.5)], Some("llm_reasoning"))
      case LogsParsed(patterns, causes) =>
        LogAnalysis("LLM-driven log analysis for " + incidentType + " incident", patterns, causes, Some("llm_reasoning"))
  }
}
