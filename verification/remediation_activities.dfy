/**
 * The remediation tools and the incident-type predictor of
 * `project/activities/remediation_activities.py`. The tools are stubs: each
 * echoes its arguments into a fixed success report. The predictor accepts
 * an LLM's answer only when it names a valid type and falls back to
 * threshold rules otherwise.
 *
 * The LLM's answer is an oracle: the decoded JSON object, or `None` when
 * the call or the decoding raised.
 */
module RemediationActivities {
  import opened Wrappers
  import opened Values
  import Enums
  import Sorting

  /**
   * What a tool reports. Every stub reports `status: success`; `ToolError`
   * is the `{"tool", "status": "error", "error"}` report the executor builds
   * when a tool is unknown or raised. Constant fields of the stubs (process
   * ids, versions, counts, timestamps) are left out.
   */
  datatype ToolResult =
    | Restarted(service: Value)
    | ScaledOut(service: Value, targetInstances: Value, scaleUp: bool)
    | ScaledUp(service: Value, targetCpu: Value, targetMemoryGb: Value)
    | TimeoutChanged(service: Value, newTimeoutMs: Value)
    | RolledBack(service: Value, rolledBackTo: Value)
    | CacheCleared(service: Value, cacheType: Value)
    | Rebalanced(service: Value)
    | MetricsQueried(service: Value)
    | LogsAnalyzed(service: Value, incidentType: Value, findings: Finding)
    | ToolError(tool: string, error: string)
  {
    /** The report's `tool` field. */
    function Tool(): string
    {
      match this
      case Restarted(_) => "restart_service"
      case ScaledOut(_, _, _) => "scale_horizontal"
      case ScaledUp(_, _, _) => "scale_vertical"
      case TimeoutChanged(_, _) => "change_timeout"
      case RolledBack(_, _) => "rollback_deployment"
      case CacheCleared(_, _) => "clear_cache"
      case Rebalanced(_) => "rebalance_load"
      case MetricsQueried(_) => "query_metrics"
      case LogsAnalyzed(_, _, _) => "analyze_logs"
      case ToolError(t, _) => t
    }

    /** The report's `status` field. */
    function Status(): string
    {
      if ToolError? then "error" else "success"
    }
  }

  datatype Finding = Finding(rootCause: string, errorPattern: string)

  const DefaultService := TextV("api-service")
  const DefaultTargetInstances := IntV(3)
  const DefaultRollbackVersion := TextV("v2.1.3")

  /** The message Python gives when `target_instances > 1` compares a string with an int. */
  const StrComparisonError := "'>' not supported between instances of 'str' and 'int'"

  /** Python truthiness of a JSON value: zero and the empty string are false. */
  predicate Truthy(v: Value)
  {
    match v
    case IntV(i) => i != 0
    case RealV(x) => x != 0.0
    case TextV(s) => s != ""
  }

  function Service(params: Params): Value { Get(params, "service_name", DefaultService) }

  /** `restart_service_activity` */
  function RestartService(params: Params): (r: ToolResult)
    ensures r.Status() == "success" && r.Tool() == "restart_service"
  {
    Restarted(Service(params))
  }

  /**
   * `scale_horizontal_activity`: scales up when the target exceeds one
   * instance; a text target makes the comparison raise.
   */
  function ScaleHorizontal(params: Params): (r: Result)
    ensures var t := Get(params, "target_instances", DefaultTargetInstances);
      (r.Raised? <==> t.TextV?)
      && (r.Raised? ==> r.error == StrComparisonError)
      && (r.Reported? ==>
            (r.report.ScaledOut? && r.report.targetInstances == t
             && (r.report.scaleUp <==> (t.IntV? && t.i > 1) || (t.RealV? && t.r > 1.0))))
  {
    var t := Get(params, "target_instances", DefaultTargetInstances);
    match t
    case IntV(i) => Reported(ScaledOut(Service(params), t, i > 1))
    case RealV(x) => Reported(ScaledOut(Service(params), t, x > 1.0))
    case TextV(_) => Raised(StrComparisonError)
  }

  /** `scale_vertical_activity` */
  function ScaleVertical(params: Params): (r: ToolResult)
    ensures r.Status() == "success" && r.Tool() == "scale_vertical"
    ensures r.targetCpu == Get(params, "target_cpu", RealV(2.0))
    ensures r.targetMemoryGb == Get(params, "target_memory_gb", RealV(4.0))
  {
    ScaledUp(Service(params), Get(params, "target_cpu", RealV(2.0)), Get(params, "target_memory_gb", RealV(4.0)))
  }

  /** `change_timeout_activity` */
  function ChangeTimeout(params: Params): (r: ToolResult)
    ensures r.Status() == "success" && r.Tool() == "change_timeout"
    ensures r.newTimeoutMs == Get(params, "new_timeout_ms", IntV(15000))
  {
    TimeoutChanged(Service(params), Get(params, "new_timeout_ms", IntV(15000)))
  }

  /** `rollback_deployment_activity`: `target_version or "v2.1.3"`. */
  function RollbackDeployment(params: Params): (r: ToolResult)
    ensures r.Status() == "success" && r.Tool() == "rollback_deployment"
    ensures "target_version" in params && Truthy(params["target_version"]) ==> r.rolledBackTo == params["target_version"]
    ensures !("target_version" in params && Truthy(params["target_version"])) ==> r.rolledBackTo == DefaultRollbackVersion
  {
    var to := if "target_version" in params && Truthy(params["target_version"]) then params["target_version"]
              else DefaultRollbackVersion;
    RolledBack(Service(params), to)
  }

  /** `clear_cache_activity` */
  function ClearCache(params: Params): (r: ToolResult)
    ensures r.Status() == "success" && r.Tool() == "clear_cache"
    ensures r.cacheType == Get(params, "cache_type", TextV("all"))
  {
    CacheCleared(Service(params), Get(params, "cache_type", TextV("all")))
  }

  /** `rebalance_load_activity` */
  function RebalanceLoad(params: Params): (r: ToolResult)
    ensures r.Status() == "success" && r.Tool() == "rebalance_load"
  {
    Rebalanced(Service(params))
  }

  /** `query_metrics_tool_activity` */
  function QueryMetrics(params: Params): (r: ToolResult)
    ensures r.Status() == "success" && r.Tool() == "query_metrics"
  {
    MetricsQueried(Service(params))
  }

  const UnknownFinding := Finding("Unknown", "Multiple errors")

  /** The `log_findings` table of `analyze_logs_activity`, with its default. */
  function LogFindings(incidentType: Value): (r: Finding)
    ensures (incidentType.TextV? && Enums.ParseIncidentType(incidentType.s).Some?) <==> r != UnknownFinding
  {
    match incidentType
    case TextV(s) =>
      if s == "service_crash" then Finding("OOMKilled by kernel", "FATAL: out of memory")
      else if s == "high_latency" then Finding("DB connection pool exhaustion", "WARN: pool timeout")
      else if s == "cpu_spike" then Finding("Recursive loop in processor", "CPU throttling activated")
      else if s == "memory_leak" then Finding("EventListener not removed", "Memory grew 1.2GB to 4.8GB")
      else if s == "network_degradation" then Finding("BGP route flap", "TCP retransmission 34%")
      else if s == "timeout_misconfiguration" then Finding("5s timeout too aggressive", "context deadline exceeded")
      else UnknownFinding
    case _ => UnknownFinding
  }

  /** `analyze_logs_activity` */
  function AnalyzeLogs(params: Params): (r: ToolResult)
    ensures r.Status() == "success" && r.Tool() == "analyze_logs"
    ensures r.incidentType == Get(params, "incident_type", TextV("unknown"))
    ensures r.findings == LogFindings(r.incidentType)
  {
    var t := Get(params, "incident_type", TextV("unknown"));
    LogsAnalyzed(Service(params), t, LogFindings(t))
  }

  /** A tool call either reports or raises. */
  datatype Result = Reported(report: ToolResult) | Raised(error: string)

  /** Every incident type has its own finding; anything else reads as unknown. */
  lemma EveryTypeHasFinding(t: Enums.IncidentType)
    ensures LogFindings(TextV(Enums.IncidentTypeName(t))) != UnknownFinding
  {
    Enums.ParseIncidentTypeRoundTrip(t);
  }

  // ---------------------------------------------------------------------
  // Incident-type prediction
  // ---------------------------------------------------------------------

  /** `VALID_INCIDENT_TYPES` */
  const ValidIncidentTypes: set<string> := {
    "service_crash", "high_latency", "cpu_spike",
    "memory_leak", "network_degradation", "timeout_misconfiguration"}

  /** The valid type names are exactly the values of the incident-type enumeration. */
  lemma ValidTypesAreEnumValues(s: string)
    ensures s in ValidIncidentTypes <==> Enums.ParseIncidentType(s).Some?
  {
  }

  /** One `(type, confidence)` candidate of the threshold rules. */
  datatype Candidate = Candidate(incidentType: string, confidence: real)

  /** The candidates the threshold rules produce, in rule order. */
  function Candidates(metrics: map<string, real>): (r: seq<Candidate>)
    ensures 1 <= |r| <= 4
    ensures forall i :: 0 <= i < |r| ==> r[i].incidentType in ValidIncidentTypes
    ensures forall i :: 0 <= i < |r| ==> r[i].incidentType != "network_degradation"
  {
    var latency := Get(metrics, "latency_ms", 0.0);
    var cpu := Get(metrics, "cpu_percent", 0.0);
    var memory := Get(metrics, "memory_percent", 0.0);
    var errorRate := Get(metrics, "error_rate", 0.0);
    var availability := Get(metrics, "availability", 1.0);
    var fired :=
      (if availability < 0.3 && errorRate > 0.7 then [Candidate("service_crash", 0.90)] else [])
      + (if memory > 85.0 then [Candidate("memory_leak", 0.85)] else [])
      + (if cpu > 80.0 then [Candidate("cpu_spike", 0.85)] else [])
      + (if latency > 4000.0 then [Candidate("timeout_misconfiguration", 0.70)] else []);
    if |fired| == 0 then [Candidate("high_latency", 0.50)] else fired
  }

  function Confidences(cs: seq<Candidate>): (r: seq<real>)
    ensures |r| == |cs| && forall i :: 0 <= i < |cs| ==> r[i] == cs[i].confidence
  {
    seq(|cs|, i requires 0 <= i < |cs| => cs[i].confidence)
  }

  /**
   * `_heuristic_predict`: the head of the candidates sorted by confidence,
   * highest first. Python's sort is stable, so the head is the first
   * candidate of maximal confidence.
   */
  function HeuristicPredict(metrics: map<string, real>): (r: Candidate)
    ensures r in Candidates(metrics)
    ensures forall c :: c in Candidates(metrics) ==> c.confidence <= r.confidence
  {
    var cs := Candidates(metrics);
    cs[Sorting.FirstMax(Confidences(cs))]
  }

  /**
   * The rules as a ladder, checked in priority order: crash, then memory,
   * then CPU, then latency; nothing fired means high latency.
   */
  function RuleLadder(metrics: map<string, real>): Candidate
  {
    if Get(metrics, "availability", 1.0) < 0.3 && Get(metrics, "error_rate", 0.0) > 0.7 then Candidate("service_crash", 0.90)
    else if Get(metrics, "memory_percent", 0.0) > 85.0 then Candidate("memory_leak", 0.85)
    else if Get(metrics, "cpu_percent", 0.0) > 80.0 then Candidate("cpu_spike", 0.85)
    else if Get(metrics, "latency_ms", 0.0) > 4000.0 then Candidate("timeout_misconfiguration", 0.70)
    else Candidate("high_latency", 0.50)
  }

  /**
   * Sorting by confidence and taking the head is the same as checking the
   * rules in order: a memory leak wins its tie with a CPU spike because it
   * comes first.
   */
  lemma HeuristicIsRuleLadder(metrics: map<string, real>)
    ensures HeuristicPredict(metrics) == RuleLadder(metrics)
  {
    var cs := Candidates(metrics);
    var i := Sorting.FirstMax(Confidences(cs));
    assert Confidences(cs)[0] == cs[0].confidence;
  }

  /** The heuristic's answer is always a valid type, never a network degradation, with confidence between 0.5 and 0.9. */
  lemma HeuristicIsValid(metrics: map<string, real>)
    ensures HeuristicPredict(metrics).incidentType in ValidIncidentTypes
    ensures HeuristicPredict(metrics).incidentType != "network_degradation"
    ensures 0.5 <= HeuristicPredict(metrics).confidence <= 0.9
  {
    HeuristicIsRuleLadder(metrics);
  }

  /** What `predict_incident_type_activity` returns. */
  datatype Prediction = Prediction(predictedType: string, confidence: real, reasoning: Value, llmPredicted: bool)

  const HeuristicReasoning := "heuristic_threshold_rules"

  /**
   * The LLM's answer as the activity accepts it: a non-empty object whose
   * `predicted_type` is a valid type name and whose `confidence` (0.8 when
   * absent) converts with `float()`; a failing conversion raises and is
   * caught like any other failure.
   */
  function AcceptedAnswer(answer: Option<map<string, Value>>): (r: Option<Prediction>)
    ensures r.Some? ==> r.value.predictedType in ValidIncidentTypes && 0.0 <= r.value.confidence <= 1.0
    ensures r.Some? ==> r.value.llmPredicted
    ensures r.Some? <==> answer.Some? && |answer.value| > 0 && "predicted_type" in answer.value
                         && answer.value["predicted_type"].TextV? && answer.value["predicted_type"].s in ValidIncidentTypes
                         && AsReal(Get(answer.value, "confidence", RealV(0.8))).Some?
  {
    match answer
    case None => None
    case Some(res) =>
      if |res| > 0 && "predicted_type" in res && res["predicted_type"].TextV?
         && res["predicted_type"].s in ValidIncidentTypes then
        match AsReal(Get(res, "confidence", RealV(0.8)))
        case None => None
        case Some(c) =>
          Some(Prediction(res["predicted_type"].s, Min(1.0, Max(0.0, c)), Get(res, "reasoning", TextV("")), true))
      else None
  }

  /** `predict_incident_type_activity` */
  function PredictIncidentType(metrics: map<string, real>, answer: Option<map<string, Value>>): (r: Prediction)
    ensures AcceptedAnswer(answer).Some? ==> r == AcceptedAnswer(answer).value
    ensures AcceptedAnswer(answer).None? ==>
      (r.predictedType == RuleLadder(metrics).incidentType && r.confidence == RuleLadder(metrics).confidence
       && r.reasoning == TextV(HeuristicReasoning) && !r.llmPredicted)
  {
    match AcceptedAnswer(answer)
    case Some(p) => p
    case None =>
      HeuristicIsRuleLadder(metrics);
      var h := HeuristicPredict(metrics);
      Prediction(h.incidentType, h.confidence, TextV(HeuristicReasoning), false)
  }

  /** Whatever the LLM does, the predicted type is valid and the confidence lies in [0, 1]. */
  lemma PredictionIsValid(metrics: map<string, real>, answer: Option<map<string, Value>>)
    ensures var r := PredictIncidentType(metrics, answer);
      r.predictedType in ValidIncidentTypes && 0.0 <= r.confidence <= 1.0
      && Enums.ParseIncidentType(r.predictedType).Some?
  {
    HeuristicIsValid(metrics);
    ValidTypesAreEnumValues(PredictIncidentType(metrics, answer).predictedType);
  }

  /** An out-of-range confidence is clamped, not rejected. */
  lemma ConfidenceIsClamped(t: string, c: real)
    requires t in ValidIncidentTypes
    ensures var r := PredictIncidentType(map[], Some(map["predicted_type" := TextV(t), "confidence" := RealV(c)]));
      r.llmPredicted && r.confidence == (if c < 0.0 then 0.0 else if c > 1.0 then 1.0 else c)
  {
  }

  /** A type the enumeration does not know sends the activity to the rules. */
  lemma UnknownTypeFallsBack(metrics: map<string, real>, t: string)
    requires t !in ValidIncidentTypes
    ensures !PredictIncidentType(metrics, Some(map["predicted_type" := TextV(t)])).llmPredicted
  {
  }
}
