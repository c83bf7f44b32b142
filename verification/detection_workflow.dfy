/**
 * The DETECTING_INCIDENT state of the learning loop
 * (`project/workflows/detection/detecting_incident_workflow.py`): count the
 * cycle, call the five detection activities in a fixed order, and record
 * the incident either from the simulator's incident state or from the
 * prediction.
 *
 * Each activity's reply is an oracle value; `None` stands for an activity
 * that raised or whose reply was not JSON. The reply dictionaries are given
 * the shape the workflow reads, with `None` for a key that is absent.
 */
module DetectionWorkflow {
  import opened Wrappers
  import opened Enums
  import opened EvooMachine

  /** `incident_state["incident"]`: the keys the workflow copies. */
  datatype IncidentPayload = IncidentPayload(
    id: Option<string>,
    incidentType: Option<string>,
    severity: Option<string>,
    description: Option<string>)

  /** The reply of `get_incident_state`; `incident` is `None` when the key is missing. */
  datatype IncidentState = IncidentState(hasIncident: bool, incident: Option<IncidentPayload>, metrics: Option<MetricsDict>)

  /** The reply of `analyze_logs`: the `cause` of each root-cause candidate, `None` where the key is missing. */
  datatype LogAnalysis = LogAnalysis(rootCauses: seq<Option<string>>)

  /**
   * The five activity replies of one detection, and `error`, the text of
   * whatever raised inside the workflow's `try` when something did (at
   * most one error escapes to the handler, so one text suffices).
   */
  datatype Oracle = Oracle(
    generated: bool,
    state: Option<IncidentState>,
    metrics: Option<Option<MetricsDict>>,
    logs: Option<LogAnalysis>,
    predictions: Option<seq<Option<string>>>,
    error: string)

  /** The activities in the order the workflow calls them. */
  const Order: seq<string> := ["generate_incident", "get_incident_state", "query_metrics", "analyze_logs", "predict_incident_type"]

  /** How many activities answered before the first that raised (5 when none did). */
  function Answered(o: Oracle): (n: nat)
    ensures n <= 5
    ensures n == 5 <==> o.generated && o.state.Some? && o.metrics.Some? && o.logs.Some? && o.predictions.Some?
  {
    if !o.generated then 0
    else if o.state.None? then 1
    else if o.metrics.None? then 2
    else if o.logs.None? then 3
    else if o.predictions.None? then 4
    else 5
  }

  /** The activities called: those that answered and the one that raised, in call order. */
  function Calls(o: Oracle): (r: seq<string>)
    ensures 1 <= |r| <= 5 && r == Order[..|r|]
    ensures Answered(o) < 5 ==> |r| == Answered(o) + 1
    ensures Answered(o) == 5 ==> r == Order
  {
    var n := Answered(o);
    if n == 5 then Order else Order[..n + 1]
  }

  /** The error text the handler records for the error `error`. */
  function DetectionFailed(error: string): (m: string)
    ensures |m| == |DetectionFailedPrefix| + |error|
    ensures m[..|DetectionFailedPrefix|] == DetectionFailedPrefix && m[|DetectionFailedPrefix|..] == error
  {
    DetectionFailedPrefix + error
  }

  const DetectionFailedPrefix := "Incident detection failed: "

  /** The metric keys the detection message formats as numbers. */
  const MessageKeys: seq<string> := ["latency_ms", "cpu_percent", "memory_percent", "error_rate", "availability"]

  /**
   * `a` and `b` agree on every field except the five incident fields, the
   * incident counter and the error text: what a detection may change.
   */
  predicate OutsideIncident(a: EvooData, b: EvooData)
  {
    SameLoopFields(a.(incidentCount := b.incidentCount), b)
    && a.metricsAfter == b.metricsAfter
    && a.selectedStrategy == b.selectedStrategy && a.strategyDetails == b.strategyDetails
    && a.planningReasoning == b.planningReasoning && a.planningConfidence == b.planningConfidence
    && a.isExploration == b.isExploration
    && a.actionsExecuted == b.actionsExecuted && a.toolsCalled == b.toolsCalled
    && a.executionResults == b.executionResults
    && a.totalRecoveryTime == b.totalRecoveryTime && a.totalCost == b.totalCost
    && a.serviceRestored == b.serviceRestored && a.reward == b.reward
    && a.rewardBreakdown == b.rewardBreakdown && a.llmEvaluation == b.llmEvaluation
    && a.adjustedReward == b.adjustedReward && a.experienceStored == b.experienceStored
    && a.strategyRankingsUpdated == b.strategyRankingsUpdated && a.retryCount == b.retryCount
  }

  /** The record after the incident fields are stored, when that does not raise. */
  function StoreIncident(d: EvooData, st: IncidentState, metrics: Option<MetricsDict>, predictions: seq<Option<string>>): (r: Option<EvooData>)
    ensures st.hasIncident ==> (r.Some? <==> st.incident.Some?)
    ensures !st.hasIncident ==> (r.Some? <==> |predictions| == 0 || predictions[0].Some?)
    ensures r.Some? && st.hasIncident ==>
      var inc := st.incident.value;
      r.value.currentIncidentId == Some(inc.id.GetOr("unknown"))
      && r.value.currentIncidentType == Some(inc.incidentType.GetOr("unknown"))
      && r.value.currentIncidentSeverity == Some(inc.severity.GetOr("medium"))
      && r.value.incidentDescription == inc.description.GetOr("")
      && r.value.metricsBefore == st.metrics.GetOr(map[])
    ensures r.Some? && !st.hasIncident ==>
      r.value.currentIncidentId == d.currentIncidentId
      && r.value.incidentDescription == d.incidentDescription
      && r.value.currentIncidentType == Some(if |predictions| == 0 then "service_crash" else predictions[0].value)
      && r.value.currentIncidentSeverity == Some("medium")
      && r.value.metricsBefore == metrics.GetOr(map[])
    ensures r.Some? ==> (OutsideIncident(d, r.value) && r.value.incidentCount == d.incidentCount
      && r.value.errorMessage == d.errorMessage)
  {
    if st.hasIncident then
      match st.incident
      case None => None
      case Some(inc) =>
        Some(d.(currentIncidentId := Some(inc.id.GetOr("unknown")),
                currentIncidentType := Some(inc.incidentType.GetOr("unknown")),
                currentIncidentSeverity := Some(inc.severity.GetOr("medium")),
                incidentDescription := inc.description.GetOr(""),
                metricsBefore := st.metrics.GetOr(map[])))
    else if |predictions| > 0 && predictions[0].None? then None
    else
      Some(d.(currentIncidentType := Some(if |predictions| == 0 then "service_crash" else predictions[0].value),
              currentIncidentSeverity := Some("medium"),
              metricsBefore := metrics.GetOr(map[])))
  }

  /** Whether building the agent task's message raises: a root cause without its text among the first two. */
  predicate RootCausesUnreadable(logs: LogAnalysis)
  {
    exists i :: 0 <= i < |logs.rootCauses| && i < 2 && logs.rootCauses[i].None?
  }

  /** The message as written also formats a missing metric's `'N/A'` default as a number, which raises. */
  predicate MetricMissing(d: EvooData)
  {
    exists k :: k in MessageKeys && k !in d.metricsBefore
  }

  /** The outcome and the activities called. */
  datatype Detection = Detection(transition: Transition, calls: seq<string>)

  /** Shared shape of both versions; `messageRaises` says when sending the message fails. */
  function DetectWith(data: Option<EvooData>, o: Oracle, messageRaises: (EvooData, LogAnalysis) -> bool): (r: Detection)
  {
    match data
    case None => Detection(Transition(Failed, None), [])
    case Some(d0) =>
      var d := d0.(incidentCount := d0.incidentCount + 1);
      var failed := Detection(Transition(Failed, Some(d.(errorMessage := DetectionFailed(o.error)))), Calls(o));
      if Answered(o) < 5 then failed
      else
        match StoreIncident(d, o.state.value, o.metrics.value, o.predictions.value)
        case None => failed
        case Some(e) =>
          if d.taskId.Some? && messageRaises(e, o.logs.value) then
            Detection(Transition(Failed, Some(e.(errorMessage := DetectionFailed(o.error)))), Calls(o))
          else Detection(Transition(PlanningRemediation, Some(e)), Calls(o))
  }

  /** `DetectingIncidentWorkflow.execute` as written. */
  function DetectAsWritten(data: Option<EvooData>, o: Oracle): Detection
  {
    DetectWith(data, o, (e, logs) => MetricMissing(e) || RootCausesUnreadable(logs))
  }

  /** `DetectingIncidentWorkflow.execute`, with a missing metric shown as `N/A` rather than formatted as a number. */
  function Detect(data: Option<EvooData>, o: Oracle): (r: Detection)
    ensures data.None? <==> r.transition.data.None?
    ensures data.None? ==> r.transition.next == Failed && r.calls == []
    ensures r.transition.next == Failed || r.transition.next == PlanningRemediation
    ensures data.Some? ==> r.transition.data.value.incidentCount == data.value.incidentCount + 1
    ensures data.Some? ==> r.calls == Calls(o)
    ensures data.Some? && r.transition.next == Failed ==> r.transition.data.value.errorMessage == DetectionFailed(o.error)
  {
    DetectWith(data, o, (e, logs) => RootCausesUnreadable(logs))
  }

  /**
   * Every detection that has a record counts a cycle, whatever it ends in:
   * a failed detection still consumes one incident of the budget. The
   * activities are called as a prefix of the fixed order.
   */
  lemma DetectionAlwaysCounts(d: EvooData, o: Oracle)
    ensures var r := Detect(Some(d), o);
      r.transition.data.value.incidentCount == d.incidentCount + 1
      && 1 <= |r.calls| <= |Order| && r.calls == Order[..|r.calls|]
  {
  }

  /** A detection reaches planning only when all five activities answered; the record is then the stored incident. */
  lemma PlanningNeedsAllFive(d: EvooData, o: Oracle)
    requires Detect(Some(d), o).transition.next == PlanningRemediation
    ensures Detect(Some(d), o).calls == Order
    ensures Detect(Some(d), o).transition.data
      == StoreIncident(d.(incidentCount := d.incidentCount + 1), o.state.value, o.metrics.value, o.predictions.value)
  {
  }

  /** Apart from the incident fields, the counter and the error text, detection leaves the record alone. */
  lemma DetectionTouchesOnlyIncidentFields(d: EvooData, o: Oracle)
    ensures OutsideIncident(d, Detect(Some(d), o).transition.data.value)
  {
  }

  /** Where the metrics dictionary carries every key the message formats, both versions agree. */
  lemma DetectAgreesWithFullMetrics(data: Option<EvooData>, o: Oracle)
    requires data.Some? && Answered(o) == 5
    requires var s := StoreIncident(data.value.(incidentCount := data.value.incidentCount + 1), o.state.value, o.metrics.value, o.predictions.value);
      s.Some? ==> !MetricMissing(s.value)
    ensures DetectAsWritten(data, o) == Detect(data, o)
  {
  }

  /**
   * A reported incident whose state carries no metrics: the code as written
   * fails the detection on the message to the agent task, the guarded version
   * goes on to planning.
   */
  lemma MissingMetricsFailDetection(d: EvooData, inc: IncidentPayload)
    requires d.taskId.Some?
    ensures var o := Oracle(true, Some(IncidentState(true, Some(inc), None)), Some(None), Some(LogAnalysis([])), Some([]), "");
      DetectAsWritten(Some(d), o).transition.next == Failed
      && Detect(Some(d), o).transition.next == PlanningRemediation
  {
    var o := Oracle(true, Some(IncidentState(true, Some(inc), None)), Some(None), Some(LogAnalysis([])), Some([]), "");
    var e := StoreIncident(d.(incidentCount := d.incidentCount + 1), o.state.value, o.metrics.value, o.predictions.value).value;
    assert "latency_ms" in MessageKeys && "latency_ms" !in e.metricsBefore;
  }
}
