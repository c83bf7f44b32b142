/**
 * The executor's OBSERVE -> THINK -> ACT loop
 * (`project/activities/sre_agent_loop.py`): at most `MAX_ITERATIONS` times,
 * ask the LLM for one action, fall back to the next planned tool when the
 * answer is missing or names no known tool, stop on `finish`, and otherwise
 * run the tool and record what it reported.
 *
 * The LLM's reply in each iteration is an oracle (`None` when the call
 * raised), and so is the text `json.dumps` gives for a parameter
 * dictionary: only the part of an action string before its first `(` is
 * ever read back.
 */
module SreAgentLoop {
  import opened Wrappers
  import opened Values
  import Text
  import LlmHelpers
  import opened RemediationActivities

  /** `MAX_ITERATIONS` when the environment does not set it. */
  const DefaultMaxIterations: nat := 8

  /** One entry of `actions_taken`. */
  datatype ActionEntry = ActionEntry(action: string, resultStatus: string, iteration: nat)

  /** `SREAgentState`, without the observation log the prompt is built from. */
  datatype AgentState = AgentState(
    serviceName: Value,
    incidentType: Value,
    actions: seq<ActionEntry>,
    toolResults: seq<ToolResult>,
    iteration: nat,
    maxIterations: nat,
    finished: bool)

  /** The plan dictionary as the loop reads it. */
  datatype Plan = Plan(toolsToCall: seq<string>, toolParameters: Params)

  /** `SREAgentState(incident, plan, ...)` */
  function InitialState(incident: Params, maxIterations: nat): (st: AgentState)
    ensures st.iteration == 0 && !st.finished && st.actions == [] && st.toolResults == []
    ensures st.serviceName == Get(incident, "affected_service", TextV("api-service"))
    ensures st.incidentType == Get(incident, "incident_type", TextV("unknown"))
  {
    AgentState(Get(incident, "affected_service", TextV("api-service")),
               Get(incident, "incident_type", TextV("unknown")), [], [], 0, maxIterations, false)
  }

  /** `add_action`: one action entry and one result, side by side. */
  function AddAction(st: AgentState, action: string, result: ToolResult): (r: AgentState)
    ensures r.actions == st.actions + [ActionEntry(action, result.Status(), st.iteration)]
    ensures r.toolResults == st.toolResults + [result]
    ensures r.iteration == st.iteration && r.finished == st.finished && r.maxIterations == st.maxIterations
  {
    st.(actions := st.actions + [ActionEntry(action, result.Status(), st.iteration)],
        toolResults := st.toolResults + [result])
  }

  // ---------------------------------------------------------------------
  // The plan-following fallback
  // ---------------------------------------------------------------------

  /** The first tool whose activity name is `activity` in `TOOL_TO_ACTIVITY`. */
  function ToolForActivity(ps: seq<(string, string)>, activity: string): (r: Option<string>)
    ensures r.Some? ==> exists i :: 0 <= i < |ps| && ps[i] == (r.value, activity)
    ensures r.None? ==> forall i :: 0 <= i < |ps| ==> ps[i].1 != activity
  {
    if |ps| == 0 then None
    else if ps[0].1 == activity then Some(ps[0].0)
    else
      var r := ToolForActivity(ps[1..], activity);
      assert r.Some? ==> ps[1..][0] == ps[1];
      r
  }

  /**
   * A planned activity's tool name: the name with `_activity` and then
   * `_tool` removed, unless the activity table names it outright.
   */
  function ShortName(activity: string): string
  {
    match ToolForActivity(LlmHelpers.ToolActivities, activity)
    case Some(t) => t
    case None => Text.ReplaceAll(Text.ReplaceAll(activity, "_activity", ""), "_tool", "")
  }

  /** The tool names already executed: each action string up to its first `(`. */
  function Executed(st: AgentState): (r: set<string>)
    ensures forall i :: 0 <= i < |st.actions| ==> Text.Before(st.actions[i].action, '(') in r
    ensures forall t :: t in r ==> exists i :: 0 <= i < |st.actions| && Text.Before(st.actions[i].action, '(') == t
  {
    set i | 0 <= i < |st.actions| :: Text.Before(st.actions[i].action, '(')
  }

  /** What the fallback proposes: the reason shown as the thought, a tool name and its parameters. */
  datatype Choice = Choice(thought: string, tool: string, params: Params)

  const FollowPlanThought := "LLM failed, following planned tool sequence"
  const PlanDoneThought := "All planned tools executed"

  /** The index of the first planned tool not yet executed, if any. */
  function NextPlanned(tools: seq<string>, executed: set<string>): (r: Option<nat>)
    ensures r.Some? ==> r.value < |tools| && ShortName(tools[r.value]) !in executed
    ensures r.Some? ==> forall j :: 0 <= j < r.value ==> ShortName(tools[j]) in executed
    ensures r.None? ==> forall j :: 0 <= j < |tools| ==> ShortName(tools[j]) in executed
  {
    if |tools| == 0 then None
    else if ShortName(tools[0]) !in executed then Some(0)
    else
      var rest := tools[1..];
      assert forall j :: 1 <= j < |tools| ==> tools[j] == rest[j - 1];
      match NextPlanned(rest, executed)
      case None => None
      case Some(i) => Some(i + 1)
  }

  /** `_fallback_next_tool` */
  function FallbackNext(st: AgentState, plan: Plan): (c: Choice)
    ensures NextPlanned(plan.toolsToCall, Executed(st)).None? ==> c == Choice(PlanDoneThought, "finish", map[])
    ensures NextPlanned(plan.toolsToCall, Executed(st)).Some? ==>
      c.thought == FollowPlanThought
      && c.tool == ShortName(plan.toolsToCall[NextPlanned(plan.toolsToCall, Executed(st)).value])
      && c.params == map["service_name" := st.serviceName] + plan.toolParameters
  {
    match NextPlanned(plan.toolsToCall, Executed(st))
    case None => Choice(PlanDoneThought, "finish", map[])
    case Some(i) =>
      Choice(FollowPlanThought, ShortName(plan.toolsToCall[i]), map["service_name" := st.serviceName] + plan.toolParameters)
  }

  /** The plan's own parameters win over the default service name. */
  lemma FallbackParameters(st: AgentState, plan: Plan)
    requires FallbackNext(st, plan).tool != "finish" || NextPlanned(plan.toolsToCall, Executed(st)).Some?
    ensures var p := FallbackNext(st, plan).params;
      "service_name" in p
      && (forall k :: k in plan.toolParameters ==> k in p && p[k] == plan.toolParameters[k])
      && ("service_name" !in plan.toolParameters ==> p["service_name"] == st.serviceName)
      && (forall k :: k in p ==> k == "service_name" || k in plan.toolParameters)
  {
  }

  /** The fallback finishes exactly when every planned tool has been executed. */
  lemma FallbackFinishesWhenPlanDone(st: AgentState, plan: Plan)
    requires forall j :: 0 <= j < |plan.toolsToCall| ==> ShortName(plan.toolsToCall[j]) != "finish"
    ensures FallbackNext(st, plan).tool == "finish"
      <==> forall j :: 0 <= j < |plan.toolsToCall| ==> ShortName(plan.toolsToCall[j]) in Executed(st)
  {
  }

  // ---------------------------------------------------------------------
  // Running a tool
  // ---------------------------------------------------------------------

  /**
   * The activity's arguments: the service name (the call's own, else the
   * incident's), every other key but the reserved ones, and for
   * `analyze_logs` the incident's type unless the call gave one.
   */
  function ActivityParams(tool: string, params: Params, st: AgentState): (ap: Params)
    ensures "service_name" in ap && ap["service_name"] == Get(params, "service_name", st.serviceName)
    ensures forall k :: k in params && k !in {"service_name", "task_id", "trace_id"} ==> k in ap && ap[k] == params[k]
    ensures "task_id" !in ap && "trace_id" !in ap
    ensures tool == "analyze_logs" ==> "incident_type" in ap
    ensures tool == "analyze_logs" && "incident_type" !in params ==> ap["incident_type"] == st.incidentType
    ensures forall k :: k in ap ==> k == "service_name" || k in params || (tool == "analyze_logs" && k == "incident_type")
  {
    var merged := (map k | k in params && k !in {"service_name", "task_id", "trace_id"} :: params[k])
      ["service_name" := Get(params, "service_name", st.serviceName)];
    if tool == "analyze_logs" && "incident_type" !in merged then merged["incident_type" := st.incidentType]
    else merged
  }

  /** The tool functions the executor can reach. */
  function Dispatch(tool: string, ap: Params): (r: Option<Result>)
    ensures r.Some? <==> tool in LlmHelpers.ValidToolNames && tool != "finish"
    ensures r.Some? && r.value.Reported? ==> r.value.report.Tool() == tool
  {
    if tool == "restart_service" then Some(Reported(RestartService(ap)))
    else if tool == "scale_horizontal" then Some(ScaleHorizontal(ap))
    else if tool == "scale_vertical" then Some(Reported(ScaleVertical(ap)))
    else if tool == "change_timeout" then Some(Reported(ChangeTimeout(ap)))
    else if tool == "rollback_deployment" then Some(Reported(RollbackDeployment(ap)))
    else if tool == "clear_cache" then Some(Reported(ClearCache(ap)))
    else if tool == "rebalance_load" then Some(Reported(RebalanceLoad(ap)))
    else if tool == "query_metrics" then Some(Reported(QueryMetrics(ap)))
    else if tool == "analyze_logs" then Some(Reported(AnalyzeLogs(ap)))
    else None
  }

  /** `_execute_sre_tool`: an unknown tool or a raised error becomes an error report, never an exception. */
  function ExecuteTool(tool: string, params: Params, st: AgentState): (r: ToolResult)
    ensures r.Tool() == tool
    ensures r.Status() == "error" <==> r.ToolError?
    ensures (tool !in LlmHelpers.ValidToolNames || tool == "finish") ==> r == ToolError(tool, "Unknown tool: " + tool)
  {
    match Dispatch(tool, ActivityParams(tool, params, st))
    case None => ToolError(tool, "Unknown tool: " + tool)
    case Some(Raised(e)) => ToolError(tool, e)
    case Some(Reported(report)) => report
  }

  // ---------------------------------------------------------------------
  // The loop
  // ---------------------------------------------------------------------

  /**
   * The LLM's reply as the loop reads it: the action `parse_action`
   * extracts, or `None` when the call raised.
   */
  function Answer(reply: Option<string>): (r: Option<(string, Params)>)
    ensures reply.None? <==> r.None?
    ensures reply.Some? ==> r.value == LlmHelpers.ParseAction(reply.value)
  {
    match reply
    case None => None
    case Some(text) => Some(LlmHelpers.ParseAction(text))
  }

  /** An answer naming a known tool is acted on; anything else is no action. */
  function LlmChoice(answer: Option<(string, Params)>): (r: Option<(string, Params)>)
    ensures r.Some? <==> answer.Some? && answer.value.0 in LlmHelpers.ValidToolNames
    ensures r.Some? ==> r == answer
  {
    match answer
    case None => None
    case Some((tool, params)) =>
      if tool == "none" || tool !in LlmHelpers.ValidToolNames then None else Some((tool, params))
  }

  /** The tool and parameters an iteration acts on: the LLM's action, or the fallback's. */
  function ChosenAction(st: AgentState, plan: Plan, answer: Option<(string, Params)>): (r: (string, Params))
    ensures LlmChoice(answer).Some? ==> r == LlmChoice(answer).value
    ensures LlmChoice(answer).None? ==> r == (FallbackNext(st, plan).tool, FallbackNext(st, plan).params)
  {
    match LlmChoice(answer)
    case Some(action) => action
    case None => (FallbackNext(st, plan).tool, FallbackNext(st, plan).params)
  }

  /** How an iteration picks its action from the state and the LLM's answer: `ChosenAction` in the loop itself (see `RunLoop`). */
  type Chooser = (AgentState, Option<(string, Params)>) -> (string, Params)

  /** How a tool is run: `_execute_sre_tool` in the loop itself. */
  type Executor = (string, Params, AgentState) -> ToolResult

  /** The loop's own way of choosing: the LLM's action if valid, else the plan's next tool. */
  function Policy(plan: Plan): Chooser
  {
    (s: AgentState, a: Option<(string, Params)>) => ChosenAction(s, plan, a)
  }

  /** One pass through the loop body, `choose` picking the action and `exec` running it. */
  function Step(st: AgentState, reply: Option<(string, Params)>, choose: Chooser, exec: Executor, dumps: Params -> string): (r: AgentState)
    requires !st.finished && st.iteration < st.maxIterations
    ensures r.iteration == st.iteration + 1 && r.maxIterations == st.maxIterations
    ensures r.serviceName == st.serviceName && r.incidentType == st.incidentType
    ensures var (tool, params) := choose(st.(iteration := st.iteration + 1), reply);
      (tool == "finish" ==> r.finished && r.actions == st.actions && r.toolResults == st.toolResults)
      && (tool != "finish" ==>
            (!r.finished && |r.actions| == |st.actions| + 1 && |r.toolResults| == |st.toolResults| + 1
             && r.actions[..|st.actions|] == st.actions && r.toolResults[..|st.toolResults|] == st.toolResults
             && r.actions[|st.actions|].action == tool + "(" + dumps(params) + ")"
             && r.toolResults[|st.toolResults|] == exec(tool, params, st.(iteration := st.iteration + 1))))
  {
    var next := st.(iteration := st.iteration + 1);
    var (tool, params) := choose(next, reply);
    if tool == "finish" then next.(finished := true)
    else
      var result := exec(tool, params, next);
      var r := AddAction(next, tool + "(" + dumps(params) + ")", result);
      assert r.actions[..|st.actions|] == st.actions;
      assert r.toolResults[..|st.toolResults|] == st.toolResults;
      r
  }

  /** `while not finished and iteration < max_iterations`, the answer in iteration `i` being `answers(i)`. */
  function Run(st: AgentState, replies: nat -> Option<(string, Params)>, choose: Chooser, exec: Executor, dumps: Params -> string): (r: AgentState)
    decreases st.maxIterations - st.iteration
  {
    if st.finished || st.iteration >= st.maxIterations then st
    else Run(Step(st, replies(st.iteration + 1), choose, exec, dumps), replies, choose, exec, dumps)
  }

  /** What `run_sre_agent_loop_activity` returns. */
  datatype LoopResult = LoopResult(toolResults: seq<ToolResult>, iterationsUsed: nat, actionsTaken: seq<string>, finishedNaturally: bool)

  function ActionTexts(es: seq<ActionEntry>): (r: seq<string>)
    ensures |r| == |es| && forall i :: 0 <= i < |es| ==> r[i] == es[i].action
  {
    seq(|es|, i requires 0 <= i < |es| => es[i].action)
  }

  /** `run_sre_agent_loop_activity` */
  function RunLoop(incident: Params, plan: Plan, maxIterations: nat, replies: nat -> Option<string>, dumps: Params -> string): (r: LoopResult)
    ensures r.iterationsUsed <= maxIterations
    ensures |r.toolResults| == |r.actionsTaken| <= r.iterationsUsed
    ensures r.finishedNaturally || r.iterationsUsed == maxIterations
  {
    var answers := (i: nat) => Answer(replies(i));
    var choose := Policy(plan);
    var st := Run(InitialState(incident, maxIterations), answers, choose, ExecuteTool, dumps);
    RunBounds(InitialState(incident, maxIterations), answers, choose, ExecuteTool, dumps);
    LoopResult(st.toolResults, st.iteration, ActionTexts(st.actions), st.finished)
  }

  /** The bookkeeping a run keeps: each executed action has its result. */
  predicate Balanced(st: AgentState)
  {
    st.iteration <= st.maxIterations && |st.actions| == |st.toolResults| <= st.iteration
  }

  /** One pass keeps the bookkeeping balanced and only appends. */
  lemma StepKeepsBalance(st: AgentState, reply: Option<(string, Params)>, choose: Chooser, exec: Executor, dumps: Params -> string)
    requires Balanced(st) && !st.finished && st.iteration < st.maxIterations
    ensures var r := Step(st, reply, choose, exec, dumps);
      Balanced(r) && r.iteration == st.iteration + 1 && r.maxIterations == st.maxIterations
      && |st.actions| <= |r.actions| && r.actions[..|st.actions|] == st.actions
      && |st.toolResults| <= |r.toolResults| && r.toolResults[..|st.toolResults|] == st.toolResults
  {
    var r := Step(st, reply, choose, exec, dumps);
    var (tool, params) := choose(st.(iteration := st.iteration + 1), reply);
    if tool == "finish" {
      assert r.actions == st.actions && r.toolResults == st.toolResults;
    }
  }

  /**
   * The iteration counter never passes its bound, every executed action has
   * exactly one result, and the loop stops only on `finish` or at the bound.
   */
  lemma {:induction false} RunBounds(st: AgentState, replies: nat -> Option<(string, Params)>, choose: Chooser, exec: Executor, dumps: Params -> string)
    requires Balanced(st)
    ensures var r := Run(st, replies, choose, exec, dumps);
      Balanced(r) && st.iteration <= r.iteration && r.maxIterations == st.maxIterations
      && (r.finished || r.iteration == r.maxIterations)
    decreases st.maxIterations - st.iteration
  {
    if !(st.finished || st.iteration >= st.maxIterations) {
      var next := Step(st, replies(st.iteration + 1), choose, exec, dumps);
      StepKeepsBalance(st, replies(st.iteration + 1), choose, exec, dumps);
      RunBounds(next, replies, choose, exec, dumps);
      assert Run(next, replies, choose, exec, dumps) == Run(st, replies, choose, exec, dumps);
    }
  }

  /** Nothing a run has recorded is ever rewritten: later iterations only append. */
  lemma {:induction false} RunAppends(st: AgentState, replies: nat -> Option<(string, Params)>, choose: Chooser, exec: Executor, dumps: Params -> string)
    requires Balanced(st)
    ensures var r := Run(st, replies, choose, exec, dumps);
      |st.actions| <= |r.actions| && r.actions[..|st.actions|] == st.actions
      && |st.toolResults| <= |r.toolResults| && r.toolResults[..|st.toolResults|] == st.toolResults
    decreases st.maxIterations - st.iteration
  {
    if !(st.finished || st.iteration >= st.maxIterations) {
      var next := Step(st, replies(st.iteration + 1), choose, exec, dumps);
      StepKeepsBalance(st, replies(st.iteration + 1), choose, exec, dumps);
      RunAppends(next, replies, choose, exec, dumps);
      var r := Run(next, replies, choose, exec, dumps);
      assert r == Run(st, replies, choose, exec, dumps);
      PrefixOfPrefix(st.actions, next.actions, r.actions);
      PrefixOfPrefix(st.toolResults, next.toolResults, r.toolResults);
    }
  }

  lemma PrefixOfPrefix<T>(a: seq<T>, b: seq<T>, c: seq<T>)
    requires |a| <= |b| <= |c| && b[..|a|] == a && c[..|b|] == b
    ensures c[..|a|] == a
  {
    assert c[..|a|] == c[..|b|][..|a|];
  }

  /** An action string reads back as the tool it ran when the tool's name has no `(`. */
  lemma ActionNameReadsBack(tool: string, rest: string)
    requires '(' !in tool
    ensures Text.Before(tool + "(" + rest, '(') == tool
  {
    var s := tool + "(" + rest;
    assert forall k :: 0 <= k < |tool| ==> s[k] == tool[k] && s[k] != '(';
    assert s[|tool|] == '(';
    assert s[..|tool|] == tool;
  }

  /**
   * The fallback never proposes the same planned tool twice in a row: once
   * it ran, its name is among the executed ones.
   */
  lemma FallbackMovesOn(st: AgentState, plan: Plan, dumps: Params -> string)
    requires !st.finished && st.iteration < st.maxIterations
    requires var c := FallbackNext(st.(iteration := st.iteration + 1), plan); c.tool != "finish" && '(' !in c.tool
    ensures var c := FallbackNext(st.(iteration := st.iteration + 1), plan);
      var r := Step(st, None, Policy(plan), ExecuteTool, dumps);
      c.tool in Executed(r) && FallbackNext(r, plan).tool != c.tool
  {
    var next := st.(iteration := st.iteration + 1);
    var c := FallbackNext(next, plan);
    var r := Step(st, None, Policy(plan), ExecuteTool, dumps);
    ActionNameReadsBack(c.tool, dumps(c.params) + ")");
    assert c.tool + "(" + dumps(c.params) + ")" == c.tool + "(" + (dumps(c.params) + ")");
    assert r.actions[|st.actions|].action == c.tool + "(" + dumps(c.params) + ")";
    assert c.tool in Executed(r);
    assert Executed(next) == Executed(st);
    assert Executed(st) <= Executed(r) by {
      forall t | t in Executed(st) ensures t in Executed(r) {
        var i :| 0 <= i < |st.actions| && Text.Before(st.actions[i].action, '(') == t;
        assert r.actions[i] == st.actions[i];
      }
    }
  }

  /** A reply that names `finish` ends the loop without running anything. */
  lemma FinishRunsNothing(st: AgentState, plan: Plan, dumps: Params -> string)
    requires !st.finished && st.iteration < st.maxIterations
    ensures var r := Step(st, Answer(Some(LlmHelpers.Tag + " " + "finish" + "()")), Policy(plan), ExecuteTool, dumps);
      r.finished && r.toolResults == st.toolResults && r.actions == st.actions
  {
    LlmHelpers.BareCallParses("finish");
  }

  /** An unknown tool name from the LLM is not run: the fallback's choice is. */
  lemma UnknownToolUsesFallback(st: AgentState, plan: Plan, reply: string)
    requires LlmHelpers.ParseAction(reply).0 !in LlmHelpers.ValidToolNames
    ensures ChosenAction(st, plan, Answer(Some(reply))) == (FallbackNext(st, plan).tool, FallbackNext(st, plan).params)
  {
  }

  /**
   * With nothing planned and no answer from the LLM, the loop finishes in
   * its first iteration without running anything.
   */
  lemma EmptyPlanFinishesAtOnce(incident: Params, params: Params, maxIterations: nat,
                                 replies: nat -> Option<string>, dumps: Params -> string)
    requires maxIterations > 0 && replies(1).None?
    ensures RunLoop(incident, Plan([], params), maxIterations, replies, dumps) == LoopResult([], 1, [], true)
  {
    var st := InitialState(incident, maxIterations);
    var answers := (i: nat) => Answer(replies(i));
    var next := Step(st, answers(1), Policy(Plan([], params)), ExecuteTool, dumps);
    assert answers(1) == None;
    assert Policy(Plan([], params))(st.(iteration := 1), None) == ChosenAction(st.(iteration := 1), Plan([], params), None);
    assert ChosenAction(st.(iteration := 1), Plan([], params), None).0 == "finish";
    assert next == st.(iteration := 1, finished := true);
    assert Run(st, answers, Policy(Plan([], params)), ExecuteTool, dumps) == next;
  }

  /** The activity names of the tool table lead back to their tools. */
  lemma ShortNameInvertsTable(i: nat)
    requires i < |LlmHelpers.ToolActivities|
    ensures ShortName(LlmHelpers.ToolActivities[i].1) == LlmHelpers.ToolActivities[i].0
  {
    var ps := LlmHelpers.ToolActivities;
    assert forall j :: 0 <= j < i ==> ps[j].1 != ps[i].1;
    FirstActivityMatch(ps, i);
  }

  lemma {:induction false} FirstActivityMatch(ps: seq<(string, string)>, i: nat)
    requires i < |ps| && forall j :: 0 <= j < i ==> ps[j].1 != ps[i].1
    ensures ToolForActivity(ps, ps[i].1) == Some(ps[i].0)
  {
    if i > 0 {
      assert forall j :: 0 <= j < i - 1 ==> ps[1..][j].1 != ps[1..][i - 1].1 by {
        assert forall j :: 0 <= j < i - 1 ==> ps[1..][j] == ps[j + 1];
      }
      FirstActivityMatch(ps[1..], i - 1);
    }
  }
}
