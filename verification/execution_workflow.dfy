/**
 * The guardrailed execution step of the learning loop
 * (`ExecutingRemediationWorkflow.execute`,
 * `project/workflows/execution/execution_workflow.py`): each planned action
 * is checked by the guardrail engine, then either recorded as blocked or
 * dispatched to its remediation tool, one at a time.
 *
 * The metric queries and the tools are oracles: a `Probe` is what a
 * `query_metrics` call answered (or `None` when it raised), and the
 * dispatcher gives the tool's answer for the action at each position.
 */
module ExecutionWorkflow {
  import opened Wrappers
  import opened Enums
  import Guardrails
  import opened EvooMachine

  /** `ACTION_TO_ACTIVITY`: the seven action types, each run by the activity of the same name. */
  function ActivityFor(actionType: string): (r: Option<string>)
    ensures r.Some? <==> ParseActionType(actionType).Some?
    ensures r.Some? ==> r.value == actionType
  {
    match ParseActionType(actionType)
    case None => None
    case Some(a) => Some(ActionTypeName(a))
  }

  const RestartOnly := [PlannedAction(Some("restart_service"), map[])]

  /** The actions to run: the plan's, or a lone restart when the plan has none. */
  function ActionsToRun(d: StrategyDetails): (r: seq<PlannedAction>)
    ensures |r| > 0
    ensures |d.actions| > 0 ==> r == d.actions
  {
    if |d.actions| > 0 then d.actions else RestartOnly
  }

  /** What a `query_metrics` call answered; every key may be absent. */
  datatype Probe = Probe(metrics: MetricsDict, healthScore: Option<real>, isHealthy: Option<bool>)

  /** The system state shown to the guardrails: instance count (default 2) and health score (default 0). */
  function SystemStateOf(p: Probe): (st: Guardrails.SystemState)
    ensures st.activeInstances == Some(Get(p.metrics, "active_instances", 2.0))
    ensures st.healthScore == Some(p.healthScore.GetOr(0.0))
  {
    Guardrails.SystemState(Some(Get(p.metrics, "active_instances", 2.0)), Some(p.healthScore.GetOr(0.0)))
  }

  /** The probe a tool's non-empty metrics stand in for: health is the reported availability. */
  function ProbeAfter(m: MetricsDict): (p: Probe)
    ensures p.metrics == m && p.healthScore == Some(Get(m, "availability", 0.5))
  {
    Probe(m, Some(Get(m, "availability", 0.5)), Some(Get(m, "availability", 0.0) >= 0.7))
  }

  /** The loop's accumulators for this execution; the record's earlier entries are kept apart as `prior`. */
  datatype Loop = Loop(
    executed: seq<ExecutedAction>,
    tools: seq<string>,
    results: seq<DispatchResult>,
    totalCost: real,
    totalRecovery: real,
    probe: Probe)

  function ActionNames(es: seq<ExecutedAction>): (r: seq<string>)
    ensures |r| == |es| && forall i :: 0 <= i < |es| ==> r[i] == es[i].action
  {
    if |es| == 0 then [] else ActionNames(es[..|es| - 1]) + [es[|es| - 1].action]
  }

  /** The names of the entries that were dispatched rather than blocked, in order. */
  function DispatchedNames(es: seq<ExecutedAction>): (r: seq<string>)
    ensures |r| <= |es|
  {
    if |es| == 0 then []
    else DispatchedNames(es[..|es| - 1]) + (if es[|es| - 1].blockedBy.None? then [es[|es| - 1].action] else [])
  }

  function Costs(rs: seq<DispatchResult>): (r: seq<real>)
    ensures |r| == |rs| && forall i :: 0 <= i < |rs| ==> r[i] == rs[i].cost.GetOr(0.0)
  {
    if |rs| == 0 then [] else Costs(rs[..|rs| - 1]) + [rs[|rs| - 1].cost.GetOr(0.0)]
  }

  function Recoveries(rs: seq<DispatchResult>): (r: seq<real>)
    ensures |r| == |rs| && forall i :: 0 <= i < |rs| ==> r[i] == rs[i].recoveryTimeAdded.GetOr(0.0)
  {
    if |rs| == 0 then [] else Recoveries(rs[..|rs| - 1]) + [rs[|rs| - 1].recoveryTimeAdded.GetOr(0.0)]
  }

  /** The context shown to the guardrails: every entry so far, blocked ones included, and this run's cost. */
  function Context(prior: seq<ExecutedAction>, l: Loop): (cx: Guardrails.IncidentContext)
    ensures cx.actionsTaken == ActionNames(prior + l.executed) && cx.totalCost == Some(l.totalCost)
  {
    Guardrails.IncidentContext(ActionNames(prior + l.executed), Some(l.totalCost))
  }

  /** The tool's answer for the action at each position; `None` is an activity that raised. */
  type Dispatcher = nat -> Option<DispatchResult>

  datatype StepResult = Continue(loop: Loop) | Raised(loop: Loop)

  function TypeOf(a: PlannedAction): string { a.actionType.GetOr("restart_service") }

  function Verdict(c: Guardrails.Config, prior: seq<ExecutedAction>, a: PlannedAction, l: Loop): Guardrails.GuardResult
  {
    Guardrails.Check(c, TypeOf(a), a.parameters, SystemStateOf(l.probe), Context(prior, l))
  }

  /** The entry a blocked action leaves behind: not successful, no cost, the blocking rule. */
  function BlockedEntry(a: PlannedAction, rule: string): ExecutedAction
  {
    ExecutedAction(TypeOf(a), a.parameters, false, 0.0, Some(rule))
  }

  /** The entry a dispatched action leaves behind: the tool's success flag and cost, false and 0 if absent. */
  function DispatchedEntry(a: PlannedAction, res: DispatchResult): ExecutedAction
  {
    ExecutedAction(TypeOf(a), a.parameters, res.success.GetOr(false), res.cost.GetOr(0.0), None)
  }

  /** One pass of the loop body for the action at position `i`. */
  function Step(c: Guardrails.Config, prior: seq<ExecutedAction>, a: PlannedAction, i: nat, dispatch: Dispatcher, l: Loop): (r: StepResult)
    ensures ActivityFor(TypeOf(a)).None? ==> r == Continue(l)
    ensures ActivityFor(TypeOf(a)).Some? && Verdict(c, prior, a, l).verdict == Guardrails.Block ==>
      r == Continue(l.(executed := l.executed + [BlockedEntry(a, Verdict(c, prior, a, l).ruleName)]))
    ensures r.Raised? <==>
      ActivityFor(TypeOf(a)).Some? && Verdict(c, prior, a, l).verdict != Guardrails.Block && dispatch(i).None?
    ensures r.Raised? ==> r.loop == l
    ensures r.Continue? && ActivityFor(TypeOf(a)).Some? && Verdict(c, prior, a, l).verdict != Guardrails.Block ==>
      var res := dispatch(i).value;
      r.loop.tools == l.tools + [TypeOf(a)]
      && r.loop.results == l.results + [res]
      && r.loop.executed == l.executed + [DispatchedEntry(a, res)]
      && r.loop.totalCost == l.totalCost + res.cost.GetOr(0.0)
      && r.loop.totalRecovery == l.totalRecovery + res.recoveryTimeAdded.GetOr(0.0)
      && r.loop.probe == (if |res.metrics| > 0 then ProbeAfter(res.metrics) else l.probe)
  {
    var t := TypeOf(a);
    match ActivityFor(t)
    case None => Continue(l)
    case Some(activity) =>
      var g := Verdict(c, prior, a, l);
      if g.verdict == Guardrails.Block then
        Continue(l.(executed := l.executed + [BlockedEntry(a, g.ruleName)]))
      else
        match dispatch(i)
        case None => Raised(l)
        case Some(res) =>
          Continue(Loop(
            l.executed + [DispatchedEntry(a, res)],
            l.tools + [activity],
            l.results + [res],
            l.totalCost + res.cost.GetOr(0.0),
            l.totalRecovery + res.recoveryTimeAdded.GetOr(0.0),
            if |res.metrics| > 0 then ProbeAfter(res.metrics) else l.probe))
  }

  /** The loop over `actions[i..]`, stopping at the first activity that raises. */
  function RunFrom(c: Guardrails.Config, prior: seq<ExecutedAction>, actions: seq<PlannedAction>, i: nat, dispatch: Dispatcher, l: Loop): StepResult
    decreases |actions| - i
  {
    if i >= |actions| then Continue(l)
    else match Step(c, prior, actions[i], i, dispatch, l)
      case Raised(l') => Raised(l')
      case Continue(l') => RunFrom(c, prior, actions, i + 1, dispatch, l')
  }

  /**
   * The loop's books balance: the tools called are exactly the dispatched
   * entries' names, one tool result per dispatched entry, and the totals
   * are sums over those results alone.
   */
  predicate Balanced(l: Loop)
  {
    l.tools == DispatchedNames(l.executed)
    && |l.results| == |l.tools|
    && l.totalCost == Sum(Costs(l.results))
    && l.totalRecovery == Sum(Recoveries(l.results))
  }

  lemma DispatchedNamesSnoc(s: seq<ExecutedAction>, e: ExecutedAction)
    ensures e.blockedBy.None? ==> DispatchedNames(s + [e]) == DispatchedNames(s) + [e.action]
    ensures e.blockedBy.Some? ==> DispatchedNames(s + [e]) == DispatchedNames(s)
    ensures ActionNames(s + [e]) == ActionNames(s) + [e.action]
  {
    assert (s + [e])[..|s|] == s;
  }

  lemma CostsSnoc(rs: seq<DispatchResult>, res: DispatchResult)
    ensures Sum(Costs(rs + [res])) == Sum(Costs(rs)) + res.cost.GetOr(0.0)
    ensures Sum(Recoveries(rs + [res])) == Sum(Recoveries(rs)) + res.recoveryTimeAdded.GetOr(0.0)
  {
    assert (rs + [res])[..|rs|] == rs;
    SumAppend(Costs(rs), res.cost.GetOr(0.0));
    SumAppend(Recoveries(rs), res.recoveryTimeAdded.GetOr(0.0));
  }

  lemma StepBalanced(c: Guardrails.Config, prior: seq<ExecutedAction>, a: PlannedAction, i: nat, dispatch: Dispatcher, l: Loop)
    requires Balanced(l)
    ensures Balanced(Step(c, prior, a, i, dispatch, l).loop)
  {
    var r := Step(c, prior, a, i, dispatch, l).loop;
    if r != l {
      if Verdict(c, prior, a, l).verdict == Guardrails.Block {
        DispatchedNamesSnoc(l.executed, BlockedEntry(a, Verdict(c, prior, a, l).ruleName));
      } else {
        var res := dispatch(i).value;
        DispatchedNamesSnoc(l.executed, DispatchedEntry(a, res));
        CostsSnoc(l.results, res);
      }
    }
  }

  /** The whole loop keeps the books balanced. */
  lemma {:induction false} RunBalanced(c: Guardrails.Config, prior: seq<ExecutedAction>, actions: seq<PlannedAction>, i: nat, dispatch: Dispatcher, l: Loop)
    requires Balanced(l)
    ensures Balanced(RunFrom(c, prior, actions, i, dispatch, l).loop)
    decreases |actions| - i
  {
    if i < |actions| {
      StepBalanced(c, prior, actions[i], i, dispatch, l);
      match Step(c, prior, actions[i], i, dispatch, l)
      case Raised(l') =>
      case Continue(l') => RunBalanced(c, prior, actions, i + 1, dispatch, l');
    }
  }

  /** A name counted among the dispatched entries is counted among all entries. */
  lemma {:induction false} DispatchedCountAtMostAll(es: seq<ExecutedAction>, x: string)
    ensures Guardrails.Count(DispatchedNames(es), x) <= Guardrails.Count(ActionNames(es), x)
    ensures |DispatchedNames(es)| <= |ActionNames(es)|
  {
    if |es| > 0 {
      var pre := es[..|es| - 1];
      var last := es[|es| - 1];
      assert es == pre + [last];
      DispatchedCountAtMostAll(pre, x);
      DispatchedNamesSnoc(pre, last);
      Guardrails.CountAppend(ActionNames(pre), last.action, x);
      if last.blockedBy.None? {
        Guardrails.CountAppend(DispatchedNames(pre), last.action, x);
      }
    }
  }

  /** The per-incident allowance of `kind`, for the two kinds the engine rations. */
  function Allowance(c: Guardrails.Config, kind: string): int
  {
    if kind == Guardrails.Restart then c.maxRestartsPerIncident else c.maxRollbacksPerIncident
  }

  predicate Rationed(kind: string) { kind == Guardrails.Restart || kind == Guardrails.Rollback }

  /** A step appends at most one entry; an entry that is not marked blocked passed the guardrails. */
  lemma StepShape(c: Guardrails.Config, prior: seq<ExecutedAction>, a: PlannedAction, i: nat, dispatch: Dispatcher, l: Loop)
    ensures var r := Step(c, prior, a, i, dispatch, l).loop;
      r == l || (
        |r.executed| == |l.executed| + 1
        && r.executed == l.executed + [r.executed[|l.executed|]]
        && (r.executed[|l.executed|].blockedBy.None? ==>
              (Verdict(c, prior, a, l).verdict != Guardrails.Block && r.executed[|l.executed|].action == TypeOf(a))))
  {
  }

  /** Once the allowance of a rationed kind is spent, the guardrails block that kind. */
  lemma KindBudgetBlocks(c: Guardrails.Config, prior: seq<ExecutedAction>, a: PlannedAction, l: Loop, kind: string)
    requires c.enabled && Rationed(kind) && TypeOf(a) == kind
    requires Guardrails.Count(ActionNames(prior + l.executed), kind) >= Allowance(c, kind)
    ensures Verdict(c, prior, a, l).verdict == Guardrails.Block
  {
    if kind == Guardrails.Restart {
      Guardrails.RestartBudgetBlocks(c, a.parameters, SystemStateOf(l.probe), Context(prior, l));
    } else {
      Guardrails.RollbackBudgetBlocks(c, a.parameters, SystemStateOf(l.probe), Context(prior, l));
    }
  }

  /** One step never takes the dispatched count of a rationed kind above a bound at least its allowance. */
  lemma StepKeepsKindBound(c: Guardrails.Config, prior: seq<ExecutedAction>, a: PlannedAction, i: nat, dispatch: Dispatcher, l: Loop, kind: string, b: int)
    requires c.enabled && Rationed(kind) && Allowance(c, kind) <= b
    requires Guardrails.Count(DispatchedNames(prior + l.executed), kind) <= b
    ensures Guardrails.Count(DispatchedNames(prior + Step(c, prior, a, i, dispatch, l).loop.executed), kind) <= b
  {
    var r := Step(c, prior, a, i, dispatch, l).loop;
    StepShape(c, prior, a, i, dispatch, l);
    if r != l {
      var e := r.executed[|l.executed|];
      var all := prior + l.executed;
      assert prior + r.executed == all + [e];
      DispatchedNamesSnoc(all, e);
      if e.blockedBy.None? {
        Guardrails.CountAppend(DispatchedNames(all), e.action, kind);
        if e.action == kind {
          DispatchedCountAtMostAll(all, kind);
          if Guardrails.Count(ActionNames(all), kind) >= Allowance(c, kind) {
            KindBudgetBlocks(c, prior, a, l, kind);
          }
        }
      }
    }
  }

  /** One step never takes the number of dispatched actions above a bound at least the action allowance. */
  lemma StepKeepsTotalBound(c: Guardrails.Config, prior: seq<ExecutedAction>, a: PlannedAction, i: nat, dispatch: Dispatcher, l: Loop, b: int)
    requires c.enabled && c.maxTotalActionsPerIncident <= b
    requires |DispatchedNames(prior + l.executed)| <= b
    ensures |DispatchedNames(prior + Step(c, prior, a, i, dispatch, l).loop.executed)| <= b
  {
    var r := Step(c, prior, a, i, dispatch, l).loop;
    StepShape(c, prior, a, i, dispatch, l);
    if r != l {
      var e := r.executed[|l.executed|];
      var all := prior + l.executed;
      assert prior + r.executed == all + [e];
      DispatchedNamesSnoc(all, e);
      if e.blockedBy.None? {
        DispatchedCountAtMostAll(all, "");
        if |ActionNames(all)| >= c.maxTotalActionsPerIncident {
          Guardrails.ActionBudgetBlocks(c, TypeOf(a), a.parameters, SystemStateOf(l.probe), Context(prior, l));
        }
      }
    }
  }

  /** The three rationing bounds hold for every entry so far. */
  predicate WithinBounds(es: seq<ExecutedAction>, restarts: int, rollbacks: int, total: int)
  {
    Guardrails.Count(DispatchedNames(es), Guardrails.Restart) <= restarts
    && Guardrails.Count(DispatchedNames(es), Guardrails.Rollback) <= rollbacks
    && |DispatchedNames(es)| <= total
  }

  lemma {:induction false} RunKeepsBounds(c: Guardrails.Config, prior: seq<ExecutedAction>, actions: seq<PlannedAction>, i: nat,
                                          dispatch: Dispatcher, l: Loop, restarts: int, rollbacks: int, total: int)
    requires c.enabled
    requires c.maxRestartsPerIncident <= restarts && c.maxRollbacksPerIncident <= rollbacks
    requires c.maxTotalActionsPerIncident <= total
    requires WithinBounds(prior + l.executed, restarts, rollbacks, total)
    ensures WithinBounds(prior + RunFrom(c, prior, actions, i, dispatch, l).loop.executed, restarts, rollbacks, total)
    decreases |actions| - i
  {
    if i < |actions| {
      var a := actions[i];
      StepKeepsKindBound(c, prior, a, i, dispatch, l, Guardrails.Restart, restarts);
      StepKeepsKindBound(c, prior, a, i, dispatch, l, Guardrails.Rollback, rollbacks);
      StepKeepsTotalBound(c, prior, a, i, dispatch, l, total);
      match Step(c, prior, a, i, dispatch, l)
      case Raised(l') =>
      case Continue(l') => RunKeepsBounds(c, prior, actions, i + 1, dispatch, l', restarts, rollbacks, total);
    }
  }

  /**
   * The oracle answers one execution sees; `error` is the text of whatever
   * raised inside the workflow's `try`, when something did.
   */
  datatype Oracle = Oracle(
    pre: Option<Probe>,
    dispatch: Dispatcher,
    final: Option<Probe>,
    recovery: Option<Probe>,
    error: string)

  const ExecutionFailedPrefix := "Execution failed: "

  /** The error text the `except` branch records for the error `error`. */
  function ExecutionFailed(error: string): (m: string)
    ensures |m| == |ExecutionFailedPrefix| + |error|
    ensures m[..|ExecutionFailedPrefix|] == ExecutionFailedPrefix && m[|ExecutionFailedPrefix|..] == error
  {
    ExecutionFailedPrefix + error
  }

  /** The next state, the updated record, and whether the `except` branch ran. */
  datatype Outcome = Outcome(next: EvooState, data: Option<EvooData>, raised: bool)

  /** The `except` branch for the error `error`: keep what the loop appended, then try one more metrics query. */
  function Recover(d: EvooData, q: Option<Probe>, error: string): (r: Outcome)
    ensures r.raised && r.data.Some?
    ensures r.data.value.actionsExecuted == d.actionsExecuted && r.data.value.toolsCalled == d.toolsCalled
    ensures r.data.value.executionResults == d.executionResults
    ensures r.data.value.totalCost == d.totalCost && r.data.value.totalRecoveryTime == d.totalRecoveryTime
    ensures SameLoopFields(d, r.data.value)
    ensures q.None? <==> r.next == Failed
    ensures q.None? ==> r.data.value == d.(errorMessage := ExecutionFailed(error))
    ensures q.Some? ==> (r.next == EvaluatingOutcome
      && r.data.value == d.(errorMessage := ExecutionFailed(error), metricsAfter := q.value.metrics, serviceRestored := false))
  {
    var d' := d.(errorMessage := ExecutionFailed(error));
    match q
    case None => Outcome(Failed, Some(d'), true)
    case Some(p) => Outcome(EvaluatingOutcome, Some(d'.(metricsAfter := p.metrics, serviceRestored := false)), true)
  }

  /** The run the workflow performs once the pre-execution probe answered. */
  function Run(c: Guardrails.Config, d: EvooData, p: Probe, dispatch: Dispatcher): StepResult
  {
    RunFrom(c, d.actionsExecuted, ActionsToRun(d.strategyDetails), 0, dispatch, Loop([], [], [], 0.0, 0.0, p))
  }

  /** The record after the loop: entries and tools appended; results and totals replaced. */
  function Record(d: EvooData, l: Loop, complete: bool): (r: EvooData)
    ensures r.actionsExecuted == d.actionsExecuted + l.executed && r.toolsCalled == d.toolsCalled + l.tools
    ensures complete ==> (r.executionResults == l.results && r.totalCost == l.totalCost
      && r.totalRecoveryTime == l.totalRecovery)
    ensures SameLoopFields(d, r)
  {
    if complete then
      d.(actionsExecuted := d.actionsExecuted + l.executed, toolsCalled := d.toolsCalled + l.tools,
         executionResults := l.results, totalCost := l.totalCost, totalRecoveryTime := l.totalRecovery)
    else
      d.(actionsExecuted := d.actionsExecuted + l.executed, toolsCalled := d.toolsCalled + l.tools)
  }

  /** What follows the loop: a raise goes to the `except` branch; a completed loop ends with the final probe. */
  function AfterRun(d: EvooData, run: StepResult, final: Option<Probe>, recovery: Option<Probe>, error: string): (r: Outcome)
    ensures r.data.Some?
    ensures r.data.value.actionsExecuted == d.actionsExecuted + run.loop.executed
    ensures r.data.value.toolsCalled == d.toolsCalled + run.loop.tools
    ensures run.Continue? ==> (r.data.value.executionResults == run.loop.results
      && r.data.value.totalCost == run.loop.totalCost && r.data.value.totalRecoveryTime == run.loop.totalRecovery)
    ensures SameLoopFields(d, r.data.value)
    ensures r.raised <==> run.Raised? || final.None?
    ensures r.data.value.errorMessage == (if r.raised then ExecutionFailed(error) else d.errorMessage)
    ensures !r.raised ==> (r.next == EvaluatingOutcome
      && r.data.value.serviceRestored == final.value.isHealthy.GetOr(false)
      && r.data.value.metricsAfter == final.value.metrics)
  {
    match run
    case Raised(l) => Recover(Record(d, l, false), recovery, error)
    case Continue(l) =>
      match final
      case None => Recover(Record(d, l, true), recovery, error)
      case Some(q) =>
        Outcome(EvaluatingOutcome, Some(Record(d, l, true).(metricsAfter := q.metrics, serviceRestored := q.isHealthy.GetOr(false))), false)
  }

  /** `ExecutingRemediationWorkflow.execute` */
  function Execute(c: Guardrails.Config, data: Option<EvooData>, o: Oracle): (r: Outcome)
    ensures data.None? <==> r.data.None?
    ensures data.None? ==> r.next == Failed && !r.raised
    ensures r.next == Failed || r.next == EvaluatingOutcome
    ensures r.data.Some? && !r.raised ==> (r.next == EvaluatingOutcome
      && o.pre.Some? && o.final.Some?
      && r.data.value.serviceRestored == o.final.value.isHealthy.GetOr(false)
      && r.data.value.metricsAfter == o.final.value.metrics)
    ensures r.raised ==> (r.next == Failed <==> o.recovery.None?)
    ensures r.raised && r.next == EvaluatingOutcome ==> !r.data.value.serviceRestored
    ensures data.Some? ==> r.data.value.errorMessage == (if r.raised then ExecutionFailed(o.error) else data.value.errorMessage)
  {
    match data
    case None => Outcome(Failed, None, false)
    case Some(d) =>
      match o.pre
      case None => Recover(d, o.recovery, o.error)
      case Some(p) => AfterRun(d, Run(c, d, p, o.dispatch), o.final, o.recovery, o.error)
  }

  /** The loop state an execution ended in, and whether it ran to the end. */
  lemma ExecuteShape(c: Guardrails.Config, d: EvooData, o: Oracle)
    ensures var e := Execute(c, Some(d), o).data.value;
      o.pre.None? ==> e.actionsExecuted == d.actionsExecuted && e.toolsCalled == d.toolsCalled
    ensures o.pre.Some? ==>
      var run := Run(c, d, o.pre.value, o.dispatch);
      var e := Execute(c, Some(d), o).data.value;
      e.actionsExecuted == d.actionsExecuted + run.loop.executed
      && e.toolsCalled == d.toolsCalled + run.loop.tools
      && (run.Continue? ==>
            e.executionResults == run.loop.results && e.totalCost == run.loop.totalCost
            && e.totalRecoveryTime == run.loop.totalRecovery)
    ensures SameLoopFields(d, Execute(c, Some(d), o).data.value)
  {
    if o.pre.Some? {
      var run := Run(c, d, o.pre.value, o.dispatch);
      assert Execute(c, Some(d), o) == AfterRun(d, run, o.final, o.recovery, o.error);
    }
  }

  /**
   * When the loop runs to the end, the record's books balance: the tools
   * called this time are exactly the dispatched entries' names, in order;
   * there is one tool result per dispatched entry; cost and recovery time
   * are sums over those results alone, blocked entries contributing nothing.
   */
  lemma ExecutionAccounts(c: Guardrails.Config, d: EvooData, o: Oracle)
    requires o.pre.Some? && Run(c, d, o.pre.value, o.dispatch).Continue?
    ensures var e := Execute(c, Some(d), o).data.value;
      var n := |d.actionsExecuted|;
      n <= |e.actionsExecuted| && e.actionsExecuted[..n] == d.actionsExecuted
      && e.toolsCalled == d.toolsCalled + DispatchedNames(e.actionsExecuted[n..])
      && |e.executionResults| == |DispatchedNames(e.actionsExecuted[n..])|
      && e.totalCost == Sum(Costs(e.executionResults))
      && e.totalRecoveryTime == Sum(Recoveries(e.executionResults))
  {
    var l0 := Loop([], [], [], 0.0, 0.0, o.pre.value);
    RunBalanced(c, d.actionsExecuted, ActionsToRun(d.strategyDetails), 0, o.dispatch, l0);
    ExecuteShape(c, d, o);
    var e := Execute(c, Some(d), o).data.value;
    var l := Run(c, d, o.pre.value, o.dispatch).loop;
    assert e.actionsExecuted[|d.actionsExecuted|..] == l.executed;
    assert e.actionsExecuted[..|d.actionsExecuted|] == d.actionsExecuted;
  }

  function IntMax(a: int, b: int): int { if a >= b then a else b }

  /**
   * With the engine on, one execution that starts from a cleared record
   * dispatches at most the allowed number of restarts, of rollbacks and of
   * actions overall (none, for a non-positive allowance), whether it
   * completes or raises: blocked entries count toward the later checks.
   */
  lemma ExecutionRespectsBudgets(c: Guardrails.Config, d: EvooData, o: Oracle)
    requires c.enabled && d.actionsExecuted == []
    ensures WithinBounds(Execute(c, Some(d), o).data.value.actionsExecuted,
      IntMax(c.maxRestartsPerIncident, 0), IntMax(c.maxRollbacksPerIncident, 0), IntMax(c.maxTotalActionsPerIncident, 0))
  {
    ExecuteShape(c, d, o);
    var none: seq<ExecutedAction> := [];
    assert none + none == none;
    if o.pre.Some? {
      var l0 := Loop([], [], [], 0.0, 0.0, o.pre.value);
      RunKeepsBounds(c, [], ActionsToRun(d.strategyDetails), 0, o.dispatch, l0,
        IntMax(c.maxRestartsPerIncident, 0), IntMax(c.maxRollbacksPerIncident, 0), IntMax(c.maxTotalActionsPerIncident, 0));
      var es: seq<ExecutedAction> := Run(c, d, o.pre.value, o.dispatch).loop.executed;
      assert [] + es == es;
    }
  }

  /** A blocked action never reaches its tool: the step does not depend on the tool's answer. */
  lemma BlockedActionNotDispatched(c: Guardrails.Config, prior: seq<ExecutedAction>, a: PlannedAction, i: nat,
                                   d1: Dispatcher, d2: Dispatcher, l: Loop)
    requires Verdict(c, prior, a, l).verdict == Guardrails.Block
    ensures Step(c, prior, a, i, d1, l) == Step(c, prior, a, i, d2, l)
    ensures Step(c, prior, a, i, d1, l).Continue? && Step(c, prior, a, i, d1, l).loop.tools == l.tools
  {
  }

  /** Actions of a type outside the seven known ones leave no trace at all. */
  lemma {:induction false} UnknownActionsSkipped(c: Guardrails.Config, prior: seq<ExecutedAction>, actions: seq<PlannedAction>, i: nat,
                                                 dispatch: Dispatcher, l: Loop)
    requires forall k :: i <= k < |actions| ==> ActivityFor(TypeOf(actions[k])).None?
    ensures RunFrom(c, prior, actions, i, dispatch, l) == Continue(l)
    decreases |actions| - i
  {
    if i < |actions| {
      UnknownActionsSkipped(c, prior, actions, i + 1, dispatch, l);
    }
  }

  /** A plan without actions runs exactly one restart through the guardrails. */
  lemma EmptyPlanRestartsOnce(c: Guardrails.Config, d: EvooData, o: Oracle)
    requires d.strategyDetails.actions == [] && o.pre.Some?
    requires Run(c, d, o.pre.value, o.dispatch).Continue?
    ensures var e := Run(c, d, o.pre.value, o.dispatch).loop.executed;
      |e| == 1 && e[0].action == "restart_service"
  {
    assert ActivityFor("restart_service").Some?;
  }
}
