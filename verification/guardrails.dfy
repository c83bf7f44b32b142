/**
 * The guardrail engine: eight rules, evaluated in a fixed order, decide
 * whether a proposed remediation action may run
 * (`project/guardrails/safety_rules.py`). Reason and suggestion texts are
 * presentation and are not modelled; a result is its verdict and rule name.
 */
module Guardrails {
  import opened Wrappers

  datatype Config = Config(
    minInstancesForRestart: int,
    minInstancesForRollback: int,
    maxHorizontalInstances: int,
    minHorizontalInstances: int,
    maxVerticalCpu: real,
    maxVerticalMemory: real,
    minTimeoutMs: int,
    maxTimeoutMs: int,
    maxCostPerIncident: real,
    maxRestartsPerIncident: int,
    maxRollbacksPerIncident: int,
    maxTotalActionsPerIncident: int,
    blockActionsIfHealthy: bool,
    healthyThreshold: real,
    enabled: bool)

  /** The defaults used when no environment override is present. */
  const DefaultConfig := Config(2, 2, 10, 1, 8.0, 16.0, 500, 60000, 50.0, 3, 1, 10, true, 0.85, true)

  datatype Verdict = Allow | Block | Warn

  datatype GuardResult = GuardResult(verdict: Verdict, ruleName: string)

  /** The keys of `system_state` the rules read; `None` is an absent key. */
  datatype SystemState = SystemState(activeInstances: Option<real>, healthScore: Option<real>)

  /**
   * The keys of `incident_context` the rules read: the `action` field of each
   * action already taken this cycle, and the cost spent so far.
   */
  datatype IncidentContext = IncidentContext(actionsTaken: seq<string>, totalCost: Option<real>)

  type Params = map<string, real>

  /** How many entries of `s` equal `x`. */
  function Count(s: seq<string>, x: string): (n: nat)
    ensures n <= |s|
    ensures n == 0 <==> x !in s
  {
    if |s| == 0 then 0 else Count(s[..|s| - 1], x) + (if s[|s| - 1] == x then 1 else 0)
  }

  lemma {:induction false} CountAppend(s: seq<string>, y: string, x: string)
    ensures Count(s + [y], x) == Count(s, x) + (if y == x then 1 else 0)
  {
    assert (s + [y])[..|s|] == s;
  }

  const Restart := "restart_service"
  const Rollback := "rollback_deployment"

  function BlockResult(name: string): Option<GuardResult> { Some(GuardResult(Block, name)) }
  function WarnResult(name: string): Option<GuardResult> { Some(GuardResult(Warn, name)) }

  function RestartMinInstances(c: Config, action: string, st: SystemState): Option<GuardResult>
  {
    if action != Restart then None
    else if st.activeInstances.GetOr(2.0) < c.minInstancesForRestart as real then BlockResult("min_instances_for_restart")
    else None
  }

  function RollbackMinInstances(c: Config, action: string, st: SystemState): Option<GuardResult>
  {
    if action != Rollback then None
    else if st.activeInstances.GetOr(2.0) < c.minInstancesForRollback as real then BlockResult("min_instances_for_rollback")
    else None
  }

  function HorizontalScaleLimits(c: Config, action: string, p: Params, st: SystemState): Option<GuardResult>
  {
    if action != "scale_horizontal" then None else
      var target := Get(p, "target_instances", 3.0);
      var current := st.activeInstances.GetOr(2.0);
      if target > c.maxHorizontalInstances as real then BlockResult("max_horizontal_instances")
      else if target < c.minHorizontalInstances as real then BlockResult("min_horizontal_instances")
      else if current > 0.0 && target > current * 3.0 then WarnResult("aggressive_horizontal_scaling")
      else None
  }

  function VerticalScaleLimits(c: Config, action: string, p: Params): Option<GuardResult>
  {
    if action != "scale_vertical" then None
    else if Get(p, "target_cpu", 2.0) > c.maxVerticalCpu then BlockResult("max_vertical_cpu")
    else if Get(p, "target_memory", 4.0) > c.maxVerticalMemory then BlockResult("max_vertical_memory")
    else None
  }

  function TimeoutBounds(c: Config, action: string, p: Params): Option<GuardResult>
  {
    if action != "change_timeout" then None
    else if Get(p, "new_timeout", 5000.0) < c.minTimeoutMs as real then BlockResult("min_timeout")
    else if Get(p, "new_timeout", 5000.0) > c.maxTimeoutMs as real then BlockResult("max_timeout")
    else None
  }

  /** Looks only at what has already been spent, never at the proposed action's cost. */
  function CostBudget(c: Config, cx: IncidentContext): Option<GuardResult>
  {
    var spent := cx.totalCost.GetOr(0.0);
    if spent >= c.maxCostPerIncident then BlockResult("cost_budget_exceeded")
    else if spent >= c.maxCostPerIncident * 0.8 then WarnResult("cost_budget_warning")
    else None
  }

  function ActionFrequency(c: Config, action: string, cx: IncidentContext): Option<GuardResult>
  {
    if |cx.actionsTaken| >= c.maxTotalActionsPerIncident then BlockResult("max_total_actions")
    else if action == Restart && Count(cx.actionsTaken, Restart) >= c.maxRestartsPerIncident then
      BlockResult("max_restarts_exceeded")
    else if action == Rollback && Count(cx.actionsTaken, Rollback) >= c.maxRollbacksPerIncident then
      BlockResult("max_rollbacks_exceeded")
    else None
  }

  function AlreadyHealthy(c: Config, st: SystemState): Option<GuardResult>
  {
    if c.blockActionsIfHealthy && st.healthScore.GetOr(0.0) >= c.healthyThreshold then
      WarnResult("system_already_healthy")
    else None
  }

  /** The eight rule outcomes, in evaluation order. */
  function Rules(c: Config, action: string, p: Params, st: SystemState, cx: IncidentContext): (rs: seq<Option<GuardResult>>)
    ensures |rs| == 8
  {
    [ RestartMinInstances(c, action, st),
      RollbackMinInstances(c, action, st),
      HorizontalScaleLimits(c, action, p, st),
      VerticalScaleLimits(c, action, p),
      TimeoutBounds(c, action, p),
      CostBudget(c, cx),
      ActionFrequency(c, action, cx),
      AlreadyHealthy(c, st) ]
  }

  predicate Is(o: Option<GuardResult>, v: Verdict) { o.Some? && o.value.verdict == v }

  /** Position of the first outcome with verdict `v`. */
  function FirstWith(rs: seq<Option<GuardResult>>, v: Verdict): (r: Option<nat>)
    ensures r.Some? ==> r.value < |rs| && Is(rs[r.value], v)
    ensures r.Some? ==> forall j :: 0 <= j < r.value ==> !Is(rs[j], v)
    ensures r.None? <==> forall j :: 0 <= j < |rs| ==> !Is(rs[j], v)
  {
    if |rs| == 0 then None
    else if Is(rs[0], v) then Some(0)
    else match FirstWith(rs[1..], v)
      case None => None
      case Some(k) => Some(k + 1)
  }

  /**
   * The engine's decision over the rule outcomes: the first BLOCK wins even
   * over an earlier WARN; failing a BLOCK, the first WARN; otherwise ALLOW.
   */
  function Decide(c: Config, rs: seq<Option<GuardResult>>): (r: GuardResult)
    ensures !c.enabled ==> r == GuardResult(Allow, "guardrails_disabled")
    ensures c.enabled && r.verdict == Block ==>
      exists i :: 0 <= i < |rs| && rs[i] == Some(r) && forall j :: 0 <= j < i ==> !Is(rs[j], Block)
    ensures c.enabled && r.verdict == Warn ==>
      (forall j :: 0 <= j < |rs| ==> !Is(rs[j], Block))
      && exists i :: 0 <= i < |rs| && rs[i] == Some(r) && forall j :: 0 <= j < i ==> !Is(rs[j], Warn)
    ensures c.enabled ==> (r.verdict == Block <==> exists i :: 0 <= i < |rs| && Is(rs[i], Block))
    ensures c.enabled && r.verdict == Allow ==> r.ruleName == "all_checks_passed"
    ensures c.enabled ==> (r.verdict == Allow <==> forall j :: 0 <= j < |rs| ==> !Is(rs[j], Block) && !Is(rs[j], Warn))
  {
    if !c.enabled then GuardResult(Allow, "guardrails_disabled")
    else match FirstWith(rs, Block)
      case Some(i) => rs[i].value
      case None =>
        match FirstWith(rs, Warn)
        case Some(i) => rs[i].value
        case None => GuardResult(Allow, "all_checks_passed")
  }

  function Check(c: Config, action: string, p: Params, st: SystemState, cx: IncidentContext): GuardResult
  {
    Decide(c, Rules(c, action, p, st, cx))
  }

  /** The WARN results among the outcomes, in order. */
  function Warnings(rs: seq<Option<GuardResult>>): (w: seq<GuardResult>)
    ensures |w| <= |rs|
  {
    if |rs| == 0 then []
    else Warnings(rs[..|rs| - 1]) + (if Is(rs[|rs| - 1], Warn) then [rs[|rs| - 1].value] else [])
  }

  /** The first collected warning is the outcome of the first warning rule. */
  lemma {:induction false} WarningsHead(rs: seq<Option<GuardResult>>)
    ensures |Warnings(rs)| == 0 <==> FirstWith(rs, Warn).None?
    ensures |Warnings(rs)| > 0 ==> Warnings(rs)[0] == rs[FirstWith(rs, Warn).value].value
  {
    if |rs| > 0 {
      var pre := rs[..|rs| - 1];
      WarningsHead(pre);
      assert forall j :: 0 <= j < |pre| ==> pre[j] == rs[j];
      if FirstWith(pre, Warn).Some? {
        var k := FirstWith(pre, Warn).value;
        var k' := FirstWith(rs, Warn).value;
        assert k' == k;
      }
    }
  }

  /**
   * `check_action` as the source writes it: walk the rules, return at the
   * first BLOCK, collect WARNs, and return the first of them at the end.
   */
  method CheckAction(c: Config, action: string, p: Params, st: SystemState, cx: IncidentContext)
    returns (r: GuardResult)
    ensures r == Check(c, action, p, st, cx)
  {
    if !c.enabled {
      return GuardResult(Allow, "guardrails_disabled");
    }
    r := WalkRules(c, Rules(c, action, p, st, cx));
  }

  /** The loop of `check_action` over the rule outcomes of an enabled engine. */
  method WalkRules(c: Config, rules: seq<Option<GuardResult>>) returns (r: GuardResult)
    requires c.enabled
    ensures r == Decide(c, rules)
  {
    var warnings: seq<GuardResult> := [];
    var i := 0;
    while i < |rules|
      invariant 0 <= i <= |rules|
      invariant forall j :: 0 <= j < i ==> !Is(rules[j], Block)
      invariant warnings == Warnings(rules[..i])
    {
      var res := rules[i];
      if res.Some? && res.value.verdict == Block {
        var k := FirstWith(rules, Block).value;
        assert k == i;
        return res.value;
      }
      assert rules[..i + 1][..i] == rules[..i];
      if res.Some? && res.value.verdict == Warn {
        warnings := warnings + [res.value];
      }
      i := i + 1;
    }
    assert rules[..i] == rules;
    WarningsHead(rules);
    assert FirstWith(rules, Block).None?;
    if |warnings| > 0 {
      return warnings[0];
    }
    return GuardResult(Allow, "all_checks_passed");
  }

  /** With the engine switched off every action is allowed. */
  lemma DisabledAllowsEverything(c: Config, action: string, p: Params, st: SystemState, cx: IncidentContext)
    requires !c.enabled
    ensures Check(c, action, p, st, cx) == GuardResult(Allow, "guardrails_disabled")
  {
  }

  /** The healthy-system rule can only warn. */
  lemma HealthyRuleNeverBlocks(c: Config, st: SystemState)
    ensures !Is(AlreadyHealthy(c, st), Block)
    ensures Is(AlreadyHealthy(c, st), Warn) <==> c.blockActionsIfHealthy && st.healthScore.GetOr(0.0) >= c.healthyThreshold
  {
  }

  /** Too few instances for a restart is always a BLOCK from the first rule. */
  lemma RestartNeedsInstances(c: Config, p: Params, st: SystemState, cx: IncidentContext)
    requires c.enabled
    ensures st.activeInstances.GetOr(2.0) < c.minInstancesForRestart as real
      <==> Check(c, Restart, p, st, cx) == GuardResult(Block, "min_instances_for_restart")
  {
    var rs := Rules(c, Restart, p, st, cx);
    if Check(c, Restart, p, st, cx) == GuardResult(Block, "min_instances_for_restart") {
      var i :| 0 <= i < |rs| && rs[i] == BlockResult("min_instances_for_restart");
      assert i == 0;
    }
  }

  /** Likewise for a rollback, which the restart rule never touches. */
  lemma RollbackNeedsInstances(c: Config, p: Params, st: SystemState, cx: IncidentContext)
    requires c.enabled
    ensures st.activeInstances.GetOr(2.0) < c.minInstancesForRollback as real
      <==> Check(c, Rollback, p, st, cx) == GuardResult(Block, "min_instances_for_rollback")
  {
    var rs := Rules(c, Rollback, p, st, cx);
    if Check(c, Rollback, p, st, cx) == GuardResult(Block, "min_instances_for_rollback") {
      var i :| 0 <= i < |rs| && rs[i] == BlockResult("min_instances_for_rollback");
      assert i == 1;
    }
    if st.activeInstances.GetOr(2.0) < c.minInstancesForRollback as real {
      assert !Is(rs[0], Block) && Is(rs[1], Block);
      assert FirstWith(rs, Block) == Some(1);
    }
  }

  /** The instance-count rules only ever concern restarts and rollbacks. */
  lemma InstanceRulesIgnoreOtherActions(c: Config, action: string, st: SystemState)
    requires action != Restart && action != Rollback
    ensures RestartMinInstances(c, action, st).None? && RollbackMinInstances(c, action, st).None?
  {
  }

  /** Once the action budget is spent, every action is blocked. */
  lemma ActionBudgetBlocks(c: Config, action: string, p: Params, st: SystemState, cx: IncidentContext)
    requires c.enabled && |cx.actionsTaken| >= c.maxTotalActionsPerIncident
    ensures Check(c, action, p, st, cx).verdict == Block
  {
    assert Is(Rules(c, action, p, st, cx)[6], Block);
  }

  /** Once the restart allowance is spent, a further restart is blocked. */
  lemma RestartBudgetBlocks(c: Config, p: Params, st: SystemState, cx: IncidentContext)
    requires c.enabled && Count(cx.actionsTaken, Restart) >= c.maxRestartsPerIncident
    ensures Check(c, Restart, p, st, cx).verdict == Block
  {
    assert Is(Rules(c, Restart, p, st, cx)[6], Block);
  }

  lemma RollbackBudgetBlocks(c: Config, p: Params, st: SystemState, cx: IncidentContext)
    requires c.enabled && Count(cx.actionsTaken, Rollback) >= c.maxRollbacksPerIncident
    ensures Check(c, Rollback, p, st, cx).verdict == Block
  {
    assert Is(Rules(c, Rollback, p, st, cx)[6], Block);
  }

  /** Spending the whole budget blocks everything; spending 80% of it at least warns. */
  lemma CostBudgetVerdicts(c: Config, action: string, p: Params, st: SystemState, cx: IncidentContext)
    requires c.enabled
    ensures cx.totalCost.GetOr(0.0) >= c.maxCostPerIncident ==> Check(c, action, p, st, cx).verdict == Block
    ensures cx.totalCost.GetOr(0.0) >= c.maxCostPerIncident * 0.8 ==> Check(c, action, p, st, cx).verdict != Allow
  {
    var rs := Rules(c, action, p, st, cx);
    if cx.totalCost.GetOr(0.0) >= c.maxCostPerIncident {
      assert Is(rs[5], Block);
    } else if cx.totalCost.GetOr(0.0) >= c.maxCostPerIncident * 0.8 {
      assert Is(rs[5], Warn);
    }
  }

  /**
   * A WARN never masks a later BLOCK: a system that is already healthy and
   * has spent 90% of its budget still has its fourth restart blocked.
   */
  lemma WarnDoesNotMaskBlock()
    ensures Check(DefaultConfig, Restart, map[], SystemState(Some(4.0), Some(0.95)),
                  IncidentContext([Restart, Restart, Restart], Some(45.0)))
         == GuardResult(Block, "max_restarts_exceeded")
  {
    var cx := IncidentContext([Restart, Restart, Restart], Some(45.0));
    assert Count(cx.actionsTaken, Restart) == 3;
    var rs := Rules(DefaultConfig, Restart, map[], SystemState(Some(4.0), Some(0.95)), cx);
    assert rs[6] == BlockResult("max_restarts_exceeded");
    assert Is(rs[5], Warn);
  }

  /** Horizontal scaling is blocked exactly outside the configured fleet size, and otherwise at most warned. */
  lemma HorizontalScaleBlocksOutsideBounds(c: Config, p: Params, st: SystemState)
    ensures var target := Get(p, "target_instances", 3.0);
      (Is(HorizontalScaleLimits(c, "scale_horizontal", p, st), Block)
       <==> target > c.maxHorizontalInstances as real || target < c.minHorizontalInstances as real)
    ensures var target := Get(p, "target_instances", 3.0);
      var current := st.activeInstances.GetOr(2.0);
      (Is(HorizontalScaleLimits(c, "scale_horizontal", p, st), Warn)
       <==> c.minHorizontalInstances as real <= target <= c.maxHorizontalInstances as real
            && current > 0.0 && target > current * 3.0)
  {
  }

  /** Vertical scaling is blocked exactly when either resource exceeds its ceiling. */
  lemma VerticalScaleBlocksAboveCeiling(c: Config, p: Params)
    ensures Is(VerticalScaleLimits(c, "scale_vertical", p), Block)
      <==> Get(p, "target_cpu", 2.0) > c.maxVerticalCpu || Get(p, "target_memory", 4.0) > c.maxVerticalMemory
    ensures !Is(VerticalScaleLimits(c, "scale_vertical", p), Warn)
  {
  }

  /** A timeout change is blocked exactly outside the inclusive range [min, max]. */
  lemma TimeoutBlocksOutsideRange(c: Config, p: Params)
    ensures var t := Get(p, "new_timeout", 5000.0);
      Is(TimeoutBounds(c, "change_timeout", p), Block) <==> t < c.minTimeoutMs as real || t > c.maxTimeoutMs as real
  {
  }
}
