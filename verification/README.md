# Evoo control loop in Dafny

Evoo is a self-improving incident-remediation agent. It detects an incident in a
(simulated) production system, plans a remediation strategy, executes the
strategy's actions through a guardrail engine, scores the outcome with a reward
function, and stores the experience so that later strategy selection can learn
from it. This project models that control loop and the pure decision logic it
calls, and proves properties of the model.

The model is functional. Each record of the system is an immutable datatype and
each operation is a pure function. Each state workflow is a next-state function
from the machine's record to a transition. Everything the loop asks of the
outside world is a parameter:

- the LLM's replies (an `Option`, `None` when the call raised);
- random draws and the UCB1 exploration bonus;
- the results of the simulator activities;
- identifiers and timestamps.

Python dictionaries of metrics are `map<string, real>`, read with their
defaults; floats are `real`.

Modules, following the source layout:

| module | source |
|---|---|
| `Enums`, `IncidentModel`, `Health` | `project/models/enums.py`, `project/models/incident.py`, `project/models/incidents.py` |
| `Guardrails` | `project/guardrails/safety_rules.py` |
| `ExecutionWorkflow` | `project/workflows/execution/execution_workflow.py` |
| `StrategyManager`, `Catalog` | `project/strategy/` |
| `StrategyStats`, `ExperienceModel` | `project/models/strategies.py`, `project/models/experience.py` |
| `ExperienceStore` | `project/memory/experience_store.py` |
| `EvaluationTools`, `RewardActivities` | the two reward formulas and the judge fallbacks |
| `StrategyActivities`, `MemoryActivities` | the dictionary-based strategy records and the memory activities |
| `PlanningTools`, `AnalysisTools`, `RemediationActivities`, `LlmHelpers`, `SreAgentLoop` | the LLM-facing tools, reduced to their deterministic parts, and the executor's OBSERVE -> THINK -> ACT loop |
| `EvooMachine`, `IdleWorkflow`, `DetectionWorkflow`, `PlanningWorkflow`, `EvaluationWorkflow`, `LearningWorkflow`, `TerminalStates`, `Commands` | the `EvooState` machine, its workflows and the agent task's message interpreter |
| `AgentMachine` | the `EVOOState` per-run agent machine and its five workflows |
| `Wrappers`, `Values`, `Text`, `Sorting` | shared helpers: `Option`, sums and means, JSON-like values, Python's string operations on ASCII text, and a stable descending sort |

## Model

| member | source | states |
|---|---|---|
| Guardrails.Decide | project/guardrails/safety_rules.py:169-200 | disabled engine gives ALLOW "guardrails_disabled"; otherwise the verdict is BLOCK exactly when some rule blocks, and it is then the first blocking rule's result even when an earlier rule warned; failing that, the first WARN; ALLOW "all_checks_passed" exactly when no rule blocks or warns |
| Guardrails.Rules | project/guardrails/safety_rules.py:136-147 | the engine evaluates exactly eight rule outcomes, in the `_build_rules` order |
| Guardrails.WarningsHead | project/guardrails/safety_rules.py:176-200 | the list of collected warnings is empty exactly when no rule warns, and its head is the outcome of the first warning rule |
| Guardrails.CheckAction | project/guardrails/safety_rules.py:149-202 | the loop that returns at the first BLOCK and otherwise returns the first collected WARN computes the same result as the reference decision over the eight outcomes |
| Guardrails.WalkRules | project/guardrails/safety_rules.py:176-200 | over the outcomes of an enabled engine, stopping at the first BLOCK and otherwise answering with the first collected WARN (or ALLOW with `all_checks_passed`) gives exactly the reference decision |
| Guardrails.DisabledAllowsEverything | project/guardrails/safety_rules.py:169-174 | with `enabled` false every action, state and context yields ALLOW / "guardrails_disabled" |
| Guardrails.HealthyRuleNeverBlocks | project/guardrails/safety_rules.py:484-508 | the healthy-system rule never blocks, and warns exactly when `block_actions_if_healthy` holds and health_score (default 0.0) reaches `healthy_threshold` |
| Guardrails.RestartNeedsInstances | project/guardrails/safety_rules.py:204-232 | a restart is blocked by "min_instances_for_restart" exactly when active_instances (default 2) is below the configured minimum |
| Guardrails.RollbackNeedsInstances | project/guardrails/safety_rules.py:234-259 | a rollback is blocked by "min_instances_for_rollback" exactly when active_instances (default 2) is below its minimum |
| Guardrails.InstanceRulesIgnoreOtherActions | project/guardrails/safety_rules.py:204-259 | the two instance-count rules produce no outcome for any action other than restart and rollback |
| Guardrails.ActionBudgetBlocks | project/guardrails/safety_rules.py:425-482 | once the actions already taken reach `max_total_actions_per_incident`, every action is blocked |
| Guardrails.RestartBudgetBlocks | project/guardrails/safety_rules.py:425-482 | once the restarts already taken reach `max_restarts_per_incident`, a further restart is blocked |
| Guardrails.RollbackBudgetBlocks | project/guardrails/safety_rules.py:425-482 | once the rollbacks already taken reach `max_rollbacks_per_incident`, a further rollback is blocked |
| Guardrails.CostBudgetVerdicts | project/guardrails/safety_rules.py:388-423 | cost already spent at or above the budget blocks any action, and at or above 80% of it the action is never plainly allowed; the action's own cost plays no part |
| Guardrails.WarnDoesNotMaskBlock | project/guardrails/safety_rules.py:176-200 | a healthy system that has spent 90% of its budget, and so triggers two warning rules first, still has its fourth restart blocked by "max_restarts_exceeded" |
| Guardrails.HorizontalScaleBlocksOutsideBounds | project/guardrails/safety_rules.py:261-309 | horizontal scaling blocks exactly when the target (default 3) is outside [min, max] instances, and warns exactly when it is inside but more than three times a positive current count |
| Guardrails.VerticalScaleBlocksAboveCeiling | project/guardrails/safety_rules.py:311-347 | vertical scaling blocks exactly when target cpu (default 2) or memory (default 4) exceeds its ceiling, and never warns |
| Guardrails.TimeoutBlocksOutsideRange | project/guardrails/safety_rules.py:349-386 | a timeout change blocks exactly when new_timeout (default 5000) lies outside the inclusive range [min_timeout_ms, max_timeout_ms] |
| Health.HealthScore | project/models/incidents.py:29-44 | for plausible metrics (percentages in [0,100], rates and availability in [0,1], latency non-negative) the score lies in [0, 1] |
| Health.PerfectScoresOne | project/models/incidents.py:29-44 | the five weights sum to one, so a perfect snapshot scores exactly 1 |
| Health.HealthScoreMonotone | project/models/incidents.py:29-44 | lower latency, cpu, memory and error rate with higher availability never lower the score |
| Health.DefaultHealth | project/models/incidents.py:11-44 | the default snapshot scores 0.8898, above the 0.7 health line |
| IncidentModel.SeverityScore | project/models/incident.py:159-184 | for metrics within the field bounds the severity lies in [0, 1] |
| IncidentModel.HealthyHasLowSeverity | project/models/incident.py:149-184 | a snapshot that `is_healthy` accepts has severity below 0.03 |
| IncidentModel.SeverityZeroIff | project/models/incident.py:159-184 | severity is zero exactly when availability is 1, the error rate and latency are 0, cpu is at most 80 and memory at most 85 |
| IncidentModel.ImprovementFrom | project/models/incident.py:186-194 | each reported delta is the amount by which the metric moved in the good direction, so `before` is recovered from `after` and the deltas |
| IncidentModel.ImprovementFromSelf | project/models/incident.py:186-194 | comparing a snapshot with itself reports no change in any dimension |
| IncidentModel.ImprovementAntisymmetric | project/models/incident.py:186-194 | swapping the two snapshots negates every delta |
| IncidentModel.NoWorseKeepsHealth | project/models/incident.py:149-194 | a change that worsens no dimension keeps a healthy service healthy and never raises the severity |
| IncidentModel.StrategyPartition | project/models/incident.py:56-97 | the ten strategies are listed once each, and the seven single-action and three combined lists partition them |
| IncidentModel.EstimatedCost | project/models/incident.py:99-115 | every strategy costs more than 0 and at most 3.5, and a combined strategy costs at least 1.2 |
| IncidentModel.PriorityWeight | project/models/incident.py:44-53 | weights lie in (0, 1], and only a critical incident has weight 1 |
| IncidentModel.PriorityWeightStrictlyIncreasing | project/models/incident.py:37-53 | one severity ranks below another exactly when its weight is smaller |
| IncidentModel.SuggestedStrategies | project/models/incident.py:246-281 | every incident type gets three pairwise different suggestions |
| Enums.ParseIncidentType | project/models/enums.py:19-28 | parsing returns the member whose value is the text, and fails exactly when no member has that value |
| Enums.IncidentTypeNameInjective | project/models/enums.py:19-28 | no two incident types share a value |
| Enums.ParseIncidentTypeRoundTrip | project/models/enums.py:19-28 | parsing the value of an incident type gives that type back |
| Enums.ParseActionType | project/models/enums.py:39-48 | parsing returns the action type whose value is the text, and fails exactly when there is none |
| ExecutionWorkflow.ActivityFor | project/workflows/execution/execution_workflow.py:42-50 | an action type has an activity exactly when it is one of the seven remediation action types, and that activity bears the type's own name |
| ExecutionWorkflow.ActionsToRun | project/workflows/execution/execution_workflow.py:107-112 | there is always at least one action to run, and a plan with actions runs exactly its own actions |
| ExecutionWorkflow.SystemStateOf | project/workflows/execution/execution_workflow.py:178-182 | the guardrails see active_instances from the probe's metrics (default 2) and its health_score (default 0) |
| ExecutionWorkflow.ProbeAfter | project/workflows/execution/execution_workflow.py:300-307 | after a dispatch with metrics, the next check sees those metrics and their availability (default 0.5) as the health score |
| ExecutionWorkflow.Context | project/workflows/execution/execution_workflow.py:183-186 | the guardrails see every entry appended so far, blocked ones included, and the cost spent in this execution |
| ExecutionWorkflow.Step | project/workflows/execution/execution_workflow.py:148-321 | an unknown action type changes nothing; a blocked action appends one blocked entry and dispatches nothing; otherwise a raising activity stops the loop unchanged, and an answering one appends its tool, result and entry, adds its cost and recovery time, and moves the probe to its metrics when it reports any |
| ExecutionWorkflow.StepBalanced | project/workflows/execution/execution_workflow.py:148-321 | one loop pass keeps the books balanced: tools called = dispatched entry names, one result per dispatched entry, totals = sums over those results |
| ExecutionWorkflow.RunBalanced | project/workflows/execution/execution_workflow.py:148-321 | the whole loop keeps the books balanced, whether it finishes or stops at a raising activity |
| ExecutionWorkflow.DispatchedCountAtMostAll | project/workflows/execution/execution_workflow.py:244-253 | blocked entries only add to the list the guardrails count, so dispatched counts never exceed recorded counts |
| ExecutionWorkflow.StepShape | project/workflows/execution/execution_workflow.py:148-321 | a pass appends at most one entry, and an entry not marked blocked was passed by the guardrails and names the action's type |
| ExecutionWorkflow.KindBudgetBlocks | project/workflows/execution/execution_workflow.py:183-193 | once the recorded restarts (or rollbacks) reach their allowance, the guardrails block the next one |
| ExecutionWorkflow.StepKeepsKindBound | project/workflows/execution/execution_workflow.py:183-281 | one pass never takes the dispatched restarts (or rollbacks) above a bound that is at least their allowance |
| ExecutionWorkflow.StepKeepsTotalBound | project/workflows/execution/execution_workflow.py:183-281 | one pass never takes the number of dispatched actions above a bound that is at least the action allowance |
| ExecutionWorkflow.RunKeepsBounds | project/workflows/execution/execution_workflow.py:148-321 | the whole loop keeps dispatched restarts, rollbacks and actions within bounds at least the configured allowances |
| ExecutionWorkflow.ExecutionFailed | project/workflows/execution/execution_workflow.py:402 | the text recorded on a raise is "Execution failed: " followed by the whole text of the error |
| ExecutionWorkflow.Recover | project/workflows/execution/execution_workflow.py:398-415 | on a raise the appended entries and tools are kept and the totals are not replaced; the error message becomes "Execution failed: " followed by the error's text; a metrics query that answers leads to EVALUATING_OUTCOME with service_restored false, and one that fails leads to FAILED |
| ExecutionWorkflow.Record | project/workflows/execution/execution_workflow.py:309-321 | entries and tools are appended to the record; results and totals replace the old ones only when the loop completed; loop-level fields are untouched |
| ExecutionWorkflow.AfterRun | project/workflows/execution/execution_workflow.py:323-343 | a completed loop whose final probe answers goes to EVALUATING_OUTCOME with service_restored = the probe's is_healthy and metrics_after = its metrics; any raise goes to the recovery branch; the error message is "Execution failed: " and the error's text exactly when a raise occurred, and is left alone otherwise |
| ExecutionWorkflow.Execute | project/workflows/execution/execution_workflow.py:89-415 | no record → FAILED; otherwise the next state is FAILED or EVALUATING_OUTCOME; a normal completion reports the final probe's health as service_restored; after a raise the state is FAILED exactly when the recovery query also fails, the service is never reported restored, and the error message is "Execution failed: " followed by the error's text; without a raise the error message is left alone |
| ExecutionWorkflow.ExecuteShape | project/workflows/execution/execution_workflow.py:141-321 | a failed pre-execution probe appends nothing; otherwise the record gains exactly the loop's entries and tools, and on completion its results and totals; loop-level fields never change |
| ExecutionWorkflow.ExecutionAccounts | project/workflows/execution/execution_workflow.py:296-321 | after a completed execution the earlier entries are kept as a prefix, the tools called this time are exactly the dispatched entries' names in order, there is one result per dispatched entry, and total_cost / total_recovery_time are the sums over those results |
| ExecutionWorkflow.ExecutionRespectsBudgets | project/workflows/execution/execution_workflow.py:183-321 | with the engine on and a cleared record, one execution dispatches at most max_restarts restarts, max_rollbacks rollbacks and max_total_actions actions |
| ExecutionWorkflow.BlockedActionNotDispatched | project/workflows/execution/execution_workflow.py:210-253 | the outcome of a blocked pass does not depend on the tool's answer at all, and no tool is called |
| ExecutionWorkflow.UnknownActionsSkipped | project/workflows/execution/execution_workflow.py:153-156 | a run over actions of unknown types only leaves the loop state exactly as it was |
| ExecutionWorkflow.EmptyPlanRestartsOnce | project/workflows/execution/execution_workflow.py:107-112 | a plan without actions leaves exactly one entry, a restart_service |
| StrategyManager.KeyAboveTotal | project/strategy/strategy_manager.py:127-131 | the (score, −recovery time) ranking order is total and asymmetric, so the sort has a well-defined winner |
| StrategyManager.FirstBest | project/strategy/strategy_manager.py:127-131 | the winner of the descending stable sort has a maximal key, and every earlier candidate's key is strictly below it |
| StrategyManager.ScoreOf | project/strategy/strategy_manager.py:107-125 | a strategy scores +∞ exactly when it has no record or a record with no uses |
| StrategyManager.RankKeys | project/strategy/strategy_manager.py:127-131 | each candidate is ranked by its score and then by its negated estimated recovery time |
| StrategyManager.FirstLeastUsed | project/strategy/strategy_manager.py:95-105 | `min(candidates, key=uses)` picks a candidate with the fewest uses, the first among ties |
| StrategyManager.ExploreCandidates | project/strategy/strategy_manager.py:95-102 | the exploration pool is non-empty, drawn from the strategies, and avoids the last pick whenever any other strategy exists |
| StrategyManager.Pick | project/strategy/strategy_manager.py:95-131 | whatever the mode, the pick is one of the applicable strategies |
| StrategyManager.Decay | project/strategy/strategy_manager.py:134-138 | a decayed epsilon is the scaled value or the floor, and never below the floor |
| StrategyManager.SelectFrom | project/strategy/strategy_manager.py:57-140 | no strategies raises; one is returned as is with no bookkeeping; with two or more the pick is among them, `_last_selected[type]` becomes its name and epsilon decays once; failure counters are untouched |
| StrategyManager.SelectAlwaysApplicable | project/strategy/strategy_manager.py:76-131 | every incident type has catalog strategies, so selection never raises and returns a strategy aimed at the type |
| StrategyManager.UntriedStrategiesComeFirst | project/strategy/strategy_manager.py:107-131 | in UCB mode, whenever some candidate is untried, the pick is an untried one |
| StrategyManager.TiesPreferFasterRecovery | project/strategy/strategy_manager.py:127-131 | a candidate scoring the same as the winner never has a shorter estimated recovery time than the winner |
| StrategyManager.TriedScore | project/strategy/strategy_manager.py:50-125 | with a non-negative bonus a tried strategy scores at least its average reward less 5 per consecutive failure and 20 if it was the last pick |
| StrategyManager.ForceExploreLeastUsed | project/strategy/strategy_manager.py:95-105 | forced exploration avoids the last pick when it can and then picks a least-used strategy among the others |
| StrategyManager.MarkSuccess | project/strategy/strategy_manager.py:184-196 | success resets the pair's failure streak to 0 and, for a reward above 50, lowers epsilon to max(min, 0.98·epsilon); otherwise epsilon stays |
| StrategyManager.MarkFailure | project/strategy/strategy_manager.py:198-209 | failure adds one to the pair's streak and sets epsilon to min(0.5, 1.1·epsilon) |
| StrategyManager.SuccessClearsPenalty | project/strategy/strategy_manager.py:184-196 | after a success the pair's failure count reads 0 |
| StrategyManager.FailuresAccumulate | project/strategy/strategy_manager.py:198-209 | k failures in a row from no streak leave a streak of exactly k |
| StrategyManager.EpsilonNeverBelowFloor | project/strategy/strategy_manager.py:134-209 | starting with 0 ≤ min_epsilon ≤ 0.5 and epsilon at or above it, no sequence of selections, successes and failures takes epsilon below min_epsilon |
| StrategyManager.FailureRaisesEpsilon | project/strategy/strategy_manager.py:198-209 | epsilon is not monotone: a failure on the default manager raises it |
| StrategyManager.UntriedAmong | project/strategy/strategy_manager.py:162-180 | a strategy is reported untried exactly when no best-known record carries its name |
| StrategyManager.RecommendationFor | project/strategy/strategy_manager.py:142-182 | the available list is the catalog's names for the type; historical data is reported exactly when some record is best-known; best-known records are used records of that type; untried = the available strategies no best-known record names; the current epsilon is reported |
| Catalog.BuildStrategy | project/strategy/strategy_catalog.py:9-33 | the strategy keeps its name and target types, and its actions are the given steps in list order, the i-th carrying the i-th step's type and parameters and the order number i |
| Catalog.CrashBuilt | project/strategy/strategy_catalog.py:40-72 | each of the three service-crash strategies is what `_build_strategy` makes of its key, target type, step list (action type and parameters), recovery-time estimate and cost estimate |
| Catalog.LatencyBuilt | project/strategy/strategy_catalog.py:74-106 | each of the three high-latency strategies is what `_build_strategy` makes of its key, target type, step list (action type and parameters), recovery-time estimate and cost estimate |
| Catalog.CpuBuilt | project/strategy/strategy_catalog.py:108-139 | each of the three CPU-spike strategies is what `_build_strategy` makes of its key, target type, step list (action type and parameters), recovery-time estimate and cost estimate |
| Catalog.MemoryBuilt | project/strategy/strategy_catalog.py:141-173 | each of the three memory-leak strategies is what `_build_strategy` makes of its key, target type, step list (action type and parameters), recovery-time estimate and cost estimate |
| Catalog.NetworkBuilt | project/strategy/strategy_catalog.py:175-207 | each of the three network-degradation strategies is what `_build_strategy` makes of its key, target type, step list (action type and parameters), recovery-time estimate and cost estimate |
| Catalog.TimeoutBuilt | project/strategy/strategy_catalog.py:209-240 | each of the three timeout-misconfiguration strategies is what `_build_strategy` makes of its key, target type, step list (action type and parameters), recovery-time estimate and cost estimate |
| Catalog.LookupIn | project/strategy/strategy_catalog.py:260-274 | a lookup in any entry list succeeds exactly when the name is one of its keys, and the strategy found is the one stored under that key |
| Catalog.GetByNameFindsName | project/strategy/strategy_catalog.py:260-274 | `get_strategy_by_name` succeeds exactly for catalog keys (otherwise the KeyError), and the strategy it returns carries the name that was asked for |
| Catalog.StrategiesInMembers | project/strategy/strategy_catalog.py:244-257 | the filtered list keeps exactly the stored strategies whose target types include the incident type, and is no longer than the catalog |
| Catalog.StrategiesInConcat | project/strategy/strategy_catalog.py:244-257 | filtering a concatenation of entry lists is the concatenation of the filtered parts, so the result keeps catalog order |
| Catalog.StrategiesInGroup | project/strategy/strategy_catalog.py:244-257 | a block of entries all aimed at one type contributes the whole block to that type and nothing to any other type |
| Catalog.CatalogShape | project/strategy/strategy_catalog.py:38-241 | the catalog has eighteen entries, each stored under its own strategy name, each aimed at exactly one incident type, with no key repeated |
| Catalog.StrategiesForIsGroup | project/strategy/strategy_catalog.py:38-257 | the strategies offered for an incident type are exactly that type's block of the catalog, in catalog order |
| Catalog.ThreePerType | project/strategy/strategy_catalog.py:38-257 | every incident type is offered exactly three strategies, each aimed at that type alone |
| Catalog.NamesNonEmpty | project/strategy/strategy_catalog.py:38-241 | no strategy offered for any incident type has the empty name |
| Catalog.CatalogWithinDefaultGuardrails | project/strategy/strategy_catalog.py:38-241 | every catalog action passes the parameter rules of the default guardrail configuration (no horizontal block against the 10-instance ceiling, vertical limits of 8 CPU and 16 memory, timeouts within 500..60000 ms) and no strategy restarts or rolls back more than once |
| StrategyStats.UpdateWithResult | project/models/strategies.py:62-76 | one more use is recorded: uses +1, the reward added to the total, exactly one of successes/failures +1, name, type and last-use untouched; the counting invariant (successes + failures = uses, averages and rate derived from the totals) is preserved |
| StrategyStats.NewRecordConsistent | project/models/strategies.py:48-60 | a record with the zero defaults already satisfies the counting invariant |
| StrategyStats.Replay | project/models/strategies.py:62-76 | a fresh record updated with n outcomes has n uses |
| StrategyStats.RunningMeanStep | project/models/strategies.py:73-76 | the incremental formula (m·(n) + x)/(n+1) for the recovery time average equals the mean of the n earlier values with the new one appended |
| StrategyStats.ReplayCounts | project/models/strategies.py:62-76 | after replaying outcomes into a fresh record the counting invariant holds, the total reward is the sum of the rewards and the success count is the number of successful outcomes |
| StrategyStats.ReplayRecoveryMean | project/models/strategies.py:73-76 | the incrementally maintained recovery-time average equals the arithmetic mean of all recovery times seen |
| StrategyStats.ReplayIsMean | project/models/strategies.py:62-76 | for a non-empty history, the average reward is the mean reward, the average recovery time the mean recovery time, and the success rate the fraction of successes, which lies in [0, 1] |
| ExperienceModel.Effectiveness | project/models/experience.py:122-145 | the effectiveness score always lies in [0, 1]; it is 0 when availability before was not positive, saturates at 1 once the weighted improvement reaches 0.5 and at 0 once it falls to -0.5 |
| ExperienceModel.EffectivenessOfNoChange | project/models/experience.py:122-145 | a remediation after which the metrics are unchanged scores exactly the midpoint 0.5 |
| ExperienceModel.EffectivenessMonotoneInAvailability | project/models/experience.py:122-145 | raising the availability measured after the remediation never lowers its effectiveness |
| ExperienceModel.Update | project/models/experience.py:211-244 | one more use: uses, reward and recovery-time totals grow by this use, exactly one of the success/failure counts grows, the reward history gains the new reward last and keeps at most 20 entries (the newest ones), `last_used` becomes now and `first_used` is set only the first time |
| ExperienceModel.UpdateKeepsConsistent | project/models/experience.py:174-244 | the update keeps the record's invariant: successes + failures = uses, averages and success rate derived from the totals, success rate in [0, 1], history length at most 20 and at most the use count |
| ExperienceModel.LastNAppend | project/models/experience.py:238-240 | trimming to the last n after each append gives the same list as appending everything and trimming once |
| ExperienceModel.ReplayConsistent | project/models/experience.py:174-244 | every record built from the zero defaults by any sequence of updates satisfies the record invariant |
| ExperienceModel.ReplayHistoryWindow | project/models/experience.py:236-240 | after any sequence of updates the reward history is exactly the most recent (at most 20) rewards, in the order they arrived |
| ExperienceModel.ReplayTimestamps | project/models/experience.py:242-244 | after a non-empty sequence of updates `first_used` is the time of the first update and `last_used` that of the latest |
| ExperienceModel.RewardVariance | project/models/experience.py:246-254 | the variance is never negative and is 0 for fewer than two retained rewards |
| ExperienceModel.ConstantRewardsHaveNoVariance | project/models/experience.py:246-254 | a history whose rewards are all equal has variance 0 |
| ExperienceModel.ConfidenceScore | project/models/experience.py:256-277 | confidence is 0 for an unused record and lies in [0, 1] whenever the success rate does |
| ExperienceModel.ConfidenceInUnitInterval | project/models/experience.py:174-277 | every record the update rule can produce has its confidence in [0, 1] |
| ExperienceModel.FullConfidence | project/models/experience.py:256-277 | twenty or more uses, all successful, with one repeated reward give confidence exactly 1 |
| ExperienceModel.Status | project/models/experience.py:347-359 | the five learning statuses partition the summaries: warming up below five runs, then rapidly improving above a delta of 10, improving in (0, 10], stable in (-5, 0], needs adjustment at or below -5 |
| ExperienceModel.StatusAgreesWithIsImproving | project/models/experience.py:341-359 | past the warm-up, the status names an improvement exactly when `is_improving` holds |
| ExperienceStore.Find | project/memory/experience_store.py:112-119 | a key lookup in the record dictionary finds a position exactly when some record carries that key, and the record found carries it |
| ExperienceStore.StoreExperience | project/memory/experience_store.py:103-143 | the experience is appended; the record under "strategy:incident_type" is created with zero counts if absent and then updated with this outcome and its timestamp, while every other record is left as it was; the incident, success and failure counters and both histories grow by this outcome, and the two averages are the history sums divided by the incident count |
| ExperienceStore.StoreKeepsRecordTotals | project/memory/experience_store.py:109-125 | after a store the records' uses add up to the number of stored experiences and every record is consistent and used at least once |
| ExperienceStore.StorePreservesInvariant | project/memory/experience_store.py:103-143 | storing keeps the store invariant (record totals equal the experience count, counters and histories agree with the stored experiences, averages are their means) |
| ExperienceStore.CountAgreesWithMetrics | project/memory/experience_store.py:127-135 | in any store reachable from a clear, the experience count equals total incidents, successful + failed, both history lengths and the sum of the records' uses |
| ExperienceStore.Clear | project/memory/experience_store.py:267-280 | a cleared store holds no experiences and no records, every metric is zero or empty, and it satisfies the store invariant |
| ExperienceStore.EmptySatisfiesInvariant | project/memory/experience_store.py:20-46 | the initial empty store satisfies the store invariant |
| ExperienceStore.UsedRecordsOf | project/memory/experience_store.py:160-164 | the candidates are exactly the stored records of the given type that have been used |
| ExperienceStore.BestStrategies | project/memory/experience_store.py:148-171 | at most top_k records, each a stored used record of the type, sorted non-increasing by (average reward, success rate); every candidate left out ranks no higher than any returned one, and with top_k at least the candidate count the result is a permutation of the candidates |
| ExperienceStore.RecordsOfType | project/memory/experience_store.py:208-210 | with a type given only that type's records remain; without one, every record |
| ExperienceStore.Rankings | project/memory/experience_store.py:199-223 | one row per record (per record of the type when one is given), sorted by average reward descending, each row built from a stored record and every eligible record represented |
| ExperienceStore.AgentMetricsView | project/memory/experience_store.py:225-261 | the stored metrics are kept; the recent averages are the means of the last five entries when five exist and otherwise the overall averages; the trend is 0 below ten rewards and otherwise mean(second half) − mean(first half), split at len // 2 |
| ExperienceStore.RecentFallsBackToMean | project/memory/experience_store.py:237-242 | with fewer than five stored experiences the recent average reward is the mean of all stored rewards |
| ExperienceStore.TrendPositiveWhenLaterRewardsBetter | project/memory/experience_store.py:251-257 | when every reward of the later half beats every reward of the earlier half the reported trend is positive |
| StrategyActivities.AllStrategyNamesAreEnumValues | project/activities/strategy_activities.py:33 | `ALL_STRATEGIES` lists the values of the ten `RemediationStrategy` members, in declaration order |
| StrategyActivities.ValidStrategyIsEnumValue | project/activities/strategy_activities.py:89-90 | a strategy name passes validation exactly when it is the value of some `RemediationStrategy` member |
| StrategyActivities.Priors | project/activities/strategy_activities.py:35-42 | each known incident type has two prior strategies; any other type string falls back to all ten; every prior is a valid strategy name |
| StrategyActivities.HeuristicTools | project/activities/strategy_activities.py:62-75 | every strategy maps to a non-empty tool list whose entries all end in "_activity"; a name outside the enum gets the two-tool default |
| StrategyActivities.HeuristicParameters | project/activities/strategy_activities.py:78-86 | a name outside the enum gets no default parameters |
| StrategyActivities.ClampKey | project/activities/strategy_activities.py:93-105 | one parameter key: it fails exactly when its int/float conversion raises; a clamped key ends inside its range; a value already in range, or a key outside the five clamped ones, is kept |
| StrategyActivities.ClampParameters | project/activities/strategy_activities.py:93-105 | the whole map fails exactly when some present key cannot be converted; otherwise the keys are kept, every clamped value lands in its range ([1, 10] instances, [0.5, 16] CPU, [0.5, 64] GB, [1000, 300000] ms) and unclamped keys keep their values |
| StrategyActivities.ClampIdempotent | project/activities/strategy_activities.py:93-105 | clamping an already clamped map changes nothing |
| StrategyActivities.HeuristicParametersInRange | project/activities/strategy_activities.py:78-105 | the heuristic default parameters are already inside the clamp ranges, so clamping leaves them as they are |
| StrategyActivities.InstanceClampExample | project/activities/strategy_activities.py:95-96 | a suggestion of 0 instances becomes 1 and one of 20.7 becomes 10 (truncated to 20 by `int`, then capped) |
| StrategyActivities.UpdateStrategyRecord | project/activities/strategy_activities.py:300-333 | the record under "type::strategy" (fresh with zero counts when absent) gains one use, the reward, one success or one failure; its average reward times its uses is its total; only that key of the file changes; a stored use count of -1 is the division-by-zero error |
| StrategyActivities.UpdateKeepsDictConsistent | project/activities/strategy_activities.py:310-327 | updating a consistent record never fails, keeps it consistent and keeps its success rate in [0, 1] |
| StrategyActivities.ReplayReportsIsMean | project/activities/strategy_activities.py:300-333 | from an empty file, reporting n outcomes for one type and strategy leaves a consistent record with n uses, the summed reward as total and the mean reward as average |
| StrategyActivities.UsedNames | project/activities/strategy_activities.py:237-241 | the strategies kept are exactly those with a stored record of positive use for the type |
| StrategyActivities.Known | project/activities/strategy_activities.py:237-241 | `known_strategies` pairs each valid strategy with a used record for the type with that record's average reward, and contains every such strategy |
| StrategyActivities.KnownAverage | project/activities/strategy_activities.py:253 | the lookup with default 0 returns 0 for an unknown strategy and the recorded average for a known one |
| StrategyActivities.ExplorePool | project/activities/strategy_activities.py:253-254 | the exploration pool is never empty and holds only valid strategy names |
| StrategyActivities.ExplorePoolMembers | project/activities/strategy_activities.py:253-254 | when some strategy qualifies, a strategy is in the pool exactly when its known average (0 when untried) is below 1.0 |
| StrategyActivities.Choose | project/activities/strategy_activities.py:250-255 | the random choice returns a member of the pool it draws from |
| StrategyActivities.BestKnown | project/activities/strategy_activities.py:279 | `max` with the average as key picks an entry with the highest average, the first such in order |
| StrategyActivities.ActivityTools | project/activities/strategy_activities.py:203-204 | the tool filter keeps exactly the tools whose names end in "_activity" |
| StrategyActivities.ValidateLlmPick | project/activities/strategy_activities.py:193-216 | a reply is accepted only with a valid strategy, a non-empty tool list of "_activity" names (the heuristic list when the filter leaves none) and parameters inside the clamp ranges; a valid strategy whose parameters convert is always accepted |
| StrategyActivities.SelectStrategyActivity | project/activities/strategy_activities.py:228-296 | the selection is always a valid strategy with "_activity" tools; it explores exactly on force, a draw below the rate or no history; without history it picks a prior, otherwise from the exploration pool; the LLM pick is used exactly in the exploit branch when the reply validates; otherwise the exploit is a best-average known strategy with the heuristic tools and parameters |
| StrategyActivities.NoHistoryExploresPriors | project/activities/strategy_activities.py:246-251 | with an empty strategy file the activity explores a prior of the type with reason "no_history_using_prior", whatever the draw and the LLM |
| StrategyActivities.TypeRowsMembers | project/activities/strategy_activities.py:345-357 | the unranked rows of a type are exactly the rows of the strategies with a used record of that type |
| StrategyActivities.WithRanks | project/activities/strategy_activities.py:359-360 | ranks are numbered 1, 2, … in list order, nothing else changes |
| StrategyActivities.WithRanksMembers | project/activities/strategy_activities.py:358-360 | ranking a permutation of the rows keeps exactly those rows, each with the rank of its position |
| StrategyActivities.RankedRows | project/activities/strategy_activities.py:345-362 | a type's rows are sorted by average reward, best first, ranked 1..n, and are exactly the type's used records |
| StrategyActivities.GetStrategyRankings | project/activities/strategy_activities.py:337-364 | the map has an entry exactly for each inspected type (the given one, or all six) that has a used record, and that entry is the type's ranked rows |
| StrategyActivities.RankingsOnlyUsedRecords | project/activities/strategy_activities.py:345-357 | every ranked row names a valid strategy with a stored record of positive use for that type, and reports that record's uses and average reward |
| MemoryActivities.StoreExperience | project/activities/memory_activities.py:39-53 | the memory file gains exactly this record, stamped with the new id and the time, at its end; the receipt names that id and the new length |
| MemoryActivities.OfType | project/activities/memory_activities.py:63 | the relevant records are exactly those whose incident type is the requested one |
| MemoryActivities.Names | project/activities/memory_activities.py:73-77 | the grouping dictionary has one key per strategy occurring in the records (missing strategy read as "unknown"), none twice |
| MemoryActivities.RewardsOf | project/activities/memory_activities.py:73-77 | a strategy that occurs in the records has a non-empty reward group, so its average never divides by zero |
| MemoryActivities.Averages | project/activities/memory_activities.py:79 | each strategy key is paired with the mean of the rewards recorded under it |
| MemoryActivities.Ranked | project/activities/memory_activities.py:80 | the ranking is a permutation of the (strategy, average) pairs sorted by average, highest first |
| MemoryActivities.RankedHeadIsBest | project/activities/memory_activities.py:73-82 | for any record present, its strategy's mean is at most the mean of the ranking's head, which is its own strategy's true mean |
| MemoryActivities.RetrieveBestStrategy | project/activities/memory_activities.py:57-90 | "no_history" exactly when no record has the type; otherwise the counts of relevant and all records, and the first top_k (default 5) entries of the ranking |
| MemoryActivities.BestStrategyHasHighestMean | project/activities/memory_activities.py:57-90 | when the type has a record, the strategy named best has the highest mean reward among the type's records and the returned ranking is ordered best first |
| MemoryActivities.RetrieveRecent | project/activities/memory_activities.py:94-106 | only stored records, of the type when a non-empty type is given, forming a suffix of the relevant list of length min(limit, count) (default limit 10) |
| MemoryActivities.RecentIsNewest | project/activities/memory_activities.py:105 | a positive limit returns the newest records, oldest first; a limit of 0 returns every record (`xs[-0:]`) |
| MemoryActivities.RecoveryTimes | project/activities/memory_activities.py:118 | the recovery times kept are exactly the present, non-zero values (the truthiness filter) |
| MemoryActivities.TypeRanking | project/activities/memory_activities.py:125-135 | a type's ranking has at most three entries, best average first |
| MemoryActivities.Rankings | project/activities/memory_activities.py:120-135 | the per-type rankings have an entry exactly for the incident types with at least one record, each that type's top three |
| MemoryActivities.SummaryWith | project/activities/memory_activities.py:110-147 | an empty memory gives the default summary; otherwise both totals are the record count, the average reward the mean reward, the trend the last 20 rewards, the delta 0, and the rankings are the per-type rankings |
| MemoryActivities.SummaryExtremes | project/activities/memory_activities.py:140-143 | the best reward is the largest reward; the recovery average and best are the mean and minimum of the kept recovery times, and 0 when none is kept |
| MemoryActivities.SummaryIgnoresStoredRecoveryTimes | project/activities/memory_activities.py:118 | as written, a memory of experiences the evaluator stored (`Experience.model_dump`) that each took 30 s reports an average and best recovery time of 0 |
| MemoryActivities.SummaryReadsStoredRecoveryTimes | project/activities/memory_activities.py:118 | reading `recovery_time_seconds` with `recovery_time` as the fallback, the same memory reports 30 s for both figures |
| MemoryActivities.StoredRecoveryTime | project/activities/memory_activities.py:118 | a record's recovery time is its truthy `recovery_time_seconds`, and its `recovery_time` when it has no `recovery_time_seconds` |
| MemoryActivities.RecoveryTimesAgree | project/activities/memory_activities.py:118 | two ways of reading a record's recovery time that agree on every record keep the same recovery times |
| MemoryActivities.StandaloneMemoriesKeepTheirFigures | run_evoo_standalone.py:182-195 | for memories the standalone runner wrote, which carry only `recovery_time`, the corrected summary equals the summary as written, recovery figures included |
| MemoryActivities.Successes | project/activities/memory_activities.py:157 | the candidates are exactly the successful records of the type |
| MemoryActivities.ApplyPreviousSuccess | project/activities/memory_activities.py:151-172 | "no_successful_history" exactly when the type has no successful record; otherwise the recommendation repeats the strategy, tools and reward of a successful record with the highest reward |
| MemoryActivities.FailuresNeverRecommended | project/activities/memory_activities.py:157-168 | a strategy that never succeeded is never recommended, however high its rewards |
| Sorting.SortDescIsStable | project/activities/memory_activities.py:129-132 | the descending sort is stable, as Python's `sorted` is: the elements that share a key, here strategies of equal average reward, keep their input order |
| EvaluationTools.Gain | project/activities/evaluation_tools.py:65-86 | `max(0, x)`: an improvement is never negative and never below the raw difference, and a worsening counts as none |
| EvaluationTools.CalculateReward | project/activities/evaluation_tools.py:18-111 | the reward is the sum of its terms clamped to [-100, 200]: base 100 only when restored, −0.5 per second of recovery, −0.2 per unit of cost, −50 per unit of remaining error rate, and non-negative latency, availability, CPU and memory bonuses; the inputs are echoed |
| EvaluationTools.RewardNonIncreasing | project/activities/evaluation_tools.py:47-91 | a slower recovery, a higher cost or a higher remaining error rate never raises the reward |
| EvaluationTools.WorseLatencyCostsNothing | project/activities/evaluation_tools.py:62-67 | a latency that got worse scores exactly as an unchanged one: no bonus and no penalty |
| EvaluationTools.RestorationNeverHurts | project/activities/evaluation_tools.py:46-47 | restoring the service raises the reward by at most 100 and never lowers it, the clamp included |
| EvaluationTools.WorkedExample | project/activities/evaluation_tools.py:18-111 | the documented example (restored, 28.5 s, no cost) scores 176.75 |
| EvaluationTools.JudgeAdjustment | project/activities/evaluation_tools.py:208-244 | the adjusted reward is always the numerical reward plus the adjustment; no reply gives "unable_to_evaluate" and no change; unparseable text gives "unknown" with adjustment 0; a numeric adjustment is used as given; a non-numeric one lands in the failure fallback |
| EvaluationTools.AdjustmentUnclamped | project/activities/evaluation_tools.py:224-226 | a parsed adjustment moves the reward by exactly its value, with no bound |
| RewardActivities.CalculateRewardActivity | project/activities/reward_activities.py:23-92 | the reward is the sum of the breakdown: +100 restored or −50 not restored, −0.5 per second (default 120 s), −0.2 per unit of cost (default 1.0), latency bonus in [0, 10], non-negative availability and CPU bonuses, and a −10 scaling penalty exactly for a scaling strategy on a timeout or memory-leak incident |
| RewardActivities.MissingAvailabilityIsHalf | project/activities/reward_activities.py:64-69 | with availability missing on both sides (each read as 0.5) there is no availability bonus |
| RewardActivities.ActivityDefaults | project/activities/reward_activities.py:27-29 | leaving out recovery time, restoration and cost is the same as passing 120 s, not restored and 1.0 |
| RewardActivities.ActivityRewardNonIncreasingInRecovery | project/activities/reward_activities.py:43-44 | a slower recovery never raises the activity's reward |
| RewardActivities.ActivityWorkedExample | project/activities/reward_activities.py:23-92 | the documented example scored by the activity for a cache-and-rebalance fix of high latency gives 102.75 |
| RewardActivities.ScalingPenaltyExample | project/activities/reward_activities.py:71-74 | the same outcome for a horizontal scale-out of a memory leak loses the ten-point penalty: 92.75 |
| RewardActivities.ActivityNotClamped | project/activities/reward_activities.py:76-82 | unlike `calculate_reward`, the activity does not clamp: a large CPU drop pushes the reward past 200 |
| RewardActivities.FallbackVerdict | project/activities/reward_activities.py:151-164 | the heuristic verdict partitions the readings (availability read as 0 and error rate as 1 when missing): excellent at ≥ 0.99 with ≤ 0.01 errors, good at ≥ 0.95 otherwise, adequate in [0.80, 0.95), poor in [0.50, 0.80), failed below 0.50 |
| RewardActivities.FallbackScoreMonotone | project/activities/reward_activities.py:151-164 | higher availability with no higher error rate never earns a lower heuristic score |
| RewardActivities.JudgeOrFallback | project/activities/reward_activities.py:96-175 | a judge reply is reported as "success" with its own score, verdict and model; any failure gives status "fallback", model "fallback_heuristic" and the heuristic verdict with a score between 1 and 9 |
| EvaluationWorkflow.BreakdownMap | project/workflows/evaluation/evaluation_workflow.py:122-123 | the stored breakdown has exactly the eight keys of `calculate_reward`'s breakdown object |
| EvaluationWorkflow.BreakdownRoundTrip | project/workflows/evaluation/evaluation_workflow.py:122-123 | reading the stored breakdown back gives every term that was computed: nothing is lost in the dictionary |
| EvaluationWorkflow.WithReward | project/workflows/evaluation/evaluation_workflow.py:97-123 | storing the reward changes only the reward and its breakdown; the judge's fields and the error message are untouched |
| EvaluationWorkflow.WithJudgement | project/workflows/evaluation/evaluation_workflow.py:144-176 | storing the judgement changes only evaluation fields |
| EvaluationWorkflow.AfterFailure | project/workflows/evaluation/evaluation_workflow.py:221-227 | the failure branch changes only evaluation fields and the error message, and keeps whatever breakdown was stored before the raise |
| EvaluationWorkflow.Evaluate | project/workflows/evaluation/evaluation_workflow.py:56-227 | no record goes to FAILED; any record goes on to LEARNING with only evaluation fields and the error message changed; when something raises, both rewards are 0, the assessment is "evaluation_failed" and the message starts "Evaluation failed: " |
| EvaluationWorkflow.EvaluationStoresReward | project/workflows/evaluation/evaluation_workflow.py:97-176 | without a raise, the stored reward is what `calculate_reward` computes from the record's own measurements, within [-100, 200], with its full breakdown, the adjusted reward adds the judge's adjustment, and the error message is kept |
| EvaluationWorkflow.UnjudgedRewardStands | project/workflows/evaluation/evaluation_workflow.py:144-176 | when no verdict is obtained but nothing raises, the adjusted reward equals the numerical one and the assessment is "unable_to_evaluate" |
| EvaluationWorkflow.LateFailureKeepsBreakdown | project/workflows/evaluation/evaluation_workflow.py:122-227 | a raise after the reward was stored zeroes the reward but keeps the computed breakdown, so the stored terms no longer add up to the stored reward |
| EvaluationWorkflow.EarlyFailureKeepsOldBreakdown | project/workflows/evaluation/evaluation_workflow.py:97-227 | a raise while computing the reward keeps the breakdown the record already had and zeroes the reward |
| LearningWorkflow.OrDefault | project/workflows/learning/learning_workflow.py:71-74 | `s or default`: a present non-empty string is kept; `None` and the empty string give the default |
| LearningWorkflow.IncidentTypeOf | project/workflows/learning/learning_workflow.py:63-66 | a record whose type string names an incident type keeps that type; anything else falls back to `service_crash` |
| LearningWorkflow.LearnedReward | project/workflows/learning/learning_workflow.py:79 | the learned reward is the adjusted reward, or the numerical one exactly when the adjusted reward is 0 |
| LearningWorkflow.WholeNumber | project/workflows/learning/learning_workflow.py:73-77 | an integer field accepts a float only when it holds a whole number, and then its value |
| LearningWorkflow.MetricsFrom | project/workflows/learning/learning_workflow.py:73-77 | a metrics dictionary validates exactly when its values (with the `SystemMetrics` defaults for absent keys) lie within the field bounds and the integer fields hold whole numbers; the validated record carries those values |
| LearningWorkflow.StrategyValue | project/models/experience.py:42-45 | a name is accepted by the declared `strategy_used` field exactly when it is the value of some `RemediationStrategy` member |
| LearningWorkflow.ExperienceOf | project/workflows/learning/learning_workflow.py:68-83 | the experience carries the stored strategy name, the incident type, the learned reward, the restoration outcome, the recovery time and the tools called |
| LearningWorkflow.BuildExperience | project/workflows/learning/learning_workflow.py:68-83 | the `Experience` is built exactly when both metric dictionaries validate, the recovery time is not negative and (validating strictly) the strategy is an enumeration value; a built experience satisfies the record's field constraints |
| LearningWorkflow.Remember | project/workflows/learning/learning_workflow.py:89-116 | with a store, the experience is stored, the manager (when present) is told of a success or a failure, and the record gains the stored flags, the store's metrics view and rankings, with nothing else changed; the next state is IDLE |
| LearningWorkflow.Failing | project/workflows/learning/learning_workflow.py:232-236 | the failure branch records "Learning failed: " and the error, and leaves every other learning field as it was |
| LearningWorkflow.MessageError | project/workflows/learning/learning_workflow.py:126-222 | the summary message is only sent with a task, and with a zero incident budget its progress division raises |
| LearningWorkflow.Report | project/workflows/learning/learning_workflow.py:125-236 | sending the summary never changes the store, the manager or the learning fields; a raise only records the error, after the store and manager have changed |
| LearningWorkflow.LearnWith | project/workflows/learning/learning_workflow.py:56-236 | no record goes to FAILED; any record goes back to IDLE with only learning fields and the error message changed, and a store or manager present before is present after |
| LearningWorkflow.LearnAsWritten | project/workflows/learning/learning_workflow.py:56-236 | as written (strategy validated against the enumeration), any record goes back to IDLE with only learning fields and the error message changed |
| LearningWorkflow.Learn | project/workflows/learning/learning_workflow.py:56-236 | with the strategy stored under the planner's name: no record goes to FAILED; any record goes back to IDLE with only learning fields and the error message changed; store and manager stay present exactly when they were |
| LearningWorkflow.LearningStoresOneExperience | project/workflows/learning/learning_workflow.py:68-116 | a record whose metrics validate is stored exactly once, after the old experiences, with the strategy's name, the learned reward and the outcome; the record shows it stored and carries the store's new metrics, and the incident count is unchanged |
| LearningWorkflow.LearningMarksOutcome | project/workflows/learning/learning_workflow.py:94-108 | the manager hears of every stored outcome exactly once: a success with the learned reward when the service was restored, a failure otherwise |
| LearningWorkflow.NoStoreLearnsNothing | project/workflows/learning/learning_workflow.py:89-123 | without a store nothing is learned: the manager is untouched and the record keeps its stored flag and rankings |
| LearningWorkflow.LearningKeepsStoreInvariant | project/workflows/learning/learning_workflow.py:89-91 | learning keeps the experience store's bookkeeping invariant |
| LearningWorkflow.LearnsFromEvaluatedReward | project/workflows/learning/learning_workflow.py:79 | after an evaluation that did not raise, the learned reward is the judge-adjusted reward, or the `calculate_reward` reward when the adjusted one came out exactly 0 |
| LearningWorkflow.ZeroBudgetReportsFailure | project/workflows/learning/learning_workflow.py:190-191 | with a task and a zero incident budget the experience is still stored, but the record reports "Learning failed: " with the division error |
| LearningWorkflow.CatalogNamesAreNotStrategyValues | project/workflows/learning/learning_workflow.py:74 | no catalog strategy name, nor the "unknown" placeholder, is a value of the `RemediationStrategy` enumeration |
| LearningWorkflow.CatalogStrategiesNeverLearned | project/workflows/learning/learning_workflow.py:68-83 | as written, a record whose strategy was planned from the catalog never yields an experience: the store and manager are unchanged and only a validation error is recorded |
| LearningWorkflow.LearnAgreesOnStrategyValues | project/workflows/learning/learning_workflow.py:56-236 | where the strategy name is an enumeration value the corrected and the as-written learning agree |
| IdleWorkflow.PhaseOf | project/workflows/idle/idle_workflow.py:124-140 | the banner names the exploration phase exactly for the first three cycles and the optimization phase exactly after them when the exploration rate is at most 0.15; otherwise the learning phase |
| IdleWorkflow.HighFloorNeverOptimizes | project/workflows/idle/idle_workflow.py:129-140 | a manager whose epsilon floor lies above 0.15 never lets the banner announce the optimization phase, whatever selections, successes and failures it sees |
| IdleWorkflow.FinalVerdict | project/workflows/idle/idle_workflow.py:238-250 | fewer than four rewards give "not enough data"; otherwise, splitting at len // 2, clear improvement exactly when the later mean beats the earlier by more than 10, and "needs tuning" exactly when it does not beat it at all |
| IdleWorkflow.VerdictAgreesWithTrend | project/workflows/idle/idle_workflow.py:238-250 | with ten rewards or more the verdict and the store's improvement trend split the history at the same place: the report claims improvement exactly when the trend is positive, and clear improvement exactly when it exceeds 10 |
| IdleWorkflow.Totals | project/workflows/idle/idle_workflow.py:169-175 | the report reads the incident and success totals from the record's metrics, and zeros from the empty dictionary |
| IdleWorkflow.FinalReportAsWritten | project/workflows/idle/idle_workflow.py:167-258 | as written, the report raises the division error exactly when the incident total is 0, and otherwise its success rate times the total is the success count |
| IdleWorkflow.FinalReportOf | project/workflows/idle/idle_workflow.py:167-258 | with the division guarded, the report agrees with the written one whenever that one does not raise, reads 0 for no incidents, keeps the rate in [0, 1] when the counts are sane, and carries the verdict of the reward history |
| IdleWorkflow.StartCycle | project/workflows/idle/idle_workflow.py:71-122 | the new cycle's record is cleared of the previous incident, keeps every field that outlives a cycle, and in manual mode has its wait flag cleared by the input it waited for |
| IdleWorkflow.Idle | project/workflows/idle/idle_workflow.py:55-122 | no record goes to FAILED; a record at or past its budget goes to COMPLETED unchanged; a record below it goes to DETECTING_INCIDENT with the cycle cleared, and in manual mode no longer waiting |
| IdleWorkflow.IdleKeepsLoopFields | project/workflows/idle/idle_workflow.py:55-122 | IDLE never touches the incident counter or the budget, and apart from the wait flag keeps every field that outlives a cycle |
| IdleWorkflow.StartCycleSettles | project/state_machines/evoo.py:74-101 | the new cycle's record is a fixed point of the reset: clearing it again changes nothing |
| IdleWorkflow.IdleAgreesWithHistory | project/workflows/idle/idle_workflow.py:59-69 | whenever the report has an incident to divide by, or no task asks for it, the written and the guarded IDLE agree |
| IdleWorkflow.EmptyHistoryFailsAtCompletion | project/workflows/idle/idle_workflow.py:257-258 | a task that reaches its budget with no recorded experience ends in FAILED with the division error as written, and in COMPLETED with the guard |
| IdleWorkflow.ZeroBudgetExample | project/workflows/idle/idle_workflow.py:257-258 | a fresh task whose budget was set to 0 fails as written and completes with the guard |
| DetectionWorkflow.Answered | project/workflows/detection/detecting_incident_workflow.py:116-256 | the number of activities that answered before the first raise is at most five, and five exactly when all five answered |
| DetectionWorkflow.Calls | project/workflows/detection/detecting_incident_workflow.py:116-256 | the activities called are a non-empty prefix of the fixed order (generate, state, metrics, logs, predict): those that answered and the one that raised |
| DetectionWorkflow.StoreIncident | project/workflows/detection/detecting_incident_workflow.py:263-278 | a reported incident stores its id, type, severity and description (defaults "unknown", "unknown", "medium", "") and the state's metrics, and fails exactly when the incident key is missing; otherwise the type is the top prediction's (failing when it has no type) or "service_crash" with no prediction, the severity "medium" and the metrics the query's; only incident fields change |
| DetectionWorkflow.Detect | project/workflows/detection/detecting_incident_workflow.py:76-316 | no record goes to FAILED with no calls; otherwise the counter grows by one, the calls are those of the oracle, the next state is FAILED or PLANNING_REMEDIATION, and a failure records "Incident detection failed: " and the error |
| DetectionWorkflow.DetectionFailed | project/workflows/detection/detecting_incident_workflow.py:315 | the text recorded on failure is "Incident detection failed: " followed by the whole text of the error raised |
| DetectionWorkflow.DetectionAlwaysCounts | project/workflows/detection/detecting_incident_workflow.py:94 | every detection with a record counts a cycle, whatever it ends in, and calls a prefix of the fixed activity order |
| DetectionWorkflow.PlanningNeedsAllFive | project/workflows/detection/detecting_incident_workflow.py:116-311 | a detection reaches planning only when all five activities answered, and the record is then the stored incident |
| DetectionWorkflow.DetectionTouchesOnlyIncidentFields | project/workflows/detection/detecting_incident_workflow.py:94-316 | apart from the incident fields, the counter and the error text, detection leaves the record alone |
| DetectionWorkflow.DetectAgreesWithFullMetrics | project/workflows/detection/detecting_incident_workflow.py:281-294 | where the metrics dictionary carries every key the message formats, the written and the corrected detection agree |
| DetectionWorkflow.MissingMetricsFailDetection | project/workflows/detection/detecting_incident_workflow.py:288-292 | a reported incident whose state carries no metrics fails as written on the message to the agent task, and goes on to planning when a missing value is shown as N/A |
| PlanningWorkflow.IncidentTypeArg | project/workflows/planning/planning_workflow.py:85 | the type handed to the activities is never empty: the record's own type when set and non-empty, otherwise "service_crash" |
| PlanningWorkflow.StorePlan | project/workflows/planning/planning_workflow.py:165-169 | storing the reply changes only the planning fields, each absent key read as its default ("restart_and_verify", no details, "", 0.5, false) |
| PlanningWorkflow.Recover | project/workflows/planning/planning_workflow.py:212-225 | the failure branch records "Planning failed: " and the error; with a retry left it spends one, names "restart_and_verify" with the fallback reasoning and confidence 0.3 and goes on to execution; otherwise it goes to FAILED with nothing else changed; the stored details and exploration flag are kept |
| PlanningWorkflow.Planning | project/workflows/planning/planning_workflow.py:61-225 | no record goes to FAILED; otherwise only planning fields, the error and the retry count change; the next state is FAILED exactly when planning raised with no retry left, else EXECUTING_REMEDIATION; a pass that does not raise keeps the retry count and the error |
| PlanningWorkflow.RetriesStayWithinLimit | project/workflows/planning/planning_workflow.py:217-218 | a record within its retry budget stays within it, each pass spending at most one retry, and the budget itself never changes |
| PlanningWorkflow.RetrySpentOnlyOnError | project/workflows/planning/planning_workflow.py:212-225 | a retry is spent exactly when planning raised and a retry was left |
| PlanningWorkflow.StoredPlanIsCatalogPlan | project/workflows/planning/planning_workflow.py:140-169 | a plan from `plan_remediation` stored without error names a catalog strategy for the incident's type and carries that strategy's own actions; for a type the catalog does not know the default name is stored and execution runs a single restart |
| PlanningWorkflow.DefaultStrategyRunsAsNamed | project/workflows/planning/planning_workflow.py:165-166 | with no details stored, the default name "restart_and_verify" and the actions that run agree: that catalog strategy is one restart |
| PlanningWorkflow.EarlyFallbackRunsDefaultStrategy | project/workflows/planning/planning_workflow.py:217-223 | a fallback at the start of a cycle, with no plan stored, executes exactly the actions of the strategy it names |
| PlanningWorkflow.LateFallbackKeepsPlannedActions | project/workflows/planning/planning_workflow.py:165-223 | a fallback after the plan was stored (the closing message raised) renames the strategy "restart_and_verify" but keeps the stored plan's actions and exploration flag |
| PlanningTools.ActionTypeNameRoundTrip | project/models/enums.py:39-48 | every action type's name reads back as that action type |
| PlanningTools.DetailsOf | project/models/strategies.py:41-45 | `to_dict()` as the execution loop reads it keeps every action, in order, with a type name that reads back as the action's type and its parameters |
| PlanningTools.CatalogPlansRunInFull | project/activities/planning_tools.py:180-182 | every action of a catalog strategy's plan has an activity, so execution never skips one |
| PlanningTools.ManagerPick | project/activities/planning_tools.py:163-176 | the manager's selection for a type always exists, is one of the type's catalog strategies, decays epsilon once and records itself as the type's last pick |
| PlanningTools.Named | project/activities/planning_tools.py:172-181 | looking up the pick among the available strategies finds one of that name exactly when there is one |
| PlanningTools.PlanRemediation | project/activities/planning_tools.py:48-198 | an unknown type gives the error reply and leaves the manager alone; a known type always yields a strategy and its details; unparseable text gives confidence 0.5 and exploration; a failed call or a non-object reply gives confidence 0.4, exploration and the reasoning quoting the error |
| PlanningTools.PlanNamesApplicableStrategy | project/activities/planning_tools.py:82-198 | whatever the LLM replies, a plan for a known type names one of the type's catalog strategies, carries its action list, and costs the manager at most one selection; an available LLM pick is kept and selects nothing |
| PlanningTools.PlanAgreesWithReasoning | project/activities/planning_tools.py:174-178 | wherever the reply is not an object with an unusable pick and no reasoning, the written and the corrected planner agree |
| PlanningTools.ObjectReplyReadsObject | project/activities/planning_tools.py:159-185 | for a known type a JSON-object reply is handled by the object branch |
| PlanningTools.PickTwiceDecaysTwice | project/strategy/strategy_manager.py:134-138 | two selections in a row decay epsilon twice, each time to no less than the floor |
| PlanningTools.UnusablePickWithoutReasoning | project/activities/planning_tools.py:174-198 | an unusable pick with no reasoning: as written the outer fallback selects again; corrected, the first selection stands |
| PlanningTools.MissingReasoningSelectsTwice | project/activities/planning_tools.py:174-198 | an object reply naming no available strategy and giving no reasoning makes the written planner decay epsilon twice and keep the second pick; the corrected one selects once |
| PlanningTools.DefaultManagerDoubleDecay | project/activities/planning_tools.py:174-198 | with the default manager the double selection leaves epsilon at 0.27075 where one selection leaves 0.285 |
| PlanningTools.GetStrategyRecommendation | project/activities/planning_tools.py:201-220 | the error reply exactly for a string naming no incident type; otherwise the manager's recommendation for that type, reporting the manager's current epsilon |
| EvooMachine.ResetForNewIncident | project/state_machines/evoo.py:74-100 | a reset puts every field one incident cycle fills in (incident, planning, execution, evaluation, learning, error and retry count) back to its declared default and keeps every field that outlives the cycle (task, turns, conversation, loop control, retry budget, observability) |
| EvooMachine.ClearedAndLoopFieldsDetermine | project/state_machines/evoo.py:13-100 | the per-cycle fields and the long-lived fields together make up the whole record: two cleared records with the same long-lived fields are the same record |
| EvooMachine.ResetForgetsTheCycle | project/state_machines/evoo.py:74-100 | two records reset to the same record exactly when their long-lived fields agree: nothing of the finished cycle survives a reset |
| EvooMachine.ResetIdempotent | project/state_machines/evoo.py:74-100 | resetting twice is resetting once |
| EvooMachine.ResetFixesClearedRecords | project/state_machines/evoo.py:74-100 | a reset leaves a record unchanged exactly when nothing cycle-specific is in it |
| EvooMachine.TerminalCondition | project/state_machines/evoo.py:107-121 | the loop stops exactly in COMPLETED or FAILED, or when a record is present whose incident count has reached its maximum and whose learning loop is off |
| EvooMachine.TerminalConditionSurvivesReset | project/state_machines/evoo.py:107-121 | resetting for a new incident never changes whether the loop stops |
| EvooMachine.FreshRecordNotTerminal | project/state_machines/evoo.py:59-63 | a freshly constructed record (0 of 10 incidents, learning loop on) never stops the loop outside the two terminal states |
| LlmHelpers.ActivityOf | project/activities/llm_helpers.py:208-218 | a tool's activity is one entry of the tool-to-activity table, and a tool absent from the table has none |
| LlmHelpers.ToolTableCoversTools | project/activities/llm_helpers.py:202-218 | among the tool names the executor accepts, exactly `finish` has no activity, and every activity name ends in `_activity` |
| LlmHelpers.ActionAt | project/activities/llm_helpers.py:129 | a match of the action pattern names a non-empty run of word characters and an argument text that holds no closing parenthesis |
| LlmHelpers.FirstAction | project/activities/llm_helpers.py:129-131 | the search finds a match at some position of the reply, and finds none only when the pattern matches at no position |
| LlmHelpers.Pairs | project/activities/llm_helpers.py:138 | every key=value match has a non-empty key |
| LlmHelpers.Convert | project/activities/llm_helpers.py:140-147 | a stripped value is an integer exactly when it parses as one, otherwise a float when it parses as a decimal, otherwise the stripped text |
| LlmHelpers.AssignKeys | project/activities/llm_helpers.py:138-139 | the parameters hold exactly the keys the matches name |
| LlmHelpers.AssignLastWins | project/activities/llm_helpers.py:138-139 | a key named twice keeps the value of its last match |
| LlmHelpers.ParseArguments | project/activities/llm_helpers.py:134-150 | blank argument text gives no parameters and any other argument text gives at least one |
| LlmHelpers.ParseAction | project/activities/llm_helpers.py:124-152 | a reply without a match is ("none", {}); otherwise the tool is the first match's name and the parameters come from its argument text; the tool is always "none" or a word |
| LlmHelpers.BareCallParses | project/activities/llm_helpers.py:129-152 | `ACTION: name()` parses to that tool with no parameters |
| LlmHelpers.CallIsFirstAction | project/activities/llm_helpers.py:129-134 | `ACTION: name(args)` with no `)` in the arguments is found as that tool with exactly those arguments |
| LlmHelpers.KeywordCallRoundTrip | project/activities/llm_helpers.py:124-152 | writing a call with one whole-number keyword argument and parsing it gives back the tool and that argument as an integer |
| LlmHelpers.UnmarkedReplyIsNone | project/activities/llm_helpers.py:129-131 | a reply with no `ACTION:` marker parses as ("none", {}) |
| LlmHelpers.BareArgumentIsValue | project/activities/llm_helpers.py:149-150 | argument text without any `=` is kept whole, stripped, under the key "value" |
| RemediationActivities.RestartService | project/activities/remediation_activities.py:21-37 | restarting always reports success for the restart tool |
| RemediationActivities.ScaleHorizontal | project/activities/remediation_activities.py:40-57 | the report echoes the target (3 by default) and says "up" exactly when the target exceeds one instance; a text target makes the comparison with 1 raise Python's comparison error instead of reporting |
| RemediationActivities.ScaleVertical | project/activities/remediation_activities.py:60-79 | the report echoes the requested CPU and memory, 2 and 4 GB when not given |
| RemediationActivities.ChangeTimeout | project/activities/remediation_activities.py:82-98 | the report echoes the requested timeout, 15000 ms when not given |
| RemediationActivities.RollbackDeployment | project/activities/remediation_activities.py:101-118 | the rollback target is the requested version when it is truthy and "v2.1.3" otherwise, so an empty or zero version also falls back |
| RemediationActivities.ClearCache | project/activities/remediation_activities.py:121-137 | the report echoes the cache type, "all" when not given |
| RemediationActivities.RebalanceLoad | project/activities/remediation_activities.py:140-156 | rebalancing always reports success for the rebalance tool |
| RemediationActivities.QueryMetrics | project/activities/remediation_activities.py:159-173 | querying metrics always reports success for the query tool |
| RemediationActivities.LogFindings | project/activities/remediation_activities.py:185-193 | a log finding other than "Unknown / Multiple errors" is given exactly for the name of an incident type |
| RemediationActivities.AnalyzeLogs | project/activities/remediation_activities.py:176-203 | the report echoes the incident type ("unknown" when not given) and carries that type's finding |
| RemediationActivities.EveryTypeHasFinding | project/activities/remediation_activities.py:185-192 | every incident type of the enumeration has its own finding |
| RemediationActivities.ValidTypesAreEnumValues | project/activities/remediation_activities.py:234-237 | the valid type names are exactly the values of the incident-type enumeration |
| RemediationActivities.Candidates | project/activities/remediation_activities.py:208-224 | the threshold rules give one to four candidates, each a valid type and none a network degradation |
| RemediationActivities.HeuristicPredict | project/activities/remediation_activities.py:206-231 | the heuristic's answer is one of the candidates, with the highest confidence among them |
| RemediationActivities.HeuristicIsRuleLadder | project/activities/remediation_activities.py:214-226 | sorting the candidates by confidence and taking the first is the same as checking the rules in priority order crash, memory, CPU, latency, with high latency when none fires: the stable sort lets a memory leak win its tie with a CPU spike |
| RemediationActivities.HeuristicIsValid | project/activities/remediation_activities.py:206-231 | the heuristic never predicts a network degradation and its confidence lies between 0.5 and 0.9 |
| RemediationActivities.AcceptedAnswer | project/activities/remediation_activities.py:284-294 | the LLM's answer is used exactly when it is a non-empty object naming a valid type with a confidence that converts to a float; the confidence is then clamped into [0, 1] |
| RemediationActivities.PredictIncidentType | project/activities/remediation_activities.py:240-311 | an accepted LLM answer is returned as it is; any other outcome, including a failed call, returns the rule ladder's type and confidence with the heuristic reasoning and no LLM flag |
| RemediationActivities.PredictionIsValid | project/activities/remediation_activities.py:240-311 | whatever the LLM answers, the prediction is a valid incident type with a confidence in [0, 1] |
| RemediationActivities.ConfidenceIsClamped | project/activities/remediation_activities.py:290 | an out-of-range confidence is clamped, not rejected |
| RemediationActivities.UnknownTypeFallsBack | project/activities/remediation_activities.py:285-302 | an answer naming a type outside the valid set sends the activity to the rules |
| AnalysisTools.Validate | project/activities/analysis_tools.py:287-293 | the kept predictions are exactly those whose type is a value of the incident-type enumeration, in the order given |
| AnalysisTools.Ranked | project/activities/analysis_tools.py:295-296 | the ranked predictions are a permutation of the valid ones, ordered from the most to the least confident, with a missing confidence counting as 0 |
| AnalysisTools.FallbackPrediction | project/activities/analysis_tools.py:316-333 | when the LLM path raises, the tool answers one prediction at confidence 0.4, a service crash exactly when the health score is below 0.3 and otherwise high latency, with the method "fallback" |
| AnalysisTools.LlmPredictions | project/activities/analysis_tools.py:295-308 | the LLM path keeps the three most confident valid predictions, and raises exactly when the top one has no confidence |
| AnalysisTools.PredictAsWritten | project/activities/analysis_tools.py:204-333 | as written, a failed call and a top prediction without a confidence both end in the health-score fallback; otherwise the answer is the kept predictions with the method "llm_reasoning" |
| AnalysisTools.MissingConfidenceDiscardsPrediction | project/activities/analysis_tools.py:305-310 | a single valid prediction without a confidence is thrown away for the health-score fallback |
| AnalysisTools.Kept | project/activities/analysis_tools.py:295-303 | the LLM path's answer holds at most three valid predictions, most confident first |
| AnalysisTools.Predict | project/activities/analysis_tools.py:204-333 | a failed call gives the health-score fallback and any decoded reply gives at most three valid predictions, most confident first, with the method "llm_reasoning" |
| AnalysisTools.PredictCorrectsOnlyMissingConfidence | project/activities/analysis_tools.py:295-310 | wherever the written code answers from the LLM, the corrected version gives the same answer |
| AnalysisTools.UnparseableReplyPredictsCrash | project/activities/analysis_tools.py:278-284 | a reply with no JSON object in it counts as one service-crash guess at confidence 0.5 |
| AnalysisTools.KeptAreMostConfident | project/activities/analysis_tools.py:287-299 | no valid prediction is dropped in favour of a less confident one, and with at most three valid predictions all of them are kept |
| AnalysisTools.ApplyPrevious | project/activities/analysis_tools.py:336-444 | an unknown type name is reported as such; otherwise the best record and its at most two runners-up are records of the store |
| AnalysisTools.ApplyPreviousPicksBest | project/activities/analysis_tools.py:353-440 | for a known type the tool reports no history exactly when the store has no used record of that type, and then lists the catalog's strategies for it; otherwise the best record has the highest (average reward, success rate) among the used records of the type and the alternatives are records of the same type |
| AnalysisTools.AnalyzeLogs | project/activities/analysis_tools.py:92-202 | without an incident the analysis is empty and carries no method; with one, a failed call gives the one-pattern fallback naming the incident type, a reply without JSON one pattern and the "Unable to parse" cause, and a decoded reply its own patterns and causes; the method is "fallback" exactly when the call failed |
| SreAgentLoop.InitialState | project/activities/sre_agent_loop.py:85-103 | a new loop state has run nothing and is not finished; the service is the incident's affected service ("api-service" when absent) and the type its incident type ("unknown" when absent) |
| SreAgentLoop.AddAction | project/activities/sre_agent_loop.py:112-118 | recording an action appends one entry, carrying the result's status and the current iteration, and one result, side by side, and changes nothing else |
| SreAgentLoop.ToolForActivity | project/activities/sre_agent_loop.py:254-257 | the reverse lookup finds a tool whose activity is the given name, and finds none only when no entry of the table has that activity |
| SreAgentLoop.ShortNameInvertsTable | project/activities/sre_agent_loop.py:252-257 | every activity name of the tool table leads back to its own tool |
| SreAgentLoop.Executed | project/activities/sre_agent_loop.py:248 | the executed tool names are exactly the action strings cut at their first "(" |
| SreAgentLoop.NextPlanned | project/activities/sre_agent_loop.py:250-258 | the fallback's candidate is the first planned tool not yet executed, and there is none exactly when every planned tool was executed |
| SreAgentLoop.FallbackNext | project/activities/sre_agent_loop.py:242-271 | the fallback proposes the first planned tool not yet executed, with the plan's parameters over the default service name; with every planned tool executed it proposes "finish" with no parameters |
| SreAgentLoop.FallbackParameters | project/activities/sre_agent_loop.py:259-264 | the fallback's parameters always name a service, keep every parameter of the plan as given, use the incident's service only when the plan names none, and hold nothing else |
| SreAgentLoop.FallbackFinishesWhenPlanDone | project/activities/sre_agent_loop.py:250-271 | for a plan that does not itself name "finish", the fallback finishes exactly when every planned tool has been executed |
| SreAgentLoop.ActivityParams | project/activities/sre_agent_loop.py:185-198 | the activity receives the call's service name or else the incident's, every other key of the call but the reserved ones, and for log analysis the incident's type unless the call gave one, and nothing else |
| SreAgentLoop.Dispatch | project/activities/sre_agent_loop.py:201-213 | exactly the nine tools of the dispatch table can be reached, and each reports as itself |
| SreAgentLoop.ExecuteTool | project/activities/sre_agent_loop.py:158-239 | running a tool always yields a report naming that tool, never an exception; the status is "error" exactly for an error report, and an unknown tool or "finish" gives "Unknown tool: " and its name |
| SreAgentLoop.Answer | project/activities/sre_agent_loop.py:320-334 | a reply the LLM gave is read with the action parser, and a call that raised gives no answer |
| SreAgentLoop.LlmChoice | project/activities/sre_agent_loop.py:337-338 | the LLM's action is used exactly when it names a valid tool |
| SreAgentLoop.ChosenAction | project/activities/sre_agent_loop.py:320-340 | each iteration acts on the LLM's action when it names a valid tool and on the fallback's proposal otherwise |
| SreAgentLoop.UnknownToolUsesFallback | project/activities/sre_agent_loop.py:337-340 | a reply naming an unknown tool is not acted on; the fallback's proposal is |
| SreAgentLoop.Step | project/activities/sre_agent_loop.py:310-368 | one pass counts the iteration; choosing "finish" ends the loop without running anything, and any other choice runs the tool once and appends exactly its action string and its result |
| SreAgentLoop.StepKeepsBalance | project/activities/sre_agent_loop.py:310-368 | one pass keeps one result per recorded action and only appends to both lists |
| SreAgentLoop.RunBounds | project/activities/sre_agent_loop.py:310 | the loop never passes its iteration bound, keeps one result per action, and stops only on "finish" or at the bound |
| SreAgentLoop.RunAppends | project/activities/sre_agent_loop.py:310-368 | nothing the loop recorded is ever rewritten: later iterations only append |
| SreAgentLoop.RunLoop | project/activities/sre_agent_loop.py:274-391 | the activity uses at most its iteration budget, reports one result per action taken and no more actions than iterations, and either finished naturally or used the whole budget |
| SreAgentLoop.ActionNameReadsBack | project/activities/sre_agent_loop.py:248 | an action string reads back as the tool it ran when the tool's name has no "(" |
| SreAgentLoop.FallbackMovesOn | project/activities/sre_agent_loop.py:248-258 | once the fallback's tool has run, it counts as executed and the fallback proposes something else next |
| SreAgentLoop.FinishRunsNothing | project/activities/sre_agent_loop.py:365-367 | a reply `ACTION: finish()` ends the loop without running or recording anything |
| SreAgentLoop.EmptyPlanFinishesAtOnce | project/activities/sre_agent_loop.py:242-391 | with nothing planned and no answer from the LLM, the loop finishes in its first iteration having run nothing |
| AgentMachine.Waiting | project/workflows/idle/waiting_for_incident.py:33-114 | no record goes to FAILED; with the runs used up the agent goes to COMPLETED marking learning complete and changing nothing else; otherwise it takes the new incident and its detection metrics, clears the previous run's plan, results, post-metrics, reward and evaluation, marks the affected service unhealthy and goes to planning |
| AgentMachine.CompletionIsTheRunBound | project/workflows/idle/waiting_for_incident.py:41-46 | the waiting state completes exactly when the run counter has reached its maximum, and exactly then the record becomes terminal |
| AgentMachine.PlanOf | project/workflows/planning/planning_remediation.py:86-103 | the plan carries the selection's strategy, tools, parameters and flags, with confidence 0.5 for an exploratory choice and 0.8 otherwise |
| AgentMachine.PlanLabel | project/workflows/planning/planning_remediation.py:108 | the report labels an exploratory plan "EXPLORE (random)" and a non-exploratory LLM choice "EXPLOIT (LLM)", and no other plan with either label |
| AgentMachine.Planning | project/workflows/planning/planning_remediation.py:33-135 | the planner with the severity sent as the text it is (see Findings): without a record or an incident the agent fails; otherwise only the plan changes and the agent goes to execution |
| AgentMachine.PlanningAsWritten | project/workflows/planning/planning_remediation.py:37-76 | the planner as written moves only to FAILED, which it does without a record or an incident, and raises the missing-attribute error exactly when an incident is present |
| AgentMachine.PlanningAsWrittenRaisesWherePlanningExecutes | project/workflows/planning/planning_remediation.py:76 | the planner as written matches the corrected planner exactly where that one fails, and raises exactly where that one would go on to execution |
| AgentMachine.NoRunPassesPlanningAsWritten | project/workflows/planning/planning_remediation.py:76 | every run the waiting state starts reaches planning, and the planner as written raises there, where the corrected planner would go on to execution |
| AgentMachine.LoopIncident | project/workflows/execution/executing_remediation.py:53-58 | the executor loop is told the incident's type and service, "unknown" and "api-service" when there is no incident |
| AgentMachine.LoopOf | project/workflows/execution/executing_remediation.py:50-79 | the executor loop's answer uses at most its iteration budget and reports one result per action |
| AgentMachine.Executing | project/workflows/execution/executing_remediation.py:34-136 | without a record or a plan the agent fails; otherwise it stores the loop's results, iteration count and actions and the simulator's post-metrics and health, changes nothing else, and goes to evaluation |
| AgentMachine.AsDict | project/workflows/evaluation/evaluating_outcome.py:63-64 | the metrics handed to the reward activity carry each of the five metrics of the record |
| AgentMachine.Outcome | project/workflows/evaluation/evaluating_outcome.py:49-57 | without a simulator result the run counts as 120 seconds, not restored, at cost 1.0 |
| AgentMachine.ExperienceOf | project/workflows/evaluation/evaluating_outcome.py:104-118 | the experience carries the run's reward, restored flag, incident type, strategy, recovery time and run index |
| AgentMachine.Evaluating | project/workflows/evaluation/evaluating_outcome.py:34-177 | without everything the evaluator reads the agent fails; otherwise it records the reward, the experience and the judge's analysis, appends one entry to each of the six histories, hands the experience to the store, and goes to the strategy update |
| AgentMachine.Updating | project/workflows/learning/updating_strategy.py:32-169 | without an incident, plan or experience the agent fails; otherwise it sends the run's outcome to the strategy record, fetches the memory summary every fifth run, reports a milestone every tenth run of a task, increments the run counter, changes nothing else and goes back to waiting |
| AgentMachine.RunCompletes | project/state_machines/evoo_agent.py:16-92 | with the corrected planner, a run that starts with runs left passes through the five states in order without failing, raises the run counter by exactly one, and adds exactly one entry to every history |
| AgentMachine.RunAllCompletes | project/state_machines/evoo_agent.py:86-92 | with the corrected planner, the loop stops after exactly the runs that were left: the record is terminal, the counter stands at its maximum, one reward was recorded per run and the histories stay aligned |
| TerminalStates.EarlyWindow | project/workflows/terminal_states.py:64 | the early window is the first five rewards, or all of them when there are fewer |
| TerminalStates.LateWindow | project/workflows/terminal_states.py:65 | the late window is the last five rewards, or all of them when there are fewer |
| TerminalStates.Best | project/workflows/terminal_states.py:88 | the best reward is one of the rewards and no reward exceeds it; with no rewards it is 0 |
| TerminalStates.Report | project/workflows/terminal_states.py:59-101 | the report shows the run count, the averages of the first and last five rewards and their difference, calls it an improvement exactly when the late average is higher, and takes the average and best reward from the memory summary when it has them; with at most five rewards the two averages coincide and the improvement is 0 |
| TerminalStates.Completed | project/workflows/terminal_states.py:21-103 | COMPLETED always stays COMPLETED, and writes a report exactly for a record with a task id |
| TerminalStates.Failed | project/workflows/terminal_states.py:106-131 | FAILED always stays FAILED; the message is the recorded error, "Unspecified failure" when it is empty and "Unknown error" without a record, so it is never empty; the user is told exactly when the record has a task id |
| TerminalStates.SumPointwise | project/workflows/terminal_states.py:63-65 | a list of rewards pointwise below another of the same length has the smaller sum |
| TerminalStates.WindowsOrdered | project/workflows/terminal_states.py:64-65 | the first rewards of a non-decreasing history average no more than its last ones |
| TerminalStates.NonDecreasingRewardsNeverRegress | project/workflows/terminal_states.py:63-66 | a session whose rewards never went down reports a non-negative improvement |
| TerminalStates.NonIncreasingRewardsNeverImprove | project/workflows/terminal_states.py:63-95 | a session whose rewards never went up is never reported as improved |
| Commands.StatesAreComplete | project/workflow.py:56-94 | the machine is built with eight states, each state named exactly once |
| Commands.TaskCreated | project/workflow.py:248-281 | a new task records its id and switches auto mode and the learning loop on, with no message, turn, incident or chat entry yet |
| Commands.RunFailed | project/workflow.py:291-307 | an error escaping the machine is recorded as the error message and moves the machine to FAILED, where the loop stops; nothing outlasting the cycle changes |
| Commands.MessageText | project/workflow.py:113-118 | a message without a text body reads as the empty string |
| Commands.LastToken | project/workflow.py:205-206 | the last token exists exactly when the text has a whitespace-separated word, and is the last such word |
| Commands.Classify | project/workflow.py:148-232 | on the lower-cased, stripped text: "start..." or exactly "run" starts; "trigger..." triggers only when it does not start; "set max" carries the integer of the last token of the original text, if it parses; anything matching no branch is chat |
| Commands.OnEvent | project/workflow.py:98-232 | every message counts one message and one turn; start switches the loop on and stops waiting; trigger and chat stop waiting; a parsable "set max" sets the incident budget and an unparsable one leaves it; only chat adds to the conversation; no message changes the incident count |
| Commands.StatusChangesOnlyCounters | project/workflow.py:178-200 | a status request changes nothing beyond the two counters |
| Commands.TriggerOnlyClearsWaiting | project/workflow.py:165-176 | a trigger changes nothing beyond the two counters and the wait flag |
| Commands.SetMaxParses | project/workflow.py:202-207 | the message "set max N" is taken by the set-max branch and carries N, for every integer N |
| Commands.SetMaxRoundTrip | project/workflow.py:202-207 | sending "set max N" sets the incident budget to exactly N, for every integer N |
| Commands.SetMaxDecidesTheNextCycle | project/workflow.py:202-207 | with the loop in IDLE, a budget set at or below the incidents already handled ends the loop, and one above them starts another cycle |
| Commands.ChatIsRecorded | project/workflow.py:226-232 | a message matching no command is appended, stripped, as the user's next chat entry, and the earlier entries stay |

## Left out

- Simulators: the production-system simulator and its activities are not part of this model. Their outputs (incidents, metrics after remediation, restored flags) are parameters.
- LLM access: the LLM calls and the decoding of their JSON replies are not modelled. A reply reaches the model already decoded, or as `None` when the call or the decoding raised. Prompt text is not modelled.
- Randomness: the draws of `select_strategy_activity` and the random experience identifiers are parameters.
- UCB1 bonus: `c * sqrt(ln N / n)` is a non-negative function parameter, because square roots and logarithms are not exact over the reals.
- Rounding: `round(x, n)` is taken as the identity throughout.
- Persistence: JSON-file loading and saving of the store, the strategy records and the memories are not modelled. Stores are in-memory sequences and maps.
- Orchestration: activity invocation, retries, timeouts, heartbeats, tracing spans and the messages streamed to the agent task's UI are not modelled. Manual mode's wait for user input is taken as eventually resumed.
- Presentation: markdown reports, tables, sparklines and the other `_format_*` helpers are not modelled, except where formatting itself raises (see Findings).
- Text: `lower()`, `strip()`, `split()` and the regular-expression classes `\w` and `\s` are modelled on ASCII characters only.
- Numbers: `int()` of text is modelled for an optional sign and decimal digits, and `float()` for an optional sign and digits with at most one point. Exponents, `inf`, `nan` and underscores are not modelled.
- JSON values: only integers, floats and strings are modelled as tool-argument values. Booleans, nulls, lists and objects are not.
- Pydantic validation is modelled only where it changes control flow: the `Experience` construction in the learning workflow may fail, and that failure is a parameter. The other field validators are not modelled.
- `get_experiences_for_incident_type` of the experience store is not modelled, because no modelled workflow calls it.
- `mark_strategy_success_activity` and `mark_strategy_failure_activity` return a constant acknowledgement and change nothing, so they are not modelled.
- The strategy rankings fetched by the terminal and updating workflows feed only report text, so they are not modelled.
- Sorting: Python's `sorted` and `list.sort` are modelled by one stable insertion sort on a descending key. The ranking functions are stated against it.
- AnalysisTools.ApplyPrevious: the LLM's suggestion of a first strategy when there is no history is not modelled. Only the list of available strategies is stated.
- SreAgentLoop.Run: the text `json.dumps` produces for a parameter dictionary is a function parameter. Only the tool name before the first `(` of an action string is ever read back.

## Findings

| source | as written | input that shows it | evidently intended | confidence | as-written member | corrected member |
|---|---|---|---|---|---|---|
| project/activities/memory_activities.py:118 | the summary reads each memory's recovery time under the key `recovery_time`, but the experiences the evaluator stores (`Experience.model_dump`, project/workflows/evaluation/evaluating_outcome.py:124) carry it under `recovery_time_seconds`; only the standalone runner writes `recovery_time` | any non-empty memory of experiences the evaluator stored, e.g. records that each took 30 s: average and best recovery time are both reported as 0 | read `recovery_time_seconds` and fall back to `recovery_time`, so the example reports 30 s for both and memories the standalone runner wrote keep their figures | high, not executed | MemoryActivities.SummaryIgnoresStoredRecoveryTimes | MemoryActivities.SummaryReadsStoredRecoveryTimes, MemoryActivities.StandaloneMemoriesKeepTheirFigures |
| project/workflows/planning/planning_remediation.py:76 | the strategy request sends `incident.severity.value`, but the incident's `severity` field is text (project/models/incident.py:226), and nothing catches the error | any run the waiting state starts: after the two memory activities, planning raises the missing-attribute error and no run reaches execution | send `incident.severity` itself, so planning goes on to execution and every run completes | high, not executed | AgentMachine.PlanningAsWritten, AgentMachine.NoRunPassesPlanningAsWritten | AgentMachine.Planning, AgentMachine.RunCompletes, AgentMachine.RunAllCompletes |
| project/workflows/idle/idle_workflow.py:257-258 | the final report divides the success count by the total number of cycles | a task whose budget is reached before any cycle ran, e.g. `set max 0` on a fresh task: the division by zero fails the loop instead of completing it | guard the rate when no cycle ran and complete normally | high, not executed | IdleWorkflow.FinalReportAsWritten, IdleWorkflow.EmptyHistoryFailsAtCompletion | IdleWorkflow.FinalReportOf, IdleWorkflow.Idle |
| project/workflows/detection/detecting_incident_workflow.py:288-292 | the message to the agent task formats each metric with a numeric format, using the text `'N/A'` as the default for a missing one | a reported incident whose state carries no metrics: the formatting raises and the detection goes to FAILED | show `N/A` for a missing metric and go on to planning | high, not executed | DetectionWorkflow.MissingMetricsFailDetection | DetectionWorkflow.Detect |
| project/activities/planning_tools.py:174-198 | the fallback appends to `plan["reasoning"]` without a default after the manager already selected a strategy | an LLM plan with an unusable strategy and no `reasoning`: the append raises and the outer handler selects again, so epsilon decays twice (0.27075 instead of 0.285 from the default manager) | read the missing reasoning as empty and select once | medium, not executed | PlanningTools.MissingReasoningSelectsTwice | PlanningTools.PlanRemediation |
| project/workflows/learning/learning_workflow.py:74 | the experience's `strategy_used` is validated as a `RemediationStrategy` value, but the planner stores catalog strategy names | any cycle whose strategy came from the catalog, e.g. `restart_and_verify`: validation fails, nothing is stored and no strategy is marked | accept the catalog names, so the experience is stored and the strategy marked | high, not executed | LearningWorkflow.CatalogStrategiesNeverLearned | LearningWorkflow.LearnAgreesOnStrategyValues |
| project/activities/analysis_tools.py:305-310 | the log line reads `top['confidence']` without a default, while the sort reads it with default 0 | an LLM reply with one valid prediction and no confidence: the KeyError discards the answer for the health-score fallback | read the confidence with default 0 as the sort does and keep the prediction | high, not executed | AnalysisTools.MissingConfidenceDiscardsPrediction | AnalysisTools.PredictCorrectsOnlyMissingConfidence |
