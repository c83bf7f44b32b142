/**
 * The strategy activities of `project/activities/strategy_activities.py`:
 * the JSON strategy store keyed "{incident_type}::{strategy}", the
 * epsilon-greedy `select_strategy_activity` with its heuristic tool and
 * parameter tables, the LLM pick's validation, the record update and the
 * rankings. The random draw, the `random.choice` index and the LLM's reply
 * are parameters; the store is an in-memory map.
 */
module StrategyActivities {
  import opened Wrappers
  import opened Values
  import Text
  import Sorting
  import Enums
  import IncidentModel

  /** `ALL_STRATEGIES`: the values of `RemediationStrategy`, in declaration order. */
  const AllStrategyNames: seq<string> := [
    "restart_service", "scale_horizontal", "scale_vertical", "change_timeout", "rollback_deployment",
    "clear_cache", "rebalance_load", "combined_restart_scale", "combined_cache_rebalance", "combined_rollback_scale"]

  lemma AllStrategyNamesAreEnumValues()
    ensures |AllStrategyNames| == |IncidentModel.AllStrategies|
    ensures forall i :: 0 <= i < |AllStrategyNames| ==>
      AllStrategyNames[i] == IncidentModel.StrategyName(IncidentModel.AllStrategies[i])
  {
  }

  /** `_validate_strategy` */
  predicate ValidStrategy(s: string) { s in AllStrategyNames }

  /** A name passes validation exactly when it is the value of some `RemediationStrategy`. */
  lemma ValidStrategyIsEnumValue(s: string)
    ensures ValidStrategy(s) <==> exists r :: IncidentModel.StrategyName(r) == s
  {
    if ValidStrategy(s) {
      AllStrategyNamesAreEnumValues();
      var i :| 0 <= i < |AllStrategyNames| && AllStrategyNames[i] == s;
      assert IncidentModel.StrategyName(IncidentModel.AllStrategies[i]) == s;
    }
  }

  /** `STRATEGY_PRIORS.get(incident_type, ALL_STRATEGIES)` */
  function Priors(incidentType: string): (r: seq<string>)
    ensures |r| > 0
    ensures forall s :: s in r ==> ValidStrategy(s)
    ensures Enums.ParseIncidentType(incidentType).None? ==> r == AllStrategyNames
    ensures Enums.ParseIncidentType(incidentType).Some? ==> |r| == 2
  {
    if incidentType == "service_crash" then ["restart_service", "rollback_deployment"]
    else if incidentType == "high_latency" then ["scale_horizontal", "rebalance_load"]
    else if incidentType == "cpu_spike" then ["scale_vertical", "scale_horizontal"]
    else if incidentType == "memory_leak" then ["restart_service", "clear_cache"]
    else if incidentType == "network_degradation" then ["rebalance_load", "scale_horizontal"]
    else if incidentType == "timeout_misconfiguration" then ["change_timeout", "rollback_deployment"]
    else AllStrategyNames
  }

  /** The registered name of a tool's activity. */
  function Activity(tool: string): (r: string)
    ensures Text.EndsWith(r, "_activity")
  {
    var r := tool + "_activity";
    assert r[|r| - 9..] == "_activity";
    r
  }

  /** The default tool list of an unknown strategy. */
  const DefaultTools: seq<string> := [Activity("query_metrics_tool"), Activity("restart_service")]

  /** `_heuristic_get_tools_for_strategy` */
  function HeuristicTools(strategy: string): (r: seq<string>)
    ensures |r| > 0
    ensures forall i :: 0 <= i < |r| ==> Text.EndsWith(r[i], "_activity")
    ensures !ValidStrategy(strategy) ==> r == DefaultTools
  {
    var logs := Activity("analyze_logs");
    var metrics := Activity("query_metrics_tool");
    var restart := Activity("restart_service");
    var scaleOut := Activity("scale_horizontal");
    var rebalance := Activity("rebalance_load");
    var rollback := Activity("rollback_deployment");
    var cache := Activity("clear_cache");
    if strategy == "restart_service" then [logs, restart, metrics]
    else if strategy == "scale_horizontal" then [metrics, scaleOut, rebalance]
    else if strategy == "scale_vertical" then [metrics, Activity("scale_vertical"), restart]
    else if strategy == "change_timeout" then [logs, Activity("change_timeout"), metrics]
    else if strategy == "rollback_deployment" then [logs, rollback, metrics]
    else if strategy == "clear_cache" then [cache, metrics]
    else if strategy == "rebalance_load" then [rebalance, metrics]
    else if strategy == "combined_restart_scale" then [logs, restart, scaleOut, rebalance]
    else if strategy == "combined_cache_rebalance" then [cache, rebalance, metrics]
    else if strategy == "combined_rollback_scale" then [logs, rollback, scaleOut]
    else DefaultTools
  }

  /** `_heuristic_get_default_parameters` */
  function HeuristicParameters(strategy: string): (r: Params)
    ensures !ValidStrategy(strategy) ==> r == map[]
  {
    if strategy == "scale_horizontal" then map["target_instances" := IntV(4)]
    else if strategy == "scale_vertical" then map["target_cpu" := RealV(4.0), "target_memory_gb" := RealV(8.0)]
    else if strategy == "change_timeout" then map["new_timeout" := IntV(15000)]
    else if strategy == "combined_restart_scale" || strategy == "combined_rollback_scale" then map["target_instances" := IntV(3)]
    else map[]
  }

  /** The keys `_clamp_parameters` converts with `int()` and their ranges. */
  function IntRange(k: string): Option<(int, int)>
  {
    if k == "target_instances" then Some((1, 10))
    else if k == "new_timeout" || k == "new_timeout_ms" then Some((1000, 300000))
    else None
  }

  /** The keys `_clamp_parameters` converts with `float()` and their ranges. */
  function RealRange(k: string): Option<(real, real)>
  {
    if k == "target_cpu" then Some((0.5, 16.0))
    else if k == "target_memory_gb" then Some((0.5, 64.0))
    else None
  }

  predicate Clamped(k: string) { IntRange(k).Some? || RealRange(k).Some? }

  /** The value a present key holds once clamped: an integer or a float inside its range. */
  predicate InRange(k: string, v: Value)
  {
    (IntRange(k).Some? ==> v.IntV? && IntRange(k).value.0 <= v.i <= IntRange(k).value.1)
    && (RealRange(k).Some? ==> v.RealV? && RealRange(k).value.0 <= v.r <= RealRange(k).value.1)
  }

  /** A present key whose conversion raises. */
  predicate Unconvertible(k: string, v: Value)
  {
    (IntRange(k).Some? && AsInt(v).None?) || (RealRange(k).Some? && AsReal(v).None?)
  }

  function ClampInt(i: int, lo: int, hi: int): int
  {
    if i < lo then lo else if i > hi then hi else i
  }

  /** One key of `_clamp_parameters`, in isolation. */
  function ClampKey(k: string, v: Value): (r: Option<Value>)
    ensures r.None? <==> Unconvertible(k, v)
    ensures r.Some? ==> InRange(k, r.value)
    ensures !Clamped(k) ==> r == Some(v)
    ensures InRange(k, v) ==> r == Some(v)
  {
    if IntRange(k).Some? then
      (match AsInt(v)
       case None => None
       case Some(i) => Some(IntV(ClampInt(i, IntRange(k).value.0, IntRange(k).value.1))))
    else if RealRange(k).Some? then
      (match AsReal(v)
       case None => None
       case Some(x) => Some(RealV(Clamp(x, RealRange(k).value.0, RealRange(k).value.1))))
    else Some(v)
  }

  /**
   * `_clamp_parameters`: every present range key converted and clamped, the
   * rest untouched; a conversion that raises is `None`.
   */
  function ClampParameters(p: Params): (r: Option<Params>)
    ensures r.None? <==> exists k :: k in p && Unconvertible(k, p[k])
    ensures r.Some? ==> r.value.Keys == p.Keys
    ensures r.Some? ==> forall k :: k in p ==> InRange(k, r.value[k])
    ensures r.Some? ==> forall k :: k in p && !Clamped(k) ==> r.value[k] == p[k]
    ensures r.Some? ==> forall k :: k in p ==> Some(r.value[k]) == ClampKey(k, p[k])
  {
    if exists k :: k in p && Unconvertible(k, p[k]) then None
    else Some(map k | k in p :: ClampKey(k, p[k]).value)
  }

  /** Clamping twice changes nothing the first clamp did not. */
  lemma ClampIdempotent(p: Params)
    requires ClampParameters(p).Some?
    ensures ClampParameters(ClampParameters(p).value) == ClampParameters(p)
  {
    var q := ClampParameters(p).value;
    forall k | k in q ensures !Unconvertible(k, q[k]) && ClampKey(k, q[k]) == Some(q[k]) {
      assert InRange(k, q[k]);
    }
    assert ClampParameters(q).Some?;
    assert ClampParameters(q).value == q;
  }

  /** The heuristic defaults are already inside the clamp ranges. */
  lemma HeuristicParametersInRange(strategy: string)
    ensures ClampParameters(HeuristicParameters(strategy)) == Some(HeuristicParameters(strategy))
  {
    var p := HeuristicParameters(strategy);
    assert forall k :: k in p ==> InRange(k, p[k]);
    assert ClampParameters(p).value == p;
  }

  /** An LLM suggestion of 0 instances or of 20 becomes 1 or 10. */
  lemma InstanceClampExample()
    ensures ClampParameters(map["target_instances" := IntV(0)]) == Some(map["target_instances" := IntV(1)])
    ensures ClampParameters(map["target_instances" := RealV(20.7)]) == Some(map["target_instances" := IntV(10)])
  {
    assert Trunc(20.7) == 20;
    assert ClampParameters(map["target_instances" := IntV(0)]).value == map["target_instances" := IntV(1)];
    assert ClampParameters(map["target_instances" := RealV(20.7)]).value == map["target_instances" := IntV(10)];
  }

  // ---------------------------------------------------------------------------
  // The JSON strategy store
  // ---------------------------------------------------------------------------

  datatype DictRecord = DictRecord(
    incidentType: string,
    strategy: string,
    totalUses: int,
    totalReward: real,
    successCount: int,
    failureCount: int,
    averageReward: real,
    successRate: real,
    lastUsed: Option<int>)

  type StrategyFile = map<string, DictRecord>

  /** `f"{incident_type}::{strategy}"` */
  function RecordKey(incidentType: string, strategy: string): string
  {
    incidentType + "::" + strategy
  }

  function FreshRecord(incidentType: string, strategy: string): DictRecord
  {
    DictRecord(incidentType, strategy, 0, 0.0, 0, 0, 0.0, 0.0, None)
  }

  /** The bookkeeping identities a record written only by the update keeps. */
  predicate DictConsistent(r: DictRecord)
  {
    r.successCount >= 0 && r.failureCount >= 0
    && r.totalUses == r.successCount + r.failureCount
    && (r.totalUses > 0 ==> r.averageReward == r.totalReward / r.totalUses as real
                             && r.successRate == r.successCount as real / r.totalUses as real)
  }

  datatype UpdateRequest = UpdateRequest(incidentType: Option<string>, strategy: Option<string>, reward: Option<real>, success: Option<bool>)

  datatype UpdateResult = UpdateResult(file: StrategyFile, key: string, record: DictRecord)

  /** The record before the update: the stored one or a fresh one. */
  function Existing(f: StrategyFile, q: UpdateRequest): DictRecord
  {
    var t := q.incidentType.GetOr("");
    var s := q.strategy.GetOr("");
    Get(f, RecordKey(t, s), FreshRecord(t, s))
  }

  /**
   * `update_strategy_record_activity` at time `now`. A stored record whose
   * use count is -1 would divide by zero; that is the `None` case.
   */
  function UpdateStrategyRecord(f: StrategyFile, q: UpdateRequest, now: int): (r: Option<UpdateResult>)
    ensures r.None? <==> Existing(f, q).totalUses == -1
    ensures r.Some? ==>
      var prior := Existing(f, q);
      var u := r.value.record;
      && r.value.key == RecordKey(q.incidentType.GetOr(""), q.strategy.GetOr(""))
      && r.value.file == f[r.value.key := u]
      && u.incidentType == prior.incidentType && u.strategy == prior.strategy
      && u.totalUses == prior.totalUses + 1
      && u.totalReward == prior.totalReward + q.reward.GetOr(0.0)
      && (if q.success.GetOr(false)
          then u.successCount == prior.successCount + 1 && u.failureCount == prior.failureCount
          else u.failureCount == prior.failureCount + 1 && u.successCount == prior.successCount)
      && u.averageReward * u.totalUses as real == u.totalReward
      && u.lastUsed == Some(now)
  {
    var key := RecordKey(q.incidentType.GetOr(""), q.strategy.GetOr(""));
    var prior := Existing(f, q);
    var success := q.success.GetOr(false);
    var uses := prior.totalUses + 1;
    if uses == 0 then None else
      var total := prior.totalReward + q.reward.GetOr(0.0);
      var sc := prior.successCount + (if success then 1 else 0);
      var u := DictRecord(prior.incidentType, prior.strategy, uses, total, sc,
        prior.failureCount + (if success then 0 else 1),
        total / uses as real, sc as real / uses as real, Some(now));
      Some(UpdateResult(f[key := u], key, u))
  }

  /** An update of a consistent record succeeds and leaves it consistent, with a success rate in [0, 1]. */
  lemma UpdateKeepsDictConsistent(f: StrategyFile, q: UpdateRequest, now: int)
    requires DictConsistent(Existing(f, q))
    ensures UpdateStrategyRecord(f, q, now).Some?
    ensures DictConsistent(UpdateStrategyRecord(f, q, now).value.record)
    ensures 0.0 <= UpdateStrategyRecord(f, q, now).value.record.successRate <= 1.0
  {
    var u := UpdateStrategyRecord(f, q, now).value.record;
    assert u.successCount <= u.totalUses;
    assert u.successCount as real <= u.totalUses as real;
  }

  /** One reported outcome for a fixed incident type and strategy. */
  datatype Report = Report(reward: real, success: bool, now: int)

  function RequestOf(t: string, s: string, o: Report): UpdateRequest
  {
    UpdateRequest(Some(t), Some(s), Some(o.reward), Some(o.success))
  }

  /** The file after reporting `os` in order, starting from `f`. */
  function ReplayReports(f: StrategyFile, t: string, s: string, os: seq<Report>): (r: StrategyFile)
    ensures forall k :: k in f ==> k in r
    decreases |os|
  {
    if |os| == 0 then f else
      var prev := ReplayReports(f, t, s, os[..|os| - 1]);
      var step := UpdateStrategyRecord(prev, RequestOf(t, s, os[|os| - 1]), os[|os| - 1].now);
      if step.Some? then step.value.file else prev
  }

  function ReportRewards(os: seq<Report>): (r: seq<real>)
    ensures |r| == |os|
    ensures forall i :: 0 <= i < |os| ==> r[i] == os[i].reward
  {
    seq(|os|, i requires 0 <= i < |os| => os[i].reward)
  }

  /**
   * From an empty file, reporting `os` leaves one consistent record under the
   * key whose use count is the number of reports and whose average reward is
   * the mean of all reported rewards.
   */
  lemma {:induction false} ReplayReportsIsMean(t: string, s: string, os: seq<Report>)
    requires |os| > 0
    ensures RecordKey(t, s) in ReplayReports(map[], t, s, os)
    ensures var r := ReplayReports(map[], t, s, os)[RecordKey(t, s)];
      && DictConsistent(r)
      && r.totalUses == |os|
      && r.totalReward == Sum(ReportRewards(os))
      && r.averageReward == Mean(ReportRewards(os))
    decreases |os|
  {
    var key := RecordKey(t, s);
    var pre := os[..|os| - 1];
    var last := os[|os| - 1];
    var prev := ReplayReports(map[], t, s, pre);
    var q := RequestOf(t, s, last);
    if |pre| == 0 {
      assert Existing(prev, q) == FreshRecord(t, s);
    } else {
      ReplayReportsIsMean(t, s, pre);
      assert Existing(prev, q) == prev[key];
    }
    UpdateKeepsDictConsistent(prev, q, last.now);
    assert ReportRewards(os) == ReportRewards(pre) + [last.reward];
    SumAppend(ReportRewards(pre), last.reward);
  }

  // ---------------------------------------------------------------------------
  // Selection
  // ---------------------------------------------------------------------------

  /** The strategies of `names`, in order, with a stored record of positive use for `incidentType`. */
  function UsedNames(f: StrategyFile, incidentType: string, names: seq<string>): (r: seq<string>)
    ensures forall s :: s in r <==> s in names && RecordKey(incidentType, s) in f && f[RecordKey(incidentType, s)].totalUses > 0
    ensures |r| <= |names|
    ensures (forall s :: s in names ==> RecordKey(incidentType, s) !in f) ==> r == []
  {
    if |names| == 0 then [] else
      var rest := UsedNames(f, incidentType, names[1..]);
      var k := RecordKey(incidentType, names[0]);
      if k in f && f[k].totalUses > 0 then [names[0]] + rest else rest
  }

  /** `known_strategies`: each used strategy with its average reward, in `ALL_STRATEGIES` order. */
  function Known(f: StrategyFile, incidentType: string): (r: seq<(string, real)>)
    ensures forall i :: 0 <= i < |r| ==>
      ValidStrategy(r[i].0) && RecordKey(incidentType, r[i].0) in f
      && f[RecordKey(incidentType, r[i].0)].totalUses > 0
      && r[i].1 == f[RecordKey(incidentType, r[i].0)].averageReward
    ensures forall s :: ValidStrategy(s) && RecordKey(incidentType, s) in f && f[RecordKey(incidentType, s)].totalUses > 0 ==>
      exists i :: 0 <= i < |r| && r[i].0 == s
  {
    var u := UsedNames(f, incidentType, AllStrategyNames);
    var r := seq(|u|, i requires 0 <= i < |u| => (u[i], f[RecordKey(incidentType, u[i])].averageReward));
    assert forall s :: s in u ==> exists i :: 0 <= i < |r| && r[i].0 == s by {
      forall s | s in u ensures exists i :: 0 <= i < |r| && r[i].0 == s {
        var i :| 0 <= i < |u| && u[i] == s;
        assert r[i].0 == s;
      }
    }
    r
  }

  /** `known_strategies.get(s, 0)` */
  function KnownAverage(known: seq<(string, real)>, s: string): (r: real)
    ensures (forall i :: 0 <= i < |known| ==> known[i].0 != s) ==> r == 0.0
    ensures (exists i :: 0 <= i < |known| && known[i].0 == s) ==>
      exists i :: 0 <= i < |known| && known[i].0 == s && r == known[i].1
  {
    if |known| == 0 then 0.0
    else if known[0].0 == s then known[0].1
    else
      var r := KnownAverage(known[1..], s);
      assert forall i :: 1 <= i < |known| ==> known[i] == known[1..][i - 1];
      r
  }

  function Filter(names: seq<string>, keep: string -> bool): (r: seq<string>)
    ensures forall s :: s in r <==> s in names && keep(s)
    ensures |r| <= |names|
  {
    if |names| == 0 then [] else
      var rest := Filter(names[1..], keep);
      if keep(names[0]) then [names[0]] + rest else rest
  }

  /**
   * The exploration pool: `underused` strategies — those whose average reward
   * (0 when unknown) is below 1.0 — or all of them when there are none.
   */
  function ExplorePool(known: seq<(string, real)>): (r: seq<string>)
    ensures |r| > 0
    ensures forall s :: s in r ==> ValidStrategy(s)
  {
    var underused := Filter(AllStrategyNames, s => KnownAverage(known, s) < 1.0);
    if |underused| > 0 then underused else AllStrategyNames
  }

  /** A strategy enters the exploration pool when untried or averaging below 1.0, unless none qualifies. */
  lemma ExplorePoolMembers(known: seq<(string, real)>, s: string)
    requires ValidStrategy(s)
    requires exists v :: ValidStrategy(v) && KnownAverage(known, v) < 1.0
    ensures s in ExplorePool(known) <==> KnownAverage(known, s) < 1.0
  {
    var v :| ValidStrategy(v) && KnownAverage(known, v) < 1.0;
    assert v in Filter(AllStrategyNames, s => KnownAverage(known, s) < 1.0);
  }

  /** `random.choice(pool)` with the draw's index supplied. */
  function Choose(pool: seq<string>, index: nat): (r: string)
    requires |pool| > 0
    ensures r in pool
  {
    pool[index % |pool|]
  }

  /** `known_strategies[best]` for `best = max(known_strategies, key=known_strategies.get)`. */
  function BestKnown(known: seq<(string, real)>): (r: nat)
    requires |known| > 0
    ensures r < |known|
    ensures forall i :: 0 <= i < |known| ==> known[i].1 <= known[r].1
    ensures forall i :: 0 <= i < r ==> known[i].1 < known[r].1
  {
    var keys := seq(|known|, i requires 0 <= i < |known| => known[i].1);
    assert forall j :: 0 <= j < |known| ==> keys[j] == known[j].1;
    Sorting.FirstMax(keys)
  }

  /** What the planning LLM proposed, already decoded from JSON (`None`: no usable reply). */
  datatype LlmReply = LlmReply(strategy: Option<string>, tools: Option<seq<string>>, parameters: Option<Params>, reasoning: Option<string>)

  datatype Pick = Pick(strategy: string, tools: seq<string>, parameters: Params, reasoning: string)

  /** The suffix filter on an LLM's tool list. */
  function ActivityTools(tools: seq<string>): (r: seq<string>)
    ensures forall t :: t in r <==> t in tools && Text.EndsWith(t, "_activity")
  {
    Filter(tools, t => Text.EndsWith(t, "_activity"))
  }

  /**
   * The checks `_llm_select_strategy` applies to a reply: an invalid strategy
   * or a parameter `_clamp_parameters` cannot convert discards the reply.
   */
  function ValidateLlmPick(reply: Option<LlmReply>): (r: Option<Pick>)
    ensures r.Some? ==> reply.Some? && ValidStrategy(r.value.strategy) && r.value.strategy == reply.value.strategy.GetOr("")
    ensures r.Some? ==> |r.value.tools| > 0 && forall t :: t in r.value.tools ==> Text.EndsWith(t, "_activity")
    ensures r.Some? ==> forall k :: k in r.value.parameters ==> InRange(k, r.value.parameters[k])
    ensures (reply.Some? && ValidStrategy(reply.value.strategy.GetOr(""))
             && ClampParameters(reply.value.parameters.GetOr(map[])).Some?) ==> r.Some?
  {
    match reply
    case None => None
    case Some(x) =>
      var s := x.strategy.GetOr("");
      var clamped := ClampParameters(x.parameters.GetOr(map[]));
      if !ValidStrategy(s) || clamped.None? then None
      else
        var kept := ActivityTools(x.tools.GetOr([]));
        Some(Pick(s, if |kept| > 0 then kept else HeuristicTools(s), clamped.value, x.reasoning.GetOr("")))
  }

  datatype Reason = NoHistoryUsingPrior | EpsilonGreedyExplore | LlmExploit(reasoning: string) | ExploitBestKnownFallback(averageReward: real)

  datatype Selection = Selection(
    strategy: string,
    toolsToCall: seq<string>,
    toolParameters: Params,
    isExploratory: bool,
    reason: Reason,
    knownStrategiesCount: nat,
    llmSelected: bool)

  datatype SelectRequest = SelectRequest(incidentType: Option<string>, forceExplore: Option<bool>)

  /** The explore test of `select_strategy_activity`. */
  predicate Explores(q: SelectRequest, f: StrategyFile, draw: real, rate: real)
  {
    q.forceExplore.GetOr(false) || draw < rate || |Known(f, q.incidentType.GetOr(""))| == 0
  }

  /**
   * `select_strategy_activity` with the strategy file `f`, the draw of
   * `random.random()`, the index `random.choice` takes, the exploration rate
   * and the LLM's reply in the exploit branch.
   */
  function SelectStrategyActivity(q: SelectRequest, f: StrategyFile, draw: real, index: nat, rate: real, llm: Option<LlmReply>): (r: Selection)
    ensures ValidStrategy(r.strategy)
    ensures |r.toolsToCall| > 0 && forall t :: t in r.toolsToCall ==> Text.EndsWith(t, "_activity")
    ensures r.isExploratory <==> Explores(q, f, draw, rate)
    ensures r.knownStrategiesCount == |Known(f, q.incidentType.GetOr(""))|
    ensures r.llmSelected ==> !r.isExploratory
    ensures r.isExploratory && r.knownStrategiesCount == 0 ==> r.strategy in Priors(q.incidentType.GetOr(""))
    ensures r.isExploratory && r.knownStrategiesCount > 0 ==> r.strategy in ExplorePool(Known(f, q.incidentType.GetOr("")))
    ensures !r.isExploratory && !r.llmSelected ==>
      var known := Known(f, q.incidentType.GetOr(""));
      exists i :: 0 <= i < |known| && known[i].0 == r.strategy
        && forall j :: 0 <= j < |known| ==> known[j].1 <= known[i].1
    ensures r.llmSelected <==> !Explores(q, f, draw, rate) && ValidateLlmPick(llm).Some?
    ensures !r.llmSelected ==> r.toolsToCall == HeuristicTools(r.strategy) && r.toolParameters == HeuristicParameters(r.strategy)
  {
    var t := q.incidentType.GetOr("");
    var known := Known(f, t);
    if Explores(q, f, draw, rate) then ExploreSelection(t, known, index)
    else ExploitSelection(known, llm)
  }

  /** The explore branch: a random prior with no history, otherwise a random pick from the pool. */
  function ExploreSelection(t: string, known: seq<(string, real)>, index: nat): (r: Selection)
    ensures r.isExploratory && !r.llmSelected && r.knownStrategiesCount == |known|
    ensures ValidStrategy(r.strategy)
    ensures |r.toolsToCall| > 0 && forall u :: u in r.toolsToCall ==> Text.EndsWith(u, "_activity")
    ensures |known| == 0 ==> r.strategy in Priors(t) && r.reason == NoHistoryUsingPrior
    ensures |known| > 0 ==> r.strategy in ExplorePool(known)
    ensures r.toolsToCall == HeuristicTools(r.strategy) && r.toolParameters == HeuristicParameters(r.strategy)
  {
    var s := if |known| == 0 then Choose(Priors(t), index) else Choose(ExplorePool(known), index);
    Selection(s, HeuristicTools(s), HeuristicParameters(s), true,
      if |known| == 0 then NoHistoryUsingPrior else EpsilonGreedyExplore, |known|, false)
  }

  /** The exploit branch: the LLM's pick when it validates, otherwise the best known strategy. */
  function ExploitSelection(known: seq<(string, real)>, llm: Option<LlmReply>): (r: Selection)
    requires |known| > 0 && forall i :: 0 <= i < |known| ==> ValidStrategy(known[i].0)
    ensures !r.isExploratory && r.knownStrategiesCount == |known|
    ensures r.llmSelected <==> ValidateLlmPick(llm).Some?
    ensures ValidStrategy(r.strategy)
    ensures |r.toolsToCall| > 0 && forall u :: u in r.toolsToCall ==> Text.EndsWith(u, "_activity")
    ensures !r.llmSelected ==>
      (exists i :: 0 <= i < |known| && known[i].0 == r.strategy
        && forall j :: 0 <= j < |known| ==> known[j].1 <= known[i].1)
      && r.toolsToCall == HeuristicTools(r.strategy) && r.toolParameters == HeuristicParameters(r.strategy)
  {
    match ValidateLlmPick(llm)
    case Some(p) => Selection(p.strategy, p.tools, p.parameters, false, LlmExploit(p.reasoning), |known|, true)
    case None =>
      var b := BestKnown(known);
      var s := known[b].0;
      Selection(s, HeuristicTools(s), HeuristicParameters(s), false, ExploitBestKnownFallback(known[b].1), |known|, false)
  }

  /** With no history the selection explores among the type's priors, whatever the draw. */
  lemma NoHistoryExploresPriors(t: string, draw: real, index: nat, rate: real, llm: Option<LlmReply>)
    ensures var r := SelectStrategyActivity(SelectRequest(Some(t), None), map[], draw, index, rate, llm);
      r.isExploratory && r.reason == NoHistoryUsingPrior && r.strategy in Priors(t) && !r.llmSelected
  {
  }

  // ---------------------------------------------------------------------------
  // Rankings
  // ---------------------------------------------------------------------------

  datatype RankRow = RankRow(strategy: string, avgReward: real, successRate: real, totalUses: int, rank: int)

  function AverageKey(row: RankRow): Sorting.Key { (row.avgReward, 0.0) }

  /** The used records of one type as rows, in `ALL_STRATEGIES` order, before ranking. */
  function TypeRows(f: StrategyFile, incidentType: string): (r: seq<RankRow>)
    ensures |r| == |UsedNames(f, incidentType, AllStrategyNames)|
    ensures forall i :: 0 <= i < |r| ==> r[i].rank == 0
  {
    var u := UsedNames(f, incidentType, AllStrategyNames);
    seq(|u|, i requires 0 <= i < |u| => RowFor(f, incidentType, u[i]))
  }

  /** The unranked rows of a type are exactly the rows of its used strategies. */
  lemma TypeRowsMembers(f: StrategyFile, incidentType: string)
    ensures forall row :: row in TypeRows(f, incidentType) <==>
      exists s :: s in UsedNames(f, incidentType, AllStrategyNames) && row == RowFor(f, incidentType, s)
  {
    var u := UsedNames(f, incidentType, AllStrategyNames);
    var r := TypeRows(f, incidentType);
    assert forall i :: 0 <= i < |r| ==> r[i] == RowFor(f, incidentType, u[i]);
    forall row | row in r
      ensures exists s :: s in u && row == RowFor(f, incidentType, s)
    {
      var i :| 0 <= i < |r| && r[i] == row;
      assert u[i] in u && row == RowFor(f, incidentType, u[i]);
    }
    forall s | s in u
      ensures RowFor(f, incidentType, s) in r
    {
      var i :| 0 <= i < |u| && u[i] == s;
      assert r[i] == RowFor(f, incidentType, s);
    }
  }

  /** The unranked row of a used strategy (a strategy without a record is never asked for). */
  function RowFor(f: StrategyFile, incidentType: string, s: string): RankRow
  {
    var k := RecordKey(incidentType, s);
    if k in f then RankRow(s, f[k].averageReward, f[k].successRate, f[k].totalUses, 0)
    else RankRow(s, 0.0, 0.0, 0, 0)
  }

  /** Numbers sorted rows 1, 2, ... in order. */
  function WithRanks(sorted: seq<RankRow>): (r: seq<RankRow>)
    ensures |r| == |sorted|
    ensures forall i :: 0 <= i < |r| ==> r[i] == sorted[i].(rank := i + 1)
  {
    seq(|sorted|, i requires 0 <= i < |sorted| => sorted[i].(rank := i + 1))
  }

  lemma WithRanksSorted(sorted: seq<RankRow>)
    requires Sorting.SortedDesc(sorted, AverageKey)
    ensures forall i, j :: 0 <= i < j < |WithRanks(sorted)| ==> WithRanks(sorted)[i].avgReward >= WithRanks(sorted)[j].avgReward
  {
    var r := WithRanks(sorted);
    forall i, j | 0 <= i < j < |r| ensures r[i].avgReward >= r[j].avgReward {
      assert Sorting.AtLeast(AverageKey(sorted[i]), AverageKey(sorted[j]));
    }
  }

  /** Ranking a permutation of unranked rows keeps exactly those rows, each at its own position. */
  lemma WithRanksMembers(rows: seq<RankRow>, sorted: seq<RankRow>)
    requires multiset(rows) == multiset(sorted)
    requires forall i :: 0 <= i < |rows| ==> rows[i].rank == 0
    ensures forall row :: row in rows ==> exists i :: 0 <= i < |WithRanks(sorted)| && WithRanks(sorted)[i] == row.(rank := i + 1)
    ensures forall i :: 0 <= i < |WithRanks(sorted)| ==> WithRanks(sorted)[i].(rank := 0) in rows
  {
    var r := WithRanks(sorted);
    Sorting.SameElements(rows, sorted);
    forall row | row in rows ensures exists i :: 0 <= i < |r| && r[i] == row.(rank := i + 1) {
      var i :| 0 <= i < |sorted| && sorted[i] == row;
      assert r[i] == row.(rank := i + 1);
    }
    forall i | 0 <= i < |r| ensures r[i].(rank := 0) in rows {
      assert sorted[i] in rows;
      var j :| 0 <= j < |rows| && rows[j] == sorted[i];
      assert r[i].(rank := 0) == sorted[i];
    }
  }

  /** The rows of one type sorted by average reward, best first, with 1-based ranks. */
  function RankedRows(f: StrategyFile, incidentType: string): (r: seq<RankRow>)
    ensures |r| == |TypeRows(f, incidentType)|
    ensures forall i :: 0 <= i < |r| ==> r[i].rank == i + 1
    ensures forall i, j :: 0 <= i < j < |r| ==> r[i].avgReward >= r[j].avgReward
    ensures forall row :: row in TypeRows(f, incidentType) ==> exists i :: 0 <= i < |r| && r[i] == row.(rank := i + 1)
    ensures forall i :: 0 <= i < |r| ==> r[i].(rank := 0) in TypeRows(f, incidentType)
  {
    var rows := TypeRows(f, incidentType);
    var sorted := Sorting.SortDesc(rows, AverageKey);
    WithRanksSorted(sorted);
    WithRanksMembers(rows, sorted);
    WithRanks(sorted)
  }

  /** `[i.value for i in IncidentType]` */
  const AllIncidentTypeNames: seq<string> := [
    "service_crash", "high_latency", "cpu_spike", "memory_leak", "network_degradation", "timeout_misconfiguration"]

  /** The types `get_strategy_rankings_activity` looks at: the given one if non-empty, else all. */
  function RankedTypes(incidentType: Option<string>): seq<string>
  {
    if incidentType.Some? && incidentType.value != "" then [incidentType.value] else AllIncidentTypeNames
  }

  /** `get_strategy_rankings_activity`: types without a used record are omitted. */
  function GetStrategyRankings(f: StrategyFile, incidentType: Option<string>): (r: map<string, seq<RankRow>>)
    ensures forall t :: t in r <==> t in RankedTypes(incidentType) && |UsedNames(f, t, AllStrategyNames)| > 0
    ensures forall t :: t in r ==> r[t] == RankedRows(f, t)
  {
    map t | t in RankedTypes(incidentType) && |UsedNames(f, t, AllStrategyNames)| > 0 :: RankedRows(f, t)
  }

  /** A ranked row is a used record of that type: its name is valid and its use count positive. */
  lemma RankingsOnlyUsedRecords(f: StrategyFile, incidentType: Option<string>, t: string, i: nat)
    requires t in GetStrategyRankings(f, incidentType) && i < |GetStrategyRankings(f, incidentType)[t]|
    ensures var row := GetStrategyRankings(f, incidentType)[t][i];
      ValidStrategy(row.strategy) && RecordKey(t, row.strategy) in f && row.totalUses > 0
      && row.totalUses == f[RecordKey(t, row.strategy)].totalUses
      && row.avgReward == f[RecordKey(t, row.strategy)].averageReward
  {
    var row := RankedRows(f, t)[i];
    assert row.(rank := 0) in TypeRows(f, t);
    TypeRowsMembers(f, t);
    var s :| s in UsedNames(f, t, AllStrategyNames) && row.(rank := 0) == RowFor(f, t, s);
  }
}
