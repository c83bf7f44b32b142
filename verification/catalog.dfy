/**
 * The static remediation strategy catalog (`project/strategy/strategy_catalog.py`)
 * and the strategy records it is built from (`project/models/strategies.py`).
 * Catalog entries are kept in insertion order, which is the order Python
 * iterates the dictionary in. Description texts are not modelled.
 */
module Catalog {
  import opened Wrappers
  import opened Enums
  import Guardrails

  type Params = map<string, real>

  datatype Action = Action(actionType: RemediationActionType, parameters: Params, order: int)

  datatype Strategy = Strategy(
    name: string,
    targetIncidentTypes: seq<IncidentType>,
    actions: seq<Action>,
    estimatedRecoveryTimeSeconds: real,
    estimatedCost: real)

  type Step = (RemediationActionType, Params)

  function NumberSteps(steps: seq<Step>, from: int): (r: seq<Action>)
    ensures |r| == |steps|
    ensures forall i :: 0 <= i < |r| ==>
      r[i] == Action(steps[i].0, steps[i].1, from + i)
  {
    if |steps| == 0 then [] else [Action(steps[0].0, steps[0].1, from)] + NumberSteps(steps[1..], from + 1)
  }

  /** `_build_strategy`: the steps become actions numbered 0..k-1 in list order. */
  function BuildStrategy(name: string, types: seq<IncidentType>, steps: seq<Step>, recovery: real, cost: real): (s: Strategy)
    ensures s.name == name && s.targetIncidentTypes == types
    ensures |s.actions| == |steps|
    ensures forall i :: 0 <= i < |steps| ==>
      s.actions[i].order == i && s.actions[i].actionType == steps[i].0 && s.actions[i].parameters == steps[i].1
  {
    Strategy(name, types, NumberSteps(steps, 0), recovery, cost)
  }

  const NoParams: Params := map[]

  /** `STRATEGY_CATALOG` as (key, strategy) pairs in insertion order, three per incident type. */
  const Entries: seq<(string, Strategy)> :=
    CrashEntries + LatencyEntries + CpuEntries + MemoryEntries + NetworkEntries + TimeoutEntries

  const CrashEntries: seq<(string, Strategy)> := [
    ("restart_and_verify", RestartAndVerify),
    ("rollback_and_restart", RollbackAndRestart),
    ("scale_and_restart", ScaleAndRestart)]
  const LatencyEntries: seq<(string, Strategy)> := [
    ("scale_out_for_latency", ScaleOutForLatency),
    ("cache_and_rebalance", CacheAndRebalance),
    ("vertical_scale_for_latency", VerticalScaleForLatency)]
  const CpuEntries: seq<(string, Strategy)> := [
    ("vertical_scale_cpu", VerticalScaleCpu),
    ("horizontal_scale_cpu", HorizontalScaleCpu),
    ("restart_for_cpu", RestartForCpu)]
  const MemoryEntries: seq<(string, Strategy)> := [
    ("restart_for_memory", RestartForMemory),
    ("rollback_memory_leak", RollbackMemoryLeak),
    ("scale_and_cache_memory", ScaleAndCacheMemory)]
  const NetworkEntries: seq<(string, Strategy)> := [
    ("rebalance_network", RebalanceNetwork),
    ("scale_and_timeout_network", ScaleAndTimeoutNetwork),
    ("restart_and_rebalance_network", RestartAndRebalanceNetwork)]
  const TimeoutEntries: seq<(string, Strategy)> := [
    ("fix_timeout", FixTimeout),
    ("rollback_timeout", RollbackTimeout),
    ("timeout_and_restart", TimeoutAndRestart)]

  // The eighteen strategies with their actions already numbered; the
  // `...Built` lemmas below show each is what `BuildStrategy` makes of its steps.
  const RestartAndVerify := Strategy("restart_and_verify", [ServiceCrash],
    [Action(RestartService, NoParams, 0)], 30.0, 0.1)
  const RollbackAndRestart := Strategy("rollback_and_restart", [ServiceCrash],
    [Action(RollbackDeployment, NoParams, 0), Action(RestartService, NoParams, 1)], 90.0, 0.6)
  const ScaleAndRestart := Strategy("scale_and_restart", [ServiceCrash],
    [Action(ScaleHorizontal, map["target_instances" := 3.0], 0), Action(RestartService, NoParams, 1)], 60.0, 2.1)
  const ScaleOutForLatency := Strategy("scale_out_for_latency", [HighLatency],
    [Action(ScaleHorizontal, map["target_instances" := 4.0], 0), Action(RebalanceLoad, NoParams, 1)], 45.0, 2.3)
  const CacheAndRebalance := Strategy("cache_and_rebalance", [HighLatency],
    [Action(ClearCache, NoParams, 0), Action(RebalanceLoad, NoParams, 1)], 30.0, 0.4)
  const VerticalScaleForLatency := Strategy("vertical_scale_for_latency", [HighLatency],
    [Action(ScaleVertical, map["target_cpu" := 4.0, "target_memory" := 8.0], 0)], 40.0, 1.5)
  const VerticalScaleCpu := Strategy("vertical_scale_cpu", [CpuSpike],
    [Action(ScaleVertical, map["target_cpu" := 4.0, "target_memory" := 4.0], 0)], 35.0, 1.5)
  const HorizontalScaleCpu := Strategy("horizontal_scale_cpu", [CpuSpike],
    [Action(ScaleHorizontal, map["target_instances" := 4.0], 0), Action(RebalanceLoad, NoParams, 1)], 50.0, 2.3)
  const RestartForCpu := Strategy("restart_for_cpu", [CpuSpike],
    [Action(RestartService, NoParams, 0)], 30.0, 0.1)
  const RestartForMemory := Strategy("restart_for_memory", [MemoryLeak],
    [Action(RestartService, NoParams, 0)], 30.0, 0.1)
  const RollbackMemoryLeak := Strategy("rollback_memory_leak", [MemoryLeak],
    [Action(RollbackDeployment, NoParams, 0), Action(RestartService, NoParams, 1)], 90.0, 0.6)
  const ScaleAndCacheMemory := Strategy("scale_and_cache_memory", [MemoryLeak],
    [Action(ScaleVertical, map["target_cpu" := 2.0, "target_memory" := 8.0], 0), Action(ClearCache, NoParams, 1)], 40.0, 1.6)
  const RebalanceNetwork := Strategy("rebalance_network", [NetworkDegradation],
    [Action(RebalanceLoad, NoParams, 0)], 25.0, 0.3)
  const ScaleAndTimeoutNetwork := Strategy("scale_and_timeout_network", [NetworkDegradation],
    [Action(ScaleHorizontal, map["target_instances" := 3.0], 0), Action(ChangeTimeout, map["new_timeout" := 10000.0], 1)], 50.0, 2.05)
  const RestartAndRebalanceNetwork := Strategy("restart_and_rebalance_network", [NetworkDegradation],
    [Action(RestartService, NoParams, 0), Action(RebalanceLoad, NoParams, 1)], 40.0, 0.4)
  const FixTimeout := Strategy("fix_timeout", [TimeoutMisconfiguration],
    [Action(ChangeTimeout, map["new_timeout" := 5000.0], 0)], 10.0, 0.05)
  const RollbackTimeout := Strategy("rollback_timeout", [TimeoutMisconfiguration],
    [Action(RollbackDeployment, NoParams, 0)], 60.0, 0.5)
  const TimeoutAndRestart := Strategy("timeout_and_restart", [TimeoutMisconfiguration],
    [Action(ChangeTimeout, map["new_timeout" := 5000.0], 0), Action(RestartService, NoParams, 1), Action(RebalanceLoad, NoParams, 2)], 40.0, 0.45)

  /** The crash strategies are what `_build_strategy` makes of their step lists. */
  lemma CrashBuilt()
    ensures RestartAndVerify == BuildStrategy("restart_and_verify", [ServiceCrash],
      [(RestartService, NoParams)], 30.0, 0.1)
    ensures RollbackAndRestart == BuildStrategy("rollback_and_restart", [ServiceCrash],
      [(RollbackDeployment, NoParams), (RestartService, NoParams)], 90.0, 0.6)
    ensures ScaleAndRestart == BuildStrategy("scale_and_restart", [ServiceCrash],
      [(ScaleHorizontal, map["target_instances" := 3.0]), (RestartService, NoParams)], 60.0, 2.1)
  {
  }

  /** The latency strategies are what `_build_strategy` makes of their step lists. */
  lemma LatencyBuilt()
    ensures ScaleOutForLatency == BuildStrategy("scale_out_for_latency", [HighLatency],
      [(ScaleHorizontal, map["target_instances" := 4.0]), (RebalanceLoad, NoParams)], 45.0, 2.3)
    ensures CacheAndRebalance == BuildStrategy("cache_and_rebalance", [HighLatency],
      [(ClearCache, NoParams), (RebalanceLoad, NoParams)], 30.0, 0.4)
    ensures VerticalScaleForLatency == BuildStrategy("vertical_scale_for_latency", [HighLatency],
      [(ScaleVertical, map["target_cpu" := 4.0, "target_memory" := 8.0])], 40.0, 1.5)
  {
  }

  /** The cpu strategies are what `_build_strategy` makes of their step lists. */
  lemma CpuBuilt()
    ensures VerticalScaleCpu == BuildStrategy("vertical_scale_cpu", [CpuSpike],
      [(ScaleVertical, map["target_cpu" := 4.0, "target_memory" := 4.0])], 35.0, 1.5)
    ensures HorizontalScaleCpu == BuildStrategy("horizontal_scale_cpu", [CpuSpike],
      [(ScaleHorizontal, map["target_instances" := 4.0]), (RebalanceLoad, NoParams)], 50.0, 2.3)
    ensures RestartForCpu == BuildStrategy("restart_for_cpu", [CpuSpike],
      [(RestartService, NoParams)], 30.0, 0.1)
  {
  }

  /** The memory strategies are what `_build_strategy` makes of their step lists. */
  lemma MemoryBuilt()
    ensures RestartForMemory == BuildStrategy("restart_for_memory", [MemoryLeak],
      [(RestartService, NoParams)], 30.0, 0.1)
    ensures RollbackMemoryLeak == BuildStrategy("rollback_memory_leak", [MemoryLeak],
      [(RollbackDeployment, NoParams), (RestartService, NoParams)], 90.0, 0.6)
    ensures ScaleAndCacheMemory == BuildStrategy("scale_and_cache_memory", [MemoryLeak],
      [(ScaleVertical, map["target_cpu" := 2.0, "target_memory" := 8.0]), (ClearCache, NoParams)], 40.0, 1.6)
  {
  }

  /** The network strategies are what `_build_strategy` makes of their step lists. */
  lemma NetworkBuilt()
    ensures RebalanceNetwork == BuildStrategy("rebalance_network", [NetworkDegradation],
      [(RebalanceLoad, NoParams)], 25.0, 0.3)
    ensures ScaleAndTimeoutNetwork == BuildStrategy("scale_and_timeout_network", [NetworkDegradation],
      [(ScaleHorizontal, map["target_instances" := 3.0]), (ChangeTimeout, map["new_timeout" := 10000.0])], 50.0, 2.05)
    ensures RestartAndRebalanceNetwork == BuildStrategy("restart_and_rebalance_network", [NetworkDegradation],
      [(RestartService, NoParams), (RebalanceLoad, NoParams)], 40.0, 0.4)
  {
  }

  /** The timeout strategies are what `_build_strategy` makes of their step lists. */
  lemma TimeoutBuilt()
    ensures FixTimeout == BuildStrategy("fix_timeout", [TimeoutMisconfiguration],
      [(ChangeTimeout, map["new_timeout" := 5000.0])], 10.0, 0.05)
    ensures RollbackTimeout == BuildStrategy("rollback_timeout", [TimeoutMisconfiguration],
      [(RollbackDeployment, NoParams)], 60.0, 0.5)
    ensures TimeoutAndRestart == BuildStrategy("timeout_and_restart", [TimeoutMisconfiguration],
      [(ChangeTimeout, map["new_timeout" := 5000.0]), (RestartService, NoParams), (RebalanceLoad, NoParams)], 40.0, 0.45)
  {
  }

  function Keys(es: seq<(string, Strategy)>): (ks: seq<string>)
    ensures |ks| == |es|
    ensures forall i :: 0 <= i < |es| ==> ks[i] == es[i].0
  {
    if |es| == 0 then [] else [es[0].0] + Keys(es[1..])
  }

  /** The catalog's list comprehension over `values()`, for any entry list. */
  function StrategiesIn(es: seq<(string, Strategy)>, t: IncidentType): (r: seq<Strategy>)
    ensures |r| <= |es|
  {
    if |es| == 0 then []
    else
      var rest := StrategiesIn(es[1..], t);
      if t in es[0].1.targetIncidentTypes then [es[0].1] + rest else rest
  }

  /** The comprehension keeps exactly the strategies aimed at `t`. */
  lemma {:induction false} StrategiesInMembers(es: seq<(string, Strategy)>, t: IncidentType)
    ensures forall s :: s in StrategiesIn(es, t) <==> (exists i :: 0 <= i < |es| && es[i].1 == s) && t in s.targetIncidentTypes
  {
    if |es| > 0 {
      StrategiesInMembers(es[1..], t);
      assert forall i :: 1 <= i < |es| ==> es[1..][i - 1] == es[i];
    }
  }

  /** `get_strategies_for_incident` */
  function StrategiesFor(t: IncidentType): seq<Strategy>
  {
    StrategiesIn(Entries, t)
  }

  function LookupIn(es: seq<(string, Strategy)>, name: string): (r: Option<Strategy>)
    ensures r.Some? <==> name in Keys(es)
    ensures r.Some? ==> exists i :: 0 <= i < |es| && es[i] == (name, r.value)
  {
    if |es| == 0 then None
    else if es[0].0 == name then Some(es[0].1)
    else
      var r := LookupIn(es[1..], name);
      assert Keys(es) == [es[0].0] + Keys(es[1..]);
      assert r.Some? ==> exists i :: 1 <= i < |es| && es[i] == (name, r.value) by {
        if r.Some? {
          var i :| 0 <= i < |es[1..]| && es[1..][i] == (name, r.value);
          assert es[i + 1] == (name, r.value);
        }
      }
      r
  }

  /** `get_strategy_by_name`: the entry for a present key; `None` is the `KeyError`. */
  function GetByName(name: string): Option<Strategy>
  {
    LookupIn(Entries, name)
  }

  /** The catalog keys in insertion order. */
  const KeyNames: seq<string> := [
    "restart_and_verify",
    "rollback_and_restart",
    "scale_and_restart",
    "scale_out_for_latency",
    "cache_and_rebalance",
    "vertical_scale_for_latency",
    "vertical_scale_cpu",
    "horizontal_scale_cpu",
    "restart_for_cpu",
    "restart_for_memory",
    "rollback_memory_leak",
    "scale_and_cache_memory",
    "rebalance_network",
    "scale_and_timeout_network",
    "restart_and_rebalance_network",
    "fix_timeout",
    "rollback_timeout",
    "timeout_and_restart"]

  lemma EntriesFrom0()
    ensures forall i :: 0 <= i < 6 ==>
      Entries[i].0 == KeyNames[i] && Entries[i].0 == Entries[i].1.name && |Entries[i].1.targetIncidentTypes| == 1
  {
    assert Entries[0].0 == KeyNames[0] == Entries[0].1.name;
    assert Entries[1].0 == KeyNames[1] == Entries[1].1.name;
    assert Entries[2].0 == KeyNames[2] == Entries[2].1.name;
    assert Entries[3].0 == KeyNames[3] == Entries[3].1.name;
    assert Entries[4].0 == KeyNames[4] == Entries[4].1.name;
    assert Entries[5].0 == KeyNames[5] == Entries[5].1.name;
  }

  lemma EntriesFrom6()
    ensures forall i :: 6 <= i < 12 ==>
      Entries[i].0 == KeyNames[i] && Entries[i].0 == Entries[i].1.name && |Entries[i].1.targetIncidentTypes| == 1
  {
    assert Entries[6].0 == KeyNames[6] == Entries[6].1.name;
    assert Entries[7].0 == KeyNames[7] == Entries[7].1.name;
    assert Entries[8].0 == KeyNames[8] == Entries[8].1.name;
    assert Entries[9].0 == KeyNames[9] == Entries[9].1.name;
    assert Entries[10].0 == KeyNames[10] == Entries[10].1.name;
    assert Entries[11].0 == KeyNames[11] == Entries[11].1.name;
  }

  lemma EntriesFrom12()
    ensures forall i :: 12 <= i < 18 ==>
      Entries[i].0 == KeyNames[i] && Entries[i].0 == Entries[i].1.name && |Entries[i].1.targetIncidentTypes| == 1
  {
    assert Entries[12].0 == KeyNames[12] == Entries[12].1.name;
    assert Entries[13].0 == KeyNames[13] == Entries[13].1.name;
    assert Entries[14].0 == KeyNames[14] == Entries[14].1.name;
    assert Entries[15].0 == KeyNames[15] == Entries[15].1.name;
    assert Entries[16].0 == KeyNames[16] == Entries[16].1.name;
    assert Entries[17].0 == KeyNames[17] == Entries[17].1.name;
  }

  lemma KeysAreNames()
    ensures |Entries| == |KeyNames|
    ensures forall i :: 0 <= i < |Entries| ==> Entries[i].0 == KeyNames[i]
  {
    EntriesFrom0();
    EntriesFrom6();
    EntriesFrom12();
  }

  /**
   * A number that tells many short names apart: the length and the
   * character at `k`, as `|s| * 128 + s[k]` (128 exceeds every ASCII code,
   * so two names share a code only if they share both). It is a proof
   * device: comparing codes replaces comparing whole strings.
   */
  function CharCode(s: string, k: nat): int
  {
    |s| * 128 + (if |s| > k then s[k] as int else 0)
  }

  /** The code that tells the catalog keys apart: the length and the eleventh character. */
  function KeyCode(s: string): int
  {
    CharCode(s, 10)
  }

  /**
   * The codes of the catalog keys, in insertion order. They are worked out
   * by hand, and the `KeyCodesFrom` lemmas check each against `KeyCode`.
   */
  const KeyCodes: seq<int> := [2404, 2670, 2290, 2790, 2546, 3427, 2403, 2655, 2034, 2418, 2661, 2915, 2286, 3316, 3812, 1524, 2153, 2532]

  lemma KeyCodesFrom0()
    ensures forall i :: 0 <= i < 6 ==> KeyCode(KeyNames[i]) == KeyCodes[i]
  {
    var ns := KeyNames;
    assert KeyCode(ns[0]) == 2404;
    assert KeyCode(ns[1]) == 2670;
    assert KeyCode(ns[2]) == 2290;
    assert KeyCode(ns[3]) == 2790;
    assert KeyCode(ns[4]) == 2546;
    assert KeyCode(ns[5]) == 3427;
  }

  lemma KeyCodesFrom6()
    ensures forall i :: 6 <= i < 12 ==> KeyCode(KeyNames[i]) == KeyCodes[i]
  {
    var ns := KeyNames;
    assert KeyCode(ns[6]) == 2403;
    assert KeyCode(ns[7]) == 2655;
    assert KeyCode(ns[8]) == 2034;
    assert KeyCode(ns[9]) == 2418;
    assert KeyCode(ns[10]) == 2661;
    assert KeyCode(ns[11]) == 2915;
  }

  lemma KeyCodesFrom12()
    ensures forall i :: 12 <= i < 18 ==> KeyCode(KeyNames[i]) == KeyCodes[i]
  {
    var ns := KeyNames;
    assert KeyCode(ns[12]) == 2286;
    assert KeyCode(ns[13]) == 3316;
    assert KeyCode(ns[14]) == 3812;
    assert KeyCode(ns[15]) == 1524;
    assert KeyCode(ns[16]) == 2153;
    assert KeyCode(ns[17]) == 2532;
  }

  lemma NamesDistinct()
    ensures forall i, j :: 0 <= i < j < |KeyNames| ==> KeyNames[i] != KeyNames[j]
  {
    KeyCodesFrom0();
    KeyCodesFrom6();
    KeyCodesFrom12();
    CodesDistinct();
  }

  lemma CodesDistinct()
    ensures forall i, j :: 0 <= i < j < |KeyCodes| ==> KeyCodes[i] != KeyCodes[j]
  {
  }

  lemma EntriesNamed()
    ensures forall i :: 0 <= i < |Entries| ==> Entries[i].0 == Entries[i].1.name
  {
    EntriesFrom0();
    EntriesFrom6();
    EntriesFrom12();
  }

  lemma EntriesSingleType()
    ensures forall i :: 0 <= i < |Entries| ==> |Entries[i].1.targetIncidentTypes| == 1
  {
    EntriesFrom0();
    EntriesFrom6();
    EntriesFrom12();
  }

  /** Eighteen entries, each stored under its own name, each for exactly one incident type. */
  lemma CatalogShape()
    ensures |Entries| == 18
    ensures forall i :: 0 <= i < |Entries| ==> Entries[i].0 == Entries[i].1.name
    ensures forall i :: 0 <= i < |Entries| ==> |Entries[i].1.targetIncidentTypes| == 1
    ensures forall i, j :: 0 <= i < j < |Entries| ==> Entries[i].0 != Entries[j].0
  {
    KeysAreNames();
    NamesDistinct();
    EntriesNamed();
    EntriesSingleType();
  }

  /** A lookup by a stored key finds the strategy of that name. */
  lemma GetByNameFindsName(name: string)
    ensures GetByName(name).Some? <==> name in Keys(Entries)
    ensures GetByName(name).Some? ==> GetByName(name).value.name == name
  {
    CatalogShape();
  }

  function Values(es: seq<(string, Strategy)>): (vs: seq<Strategy>)
    ensures |vs| == |es|
    ensures forall i :: 0 <= i < |es| ==> vs[i] == es[i].1
  {
    if |es| == 0 then [] else [es[0].1] + Values(es[1..])
  }

  lemma {:induction false} StrategiesInConcat(a: seq<(string, Strategy)>, b: seq<(string, Strategy)>, t: IncidentType)
    ensures StrategiesIn(a + b, t) == StrategiesIn(a, t) + StrategiesIn(b, t)
    decreases |a|
  {
    if |a| == 0 {
      assert a + b == b;
    } else {
      assert (a + b)[1..] == a[1..] + b;
      StrategiesInConcat(a[1..], b, t);
    }
  }

  predicate AllFor(es: seq<(string, Strategy)>, u: IncidentType)
  {
    forall i :: 0 <= i < |es| ==> es[i].1.targetIncidentTypes == [u]
  }

  /** A block of entries all aimed at `u` contributes all of itself to `u` and nothing to any other type. */
  lemma {:induction false} StrategiesInGroup(es: seq<(string, Strategy)>, u: IncidentType, t: IncidentType)
    requires AllFor(es, u)
    ensures StrategiesIn(es, t) == if t == u then Values(es) else []
  {
    if |es| > 0 {
      assert AllFor(es[1..], u) by {
        forall i | 0 <= i < |es[1..]| ensures es[1..][i].1.targetIncidentTypes == [u] {
          assert es[1..][i] == es[i + 1];
        }
      }
      StrategiesInGroup(es[1..], u, t);
      assert es[0].1.targetIncidentTypes == [u];
    }
  }

  function GroupFor(t: IncidentType): seq<(string, Strategy)>
  {
    match t
    case ServiceCrash => CrashEntries
    case HighLatency => LatencyEntries
    case CpuSpike => CpuEntries
    case MemoryLeak => MemoryEntries
    case NetworkDegradation => NetworkEntries
    case TimeoutMisconfiguration => TimeoutEntries
  }

  lemma CrashAimed()
    ensures AllFor(CrashEntries, ServiceCrash)
  {
  }

  lemma LatencyAimed()
    ensures AllFor(LatencyEntries, HighLatency)
  {
  }

  lemma CpuAimed()
    ensures AllFor(CpuEntries, CpuSpike)
  {
  }

  lemma MemoryAimed()
    ensures AllFor(MemoryEntries, MemoryLeak)
  {
  }

  lemma NetworkAimed()
    ensures AllFor(NetworkEntries, NetworkDegradation)
  {
  }

  lemma TimeoutAimed()
    ensures AllFor(TimeoutEntries, TimeoutMisconfiguration)
  {
  }

  lemma GroupsAimed()
    ensures AllFor(CrashEntries, ServiceCrash) && AllFor(LatencyEntries, HighLatency)
    ensures AllFor(CpuEntries, CpuSpike) && AllFor(MemoryEntries, MemoryLeak)
    ensures AllFor(NetworkEntries, NetworkDegradation) && AllFor(TimeoutEntries, TimeoutMisconfiguration)
  {
    CrashAimed();
    LatencyAimed();
    CpuAimed();
    MemoryAimed();
    NetworkAimed();
    TimeoutAimed();
  }

  /** Filtering six blocks filters each block. */
  lemma StrategiesInSix(a: seq<(string, Strategy)>, b: seq<(string, Strategy)>, c: seq<(string, Strategy)>,
                        d: seq<(string, Strategy)>, e: seq<(string, Strategy)>, f: seq<(string, Strategy)>,
                        t: IncidentType)
    ensures StrategiesIn(a + b + c + d + e + f, t)
      == StrategiesIn(a, t) + StrategiesIn(b, t) + StrategiesIn(c, t)
       + StrategiesIn(d, t) + StrategiesIn(e, t) + StrategiesIn(f, t)
  {
    StrategiesInConcat(a, b, t);
    StrategiesInConcat(a + b, c, t);
    StrategiesInConcat(a + b + c, d, t);
    StrategiesInConcat(a + b + c + d, e, t);
    StrategiesInConcat(a + b + c + d + e, f, t);
  }

  /** Six pieces of which all but the `k`-th are empty concatenate to the `k`-th. */
  lemma OnlyOne<T>(ps: seq<seq<T>>, k: nat)
    requires |ps| == 6 && k < 6
    requires forall i :: 0 <= i < 6 && i != k ==> ps[i] == []
    ensures ps[0] + ps[1] + ps[2] + ps[3] + ps[4] + ps[5] == ps[k]
  {
  }

  function TypeIndex(t: IncidentType): nat
  {
    match t
    case ServiceCrash => 0
    case HighLatency => 1
    case CpuSpike => 2
    case MemoryLeak => 3
    case NetworkDegradation => 4
    case TimeoutMisconfiguration => 5
  }

  /** Six blocks, one per type in declaration order: filtering the whole yields the matching block. */
  lemma StrategiesInSixGroups(a: seq<(string, Strategy)>, b: seq<(string, Strategy)>, c: seq<(string, Strategy)>,
                              d: seq<(string, Strategy)>, e: seq<(string, Strategy)>, f: seq<(string, Strategy)>,
                              t: IncidentType)
    requires AllFor(a, ServiceCrash) && AllFor(b, HighLatency) && AllFor(c, CpuSpike)
    requires AllFor(d, MemoryLeak) && AllFor(e, NetworkDegradation) && AllFor(f, TimeoutMisconfiguration)
    ensures StrategiesIn(a + b + c + d + e + f, t) == Values(
      match t
      case ServiceCrash => a
      case HighLatency => b
      case CpuSpike => c
      case MemoryLeak => d
      case NetworkDegradation => e
      case TimeoutMisconfiguration => f)
  {
    var pa, pb, pc := StrategiesIn(a, t), StrategiesIn(b, t), StrategiesIn(c, t);
    var pd, pe, pf := StrategiesIn(d, t), StrategiesIn(e, t), StrategiesIn(f, t);
    StrategiesInSix(a, b, c, d, e, f, t);
    StrategiesInGroup(a, ServiceCrash, t);
    StrategiesInGroup(b, HighLatency, t);
    StrategiesInGroup(c, CpuSpike, t);
    StrategiesInGroup(d, MemoryLeak, t);
    StrategiesInGroup(e, NetworkDegradation, t);
    StrategiesInGroup(f, TimeoutMisconfiguration, t);
    var ps := [pa, pb, pc, pd, pe, pf];
    assert ps[0] + ps[1] + ps[2] + ps[3] + ps[4] + ps[5] == pa + pb + pc + pd + pe + pf;
    OnlyOne(ps, TypeIndex(t));
  }

  /** A type's strategies are exactly its own block of the catalog. */
  lemma StrategiesForIsGroup(t: IncidentType)
    ensures StrategiesFor(t) == Values(GroupFor(t))
  {
    GroupsAimed();
    StrategiesInSixGroups(CrashEntries, LatencyEntries, CpuEntries, MemoryEntries, NetworkEntries, TimeoutEntries, t);
  }

  lemma GroupAimed(t: IncidentType)
    ensures |GroupFor(t)| == 3 && AllFor(GroupFor(t), t)
  {
    match t
    case ServiceCrash => CrashAimed();
    case HighLatency => LatencyAimed();
    case CpuSpike => CpuAimed();
    case MemoryLeak => MemoryAimed();
    case NetworkDegradation => NetworkAimed();
    case TimeoutMisconfiguration => TimeoutAimed();
  }

  lemma AimedValues(es: seq<(string, Strategy)>, t: IncidentType)
    requires AllFor(es, t)
    ensures forall s :: s in Values(es) ==> s.targetIncidentTypes == [t]
  {
    var vs := Values(es);
    assert forall i :: 0 <= i < |vs| ==> vs[i].targetIncidentTypes == [t];
  }

  /** Every incident type has exactly three strategies, all aimed at it. */
  lemma ThreePerType(t: IncidentType)
    ensures |StrategiesFor(t)| == 3
    ensures forall s :: s in StrategiesFor(t) ==> s.targetIncidentTypes == [t]
  {
    StrategiesForIsGroup(t);
    GroupAimed(t);
    AimedValues(GroupFor(t), t);
  }

  predicate AllNamed(es: seq<(string, Strategy)>)
  {
    forall i :: 0 <= i < |es| ==> es[i].1.name != ""
  }

  lemma CrashNamed()
    ensures AllNamed(CrashEntries)
  {
  }

  lemma LatencyNamed()
    ensures AllNamed(LatencyEntries)
  {
  }

  lemma CpuNamed()
    ensures AllNamed(CpuEntries)
  {
  }

  lemma MemoryNamed()
    ensures AllNamed(MemoryEntries)
  {
  }

  lemma NetworkNamed()
    ensures AllNamed(NetworkEntries)
  {
  }

  lemma TimeoutNamed()
    ensures AllNamed(TimeoutEntries)
  {
  }

  lemma GroupNamed(t: IncidentType)
    ensures AllNamed(GroupFor(t))
  {
    match t
    case ServiceCrash => CrashNamed();
    case HighLatency => LatencyNamed();
    case CpuSpike => CpuNamed();
    case MemoryLeak => MemoryNamed();
    case NetworkDegradation => NetworkNamed();
    case TimeoutMisconfiguration => TimeoutNamed();
  }

  lemma NamedValues(es: seq<(string, Strategy)>)
    requires AllNamed(es)
    ensures forall s :: s in Values(es) ==> s.name != ""
  {
    var vs := Values(es);
    assert forall i :: 0 <= i < |vs| ==> vs[i].name != "";
  }

  /** No catalog strategy has the empty name, so a reply without a pick never matches one. */
  lemma NamesNonEmpty(t: IncidentType)
    ensures forall s :: s in StrategiesFor(t) ==> s.name != ""
  {
    StrategiesForIsGroup(t);
    GroupNamed(t);
    NamedValues(GroupFor(t));
  }

  /** No two actions of the list have type `a`. */
  predicate AtMostOnce(acts: seq<Action>, a: RemediationActionType)
  {
    forall i, j :: 0 <= i < j < |acts| && acts[i].actionType == a ==> acts[j].actionType != a
  }

  /** The parameter rules of the default guardrail configuration let the action through. */
  predicate PassesDefaultLimits(a: Action, st: Guardrails.SystemState)
  {
    var c := Guardrails.DefaultConfig;
    var name := ActionTypeName(a.actionType);
    !Guardrails.Is(Guardrails.HorizontalScaleLimits(c, name, a.parameters, st), Guardrails.Block)
    && Guardrails.VerticalScaleLimits(c, name, a.parameters).None?
    && Guardrails.TimeoutBounds(c, name, a.parameters).None?
  }

  predicate SafeStrategy(s: Strategy, st: Guardrails.SystemState)
  {
    (forall k :: 0 <= k < |s.actions| ==> PassesDefaultLimits(s.actions[k], st))
    && AtMostOnce(s.actions, RestartService) && AtMostOnce(s.actions, RollbackDeployment)
  }

  // One lemma per catalog strategy keeps each evaluation small.

  lemma SafeRestartAndVerify(st: Guardrails.SystemState)
    ensures SafeStrategy(RestartAndVerify, st)
  {
  }

  lemma SafeRollbackAndRestart(st: Guardrails.SystemState)
    ensures SafeStrategy(RollbackAndRestart, st)
  {
  }

  lemma SafeScaleAndRestart(st: Guardrails.SystemState)
    ensures SafeStrategy(ScaleAndRestart, st)
  {
  }

  lemma SafeScaleOutForLatency(st: Guardrails.SystemState)
    ensures SafeStrategy(ScaleOutForLatency, st)
  {
  }

  lemma SafeCacheAndRebalance(st: Guardrails.SystemState)
    ensures SafeStrategy(CacheAndRebalance, st)
  {
  }

  lemma SafeVerticalScaleForLatency(st: Guardrails.SystemState)
    ensures SafeStrategy(VerticalScaleForLatency, st)
  {
  }

  lemma SafeVerticalScaleCpu(st: Guardrails.SystemState)
    ensures SafeStrategy(VerticalScaleCpu, st)
  {
  }

  lemma SafeHorizontalScaleCpu(st: Guardrails.SystemState)
    ensures SafeStrategy(HorizontalScaleCpu, st)
  {
  }

  lemma SafeRestartForCpu(st: Guardrails.SystemState)
    ensures SafeStrategy(RestartForCpu, st)
  {
  }

  lemma SafeRestartForMemory(st: Guardrails.SystemState)
    ensures SafeStrategy(RestartForMemory, st)
  {
  }

  lemma SafeRollbackMemoryLeak(st: Guardrails.SystemState)
    ensures SafeStrategy(RollbackMemoryLeak, st)
  {
  }

  lemma SafeScaleAndCacheMemory(st: Guardrails.SystemState)
    ensures SafeStrategy(ScaleAndCacheMemory, st)
  {
  }

  lemma SafeRebalanceNetwork(st: Guardrails.SystemState)
    ensures SafeStrategy(RebalanceNetwork, st)
  {
  }

  lemma SafeScaleAndTimeoutNetwork(st: Guardrails.SystemState)
    ensures SafeStrategy(ScaleAndTimeoutNetwork, st)
  {
  }

  lemma SafeRestartAndRebalanceNetwork(st: Guardrails.SystemState)
    ensures SafeStrategy(RestartAndRebalanceNetwork, st)
  {
  }

  lemma SafeFixTimeout(st: Guardrails.SystemState)
    ensures SafeStrategy(FixTimeout, st)
  {
  }

  lemma SafeRollbackTimeout(st: Guardrails.SystemState)
    ensures SafeStrategy(RollbackTimeout, st)
  {
  }

  lemma SafeTimeoutAndRestart(st: Guardrails.SystemState)
    ensures SafeStrategy(TimeoutAndRestart, st)
  {
  }

  lemma SafeCrash(st: Guardrails.SystemState)
    ensures forall e :: e in CrashEntries ==> SafeStrategy(e.1, st)
  {
    SafeRestartAndVerify(st);
    SafeRollbackAndRestart(st);
    SafeScaleAndRestart(st);
  }

  lemma SafeLatency(st: Guardrails.SystemState)
    ensures forall e :: e in LatencyEntries ==> SafeStrategy(e.1, st)
  {
    SafeScaleOutForLatency(st);
    SafeCacheAndRebalance(st);
    SafeVerticalScaleForLatency(st);
  }

  lemma SafeCpu(st: Guardrails.SystemState)
    ensures forall e :: e in CpuEntries ==> SafeStrategy(e.1, st)
  {
    SafeVerticalScaleCpu(st);
    SafeHorizontalScaleCpu(st);
    SafeRestartForCpu(st);
  }

  lemma SafeMemory(st: Guardrails.SystemState)
    ensures forall e :: e in MemoryEntries ==> SafeStrategy(e.1, st)
  {
    SafeRestartForMemory(st);
    SafeRollbackMemoryLeak(st);
    SafeScaleAndCacheMemory(st);
  }

  lemma SafeNetwork(st: Guardrails.SystemState)
    ensures forall e :: e in NetworkEntries ==> SafeStrategy(e.1, st)
  {
    SafeRebalanceNetwork(st);
    SafeScaleAndTimeoutNetwork(st);
    SafeRestartAndRebalanceNetwork(st);
  }

  lemma SafeTimeout(st: Guardrails.SystemState)
    ensures forall e :: e in TimeoutEntries ==> SafeStrategy(e.1, st)
  {
    SafeFixTimeout(st);
    SafeRollbackTimeout(st);
    SafeTimeoutAndRestart(st);
  }

  /**
   * Every catalog action passes the parameter rules of the default guardrail
   * configuration, and no strategy restarts or rolls back more than once.
   */
  lemma CatalogWithinDefaultGuardrails(st: Guardrails.SystemState)
    ensures forall e :: e in Entries ==> SafeStrategy(e.1, st)
  {
    SafeCrash(st);
    SafeLatency(st);
    SafeCpu(st);
    SafeMemory(st);
    SafeNetwork(st);
    SafeTimeout(st);
  }
}
