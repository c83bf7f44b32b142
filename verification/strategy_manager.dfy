/**
 * `StrategyManager` (`project/strategy/strategy_manager.py`): UCB1-style
 * selection among the catalog strategies for an incident type, with
 * repetition and consecutive-failure penalties, and the reporting-only
 * epsilon that decays on selection and success but rises on failure.
 *
 * The exploration bonus `c·sqrt(ln(max(N, 1)) / n)` is an irrational
 * function of the total runs `N` and the strategy's uses `n`; it is a
 * parameter here.
 */
module StrategyManager {
  import opened Wrappers
  import opened Enums
  import opened Catalog
  import opened StrategyStats
  import ExperienceStore

  type Bonus = (int, int) -> real

  /** The manager's mutable state. Failure counters are keyed by (incident type, strategy name). */
  datatype Manager = Manager(
    epsilon: real,
    minEpsilon: real,
    epsilonDecay: real,
    lastSelected: map<IncidentType, string>,
    consecutiveFailures: map<(IncidentType, string), int>)

  const DefaultManager := Manager(0.3, 0.05, 0.95, map[], map[])

  /** A UCB score: untried strategies score +∞, which subtracting a penalty leaves infinite. */
  datatype Score = Infinite | Finite(value: real)

  predicate ScoreAbove(a: Score, b: Score)
  {
    (a.Infinite? && b.Finite?) || (a.Finite? && b.Finite? && a.value > b.value)
  }

  /** The sort key `(score, -estimated_recovery_time_seconds)`, compared lexicographically. */
  type RankKey = (Score, real)

  predicate KeyAbove(a: RankKey, b: RankKey)
  {
    ScoreAbove(a.0, b.0) || (a.0 == b.0 && a.1 > b.1)
  }

  lemma KeyAboveTotal(a: RankKey, b: RankKey)
    ensures KeyAbove(a, b) || KeyAbove(b, a) || a == b
    ensures !(KeyAbove(a, b) && KeyAbove(b, a))
  {
  }

  /**
   * The element `sorted(..., reverse=True)[0]` picks: a maximal key, and the
   * earliest one among equal maximal keys (the sort is stable).
   */
  function FirstBest(keys: seq<RankKey>): (i: nat)
    requires |keys| > 0
    ensures i < |keys|
    ensures forall j :: 0 <= j < |keys| ==> !KeyAbove(keys[j], keys[i])
    ensures forall j :: 0 <= j < i ==> KeyAbove(keys[i], keys[j])
  {
    if |keys| == 1 then 0
    else
      var k := FirstBest(keys[..|keys| - 1]);
      var last := keys[|keys| - 1];
      KeyAboveTotal(last, keys[k]);
      if KeyAbove(last, keys[k]) then
        assert forall j :: 0 <= j < |keys| - 1 ==> KeyAbove(last, keys[j]) by {
          forall j | 0 <= j < |keys| - 1 ensures KeyAbove(last, keys[j]) {
            KeyAboveTotal(keys[k], keys[j]);
          }
        }
        |keys| - 1
      else k
  }

  /** The store's record for strategy `name` and type `t`, if any. */
  function RecordFor(records: seq<StrategyRecord>, name: string, t: IncidentType): Option<StrategyRecord>
  {
    match ExperienceStore.Find(records, ExperienceStore.RecordKey(name, t))
    case Some(i) => Some(records[i])
    case None => None
  }

  /** `record_map.get(name, StrategyRecord(...)).total_uses`: zero when there is no record. */
  function UsesOf(records: seq<StrategyRecord>, name: string, t: IncidentType): int
  {
    match RecordFor(records, name, t)
    case Some(r) => r.totalUses
    case None => 0
  }

  /** Untried: no record, or a record with no uses. */
  predicate Untried(records: seq<StrategyRecord>, name: string, t: IncidentType)
  {
    RecordFor(records, name, t).None? || RecordFor(records, name, t).value.totalUses == 0
  }

  /** The score one strategy gets in UCB mode. */
  function ScoreOf(m: Manager, records: seq<StrategyRecord>, t: IncidentType, s: Strategy, totalRuns: int, bonus: Bonus): (r: Score)
    ensures r.Infinite? <==> Untried(records, s.name, t)
  {
    match RecordFor(records, s.name, t)
    case None => Infinite
    case Some(rec) =>
      if rec.totalUses == 0 then Infinite
      else
        var fails := Get(m.consecutiveFailures, (t, s.name), 0);
        var base := rec.averageReward + bonus(totalRuns, rec.totalUses) - fails as real * 5.0;
        Finite(if t in m.lastSelected && m.lastSelected[t] == s.name then base - 20.0 else base)
  }

  function RankKeys(m: Manager, records: seq<StrategyRecord>, t: IncidentType, ss: seq<Strategy>, totalRuns: int, bonus: Bonus): (ks: seq<RankKey>)
    ensures |ks| == |ss|
    ensures forall i :: 0 <= i < |ss| ==>
      ks[i] == (ScoreOf(m, records, t, ss[i], totalRuns, bonus), -ss[i].estimatedRecoveryTimeSeconds)
  {
    seq(|ss|, i requires 0 <= i < |ss| => (ScoreOf(m, records, t, ss[i], totalRuns, bonus), -ss[i].estimatedRecoveryTimeSeconds))
  }

  /** The position `min(candidates, key=uses)` returns: a least-used one, the first among ties. */
  function FirstLeastUsed(records: seq<StrategyRecord>, t: IncidentType, cs: seq<Strategy>): (i: nat)
    requires |cs| > 0
    ensures i < |cs|
    ensures forall j :: 0 <= j < |cs| ==> UsesOf(records, cs[i].name, t) <= UsesOf(records, cs[j].name, t)
    ensures forall j :: 0 <= j < i ==> UsesOf(records, cs[j].name, t) > UsesOf(records, cs[i].name, t)
  {
    if |cs| == 1 then 0
    else
      var k := FirstLeastUsed(records, t, cs[..|cs| - 1]);
      if UsesOf(records, cs[|cs| - 1].name, t) < UsesOf(records, cs[k].name, t) then |cs| - 1 else k
  }

  /** The strategies not named `last`, in order. */
  function NotNamed(ss: seq<Strategy>, last: Option<string>): (r: seq<Strategy>)
    ensures forall s :: s in r <==> s in ss && (last.None? || s.name != last.value)
  {
    if |ss| == 0 then []
    else
      var rest := NotNamed(ss[1..], last);
      assert forall s :: s in ss <==> s == ss[0] || s in ss[1..];
      if last.None? || ss[0].name != last.value then [ss[0]] + rest else rest
  }

  /** The force-explore candidates: every strategy but the last selected one, or all if that leaves none. */
  function ExploreCandidates(ss: seq<Strategy>, last: Option<string>): (r: seq<Strategy>)
    requires |ss| > 0
    ensures |r| > 0
    ensures forall s :: s in r ==> s in ss
    ensures (exists s :: s in ss && (last.None? || s.name != last.value)) ==>
      forall s :: s in r ==> last.None? || s.name != last.value
  {
    var c := NotNamed(ss, last);
    if |c| == 0 then ss else c
  }

  function LastSelected(m: Manager, t: IncidentType): Option<string>
  {
    if t in m.lastSelected then Some(m.lastSelected[t]) else None
  }

  /** Σ total_uses over the records of type `t`. */
  function TotalRuns(records: seq<StrategyRecord>, t: IncidentType): int
  {
    ExperienceStore.TotalUses(ExperienceStore.RecordsOfType(records, Some(t)))
  }

  /** The strategy picked from a list of two or more, before the bookkeeping. */
  function Pick(m: Manager, records: seq<StrategyRecord>, t: IncidentType, ss: seq<Strategy>, forceExplore: bool, bonus: Bonus): (s: Strategy)
    requires |ss| > 0
    ensures s in ss
  {
    if forceExplore then
      var cs := ExploreCandidates(ss, LastSelected(m, t));
      cs[FirstLeastUsed(records, t, cs)]
    else
      ss[FirstBest(RankKeys(m, records, t, ss, TotalRuns(records, t), bonus))]
  }

  /** An exploration rate after one decay step: scaled by `rate`, but never below `floor`. */
  function Decay(epsilon: real, floor: real, rate: real): (e: real)
    ensures e >= floor
    ensures e == floor || e == epsilon * rate
  {
    Max(floor, epsilon * rate)
  }

  /** The manager's exploration rate after one selection. */
  function Decayed(m: Manager): real
  {
    Decay(m.epsilon, m.minEpsilon, m.epsilonDecay)
  }

  /** What a selection returns: the strategy and the manager state after it. */
  datatype Selection = Selection(strategy: Strategy, manager: Manager)

  /** `select_strategy` over a given list of applicable strategies; `None` is the `ValueError`. */
  function SelectFrom(m: Manager, records: seq<StrategyRecord>, t: IncidentType, ss: seq<Strategy>, forceExplore: bool, bonus: Bonus): (r: Option<Selection>)
    ensures r.None? <==> |ss| == 0
    ensures r.Some? ==> r.value.strategy in ss
    ensures |ss| == 1 ==> r == Some(Selection(ss[0], m))
    ensures |ss| > 1 ==> r.value.manager.lastSelected == m.lastSelected[t := r.value.strategy.name]
    ensures |ss| > 1 ==> r.value.manager.epsilon == Decayed(m)
    ensures r.Some? ==> (r.value.manager.consecutiveFailures == m.consecutiveFailures
      && r.value.manager.minEpsilon == m.minEpsilon && r.value.manager.epsilonDecay == m.epsilonDecay)
  {
    if |ss| == 0 then None
    else if |ss| == 1 then Some(Selection(ss[0], m))
    else
      var s := Pick(m, records, t, ss, forceExplore, bonus);
      Some(Selection(s, m.(lastSelected := m.lastSelected[t := s.name],
                            epsilon := Decayed(m))))
  }

  /** `select_strategy`: selection among the catalog's strategies for the type. */
  function Select(m: Manager, records: seq<StrategyRecord>, t: IncidentType, forceExplore: bool, bonus: Bonus): Option<Selection>
  {
    SelectFrom(m, records, t, StrategiesFor(t), forceExplore, bonus)
  }

  /** Every type has strategies, so selection never raises, and it picks one aimed at the type. */
  lemma SelectAlwaysApplicable(m: Manager, records: seq<StrategyRecord>, t: IncidentType, forceExplore: bool, bonus: Bonus)
    ensures Select(m, records, t, forceExplore, bonus).Some?
    ensures Select(m, records, t, forceExplore, bonus).value.strategy in StrategiesFor(t)
    ensures t in Select(m, records, t, forceExplore, bonus).value.strategy.targetIncidentTypes
  {
    ThreePerType(t);
  }

  /** In UCB mode an untried strategy always wins over every tried one. */
  lemma UntriedStrategiesComeFirst(m: Manager, records: seq<StrategyRecord>, t: IncidentType, ss: seq<Strategy>, bonus: Bonus)
    requires |ss| > 1
    requires exists s :: s in ss && Untried(records, s.name, t)
    ensures Untried(records, SelectFrom(m, records, t, ss, false, bonus).value.strategy.name, t)
  {
    var ks := RankKeys(m, records, t, ss, TotalRuns(records, t), bonus);
    var i := FirstBest(ks);
    var s :| s in ss && Untried(records, s.name, t);
    var j :| 0 <= j < |ss| && ss[j] == s;
    assert ks[j].0.Infinite?;
    assert !KeyAbove(ks[j], ks[i]);
  }

  /** Among equally scored strategies, the one with the shorter estimated recovery time wins. */
  lemma TiesPreferFasterRecovery(m: Manager, records: seq<StrategyRecord>, t: IncidentType, ss: seq<Strategy>, bonus: Bonus, j: nat)
    requires |ss| > 1 && j < |ss|
    requires var ks := RankKeys(m, records, t, ss, TotalRuns(records, t), bonus);
      var w := SelectFrom(m, records, t, ss, false, bonus).value.strategy;
      ScoreOf(m, records, t, ss[j], TotalRuns(records, t), bonus) == ScoreOf(m, records, t, w, TotalRuns(records, t), bonus)
    ensures SelectFrom(m, records, t, ss, false, bonus).value.strategy.estimatedRecoveryTimeSeconds
      <= ss[j].estimatedRecoveryTimeSeconds
  {
    var ks := RankKeys(m, records, t, ss, TotalRuns(records, t), bonus);
    var i := FirstBest(ks);
    assert !KeyAbove(ks[j], ks[i]);
  }

  /**
   * A tried strategy scores its average reward plus the bonus, less five per
   * consecutive failure and twenty if it was the last pick; with a
   * non-negative bonus that is at least the average less the penalties.
   */
  lemma TriedScore(m: Manager, records: seq<StrategyRecord>, t: IncidentType, s: Strategy, n: int, bonus: Bonus)
    requires !Untried(records, s.name, t)
    requires bonus(n, RecordFor(records, s.name, t).value.totalUses) >= 0.0
    ensures var rec := RecordFor(records, s.name, t).value;
      var penalty := Get(m.consecutiveFailures, (t, s.name), 0) as real * 5.0
        + (if LastSelected(m, t) == Some(s.name) then 20.0 else 0.0);
      ScoreOf(m, records, t, s, n, bonus).value >= rec.averageReward - penalty
  {
  }

  /** Forced exploration picks a least-used strategy, and avoids repeating the last pick whenever it can. */
  lemma ForceExploreLeastUsed(m: Manager, records: seq<StrategyRecord>, t: IncidentType, ss: seq<Strategy>, bonus: Bonus)
    requires |ss| > 1
    ensures var s := SelectFrom(m, records, t, ss, true, bonus).value.strategy;
      var last := LastSelected(m, t);
      ((exists o :: o in ss && (last.None? || o.name != last.value)) ==>
        (last.None? || s.name != last.value)
        && forall o :: o in ss && (last.None? || o.name != last.value) ==> UsesOf(records, s.name, t) <= UsesOf(records, o.name, t))
  {
    var last := LastSelected(m, t);
    var cs := ExploreCandidates(ss, last);
    var i := FirstLeastUsed(records, t, cs);
    if exists o :: o in ss && (last.None? || o.name != last.value) {
      assert cs == NotNamed(ss, last);
      forall o | o in ss && (last.None? || o.name != last.value)
        ensures UsesOf(records, cs[i].name, t) <= UsesOf(records, o.name, t)
      {
        var j :| 0 <= j < |cs| && cs[j] == o;
      }
    }
  }

  /** `mark_strategy_success` */
  function MarkSuccess(m: Manager, name: string, t: IncidentType, reward: real): (m': Manager)
    ensures m'.consecutiveFailures == m.consecutiveFailures[(t, name) := 0]
    ensures reward > 50.0 ==> m'.epsilon == Max(m.minEpsilon, m.epsilon * 0.98)
    ensures reward <= 50.0 ==> m'.epsilon == m.epsilon
    ensures m'.lastSelected == m.lastSelected && m'.minEpsilon == m.minEpsilon && m'.epsilonDecay == m.epsilonDecay
  {
    m.(consecutiveFailures := m.consecutiveFailures[(t, name) := 0],
       epsilon := if reward > 50.0 then Max(m.minEpsilon, m.epsilon * 0.98) else m.epsilon)
  }

  /** `mark_strategy_failure` */
  function MarkFailure(m: Manager, name: string, t: IncidentType): (m': Manager)
    ensures m'.consecutiveFailures == m.consecutiveFailures[(t, name) := Get(m.consecutiveFailures, (t, name), 0) + 1]
    ensures m'.epsilon == Min(0.5, m.epsilon * 1.1)
    ensures m'.lastSelected == m.lastSelected && m'.minEpsilon == m.minEpsilon && m'.epsilonDecay == m.epsilonDecay
  {
    m.(consecutiveFailures := m.consecutiveFailures[(t, name) := Get(m.consecutiveFailures, (t, name), 0) + 1],
       epsilon := Min(0.5, m.epsilon * 1.1))
  }

  /** A success clears the pair's failure streak, so the failure penalty disappears from its next score. */
  lemma SuccessClearsPenalty(m: Manager, name: string, t: IncidentType, reward: real)
    ensures Get(MarkSuccess(m, name, t, reward).consecutiveFailures, (t, name), 0) == 0
  {
  }

  /** k failures in a row leave a streak of k. */
  lemma {:induction false} FailuresAccumulate(m: Manager, name: string, t: IncidentType, k: nat)
    requires (t, name) !in m.consecutiveFailures
    ensures Get(FailMany(m, name, t, k).consecutiveFailures, (t, name), 0) == k
  {
    if k > 0 {
      FailuresAccumulate(m, name, t, k - 1);
    }
  }

  function FailMany(m: Manager, name: string, t: IncidentType, k: nat): Manager
  {
    if k == 0 then m else MarkFailure(FailMany(m, name, t, k - 1), name, t)
  }

  /** The epsilon floor: `min_epsilon` is non-negative, at most 0.5, and epsilon has not gone below it. */
  predicate EpsilonFloor(m: Manager)
  {
    0.0 <= m.minEpsilon <= 0.5 && m.minEpsilon <= m.epsilon
  }

  /** One event the manager reacts to. */
  datatype Event =
    | Selected(t: IncidentType, s: string)
    | Succeeded(t: IncidentType, s: string, reward: real)
    | Failed(t: IncidentType, s: string)

  /** The manager after one event; a selection's effect on epsilon and the last pick is that of `SelectFrom` with two or more candidates. */
  function Step(m: Manager, e: Event): Manager
  {
    match e
    case Selected(t, s) => m.(lastSelected := m.lastSelected[t := s], epsilon := Decayed(m))
    case Succeeded(t, s, reward) => MarkSuccess(m, s, t, reward)
    case Failed(t, s) => MarkFailure(m, s, t)
  }

  function Run(m: Manager, es: seq<Event>): Manager
  {
    if |es| == 0 then m else Step(Run(m, es[..|es| - 1]), es[|es| - 1])
  }

  /** No sequence of selections, successes and failures drives epsilon below its floor. */
  lemma {:induction false} EpsilonNeverBelowFloor(m: Manager, es: seq<Event>)
    requires EpsilonFloor(m)
    ensures EpsilonFloor(Run(m, es))
    ensures Run(m, es).minEpsilon == m.minEpsilon
  {
    if |es| > 0 {
      EpsilonNeverBelowFloor(m, es[..|es| - 1]);
      var p := Run(m, es[..|es| - 1]);
      assert p.epsilon * 1.1 >= p.epsilon;
    }
  }

  /** Epsilon is not monotone: a failure raises it. */
  lemma FailureRaisesEpsilon()
    ensures MarkFailure(DefaultManager, "restart_and_verify", ServiceCrash).epsilon > DefaultManager.epsilon
  {
  }

  /** What `get_strategy_recommendation` reports. */
  datatype Recommendation = Recommendation(
    incidentType: IncidentType,
    availableStrategies: seq<string>,
    historicalDataAvailable: bool,
    currentEpsilon: real,
    bestKnown: seq<StrategyRecord>,
    untried: seq<Strategy>)

  function Names(ss: seq<Strategy>): (r: seq<string>)
    ensures |r| == |ss| && forall i :: 0 <= i < |ss| ==> r[i] == ss[i].name
  {
    seq(|ss|, i requires 0 <= i < |ss| => ss[i].name)
  }

  /** The available strategies whose name no best-known record carries. */
  function UntriedAmong(ss: seq<Strategy>, best: seq<StrategyRecord>): (r: seq<Strategy>)
    ensures forall s :: s in r <==> s in ss && forall b :: b in best ==> b.strategyName != s.name
  {
    if |ss| == 0 then []
    else
      var rest := UntriedAmong(ss[1..], best);
      assert forall s :: s in ss <==> s == ss[0] || s in ss[1..];
      if forall b :: b in best ==> b.strategyName != ss[0].name then [ss[0]] + rest else rest
  }

  function RecommendationFor(m: Manager, store: ExperienceStore.Store, t: IncidentType): (r: Recommendation)
    ensures r.availableStrategies == Names(StrategiesFor(t))
    ensures r.historicalDataAvailable <==> |r.bestKnown| > 0
    ensures r.currentEpsilon == m.epsilon
    ensures |r.bestKnown| <= |StrategiesFor(t)|
    ensures forall b :: b in r.bestKnown ==> b in store.records && b.incidentType == t && b.totalUses > 0
    ensures forall s :: s in StrategiesFor(t) ==>
      (s in r.untried <==> forall b :: b in r.bestKnown ==> b.strategyName != s.name)
  {
    var available := StrategiesFor(t);
    var best := ExperienceStore.BestStrategies(store, t, |available|);
    Recommendation(t, Names(available), |best| > 0, m.epsilon, best, UntriedAmong(available, best))
  }
}
