/**
 * The memory activities of `project/activities/memory_activities.py` over
 * an in-memory list of stored experience dictionaries: store, best-strategy
 * retrieval, recent retrieval, the learning summary and the lookup of the
 * best previous success. Identifiers and timestamps are supplied by the caller.
 */
module MemoryActivities {
  import opened Wrappers
  import opened Enums
  import Sorting
  import ExperienceModel

  /**
   * One stored experience dictionary; `None` is a missing key. The
   * evaluator stores `Experience.model_dump`, which names the recovery time
   * `recovery_time_seconds`; the standalone runner stores its own dictionary,
   * which names it `recovery_time`, the key the summary reads.
   */
  datatype Memory = Memory(
    id: string,
    timestamp: int,
    incidentType: Option<string>,
    strategyUsed: Option<string>,
    reward: Option<real>,
    success: Option<bool>,
    recoveryTime: Option<real>,
    recoveryTimeSeconds: Option<real>,
    toolsCalled: Option<seq<string>>)

  datatype StoreReceipt = StoreReceipt(experienceId: string, totalMemories: nat)

  /** `store_experience_activity`: stamps the record and appends it. */
  function StoreExperience(ms: seq<Memory>, e: Memory, id: string, now: int): (r: (seq<Memory>, StoreReceipt))
    ensures r.0 == ms + [e.(id := id, timestamp := now)]
    ensures r.1.experienceId == id && r.1.totalMemories == |ms| + 1 == |r.0|
  {
    var stored := ms + [e.(id := id, timestamp := now)];
    (stored, StoreReceipt(id, |stored|))
  }

  function StrategyOf(m: Memory): string { m.strategyUsed.GetOr("unknown") }

  function RewardOf(m: Memory): real { m.reward.GetOr(0.0) }

  /** `[m for m in memories if m.get("incident_type") == incident_type]` */
  function OfType(ms: seq<Memory>, t: string): (r: seq<Memory>)
    ensures forall m :: m in r <==> m in ms && m.incidentType == Some(t)
    ensures |r| <= |ms|
  {
    if |ms| == 0 then [] else
      var rest := OfType(ms[..|ms| - 1], t);
      var m := ms[|ms| - 1];
      assert ms == ms[..|ms| - 1] + [m];
      if m.incidentType == Some(t) then rest + [m] else rest
  }

  /** The strategies of `ms` in order of first appearance, as a dictionary's keys would be. */
  function Names(ms: seq<Memory>): (r: seq<string>)
    ensures forall s :: s in r <==> exists m :: m in ms && StrategyOf(m) == s
    ensures forall i, j :: 0 <= i < j < |r| ==> r[i] != r[j]
  {
    if |ms| == 0 then [] else
      var rest := Names(ms[..|ms| - 1]);
      var m := ms[|ms| - 1];
      assert ms == ms[..|ms| - 1] + [m];
      if StrategyOf(m) in rest then rest else rest + [StrategyOf(m)]
  }

  /** The rewards grouped under strategy `s`, in order. */
  function RewardsOf(ms: seq<Memory>, s: string): (r: seq<real>)
    ensures |r| <= |ms|
    ensures (exists m :: m in ms && StrategyOf(m) == s) ==> |r| > 0
  {
    if |ms| == 0 then [] else
      var rest := RewardsOf(ms[..|ms| - 1], s);
      var m := ms[|ms| - 1];
      assert ms == ms[..|ms| - 1] + [m];
      if StrategyOf(m) == s then rest + [RewardOf(m)] else rest
  }

  /** `{s: sum(rewards) / len(rewards)}` in key order. */
  function Averages(ms: seq<Memory>): (r: seq<(string, real)>)
    ensures |r| == |Names(ms)|
    ensures forall i :: 0 <= i < |r| ==> r[i] == (Names(ms)[i], Mean(RewardsOf(ms, Names(ms)[i])))
  {
    var ns := Names(ms);
    seq(|ns|, i requires 0 <= i < |ns| => (ns[i], Mean(RewardsOf(ms, ns[i]))))
  }

  function PairKey(p: (string, real)): Sorting.Key { (p.1, 0.0) }

  /** `sorted(strategy_avg.items(), key=lambda x: x[1], reverse=True)` */
  function Ranked(ms: seq<Memory>): (r: seq<(string, real)>)
    ensures multiset(r) == multiset(Averages(ms)) && |r| == |Names(ms)|
    ensures Sorting.SortedDesc(r, PairKey)
  {
    Sorting.SortDesc(Averages(ms), PairKey)
  }

  /** Every strategy present has its mean in the ranking, and that mean is at most the first entry's. */
  lemma RankedHeadIsBest(ms: seq<Memory>, m: Memory)
    requires m in ms
    ensures |Ranked(ms)| > 0
    ensures Mean(RewardsOf(ms, StrategyOf(m))) <= Ranked(ms)[0].1
    ensures Ranked(ms)[0].1 == Mean(RewardsOf(ms, Ranked(ms)[0].0))
  {
    var ns := Names(ms);
    var avg := Averages(ms);
    var r := Ranked(ms);
    assert StrategyOf(m) in ns;
    var i :| 0 <= i < |ns| && ns[i] == StrategyOf(m);
    assert avg[i] in avg;
    Sorting.SameElements(avg, r);
    assert avg[i] in r;
    var j :| 0 <= j < |r| && r[j] == avg[i];
    if j > 0 {
      assert Sorting.AtLeast(PairKey(r[0]), PairKey(r[j]));
    }
    assert r[0] in avg;
    var k :| 0 <= k < |avg| && avg[k] == r[0];
  }

  datatype RankedStrategy = RankedStrategy(strategy: string, avgReward: real)

  datatype BestResult =
    | NoHistory(incidentType: string)
    | Found(incidentType: string, bestStrategy: string, strategyRanking: seq<RankedStrategy>, experiencesFound: nat, totalExperiences: nat)

  function AsRanking(ps: seq<(string, real)>): (r: seq<RankedStrategy>)
    ensures |r| == |ps|
    ensures forall i :: 0 <= i < |r| ==> r[i] == RankedStrategy(ps[i].0, ps[i].1)
  {
    seq(|ps|, i requires 0 <= i < |ps| => RankedStrategy(ps[i].0, ps[i].1))
  }

  /** `retrieve_best_strategy_activity` with `incident_type` and `top_k` (default 5). */
  function RetrieveBestStrategy(ms: seq<Memory>, incidentType: Option<string>, topK: Option<int>): (r: BestResult)
    ensures var t := incidentType.GetOr("");
      r.NoHistory? <==> |OfType(ms, t)| == 0
    ensures r.Found? ==>
      var rel := OfType(ms, incidentType.GetOr(""));
      && r.experiencesFound == |rel| && r.totalExperiences == |ms|
      && r.strategyRanking == AsRanking(Sorting.Prefix(Ranked(rel), topK.GetOr(5)))
  {
    var t := incidentType.GetOr("");
    var rel := OfType(ms, t);
    if |rel| == 0 then NoHistory(t) else
      assert rel[0] in rel;
      var ranked := Ranked(rel);
      Found(t, ranked[0].0, AsRanking(Sorting.Prefix(ranked, topK.GetOr(5))), |rel|, |ms|)
  }

  /**
   * The strategy retrieval names has the highest mean reward among the type's
   * experiences, and the ranking it returns is best first.
   */
  lemma BestStrategyHasHighestMean(ms: seq<Memory>, t: string, topK: Option<int>, m: Memory)
    requires m in ms && m.incidentType == Some(t)
    ensures var r := RetrieveBestStrategy(ms, Some(t), topK);
      var rel := OfType(ms, t);
      && r.Found?
      && Mean(RewardsOf(rel, StrategyOf(m))) <= Mean(RewardsOf(rel, r.bestStrategy))
      && (forall i, j :: 0 <= i < j < |r.strategyRanking| ==> r.strategyRanking[i].avgReward >= r.strategyRanking[j].avgReward)
  {
    var rel := OfType(ms, t);
    RankedHeadIsBest(rel, m);
    var p := Sorting.Prefix(Ranked(rel), topK.GetOr(5));
    Sorting.PrefixSorted(Ranked(rel), topK.GetOr(5), PairKey);
    forall i, j | 0 <= i < j < |p| ensures p[i].1 >= p[j].1 {
      assert Sorting.AtLeast(PairKey(p[i]), PairKey(p[j]));
    }
  }

  /** `retrieve_recent_experiences_activity`: the last `limit` (default 10) records, of the type when one is given. */
  function RetrieveRecent(ms: seq<Memory>, incidentType: Option<string>, limit: Option<int>): (r: seq<Memory>)
    ensures forall m :: m in r ==> m in ms
    ensures incidentType.Some? && incidentType.value != "" ==> forall m :: m in r ==> m.incidentType == incidentType
    ensures var rel := if incidentType.Some? && incidentType.value != "" then OfType(ms, incidentType.value) else ms;
      && |r| <= |rel| && r == rel[|rel| - |r|..]
      && (limit.GetOr(10) > 0 ==> |r| == if limit.GetOr(10) < |rel| then limit.GetOr(10) else |rel|)
  {
    var rel := if incidentType.Some? && incidentType.value != "" then OfType(ms, incidentType.value) else ms;
    Sorting.Suffix(rel, limit.GetOr(10))
  }

  /** A positive limit returns the newest records, oldest first; a zero limit returns them all. */
  lemma RecentIsNewest(ms: seq<Memory>, limit: int)
    ensures limit > 0 ==> RetrieveRecent(ms, None, Some(limit)) == ms[|ms| - (if limit < |ms| then limit else |ms|)..]
    ensures limit == 0 ==> RetrieveRecent(ms, None, Some(limit)) == ms
  {
  }

  // ---------------------------------------------------------------------------
  // Summary
  // ---------------------------------------------------------------------------

  function Rewards(ms: seq<Memory>): (r: seq<real>)
    ensures |r| == |ms|
    ensures forall i :: 0 <= i < |ms| ==> r[i] == RewardOf(ms[i])
  {
    seq(|ms|, i requires 0 <= i < |ms| => RewardOf(ms[i]))
  }

  /** The truthy values a key selector yields: present and non-zero. */
  function RecoveryTimes(ms: seq<Memory>, field: Memory -> Option<real>): (r: seq<real>)
    ensures forall x :: x in r ==> x != 0.0
    ensures forall i :: 0 <= i < |ms| && field(ms[i]).Some? && field(ms[i]).value != 0.0 ==> field(ms[i]).value in r
    ensures forall x :: x in r ==> exists m :: m in ms && field(m) == Some(x)
    ensures (forall i :: 0 <= i < |ms| ==> field(ms[i]).None?) ==> r == []
  {
    if |ms| == 0 then [] else
      var rest := RecoveryTimes(ms[..|ms| - 1], field);
      var m := ms[|ms| - 1];
      assert forall i :: 0 <= i < |ms| - 1 ==> ms[i] == ms[..|ms| - 1][i];
      assert forall x :: x in ms[..|ms| - 1] ==> x in ms;
      if field(m).Some? && field(m).value != 0.0 then rest + [field(m).value] else rest
  }

  /** `max(s)` */
  function MaxOf(s: seq<real>): (r: real)
    requires |s| > 0
    ensures r in s && forall i :: 0 <= i < |s| ==> s[i] <= r
  {
    s[Sorting.FirstMax(s)]
  }

  /** `min(s)` */
  function MinOf(s: seq<real>): (r: real)
    requires |s| > 0
    ensures r in s && forall i :: 0 <= i < |s| ==> r <= s[i]
  {
    if |s| == 1 then s[0] else
      var m := MinOf(s[1..]);
      assert forall i :: 1 <= i < |s| ==> s[i] == s[1..][i - 1];
      if s[0] <= m then s[0] else m
  }

  /** The top three of one type, with their group sizes. */
  function TypeRanking(rel: seq<Memory>): (r: seq<ExperienceModel.RankEntry>)
    ensures |r| <= 3
    ensures forall i, j :: 0 <= i < j < |r| ==> r[i].avgReward >= r[j].avgReward
  {
    var top := Sorting.Prefix(Ranked(rel), 3);
    Sorting.PrefixSorted(Ranked(rel), 3, PairKey);
    assert forall i, j :: 0 <= i < j < |top| ==> top[i].1 >= top[j].1 by {
      forall i, j | 0 <= i < j < |top| ensures top[i].1 >= top[j].1 {
        assert Sorting.AtLeast(PairKey(top[i]), PairKey(top[j]));
      }
    }
    seq(|top|, i requires 0 <= i < |top| => ExperienceModel.RankEntry(top[i].0, top[i].1, |RewardsOf(rel, top[i].0)|))
  }

  /** The per-type rankings, in `IncidentType` order, skipping types without experiences. */
  function Rankings(ms: seq<Memory>): (r: map<IncidentType, seq<ExperienceModel.RankEntry>>)
    ensures forall t :: t in r <==> |OfType(ms, IncidentTypeName(t))| > 0
    ensures forall t :: t in r ==> |r[t]| <= 3 && r[t] == TypeRanking(OfType(ms, IncidentTypeName(t)))
  {
    map t | t in AllIncidentTypes && |OfType(ms, IncidentTypeName(t))| > 0 :: TypeRanking(OfType(ms, IncidentTypeName(t)))
  }

  /**
   * `get_memory_summary_activity`, reading each record's recovery time
   * through `field`. Early/recent averages, the delta and the success rate
   * keep their defaults.
   */
  function SummaryWith(ms: seq<Memory>, field: Memory -> Option<real>): (r: ExperienceModel.MemorySummary)
    ensures |ms| == 0 ==> r == ExperienceModel.DefaultSummary
    ensures |ms| > 0 ==>
      && r.totalExperiences == r.totalRuns == |ms|
      && r.averageReward == Mean(Rewards(ms))
      && r.improvementTrend == Sorting.Suffix(Rewards(ms), 20)
      && r.improvementDelta == 0.0
    ensures |ms| > 0 ==> r.strategyRankings == Rankings(ms)
  {
    if |ms| == 0 then ExperienceModel.DefaultSummary else
      var rewards := Rewards(ms);
      var rt := RecoveryTimes(ms, field);
      ExperienceModel.MemorySummary(
        |ms|, |ms|,
        Mean(rewards), MaxOf(rewards),
        if |rt| > 0 then Mean(rt) else 0.0,
        Some(if |rt| > 0 then MinOf(rt) else 0.0),
        0.0, Rankings(ms), Sorting.Suffix(rewards, 20), 0.0, 0.0, 0.0)
  }

  /**
   * The best reward is the largest reward; the recovery average and best are
   * the mean and minimum of the truthy recovery times, 0 when there are none.
   */
  lemma SummaryExtremes(ms: seq<Memory>, field: Memory -> Option<real>)
    requires |ms| > 0
    ensures var r := SummaryWith(ms, field);
      r.bestReward in Rewards(ms) && forall i :: 0 <= i < |ms| ==> RewardOf(ms[i]) <= r.bestReward
    ensures var r := SummaryWith(ms, field);
      var rt := RecoveryTimes(ms, field);
      && (|rt| == 0 ==> r.averageRecoveryTime == 0.0 && r.bestRecoveryTime == Some(0.0))
      && (|rt| > 0 ==> r.averageRecoveryTime == Mean(rt)
                       && r.bestRecoveryTime.Some? && r.bestRecoveryTime.value in rt
                       && forall i :: 0 <= i < |rt| ==> r.bestRecoveryTime.value <= rt[i])
  {
  }

  /** The summary as written: it reads the `recovery_time` key. */
  function SummaryAsWritten(ms: seq<Memory>): ExperienceModel.MemorySummary
  {
    SummaryWith(ms, (m: Memory) => m.recoveryTime)
  }

  /**
   * The recovery time of a record whichever writer stored it:
   * `recovery_time_seconds` when it is truthy, `recovery_time` otherwise.
   */
  function StoredRecoveryTime(m: Memory): (r: Option<real>)
    ensures m.recoveryTimeSeconds.Some? && m.recoveryTimeSeconds.value != 0.0 ==> r == m.recoveryTimeSeconds
    ensures m.recoveryTimeSeconds.None? ==> r == m.recoveryTime
  {
    if m.recoveryTimeSeconds.Some? && m.recoveryTimeSeconds.value != 0.0 then m.recoveryTimeSeconds else m.recoveryTime
  }

  /** The summary reading the key either writer stores. */
  function Summary(ms: seq<Memory>): ExperienceModel.MemorySummary
  {
    SummaryWith(ms, StoredRecoveryTime)
  }

  /** Two key selectors that agree on every record keep the same recovery times. */
  lemma {:induction false} RecoveryTimesAgree(ms: seq<Memory>, f: Memory -> Option<real>, g: Memory -> Option<real>)
    requires forall i :: 0 <= i < |ms| ==> f(ms[i]) == g(ms[i])
    ensures RecoveryTimes(ms, f) == RecoveryTimes(ms, g)
    decreases |ms|
  {
    if |ms| > 0 {
      RecoveryTimesAgree(ms[..|ms| - 1], f, g);
    }
  }

  /**
   * Memories the standalone runner wrote carry only `recovery_time`; for
   * them the corrected summary is the summary as written, figures included.
   */
  lemma StandaloneMemoriesKeepTheirFigures(ms: seq<Memory>)
    requires forall i :: 0 <= i < |ms| ==> ms[i].recoveryTimeSeconds.None?
    ensures Summary(ms) == SummaryAsWritten(ms)
  {
    RecoveryTimesAgree(ms, StoredRecoveryTime, (m: Memory) => m.recoveryTime);
  }

  /** A record as the evaluator stores it: `Experience.model_dump` carries no `recovery_time` key. */
  function DumpedExperience(t: string, strategy: string, reward: real, seconds: real, success: bool): Memory
  {
    Memory("", 0, Some(t), Some(strategy), Some(reward), Some(success), None, Some(seconds), Some([]))
  }

  /**
   * As written, a memory of experiences the evaluator stored that each took
   * 30 s reports an average and best recovery time of 0.
   */
  lemma SummaryIgnoresStoredRecoveryTimes(n: nat)
    requires n > 0
    ensures var ms := seq(n, i => DumpedExperience("service_crash", "restart_service", 50.0, 30.0, true));
      SummaryAsWritten(ms).averageRecoveryTime == 0.0 && SummaryAsWritten(ms).bestRecoveryTime == Some(0.0)
  {
    var ms := seq(n, i => DumpedExperience("service_crash", "restart_service", 50.0, 30.0, true));
    assert forall i :: 0 <= i < |ms| ==> ms[i].recoveryTime.None?;
  }

  /** Reading the stored key, the same memory reports the 30 s every record took. */
  lemma SummaryReadsStoredRecoveryTimes(n: nat)
    requires n > 0
    ensures var ms := seq(n, i => DumpedExperience("service_crash", "restart_service", 50.0, 30.0, true));
      Summary(ms).averageRecoveryTime == 30.0 && Summary(ms).bestRecoveryTime == Some(30.0)
  {
    var ms := seq(n, i => DumpedExperience("service_crash", "restart_service", 50.0, 30.0, true));
    var rt := RecoveryTimes(ms, StoredRecoveryTime);
    assert ms[0] in ms;
    assert 30.0 in rt;
    AllThirty(rt);
  }

  /** A non-empty list of 30s has mean 30. */
  lemma AllThirty(rt: seq<real>)
    requires |rt| > 0 && forall x :: x in rt ==> x == 30.0
    ensures Mean(rt) == 30.0
  {
    assert forall i :: 0 <= i < |rt| ==> rt[i] in rt;
    ExperienceModel.SumOfConstant(rt, 30.0);
  }

  // ---------------------------------------------------------------------------
  // Previous successes
  // ---------------------------------------------------------------------------

  datatype Recommendation = Recommendation(strategy: Option<string>, toolsCalled: seq<string>, avgReward: Option<real>)

  datatype PreviousResult = NoSuccessfulHistory | PreviousFound(recommendation: Recommendation)

  /** Successful experiences of the type, in order. */
  function Successes(ms: seq<Memory>, t: string): (r: seq<Memory>)
    ensures forall m :: m in r <==> m in ms && m.incidentType == Some(t) && m.success.GetOr(false)
  {
    if |ms| == 0 then [] else
      var rest := Successes(ms[..|ms| - 1], t);
      var m := ms[|ms| - 1];
      assert ms == ms[..|ms| - 1] + [m];
      if m.incidentType == Some(t) && m.success.GetOr(false) then rest + [m] else rest
  }

  function RewardKey(m: Memory): Sorting.Key { (RewardOf(m), 0.0) }

  /** `apply_previous_successful_strategy_activity` */
  function ApplyPreviousSuccess(ms: seq<Memory>, incidentType: Option<string>): (r: PreviousResult)
    ensures r.NoSuccessfulHistory? <==> |Successes(ms, incidentType.GetOr(""))| == 0
    ensures r.PreviousFound? ==>
      exists b :: b in Successes(ms, incidentType.GetOr(""))
        && r.recommendation == Recommendation(b.strategyUsed, b.toolsCalled.GetOr([]), b.reward)
        && forall m :: m in Successes(ms, incidentType.GetOr("")) ==> RewardOf(m) <= RewardOf(b)
  {
    var rel := Successes(ms, incidentType.GetOr(""));
    if |rel| == 0 then NoSuccessfulHistory else
      var sorted := Sorting.SortDesc(rel, RewardKey);
      Sorting.SameElements(rel, sorted);
      Sorting.SortedHeadIsMax(sorted, RewardKey);
      var b := sorted[0];
      assert b in rel;
      assert forall m :: m in rel ==> RewardOf(m) <= RewardOf(b) by {
        forall m | m in rel ensures RewardOf(m) <= RewardOf(b) {
          assert m in sorted;
          var j :| 0 <= j < |sorted| && sorted[j] == m;
        }
      }
      PreviousFound(Recommendation(b.strategyUsed, b.toolsCalled.GetOr([]), b.reward))
  }

  /** A failed experience is never recommended, however high its reward. */
  lemma FailuresNeverRecommended(ms: seq<Memory>, t: string, bad: Memory)
    requires ApplyPreviousSuccess(ms, Some(t)).PreviousFound?
    requires forall m :: m in ms && m.strategyUsed == bad.strategyUsed ==> !m.success.GetOr(false)
    ensures ApplyPreviousSuccess(ms, Some(t)).recommendation.strategy != bad.strategyUsed
  {
  }
}
