/**
 * The in-memory side of `ExperienceStore` (`project/memory/experience_store.py`):
 * the experience log, the per-(strategy, incident type) records and the
 * agent-wide metrics, together with the queries the loop runs over them.
 * The record dictionary is a sequence in insertion order, keyed by the
 * record's own (strategy name, incident type) pair.
 */
module ExperienceStore {
  import opened Wrappers
  import opened Enums
  import opened Sorting
  import opened StrategyStats
  import ExperienceModel

  type Experience = ExperienceModel.Experience

  /** The `"{strategy}:{incident_type}"` dictionary key, as a pair. */
  datatype RecordKey = RecordKey(strategy: string, incidentType: IncidentType)

  function KeyOf(r: StrategyRecord): RecordKey
  {
    RecordKey(r.strategyName, r.incidentType)
  }

  function ExperienceKey(e: Experience): RecordKey
  {
    RecordKey(e.strategyUsed, e.incidentType)
  }

  datatype AgentMetrics = AgentMetrics(
    totalIncidents: int,
    totalSuccessful: int,
    totalFailed: int,
    averageReward: real,
    averageRecoveryTime: real,
    rewardHistory: seq<real>,
    recoveryTimeHistory: seq<real>)

  const ZeroMetrics := AgentMetrics(0, 0, 0, 0.0, 0.0, [], [])

  datatype Store = Store(experiences: seq<Experience>, records: seq<StrategyRecord>, metrics: AgentMetrics)

  const Empty := Store([], [], ZeroMetrics)

  /** A dictionary never holds a key twice. */
  predicate DistinctKeys(rs: seq<StrategyRecord>)
  {
    forall i, j :: 0 <= i < j < |rs| ==> KeyOf(rs[i]) != KeyOf(rs[j])
  }

  /** What the store's update code relies on: unique keys, counts that can be divided by after an increment. */
  predicate WellFormed(s: Store)
  {
    DistinctKeys(s.records)
    && (forall i :: 0 <= i < |s.records| ==> s.records[i].totalUses >= 0)
    && s.metrics.totalIncidents >= 0
  }

  /** The position of the record under key `k`, if there is one. */
  function Find(rs: seq<StrategyRecord>, k: RecordKey): (r: Option<nat>)
    ensures r.Some? ==> r.value < |rs| && KeyOf(rs[r.value]) == k
    ensures r.None? <==> forall i :: 0 <= i < |rs| ==> KeyOf(rs[i]) != k
  {
    if |rs| == 0 then None
    else if KeyOf(rs[0]) == k then Some(0)
    else match Find(rs[1..], k)
      case None => None
      case Some(i) => Some(i + 1)
  }

  /** Writes `r` under its own key: in place when the key is present, appended otherwise. */
  function Upsert(rs: seq<StrategyRecord>, r: StrategyRecord): (rs': seq<StrategyRecord>)
    requires DistinctKeys(rs)
    ensures DistinctKeys(rs')
    ensures Find(rs, KeyOf(r)).Some? ==> |rs'| == |rs|
    ensures Find(rs, KeyOf(r)).None? ==> |rs'| == |rs| + 1
    ensures forall i :: 0 <= i < |rs| && KeyOf(rs[i]) != KeyOf(r) ==> rs'[i] == rs[i]
    ensures forall i :: 0 <= i < |rs'| ==> rs'[i] == r || (i < |rs| && rs'[i] == rs[i])
    ensures Find(rs', KeyOf(r)).Some? && rs'[Find(rs', KeyOf(r)).value] == r
    ensures Find(rs, KeyOf(r)).Some? ==> rs' == rs[Find(rs, KeyOf(r)).value := r]
    ensures Find(rs, KeyOf(r)).None? ==> rs' == rs + [r]
  {
    var k := KeyOf(r);
    var found := Find(rs, k);
    var j := if found.Some? then found.value else |rs|;
    var rs' := if found.Some? then rs[found.value := r] else rs + [r];
    assert |rs'| == if found.Some? then |rs| else |rs| + 1;
    assert forall i :: 0 <= i < |rs'| && i != j ==> rs'[i] == rs[i] && KeyOf(rs[i]) != k;
    assert rs'[j] == r;
    assert DistinctKeys(rs') by {
      forall a, b | 0 <= a < b < |rs'|
        ensures KeyOf(rs'[a]) != KeyOf(rs'[b])
      {
        if a != j && b != j {
          assert rs'[a] == rs[a] && rs'[b] == rs[b];
        }
      }
    }
    var f := Find(rs', k);
    assert f.Some? by {
      assert KeyOf(rs'[j]) == k;
    }
    assert f.value == j;
    rs'
  }

  /** The agent-wide metrics after one more experience. */
  function RecordMetrics(m: AgentMetrics, e: Experience): (m': AgentMetrics)
    requires m.totalIncidents >= 0
    ensures m'.totalIncidents == m.totalIncidents + 1
    ensures m'.totalSuccessful == m.totalSuccessful + (if e.success then 1 else 0)
    ensures m'.totalFailed == m.totalFailed + (if e.success then 0 else 1)
    ensures m'.rewardHistory == m.rewardHistory + [e.reward]
    ensures m'.recoveryTimeHistory == m.recoveryTimeHistory + [e.recoveryTimeSeconds]
    ensures m'.averageReward == Sum(m'.rewardHistory) / m'.totalIncidents as real
    ensures m'.averageRecoveryTime == Sum(m'.recoveryTimeHistory) / m'.totalIncidents as real
  {
    var total := m.totalIncidents + 1;
    var rewards := m.rewardHistory + [e.reward];
    var recoveries := m.recoveryTimeHistory + [e.recoveryTimeSeconds];
    AgentMetrics(
      total,
      if e.success then m.totalSuccessful + 1 else m.totalSuccessful,
      if e.success then m.totalFailed else m.totalFailed + 1,
      Sum(rewards) / total as real,
      Sum(recoveries) / total as real,
      rewards, recoveries)
  }

  /** `store_experience` */
  function StoreExperience(s: Store, e: Experience): (s': Store)
    requires WellFormed(s)
    ensures WellFormed(s')
    ensures s'.experiences == s.experiences + [e]
    ensures Find(s.records, ExperienceKey(e)).Some? ==> |s'.records| == |s.records|
    ensures Find(s.records, ExperienceKey(e)).None? ==> |s'.records| == |s.records| + 1
    ensures forall i :: 0 <= i < |s.records| && KeyOf(s.records[i]) != ExperienceKey(e) ==> s'.records[i] == s.records[i]
    ensures Find(s'.records, ExperienceKey(e)).Some?
    ensures var j := Find(s'.records, ExperienceKey(e)).value;
      var old_ := match Find(s.records, ExperienceKey(e))
        case Some(i) => s.records[i]
        case None => NewRecord(e.strategyUsed, e.incidentType);
      s'.records[j] == UpdateWithResult(old_, e.reward, e.recoveryTimeSeconds, e.success).(lastUsed := e.timestamp)
    ensures s'.metrics.totalIncidents == s.metrics.totalIncidents + 1
    ensures s'.metrics.totalSuccessful == s.metrics.totalSuccessful + (if e.success then 1 else 0)
    ensures s'.metrics.totalFailed == s.metrics.totalFailed + (if e.success then 0 else 1)
    ensures s'.metrics.rewardHistory == s.metrics.rewardHistory + [e.reward]
    ensures s'.metrics.recoveryTimeHistory == s.metrics.recoveryTimeHistory + [e.recoveryTimeSeconds]
    ensures s'.metrics.averageReward == Sum(s'.metrics.rewardHistory) / s'.metrics.totalIncidents as real
    ensures s'.metrics.averageRecoveryTime == Sum(s'.metrics.recoveryTimeHistory) / s'.metrics.totalIncidents as real
  {
    var k := ExperienceKey(e);
    var found := Find(s.records, k);
    var base := if found.Some? then s.records[found.value] else NewRecord(e.strategyUsed, e.incidentType);
    var updated := UpdateWithResult(base, e.reward, e.recoveryTimeSeconds, e.success).(lastUsed := e.timestamp);
    assert KeyOf(updated) == k;
    var records := Upsert(s.records, updated);
    Store(s.experiences + [e], records, RecordMetrics(s.metrics, e))
  }

  /** Σ total_uses over the records. */
  function TotalUses(rs: seq<StrategyRecord>): int
  {
    if |rs| == 0 then 0 else TotalUses(rs[..|rs| - 1]) + rs[|rs| - 1].totalUses
  }

  function ExperienceRewards(es: seq<Experience>): (r: seq<real>)
    ensures |r| == |es| && forall i :: 0 <= i < |es| ==> r[i] == es[i].reward
  {
    seq(|es|, i requires 0 <= i < |es| => es[i].reward)
  }

  function ExperienceRecoveryTimes(es: seq<Experience>): (r: seq<real>)
    ensures |r| == |es| && forall i :: 0 <= i < |es| ==> r[i] == es[i].recoveryTimeSeconds
  {
    seq(|es|, i requires 0 <= i < |es| => es[i].recoveryTimeSeconds)
  }

  function SuccessfulCount(es: seq<Experience>): (n: nat)
    ensures n <= |es|
  {
    if |es| == 0 then 0 else SuccessfulCount(es[..|es| - 1]) + (if es[|es| - 1].success then 1 else 0)
  }

  /**
   * What the store keeps true from a cleared state onward: every record is
   * consistent and used at least once, the records' uses add up to the
   * number of experiences, and the metric counters and histories are those
   * of the experience log.
   */
  predicate StoreInvariant(s: Store)
  {
    WellFormed(s)
    && (forall i :: 0 <= i < |s.records| ==> Consistent(s.records[i]) && s.records[i].totalUses >= 1)
    && TotalUses(s.records) == |s.experiences|
    && s.metrics.totalIncidents == |s.experiences|
    && s.metrics.totalSuccessful == SuccessfulCount(s.experiences)
    && s.metrics.totalSuccessful + s.metrics.totalFailed == s.metrics.totalIncidents
    && s.metrics.rewardHistory == ExperienceRewards(s.experiences)
    && s.metrics.recoveryTimeHistory == ExperienceRecoveryTimes(s.experiences)
    && s.metrics.averageReward == Mean(s.metrics.rewardHistory)
    && s.metrics.averageRecoveryTime == Mean(s.metrics.recoveryTimeHistory)
  }

  lemma EmptySatisfiesInvariant()
    ensures StoreInvariant(Empty)
  {
  }

  /** Raising one record's uses by one raises the total by one. */
  lemma {:induction false} TotalUsesBump(rs: seq<StrategyRecord>, j: nat, r: StrategyRecord)
    requires j < |rs| && r.totalUses == rs[j].totalUses + 1
    ensures TotalUses(rs[j := r]) == TotalUses(rs) + 1
  {
    var n := |rs| - 1;
    if j < n {
      TotalUsesBump(rs[..n], j, r);
      assert rs[j := r][..n] == rs[..n][j := r];
    } else {
      assert rs[j := r][..n] == rs[..n];
    }
  }

  lemma TotalUsesAppend(rs: seq<StrategyRecord>, r: StrategyRecord)
    ensures TotalUses(rs + [r]) == TotalUses(rs) + r.totalUses
  {
    assert (rs + [r])[..|rs|] == rs;
  }

  lemma AppendExperience(es: seq<Experience>, e: Experience)
    ensures ExperienceRewards(es + [e]) == ExperienceRewards(es) + [e.reward]
    ensures ExperienceRecoveryTimes(es + [e]) == ExperienceRecoveryTimes(es) + [e.recoveryTimeSeconds]
    ensures SuccessfulCount(es + [e]) == SuccessfulCount(es) + (if e.success then 1 else 0)
  {
    assert (es + [e])[..|es|] == es;
  }

  /** Upserting a record one use ahead of the one it replaces adds one use in total. */
  lemma UpsertAddsOneUse(rs: seq<StrategyRecord>, r: StrategyRecord)
    requires DistinctKeys(rs)
    requires Find(rs, KeyOf(r)).Some? ==> r.totalUses == rs[Find(rs, KeyOf(r)).value].totalUses + 1
    requires Find(rs, KeyOf(r)).None? ==> r.totalUses == 1
    ensures TotalUses(Upsert(rs, r)) == TotalUses(rs) + 1
  {
    match Find(rs, KeyOf(r))
    case Some(j) =>
      TotalUsesBump(rs, j, r);
    case None =>
      TotalUsesAppend(rs, r);
  }

  /** Upserting a consistent, used record keeps every record consistent and used. */
  lemma UpsertKeepsConsistent(rs: seq<StrategyRecord>, r: StrategyRecord)
    requires DistinctKeys(rs)
    requires forall i :: 0 <= i < |rs| ==> Consistent(rs[i]) && rs[i].totalUses >= 1
    requires Consistent(r) && r.totalUses >= 1
    ensures var rs' := Upsert(rs, r);
      forall i :: 0 <= i < |rs'| ==> Consistent(rs'[i]) && rs'[i].totalUses >= 1
  {
  }

  lemma StoreKeepsRecordTotals(s: Store, e: Experience)
    requires StoreInvariant(s)
    ensures var s' := StoreExperience(s, e);
      TotalUses(s'.records) == |s'.experiences|
      && forall i :: 0 <= i < |s'.records| ==> Consistent(s'.records[i]) && s'.records[i].totalUses >= 1
  {
    var k := ExperienceKey(e);
    var found := Find(s.records, k);
    var base := if found.Some? then s.records[found.value] else NewRecord(e.strategyUsed, e.incidentType);
    NewRecordConsistent(e.strategyUsed, e.incidentType);
    assert Consistent(base);
    var u := UpdateWithResult(base, e.reward, e.recoveryTimeSeconds, e.success).(lastUsed := e.timestamp);
    assert KeyOf(u) == k;
    assert StoreExperience(s, e).records == Upsert(s.records, u);
    UpsertAddsOneUse(s.records, u);
    UpsertKeepsConsistent(s.records, u);
  }

  /** Every store keeps the invariant, so it holds for any history of stores after a clear. */
  lemma StorePreservesInvariant(s: Store, e: Experience)
    requires StoreInvariant(s)
    ensures StoreInvariant(StoreExperience(s, e))
  {
    var s' := StoreExperience(s, e);
    StoreKeepsRecordTotals(s, e);
    AppendExperience(s.experiences, e);
  }

  /** `get_experience_count` */
  function ExperienceCount(s: Store): (n: nat)
    ensures n == |s.experiences|
  {
    |s.experiences|
  }

  /** The count agrees with the incident counter and with the records' uses. */
  lemma CountAgreesWithMetrics(s: Store)
    requires StoreInvariant(s)
    ensures ExperienceCount(s) == s.metrics.totalIncidents
    ensures ExperienceCount(s) == TotalUses(s.records)
    ensures ExperienceCount(s) == |s.metrics.rewardHistory| == |s.metrics.recoveryTimeHistory|
    ensures ExperienceCount(s) == s.metrics.totalSuccessful + s.metrics.totalFailed
  {
  }

  /** `clear`: no experiences, no records, every metric zero. */
  function Clear(s: Store): (c: Store)
    ensures c.experiences == [] && c.records == []
    ensures c.metrics.totalIncidents == 0 && c.metrics.totalSuccessful == 0 && c.metrics.totalFailed == 0
    ensures c.metrics.rewardHistory == [] && c.metrics.recoveryTimeHistory == []
    ensures c.metrics.averageReward == 0.0 && c.metrics.averageRecoveryTime == 0.0
    ensures StoreInvariant(c)
  {
    Empty
  }

  /** The (average reward, success rate) sort key of the best-strategy query. */
  function RewardThenRate(r: StrategyRecord): Key
  {
    (r.averageReward, r.successRate)
  }

  /** The records of incident type `t` that have been used, in dictionary order. */
  function UsedRecordsOf(rs: seq<StrategyRecord>, t: IncidentType): (r: seq<StrategyRecord>)
    ensures forall x :: x in r <==> x in rs && x.incidentType == t && x.totalUses > 0
  {
    if |rs| == 0 then []
    else
      var rest := UsedRecordsOf(rs[1..], t);
      assert forall x :: x in rs <==> x == rs[0] || x in rs[1..];
      if rs[0].incidentType == t && rs[0].totalUses > 0 then [rs[0]] + rest else rest
  }

  /** `get_best_strategy_for_incident` */
  function BestStrategies(s: Store, t: IncidentType, topK: int): (r: seq<StrategyRecord>)
    ensures topK >= 0 ==> |r| <= topK
    ensures forall x :: x in r ==> x in s.records && x.incidentType == t && x.totalUses > 0
    ensures SortedDesc(r, RewardThenRate)
    ensures forall x, y :: (x in s.records && x.incidentType == t && x.totalUses > 0 && x !in r && y in r
      ==> AtLeast(RewardThenRate(y), RewardThenRate(x)))
    ensures topK >= |UsedRecordsOf(s.records, t)| ==> multiset(r) == multiset(UsedRecordsOf(s.records, t))
  {
    var used := UsedRecordsOf(s.records, t);
    var sorted := SortDesc(used, RewardThenRate);
    SameElements(used, sorted);
    PrefixSubset(sorted, topK);
    PrefixSorted(sorted, topK, RewardThenRate);
    PrefixDominance(sorted, topK, RewardThenRate);
    Prefix(sorted, topK)
  }

  /** One row of `get_strategy_rankings`. */
  datatype RankingRow = RankingRow(
    strategy: string,
    incidentType: IncidentType,
    uses: int,
    successRate: real,
    averageReward: real,
    averageRecoveryTime: real)

  function RowOf(r: StrategyRecord): RankingRow
  {
    RankingRow(r.strategyName, r.incidentType, r.totalUses, r.successRate, r.averageReward, r.averageRecoveryTime)
  }

  function AverageRewardKey(r: StrategyRecord): Key
  {
    (r.averageReward, 0.0)
  }

  /** The records, restricted to incident type `t` when one is given. */
  function RecordsOfType(rs: seq<StrategyRecord>, t: Option<IncidentType>): (r: seq<StrategyRecord>)
    ensures forall x :: x in r <==> x in rs && (t.Some? ==> x.incidentType == t.value)
    ensures |r| <= |rs|
  {
    if |rs| == 0 then []
    else
      var rest := RecordsOfType(rs[1..], t);
      assert forall x :: x in rs <==> x == rs[0] || x in rs[1..];
      if t.None? || rs[0].incidentType == t.value then [rs[0]] + rest else rest
  }

  /** `get_strategy_rankings` */
  function Rankings(s: Store, t: Option<IncidentType>): (rows: seq<RankingRow>)
    ensures t.None? ==> |rows| == |s.records|
    ensures forall i, j :: 0 <= i < j < |rows| ==> rows[i].averageReward >= rows[j].averageReward
    ensures forall i :: 0 <= i < |rows| ==> t.Some? ==> rows[i].incidentType == t.value
    ensures forall i :: 0 <= i < |rows| ==> exists x :: x in s.records && RowOf(x) == rows[i]
    ensures forall x :: x in s.records && (t.Some? ==> x.incidentType == t.value) ==> RowOf(x) in rows
  {
    var chosen := RecordsOfType(s.records, t);
    var sorted := SortDesc(chosen, AverageRewardKey);
    SameElements(chosen, sorted);
    NoFilterKeepsAll(s.records);
    RowsOfSorted(sorted);
    Rows(sorted)
  }

  /** The rows of a list of records, one per record, in order. */
  function Rows(rs: seq<StrategyRecord>): (rows: seq<RankingRow>)
    ensures |rows| == |rs| && forall i :: 0 <= i < |rs| ==> rows[i] == RowOf(rs[i])
  {
    seq(|rs|, i requires 0 <= i < |rs| => RowOf(rs[i]))
  }

  lemma RowsOfSorted(sorted: seq<StrategyRecord>)
    requires SortedDesc(sorted, AverageRewardKey)
    ensures forall i, j :: 0 <= i < j < |sorted| ==> Rows(sorted)[i].averageReward >= Rows(sorted)[j].averageReward
    ensures forall x :: x in sorted ==> RowOf(x) in Rows(sorted)
    ensures forall i :: 0 <= i < |sorted| ==> sorted[i] in sorted && Rows(sorted)[i] == RowOf(sorted[i])
  {
    var rows := Rows(sorted);
    forall i, j | 0 <= i < j < |sorted| ensures rows[i].averageReward >= rows[j].averageReward {
      assert AtLeast(AverageRewardKey(sorted[i]), AverageRewardKey(sorted[j]));
    }
    forall x | x in sorted ensures RowOf(x) in rows {
      var i :| 0 <= i < |sorted| && sorted[i] == x;
      assert rows[i] == RowOf(x);
    }
  }

  lemma {:induction false} NoFilterKeepsAll(rs: seq<StrategyRecord>)
    ensures RecordsOfType(rs, None) == rs
  {
    if |rs| > 0 {
      NoFilterKeepsAll(rs[1..]);
      assert rs == [rs[0]] + rs[1..];
    }
  }

  /** `get_agent_metrics`: the stored metrics plus rolling and trend figures. */
  datatype MetricsView = MetricsView(
    base: AgentMetrics,
    recentAverageReward: real,
    recentAverageRecoveryTime: real,
    rewardImprovementTrend: real)

  /** The mean of the last five entries, or `fallback` when there are fewer than five. */
  function RecentMean(h: seq<real>, fallback: real): real
  {
    if |h| >= 5 then Sum(h[|h| - 5..]) / 5.0 else fallback
  }

  /** Mean of the second half minus mean of the first half, the halves split at `len // 2`. */
  function Trend(h: seq<real>): real
  {
    if |h| >= 10 then
      Sum(h[|h| / 2..]) / (|h| - |h| / 2) as real - Sum(h[..|h| / 2]) / (|h| / 2) as real
    else 0.0
  }

  function AgentMetricsView(m: AgentMetrics): (v: MetricsView)
    ensures v.base == m
    ensures |m.rewardHistory| >= 5 ==> v.recentAverageReward == Mean(m.rewardHistory[|m.rewardHistory| - 5..])
    ensures |m.rewardHistory| < 5 ==> v.recentAverageReward == m.averageReward
    ensures |m.recoveryTimeHistory| >= 5 ==> v.recentAverageRecoveryTime == Mean(m.recoveryTimeHistory[|m.recoveryTimeHistory| - 5..])
    ensures |m.recoveryTimeHistory| < 5 ==> v.recentAverageRecoveryTime == m.averageRecoveryTime
    ensures |m.rewardHistory| < 10 ==> v.rewardImprovementTrend == 0.0
    ensures |m.rewardHistory| >= 10 ==> (v.rewardImprovementTrend
      == Mean(m.rewardHistory[|m.rewardHistory| / 2..]) - Mean(m.rewardHistory[..|m.rewardHistory| / 2]))
  {
    MetricsView(m, RecentMean(m.rewardHistory, m.averageReward),
      RecentMean(m.recoveryTimeHistory, m.averageRecoveryTime), Trend(m.rewardHistory))
  }

  /** With fewer than five stored experiences the recent average is the overall mean reward. */
  lemma RecentFallsBackToMean(s: Store)
    requires StoreInvariant(s) && |s.experiences| < 5
    ensures AgentMetricsView(s.metrics).recentAverageReward == Mean(ExperienceRewards(s.experiences))
  {
  }

  /** When every later-half reward beats every earlier-half reward, the trend is positive. */
  lemma TrendPositiveWhenLaterRewardsBetter(m: AgentMetrics, c: real)
    requires |m.rewardHistory| >= 10
    requires forall i :: 0 <= i < |m.rewardHistory| / 2 ==> m.rewardHistory[i] <= c
    requires forall i :: |m.rewardHistory| / 2 <= i < |m.rewardHistory| ==> m.rewardHistory[i] > c
    ensures AgentMetricsView(m).rewardImprovementTrend > 0.0
  {
    var h := m.rewardHistory;
    var n := |h| / 2;
    MeanAtMost(h[..n], c);
    MeanAbove(h[n..], c);
  }
}
