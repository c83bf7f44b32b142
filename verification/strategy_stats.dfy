/**
 * The per-(strategy, incident type) performance record the experience store
 * keeps (`StrategyRecord` of `project/models/strategies.py`). The
 * `last_used` timestamp is left alone by the update rule and set by the
 * store; times are integers supplied by the caller.
 */
module StrategyStats {
  import opened Wrappers
  import opened Enums

  datatype StrategyRecord = StrategyRecord(
    strategyName: string,
    incidentType: IncidentType,
    totalUses: int,
    totalSuccesses: int,
    totalFailures: int,
    totalReward: real,
    averageReward: real,
    averageRecoveryTime: real,
    successRate: real,
    lastUsed: Option<int>)

  /** A record as first created: every count and statistic zero. */
  function NewRecord(name: string, t: IncidentType): StrategyRecord
  {
    StrategyRecord(name, t, 0, 0, 0, 0.0, 0.0, 0.0, 0.0, None)
  }

  /** The counting invariant every record keeps from the zero defaults onward. */
  predicate Consistent(r: StrategyRecord)
  {
    r.totalSuccesses >= 0 && r.totalFailures >= 0
    && r.totalUses == r.totalSuccesses + r.totalFailures
    && (r.totalUses > 0 ==>
          r.averageReward == r.totalReward / r.totalUses as real
          && r.successRate == r.totalSuccesses as real / r.totalUses as real)
    && 0.0 <= r.successRate <= 1.0
  }

  /** `update_with_result`: one more use, counted as a success or as a failure. */
  function UpdateWithResult(r: StrategyRecord, reward: real, recoveryTime: real, success: bool): (u: StrategyRecord)
    requires r.totalUses >= 0
    ensures u.strategyName == r.strategyName && u.incidentType == r.incidentType && u.lastUsed == r.lastUsed
    ensures u.totalUses == r.totalUses + 1
    ensures u.totalReward == r.totalReward + reward
    ensures success ==> u.totalSuccesses == r.totalSuccesses + 1 && u.totalFailures == r.totalFailures
    ensures !success ==> u.totalFailures == r.totalFailures + 1 && u.totalSuccesses == r.totalSuccesses
    ensures Consistent(r) ==> Consistent(u)
  {
    var uses := r.totalUses + 1;
    var total := r.totalReward + reward;
    var successes := if success then r.totalSuccesses + 1 else r.totalSuccesses;
    var failures := if success then r.totalFailures else r.totalFailures + 1;
    StrategyRecord(
      r.strategyName, r.incidentType, uses, successes, failures, total,
      total / uses as real,
      RunningMean(r.averageRecoveryTime, r.totalUses, recoveryTime),
      successes as real / uses as real, r.lastUsed)
  }

  /** The average of n + 1 values, given the average m of the first n and the new value x. */
  function RunningMean(m: real, n: nat, x: real): real
  {
    (m * (n as real) + x) / ((n + 1) as real)
  }

  lemma NewRecordConsistent(name: string, t: IncidentType)
    ensures Consistent(NewRecord(name, t))
  {
  }

  /** One remediation outcome as the record sees it. */
  datatype Outcome = Outcome(reward: real, recoveryTime: real, success: bool)

  /** A fresh record updated with each outcome in turn. */
  function Replay(name: string, t: IncidentType, outcomes: seq<Outcome>): (r: StrategyRecord)
    ensures r.totalUses == |outcomes|
  {
    if |outcomes| == 0 then NewRecord(name, t)
    else
      var last := outcomes[|outcomes| - 1];
      UpdateWithResult(Replay(name, t, outcomes[..|outcomes| - 1]), last.reward, last.recoveryTime, last.success)
  }

  function Rewards(os: seq<Outcome>): (r: seq<real>)
    ensures |r| == |os| && forall i :: 0 <= i < |os| ==> r[i] == os[i].reward
  {
    seq(|os|, i requires 0 <= i < |os| => os[i].reward)
  }

  function RecoveryTimes(os: seq<Outcome>): (r: seq<real>)
    ensures |r| == |os| && forall i :: 0 <= i < |os| ==> r[i] == os[i].recoveryTime
  {
    seq(|os|, i requires 0 <= i < |os| => os[i].recoveryTime)
  }

  function Successes(os: seq<Outcome>): (n: nat)
    ensures n <= |os|
  {
    if |os| == 0 then 0 else Successes(os[..|os| - 1]) + (if os[|os| - 1].success then 1 else 0)
  }

  /** (m·n + x) / (n + 1) is the mean of n + 1 values when m is the mean of the first n. */
  lemma RunningMeanStep(s: seq<real>, x: real)
    ensures RunningMean(Mean(s), |s|, x) == Mean(s + [x])
  {
    SumAppend(s, x);
    if |s| > 0 {
      var n := |s| as real;
      assert Mean(s) * n == Sum(s);
    }
  }

  /** Replaying keeps the counting invariant and accumulates the totals. */
  lemma {:induction false} ReplayCounts(name: string, t: IncidentType, os: seq<Outcome>)
    ensures var r := Replay(name, t, os);
      Consistent(r) && r.totalReward == Sum(Rewards(os)) && r.totalSuccesses == Successes(os)
  {
    if |os| == 0 {
      NewRecordConsistent(name, t);
    } else {
      var pre := os[..|os| - 1];
      var last := os[|os| - 1];
      ReplayCounts(name, t, pre);
      assert Rewards(os) == Rewards(pre) + [last.reward];
      SumAppend(Rewards(pre), last.reward);
    }
  }

  /** The incremental recovery-time average is the arithmetic mean of all recovery times. */
  lemma {:induction false} ReplayRecoveryMean(name: string, t: IncidentType, os: seq<Outcome>)
    ensures Replay(name, t, os).averageRecoveryTime == Mean(RecoveryTimes(os))
  {
    if |os| > 0 {
      var pre := os[..|os| - 1];
      var last := os[|os| - 1];
      ReplayRecoveryMean(name, t, pre);
      var r0 := Replay(name, t, pre);
      var u := UpdateWithResult(r0, last.reward, last.recoveryTime, last.success);
      assert Replay(name, t, os) == u;
      assert u.averageRecoveryTime == RunningMean(Mean(RecoveryTimes(pre)), |pre|, last.recoveryTime);
      assert RecoveryTimes(os) == RecoveryTimes(pre) + [last.recoveryTime];
      RunningMeanStep(RecoveryTimes(pre), last.recoveryTime);
    }
  }

  /**
   * Replaying outcomes into a fresh record yields the plain statistics of
   * those outcomes: the reward average is the mean reward, the recovery-time
   * average the mean recovery time, and the success rate the share of
   * successes.
   */
  lemma ReplayIsMean(name: string, t: IncidentType, os: seq<Outcome>)
    requires |os| > 0
    ensures var r := Replay(name, t, os);
      r.averageReward == Mean(Rewards(os))
      && r.averageRecoveryTime == Mean(RecoveryTimes(os))
      && r.successRate == Successes(os) as real / |os| as real
      && 0.0 <= r.successRate <= 1.0
  {
    ReplayCounts(name, t, os);
    ReplayRecoveryMean(name, t, os);
  }
}
