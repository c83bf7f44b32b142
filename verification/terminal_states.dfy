/**
 * The two absorbing states (`project/workflows/terminal_states.py`).
 *
 * COMPLETED writes the final learning report and FAILED the error message;
 * both hand back their own state whatever record they are given. The
 * workflows are typed with the agent record `EVOOData` (reward history,
 * run index, error message), so they are modelled over
 * `AgentMachine.AgentData`. The memory summary the report reads is a
 * parameter (the empty map when the activity fails); the strategy
 * rankings only feed the message text and are not modelled.
 */
module TerminalStates {
  import opened Wrappers
  import opened Sorting
  import Enums
  import opened AgentMachine

  /** The numbers of the final report. */
  datatype LearningReport = LearningReport(
    totalRuns: int,
    averageReward: real,
    bestReward: real,
    earlyAverage: real,
    lateAverage: real,
    improvement: real,
    improved: bool)

  datatype CompletedOutcome = CompletedOutcome(next: State, report: Option<LearningReport>)

  datatype FailedOutcome = FailedOutcome(next: State, errorText: string, notified: bool)

  /** How many runs each end of the history averages over. */
  const Window := 5

  /** `rewards[:5]` */
  function EarlyWindow(rewards: seq<real>): (r: seq<real>)
    ensures |r| == if |rewards| < Window then |rewards| else Window
    ensures r == rewards[..|r|]
  {
    Take(rewards, Window)
  }

  /** `rewards[-5:]` */
  function LateWindow(rewards: seq<real>): (r: seq<real>)
    ensures |r| == if |rewards| < Window then |rewards| else Window
    ensures r == rewards[|rewards| - |r|..]
  {
    Suffix(rewards, Window)
  }

  /** `max(rewards) if rewards else 0` */
  function Best(rewards: seq<real>): (r: real)
    ensures forall i :: 0 <= i < |rewards| ==> rewards[i] <= r
    ensures |rewards| == 0 ==> r == 0.0
    ensures |rewards| > 0 ==> exists i :: 0 <= i < |rewards| && rewards[i] == r
  {
    if |rewards| == 0 then 0.0
    else if |rewards| == 1 then rewards[0]
    else
      var m := Best(rewards[1..]);
      assert forall i :: 1 <= i < |rewards| ==> rewards[i] == rewards[1..][i - 1];
      if rewards[0] >= m then rewards[0] else m
  }

  /** The report of a learning session with these rewards, over this memory summary. */
  function Report(runIndex: int, rewards: seq<real>, summary: map<string, real>): (r: LearningReport)
    ensures r.totalRuns == runIndex
    ensures r.earlyAverage == Mean(EarlyWindow(rewards)) && r.lateAverage == Mean(LateWindow(rewards))
    ensures r.improvement == r.lateAverage - r.earlyAverage
    ensures r.improved <==> r.lateAverage > r.earlyAverage
    ensures r.averageReward == if "average_reward" in summary then summary["average_reward"] else Mean(rewards)
    ensures "best_reward" !in summary ==> forall i :: 0 <= i < |rewards| ==> rewards[i] <= r.bestReward
    ensures |rewards| == 0 ==> r.earlyAverage == 0.0 && r.lateAverage == 0.0 && !r.improved
    ensures |rewards| <= Window ==> r.earlyAverage == r.lateAverage == Mean(rewards) && r.improvement == 0.0
  {
    var early := Mean(EarlyWindow(rewards));
    var late := Mean(LateWindow(rewards));
    LearningReport(runIndex, Get(summary, "average_reward", Mean(rewards)),
      Get(summary, "best_reward", Best(rewards)), early, late, late - early, late - early > 0.0)
  }

  /** `CompletedWorkflow.execute`: the report is written only for a record with a task id. */
  function Completed(d: Option<AgentData>, summary: map<string, real>): (r: CompletedOutcome)
    ensures r.next == Enums.AgentCompleted
    ensures r.report.Some? <==> d.Some? && d.value.taskId != ""
    ensures r.report.Some? ==>
      (r.report.value.totalRuns == d.value.runIndex
       && r.report.value.earlyAverage == Mean(EarlyWindow(d.value.rewardHistory))
       && r.report.value.lateAverage == Mean(LateWindow(d.value.rewardHistory)))
  {
    if d.None? || d.value.taskId == "" then CompletedOutcome(Enums.AgentCompleted, None)
    else CompletedOutcome(Enums.AgentCompleted, Some(Report(d.value.runIndex, d.value.rewardHistory, summary)))
  }

  /** `FailedWorkflow.execute`: the message names the recorded error, with two stand-ins. */
  function Failed(d: Option<AgentData>): (r: FailedOutcome)
    ensures r.next == Enums.AgentFailed
    ensures d.None? ==> r.errorText == "Unknown error"
    ensures d.Some? && d.value.errorMessage == "" ==> r.errorText == "Unspecified failure"
    ensures d.Some? && d.value.errorMessage != "" ==> r.errorText == d.value.errorMessage
    ensures r.errorText != ""
    ensures r.notified <==> d.Some? && d.value.taskId != ""
  {
    var text := if d.None? then "Unknown error" else if d.value.errorMessage == "" then "Unspecified failure" else d.value.errorMessage;
    FailedOutcome(Enums.AgentFailed, text, d.Some? && d.value.taskId != "")
  }

  // ---------------------------------------------------------------------
  // Properties

  /** A list pointwise below another of the same length has the smaller sum. */
  lemma {:induction false} SumPointwise(a: seq<real>, b: seq<real>)
    requires |a| == |b|
    requires forall i :: 0 <= i < |a| ==> a[i] <= b[i]
    ensures Sum(a) <= Sum(b)
  {
    if |a| > 0 {
      SumPointwise(a[..|a| - 1], b[..|b| - 1]);
    }
  }

  /** A list pointwise below another of the same length has the smaller mean. */
  lemma MeanPointwise(a: seq<real>, b: seq<real>)
    requires |a| == |b|
    requires forall i :: 0 <= i < |a| ==> a[i] <= b[i]
    ensures Mean(a) <= Mean(b)
  {
    SumPointwise(a, b);
    if |a| > 0 {
      var k := |a| as real;
      assert Sum(a) / k <= Sum(b) / k by {
        assert Sum(a) * (1.0 / k) <= Sum(b) * (1.0 / k);
      }
    }
  }

  predicate NonDecreasing(s: seq<real>)
  {
    forall i, j :: 0 <= i <= j < |s| ==> s[i] <= s[j]
  }

  /** The first k of a non-decreasing list average no more than the last k. */
  lemma WindowsOrdered(rewards: seq<real>)
    requires NonDecreasing(rewards)
    ensures Mean(EarlyWindow(rewards)) <= Mean(LateWindow(rewards))
  {
    var early := EarlyWindow(rewards);
    var late := LateWindow(rewards);
    var k := |early|;
    forall i | 0 <= i < k
      ensures early[i] <= late[i]
    {
      assert early[i] == rewards[i] && late[i] == rewards[|rewards| - k + i];
    }
    MeanPointwise(early, late);
  }

  /** A session whose rewards never went down reports a non-negative improvement. */
  lemma NonDecreasingRewardsNeverRegress(runIndex: int, rewards: seq<real>, summary: map<string, real>)
    requires NonDecreasing(rewards)
    ensures Report(runIndex, rewards, summary).improvement >= 0.0
  {
    WindowsOrdered(rewards);
  }

  /** A session whose rewards never went up reports no improvement. */
  lemma NonIncreasingRewardsNeverImprove(runIndex: int, rewards: seq<real>, summary: map<string, real>)
    requires forall i, j :: 0 <= i <= j < |rewards| ==> rewards[i] >= rewards[j]
    ensures !Report(runIndex, rewards, summary).improved
  {
    var early := EarlyWindow(rewards);
    var late := LateWindow(rewards);
    var k := |early|;
    forall i | 0 <= i < k
      ensures late[i] <= early[i]
    {
      assert early[i] == rewards[i] && late[i] == rewards[|rewards| - k + i];
    }
    MeanPointwise(late, early);
  }
}
