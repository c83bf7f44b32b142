/**
 * The control-loop task (`project/workflow.py`): the eight-state machine
 * it builds, the flags it sets when the agent task is created, and the
 * interpreter for user messages sent while the loop runs.
 *
 * Messages are matched, in order, on their lower-cased and stripped text:
 * `start...` or exactly `run`, `trigger...`, `status...`, `set max...`,
 * and anything else is chat. The echoed and agent-authored messages and
 * the tracing span are not modelled; the message body is `None` when the
 * event carries no text.
 */
module Commands {
  import opened Wrappers
  import opened Text
  import opened Enums
  import opened EvooMachine
  import IdleWorkflow

  /** The interpretation of one user message. */
  datatype Command =
    | Start
    | Trigger
    | Status
    | SetMax(value: Option<int>)
    | Chat

  /** The states of the machine, each with its workflow, in declaration order. */
  const States: seq<EvooState> := [Idle, DetectingIncident, PlanningRemediation, ExecutingRemediation,
    EvaluatingOutcome, Learning, Completed, Failed]

  const InitialState: EvooState := Idle

  /** The states list names every state exactly once. */
  lemma StatesAreComplete(s: EvooState)
    ensures |States| == 8
    ensures s in States
    ensures forall i, j :: 0 <= i < j < |States| ==> States[i] != States[j]
  {
  }

  /** `on_task_create`: the task id is recorded and the loop is switched on. */
  function TaskCreated(taskId: string): (r: EvooData)
    ensures r.taskId == Some(taskId)
    ensures r.autoMode && r.learningLoopActive
    ensures r.incidentCount == 0 && r.messagesReceived == 0 && r.currentTurn == 0
    ensures r.conversationHistory == []
  {
    Initial.(taskId := Some(taskId), autoMode := true, learningLoopActive := true)
  }

  /**
   * The `except` branch around the machine's run: the error text is
   * recorded and the machine moves to FAILED, which stops it.
   */
  function RunFailed(d: EvooData, error: string): (r: Transition)
    ensures r.next == Failed && TerminalCondition(r.next, r.data)
    ensures r.data.Some? && r.data.value.errorMessage == error
    ensures ResetForNewIncident(r.data.value) == ResetForNewIncident(d)
  {
    var e := d.(errorMessage := error);
    ResetForgetsTheCycle(e, d);
    Transition(Failed, Some(e))
  }

  /** The stripped message body: a missing or non-text body reads as the empty string. */
  function MessageText(content: Option<string>): (r: string)
    ensures content.None? ==> r == ""
  {
    Strip(content.GetOr(""))
  }

  /** The last whitespace-separated token, `parts[-1]`; `None` when there is none. */
  function LastToken(s: string): (r: Option<string>)
    ensures r.Some? <==> |Split(s)| > 0
    ensures r.Some? ==> r.value == Split(s)[|Split(s)| - 1]
  {
    var parts := Split(s);
    if |parts| == 0 then None else Some(parts[|parts| - 1])
  }

  /** Which branch of the interpreter a message body takes. */
  function Classify(text: string): (c: Command)
    ensures var m := Strip(Lower(text));
      && (c == Start <==> StartsWith(m, "start") || m == "run")
      && (c == Trigger <==> !StartsWith(m, "start") && m != "run" && StartsWith(m, "trigger"))
      && (c.SetMax? ==> StartsWith(m, "set max"))
      && (c == Chat ==>
            !StartsWith(m, "start") && m != "run" && !StartsWith(m, "trigger")
            && !StartsWith(m, "status") && !StartsWith(m, "set max"))
    ensures c.SetMax? ==> c.value == (match LastToken(text) case None => None case Some(t) => ParseInt(t))
  {
    var m := Strip(Lower(text));
    if StartsWith(m, "start") || m == "run" then Start
    else if StartsWith(m, "trigger") then Trigger
    else if StartsWith(m, "status") then Status
    else if StartsWith(m, "set max") then
      SetMax(match LastToken(text) case None => None case Some(t) => ParseInt(t))
    else Chat
  }

  /** `on_task_event_send` */
  function OnEvent(d: EvooData, content: Option<string>): (r: EvooData)
    ensures r.messagesReceived == d.messagesReceived + 1 && r.currentTurn == d.currentTurn + 1
    ensures var c := Classify(MessageText(content));
      && (c == Start ==> r.autoMode && r.learningLoopActive && !r.waitingForUserInput)
      && (c == Trigger || c == Chat ==> !r.waitingForUserInput)
      && (c.SetMax? && c.value.Some? ==> r.maxIncidents == c.value.value)
      && (c.SetMax? && c.value.None? ==> r.maxIncidents == d.maxIncidents)
      && (c == Chat ==> r.conversationHistory == d.conversationHistory + [ChatEntry("user", MessageText(content))])
      && (c != Chat ==> r.conversationHistory == d.conversationHistory)
    ensures r.incidentCount == d.incidentCount
  {
    var text := MessageText(content);
    var e := d.(messagesReceived := d.messagesReceived + 1, currentTurn := d.currentTurn + 1);
    Apply(e, Classify(text), text)
  }

  /** What one interpreted message changes in the agent task's record. */
  function Apply(e: EvooData, c: Command, text: string): (r: EvooData)
    ensures r.messagesReceived == e.messagesReceived && r.currentTurn == e.currentTurn
    ensures r.incidentCount == e.incidentCount
    ensures c == Start ==> r.autoMode && r.learningLoopActive && !r.waitingForUserInput
    ensures c == Trigger || c == Chat ==> !r.waitingForUserInput
    ensures c.SetMax? && c.value.Some? ==> r.maxIncidents == c.value.value
    ensures c.SetMax? && c.value.None? ==> r.maxIncidents == e.maxIncidents
    ensures c == Chat ==> r.conversationHistory == e.conversationHistory + [ChatEntry("user", text)]
    ensures c != Chat ==> r.conversationHistory == e.conversationHistory
  {
    match c
    case Start => e.(autoMode := true, learningLoopActive := true, waitingForUserInput := false)
    case Trigger => e.(waitingForUserInput := false)
    case Status => e
    case SetMax(v) => if v.Some? then e.(maxIncidents := v.value) else e
    case Chat => e.(conversationHistory := e.conversationHistory + [ChatEntry("user", text)], waitingForUserInput := false)
  }

  // ---------------------------------------------------------------------
  // Properties

  /** `status` answers and changes nothing beyond the two counters. */
  lemma StatusChangesOnlyCounters(d: EvooData, content: Option<string>)
    requires Classify(MessageText(content)) == Status
    ensures OnEvent(d, content) == d.(messagesReceived := d.messagesReceived + 1, currentTurn := d.currentTurn + 1)
  {
  }

  /** `trigger` changes nothing beyond the counters and the wait flag. */
  lemma TriggerOnlyClearsWaiting(d: EvooData, content: Option<string>)
    requires Classify(MessageText(content)) == Trigger
    ensures OnEvent(d, content)
      == d.(messagesReceived := d.messagesReceived + 1, currentTurn := d.currentTurn + 1, waitingForUserInput := false)
  {
  }

  /** Leading whitespace in front of `q` is stripped away with it. */
  lemma {:induction false} StripLeftSpaces(p: string, q: string)
    requires forall i :: 0 <= i < |p| ==> IsSpace(p[i])
    ensures StripLeft(p + q) == StripLeft(q)
    decreases |p|
  {
    if |p| > 0 {
      assert (p + q)[1..] == p[1..] + q;
      StripLeftSpaces(p[1..], q);
    } else {
      assert p + q == q;
    }
  }

  /** Stripping the left of `p + q` only reaches into `p` when `p` holds a non-space. */
  lemma {:induction false} StripLeftConcat(p: string, q: string, k: nat)
    requires k < |p| && !IsSpace(p[k])
    ensures StripLeft(p + q) == StripLeft(p) + q
    decreases |p|
  {
    if IsSpace(p[0]) {
      assert (p + q)[1..] == p[1..] + q;
      StripLeftConcat(p[1..], q, k - 1);
    }
  }

  /** A word never reaches past the first whitespace character. */
  lemma {:induction false} WordStopsAtSpace(s: string, j: nat)
    requires j < |s| && IsSpace(s[j])
    ensures |Word(s)| <= j
    decreases j
  {
    if !IsSpace(s[0]) {
      WordStopsAtSpace(s[1..], j - 1);
    }
  }

  /** `split()` ignores leading whitespace. */
  lemma SplitSkipsSpaces(s: string)
    ensures Split(s) == Split(StripLeft(s))
  {
    var t := StripLeft(s);
    if |t| > 0 {
      assert StripLeft(t) == t;
    }
  }

  /** `split()` of a text that starts with a non-space: its first word, then the rest. */
  lemma SplitFront(t: string)
    requires |t| > 0 && !IsSpace(t[0])
    ensures Split(t) == [Word(t)] + Split(t[|Word(t)|..])
  {
    assert StripLeft(t) == t;
  }

  /** Dropping a prefix no longer than `a` from `a + b` drops it from `a`. */
  lemma DropConcat(a: string, b: string, i: nat)
    requires i <= |a|
    ensures (a + b)[i..] == a[i..] + b
  {
  }

  lemma ConcatAssoc(a: string, b: string, c: string)
    ensures a + b + c == a + (b + c)
  {
  }

  predicate LastIs(ws: seq<string>, w: string) { |ws| > 0 && ws[|ws| - 1] == w }

  lemma LastOfCons<T>(u: T, tail: seq<T>)
    requires |tail| > 0
    ensures ([u] + tail)[|tail|] == tail[|tail| - 1]
  {
  }

  /** A single word splits into itself. */
  lemma SplitOneWord(w: string)
    requires |w| > 0 && NoSpace(w)
    ensures Split(w) == [w]
  {
    assert Word(w) == w;
    SplitFront(w);
    assert w[|w|..] == [];
  }

  /** Blanks, a space and one word split into that word alone. */
  lemma SplitBlankThenWord(p: string, w: string)
    requires |w| > 0 && NoSpace(w)
    requires forall i :: 0 <= i < |p| ==> IsSpace(p[i])
    ensures Split(p + ([' '] + w)) == [w]
  {
    var q := [' '] + w;
    SplitSkipsSpaces(p + q);
    StripLeftSpaces(p, q);
    assert q[1..] == w;
    assert StripLeft(q) == w;
    SplitOneWord(w);
  }

  /** The last token of `p + " " + w` is `w` when `w` is one non-empty word. */
  lemma {:induction false} SplitLast(p: string, w: string)
    requires |w| > 0 && NoSpace(w)
    ensures LastIs(Split(p + ([' '] + w)), w)
    decreases |p|, 1
  {
    if forall i :: 0 <= i < |p| ==> IsSpace(p[i]) {
      SplitBlankThenWord(p, w);
    } else {
      var k :| 0 <= k < |p| && !IsSpace(p[k]);
      SplitLastPastWord(p, w, k);
    }
  }

  /** When `p` holds a word, `split()` takes its first word and goes on with the rest. */
  lemma {:induction false} SplitLastPastWord(p: string, w: string, k: nat)
    requires |w| > 0 && NoSpace(w)
    requires k < |p| && !IsSpace(p[k])
    ensures LastIs(Split(p + ([' '] + w)), w)
    decreases |p|, 0
  {
    var q := [' '] + w;
    SplitSkipsSpaces(p + q);
    StripLeftConcat(p, q, k);
    var p1 := StripLeft(p);
    assert |p1| > 0 && !IsSpace(p1[0]);
    var t := p1 + q;
    assert Split(p + q) == Split(t);
    SplitFront(t);
    WordStopsAtSpace(t, |p1|);
    var u := Word(t);
    var rest := p1[|u|..];
    DropConcat(p1, q, |u|);
    assert Split(p + q) == [u] + Split(rest + q);
    SplitLast(rest, w);
    LastOfCons(u, Split(rest + q));
  }

  /** The text of an integer is a sign and digits: one word, with no upper-case letter. */
  lemma IntTextIsOneWord(n: int)
    ensures var num := IntToString(n);
      |num| > 0 && NoSpace(num) && forall i :: 0 <= i < |num| ==> !IsUpper(num[i])
  {
    var num := IntToString(n);
    if n < 0 {
      assert forall i :: 1 <= i < |num| ==> num[i] == NatToString(-n)[i - 1];
    }
  }

  /** `set max N` is already lower-case and stripped. */
  lemma SetMaxTextIsNormal(n: int)
    ensures var text := "set max" + " " + IntToString(n);
      Strip(text) == text && Strip(Lower(text)) == text
  {
    var num := IntToString(n);
    IntTextIsOneWord(n);
    var text := "set max" + " " + num;
    assert StripLeft(text) == text;
    assert text[|text| - 1] == num[|num| - 1];
    assert Lower(text) == text;
  }

  /** `set max N` is matched by the `set max` branch and by none before it. */
  lemma SetMaxBranch(n: int)
    ensures var text := "set max" + " " + IntToString(n);
      !StartsWith(text, "start") && text != "run" && !StartsWith(text, "trigger")
      && !StartsWith(text, "status") && StartsWith(text, "set max")
  {
    var text := "set max" + " " + IntToString(n);
    assert text[1] == 'e' && |text| > 3;
    assert text[..7] == "set max";
  }

  /** The last token of `set max N` is the text of N. */
  lemma SetMaxLastToken(n: int)
    ensures LastToken("set max" + " " + IntToString(n)) == Some(IntToString(n))
  {
    var num := IntToString(n);
    IntTextIsOneWord(n);
    ConcatAssoc("set max", " ", num);
    SplitLast("set max", num);
  }

  /** `set max N` parses to the command `SetMax(N)`. */
  lemma SetMaxParses(n: int)
    ensures MessageText(Some("set max" + " " + IntToString(n))) == "set max" + " " + IntToString(n)
    ensures Classify("set max" + " " + IntToString(n)) == SetMax(Some(n))
  {
    ParseIntRoundTrip(n);
    SetMaxTextIsNormal(n);
    SetMaxBranch(n);
    SetMaxLastToken(n);
  }

  /** `set max N` sets the incident budget to N, for every integer N. */
  lemma SetMaxRoundTrip(d: EvooData, n: int)
    ensures OnEvent(d, Some("set max" + " " + IntToString(n))).maxIncidents == n
  {
    SetMaxParses(n);
  }

  /**
   * With the loop waiting in IDLE, a `set max` below or at the incidents
   * already handled ends the loop, and one above them starts a new cycle.
   */
  lemma SetMaxDecidesTheNextCycle(d: EvooData, n: int)
    ensures var e := OnEvent(d, Some("set max" + " " + IntToString(n)));
      && (n <= d.incidentCount ==> IdleWorkflow.Idle(Some(e)).next == Completed)
      && (n > d.incidentCount ==> IdleWorkflow.Idle(Some(e)).next == DetectingIncident)
  {
    SetMaxRoundTrip(d, n);
  }

  /** A message that parses as no command is kept, verbatim and stripped, as the next chat entry. */
  lemma ChatIsRecorded(d: EvooData, content: string)
    requires Classify(MessageText(Some(content))) == Chat
    ensures var r := OnEvent(d, Some(content));
      |r.conversationHistory| == |d.conversationHistory| + 1
      && r.conversationHistory[|d.conversationHistory|] == ChatEntry("user", Strip(content))
      && r.conversationHistory[..|d.conversationHistory|] == d.conversationHistory
  {
  }
}
