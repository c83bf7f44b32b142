/**
 * The parts of `project/activities/llm_helpers.py` the executor loop relies
 * on: the tool vocabulary, the tool-to-activity table, and `parse_action`,
 * which reads `ACTION: tool(key=value, ...)` out of a free-text reply.
 *
 * The two regular expressions of `parse_action` are written out as scans:
 * `ACTION:\s*(\w+)\((.*?)\)` searched from the left, and
 * `(\w+)\s*=\s*["']?([^"',)]+)["']?` matched repeatedly over the argument
 * text, with the backtracking the regular-expression engine would do.
 */
module LlmHelpers {
  import opened Wrappers
  import Text
  import opened Values

  /** `VALID_TOOL_NAMES` */
  const ValidToolNames: set<string> := {
    "analyze_logs", "restart_service", "scale_horizontal", "scale_vertical",
    "change_timeout", "rollback_deployment", "clear_cache", "rebalance_load",
    "query_metrics", "finish"}

  /** `TOOL_TO_ACTIVITY`, in its insertion order. */
  const ToolActivities: seq<(string, string)> := [
    ("analyze_logs", "analyze_logs_activity"),
    ("restart_service", "restart_service_activity"),
    ("scale_horizontal", "scale_horizontal_activity"),
    ("scale_vertical", "scale_vertical_activity"),
    ("change_timeout", "change_timeout_activity"),
    ("rollback_deployment", "rollback_deployment_activity"),
    ("clear_cache", "clear_cache_activity"),
    ("rebalance_load", "rebalance_load_activity"),
    ("query_metrics", "query_metrics_tool_activity")]

  /** The dictionary lookup `TOOL_TO_ACTIVITY.get(tool)`. */
  function ActivityOf(tool: string): (r: Option<string>)
    ensures r.Some? ==> exists i :: 0 <= i < |ToolActivities| && ToolActivities[i] == (tool, r.value)
  {
    FindTool(ToolActivities, tool)
  }

  function FindTool(ps: seq<(string, string)>, tool: string): (r: Option<string>)
    ensures r.Some? ==> exists i :: 0 <= i < |ps| && ps[i] == (tool, r.value)
    ensures r.None? ==> forall i :: 0 <= i < |ps| ==> ps[i].0 != tool
  {
    if |ps| == 0 then None
    else if ps[0].0 == tool then Some(ps[0].1)
    else
      var r := FindTool(ps[1..], tool);
      assert r.Some? ==> ps[1..][0] == ps[1];
      r
  }

  /** Every tool the executor accepts but `finish` has an activity, and every activity name ends in `_activity`. */
  lemma ToolTableCoversTools(tool: string)
    requires tool in ValidToolNames
    ensures ActivityOf(tool).Some? <==> tool != "finish"
    ensures ActivityOf(tool).Some? ==> Text.EndsWith(ActivityOf(tool).value, "_activity")
  {
    var ps := ToolActivities;
    if tool == "finish" {
      assert forall i :: 0 <= i < |ps| ==> ps[i].0 != tool;
    } else {
      var i := if tool == "analyze_logs" then 0 else if tool == "restart_service" then 1
        else if tool == "scale_horizontal" then 2 else if tool == "scale_vertical" then 3
        else if tool == "change_timeout" then 4 else if tool == "rollback_deployment" then 5
        else if tool == "clear_cache" then 6 else if tool == "rebalance_load" then 7 else 8;
      assert ps[i].0 == tool;
    }
    TableActivitiesSuffixed();
  }

  lemma TableActivitiesSuffixed()
    ensures forall i :: 0 <= i < |ToolActivities| ==> Text.EndsWith(ToolActivities[i].1, "_activity")
  {
    var ps := ToolActivities;
    assert Text.EndsWith(ps[0].1, "_activity");
    assert Text.EndsWith(ps[1].1, "_activity");
    assert Text.EndsWith(ps[2].1, "_activity");
    assert Text.EndsWith(ps[3].1, "_activity");
    assert Text.EndsWith(ps[4].1, "_activity");
    assert Text.EndsWith(ps[5].1, "_activity");
    assert Text.EndsWith(ps[6].1, "_activity");
    assert Text.EndsWith(ps[7].1, "_activity");
    assert Text.EndsWith(ps[8].1, "_activity");
  }

  /** The end of the run of characters satisfying `p` that starts at `i`. */
  function RunEnd(s: string, i: nat, p: char -> bool): (j: nat)
    requires i <= |s|
    ensures i <= j <= |s|
    ensures forall k :: i <= k < j ==> p(s[k])
    ensures j < |s| ==> !p(s[j])
    decreases |s| - i
  {
    if i == |s| || !p(s[i]) then i else RunEnd(s, i + 1, p)
  }

  /** The position of the first `c` at or after `i`, if any. */
  function IndexOf(s: string, i: nat, c: char): (r: Option<nat>)
    requires i <= |s|
    ensures r.Some? ==> i <= r.value < |s| && s[r.value] == c
    ensures r.Some? ==> forall k :: i <= k < r.value ==> s[k] != c
    ensures r.None? ==> forall k :: i <= k < |s| ==> s[k] != c
    decreases |s| - i
  {
    if i == |s| then None else if s[i] == c then Some(i) else IndexOf(s, i + 1, c)
  }

  predicate IsWord(c: char) { Text.IsWordChar(c) }
  predicate IsSpace(c: char) { Text.IsSpace(c) }

  const Tag := "ACTION:"

  /** `ACTION:\s*(\w+)\((.*?)\)` matched at `i`: the tool name and the argument text. */
  function ActionAt(s: string, i: nat): (r: Option<(string, string)>)
    requires i <= |s|
    ensures r.Some? ==> |r.value.0| > 0 && (forall k :: 0 <= k < |r.value.0| ==> Text.IsWordChar(r.value.0[k]))
    ensures r.Some? ==> ')' !in r.value.1
  {
    if !TagAt(s, i) then None
    else
      var w := RunEnd(s, i + |Tag|, IsSpace);
      var e := RunEnd(s, w, IsWord);
      if e == w || e == |s| || s[e] != '(' then None
      else
        match IndexOf(s, e + 1, ')')
        case None => None
        case Some(c) => Some((s[w..e], s[e + 1..c]))
  }

  /** `re.search` of the action pattern: the leftmost position where it matches. */
  function FirstAction(s: string, i: nat): (r: Option<(string, string)>)
    requires i <= |s|
    ensures r.Some? ==> exists k :: i <= k <= |s| && ActionAt(s, k) == r
    ensures r.None? ==> forall k :: i <= k <= |s| ==> ActionAt(s, k).None?
    decreases |s| - i
  {
    if ActionAt(s, i).Some? then ActionAt(s, i)
    else if i == |s| then None
    else FirstAction(s, i + 1)
  }

  predicate IsQuote(c: char) { c == '"' || c == '\'' }

  /** The characters `[^"',)]` the value class stops at. */
  predicate EndsValue(c: char) { IsQuote(c) || c == ',' || c == ')' }

  predicate InValue(c: char) { !EndsValue(c) }

  /**
   * Where the value starts once `\s*=\s*` has matched up to `ws` (the `\s*`
   * after `=` having started at `e`): after an opening quote when a value
   * character follows it, at `ws` when that is a value character, or else
   * one whitespace back, the last place the value class can begin.
   */
  function ValueStart(s: string, e: nat, ws: nat): (r: Option<nat>)
    requires e <= ws <= |s|
    ensures r.Some? ==> e <= r.value < |s| && InValue(s[r.value])
  {
    if ws + 1 < |s| && IsQuote(s[ws]) && InValue(s[ws + 1]) then Some(ws + 1)
    else if ws < |s| && InValue(s[ws]) then Some(ws)
    else if ws > e && InValue(s[ws - 1]) then Some(ws - 1)
    else None
  }

  /** One match of the key=value pattern at `p`: the key, the raw value, and where the match ends. */
  function PairAt(s: string, p: nat): (r: Option<(string, string, nat)>)
    requires p < |s|
    ensures r.Some? ==> p < r.value.2 <= |s|
    ensures r.Some? ==> |r.value.0| > 0 && |r.value.1| > 0
  {
    if !IsWord(s[p]) then None
    else
      var k := RunEnd(s, p, IsWord);
      var w := RunEnd(s, k, IsSpace);
      if w == |s| || s[w] != '=' then None
      else
        var e := w + 1;
        match ValueStart(s, e, RunEnd(s, e, IsSpace))
        case None => None
        case Some(vs) =>
          var ve := RunEnd(s, vs, InValue);
          var end := if ve < |s| && IsQuote(s[ve]) then ve + 1 else ve;
          Some((s[p..k], s[vs..ve], end))
  }

  /** `re.finditer` of the key=value pattern from `p`: every match, left to right, none overlapping. */
  function Pairs(s: string, p: nat): (r: seq<(string, string)>)
    requires p <= |s|
    ensures forall i :: 0 <= i < |r| ==> |r[i].0| > 0
    decreases |s| - p
  {
    if p == |s| then []
    else
      match PairAt(s, p)
      case None => Pairs(s, p + 1)
      case Some((key, value, end)) => [(key, value)] + Pairs(s, end)
  }

  /** `int(v)`, else `float(v)`, else the text itself, on the stripped value. */
  function Convert(raw: string): (v: Value)
    ensures v.IntV? <==> Text.ParseInt(Text.Strip(raw)).Some?
    ensures v.IntV? ==> Text.ParseInt(Text.Strip(raw)) == Some(v.i)
    ensures v.RealV? ==> Text.ParseDecimal(Text.Strip(raw)) == Some(v.r)
    ensures v.TextV? <==> Text.ParseDecimal(Text.Strip(raw)).None?
    ensures v.TextV? ==> v.s == Text.Strip(raw)
  {
    var t := Text.Strip(raw);
    match Text.ParseInt(t)
    case Some(i) => IntV(i)
    case None =>
      match Text.ParseDecimal(t)
      case Some(x) => RealV(x)
      case None => TextV(t)
  }

  /** The dictionary built by assigning the pairs one after the other. */
  function Assign<V>(ps: seq<(string, V)>): (r: map<string, V>)
    ensures |ps| > 0 ==> ps[|ps| - 1].0 in r && r[ps[|ps| - 1].0] == ps[|ps| - 1].1
  {
    if |ps| == 0 then map[] else Assign(ps[..|ps| - 1])[ps[|ps| - 1].0 := ps[|ps| - 1].1]
  }

  /** The dictionary has exactly the pairs' keys. */
  lemma {:induction false} AssignKeys<V>(ps: seq<(string, V)>)
    ensures forall i :: 0 <= i < |ps| ==> ps[i].0 in Assign(ps)
    ensures forall k :: k in Assign(ps) ==> exists i :: 0 <= i < |ps| && ps[i].0 == k
  {
    if |ps| > 0 {
      var n := |ps| - 1;
      var init := ps[..n];
      AssignKeys(init);
      assert Assign(ps).Keys == Assign(init).Keys + {ps[n].0};
      assert forall i :: 0 <= i < n ==> ps[i] == init[i];
    }
  }

  /** No later pair than the `i`-th names its key. */
  predicate LastWithKey<V>(ps: seq<(string, V)>, i: nat)
    requires i < |ps|
  {
    forall j :: i < j < |ps| ==> ps[j].0 != ps[i].0
  }

  /** Each key holds the value of the last pair that names it: later keys overwrite earlier ones. */
  lemma {:induction false} AssignLastWins<V>(ps: seq<(string, V)>, i: nat)
    requires i < |ps| && LastWithKey(ps, i)
    ensures ps[i].0 in Assign(ps) && Assign(ps)[ps[i].0] == ps[i].1
  {
    var n := |ps| - 1;
    if i < n {
      var init := ps[..n];
      assert ps[i] == init[i];
      assert LastWithKey(init, i);
      AssignLastWins(init, i);
      assert ps[i].0 != ps[n].0;
    }
  }

  /** The keyword arguments of the pairs, each value converted. */
  function ToParams(ps: seq<(string, string)>): Params
  {
    Assign(seq(|ps|, i requires 0 <= i < |ps| => (ps[i].0, Convert(ps[i].1))))
  }

  /** The argument text of an action turned into keyword arguments. */
  function ParseArguments(args: string): (r: Params)
    ensures Text.Strip(args) == "" ==> r == map[]
    ensures Text.Strip(args) != "" ==> |r.Keys| > 0
  {
    var a := Text.Strip(args);
    if a == "" then map[]
    else
      var ps := Pairs(a, 0);
      if |ps| == 0 then map["value" := TextV(a)]
      else
        var cs := seq(|ps|, i requires 0 <= i < |ps| => (ps[i].0, Convert(ps[i].1)));
        AssignKeys(cs);
        assert cs[0].0 in ToParams(ps).Keys;
        ToParams(ps)
  }

  /** `parse_action` */
  function ParseAction(response: string): (r: (string, Params))
    ensures FirstAction(response, 0).None? ==> r == ("none", map[])
    ensures FirstAction(response, 0).Some? ==>
      (r.0 == FirstAction(response, 0).value.0 && r.1 == ParseArguments(FirstAction(response, 0).value.1))
    ensures r.0 == "none" || IsToolWord(r.0)
  {
    match FirstAction(response, 0)
    case None => ("none", map[])
    case Some((name, args)) => (name, ParseArguments(args))
  }

  /** A tool name is one run of word characters. */
  predicate IsToolWord(w: string)
  {
    |w| > 0 && forall k :: 0 <= k < |w| ==> Text.IsWordChar(w[k])
  }

  lemma RunEndOnWord(s: string, i: nat, w: string)
    requires IsToolWord(w) && i + |w| <= |s| && s[i..i + |w|] == w
    requires i + |w| < |s| && !Text.IsWordChar(s[i + |w|])
    ensures RunEnd(s, i, IsWord) == i + |w|
    decreases |w|
  {
    assert s[i] == w[0];
    if |w| > 1 {
      assert s[i + 1..i + 1 + |w[1..]|] == w[1..];
      RunEndOnWord(s, i + 1, w[1..]);
    }
  }

  /** A reply ending in a call with no arguments names that tool and passes nothing: `ACTION: finish()` is `("finish", {})`. */
  lemma BareCallParses(name: string)
    requires IsToolWord(name)
    ensures ParseAction(Tag + " " + name + "()") == (name, map[])
  {
    var s := Tag + " " + name + "()";
    var w := |Tag| + 1;
    var e := w + |name|;
    assert TagAt(s, 0) by { assert s[0..|Tag|] == Tag; }
    assert RunEnd(s, |Tag|, IsSpace) == w by {
      assert IsSpace(s[|Tag|]);
      assert !IsSpace(s[w]) by { assert s[w] == name[0]; }
    }
    assert s[w..e] == name;
    assert s[e] == '(' && s[e + 1] == ')';
    RunEndOnWord(s, w, name);
    assert IndexOf(s, e + 1, ')') == Some(e + 1);
    assert s[e + 1..e + 1] == "";
    assert ActionAt(s, 0) == Some((name, ""));
  }

  /** A reply `ACTION: name(args)` with no `)` in the arguments calls `name` with exactly `args`. */
  lemma CallIsFirstAction(name: string, args: string)
    requires IsToolWord(name) && ')' !in args
    ensures FirstAction(Tag + " " + name + "(" + args + ")", 0) == Some((name, args))
  {
    var s := Tag + " " + name + "(" + args + ")";
    var w := |Tag| + 1;
    var e := w + |name|;
    assert TagAt(s, 0) by { assert s[0..|Tag|] == Tag; }
    assert RunEnd(s, |Tag|, IsSpace) == w by {
      assert IsSpace(s[|Tag|]);
      assert !IsSpace(s[w]) by { assert s[w] == name[0]; }
    }
    assert s[w..e] == name;
    assert s[e] == '(';
    RunEndOnWord(s, w, name);
    assert forall k :: e + 1 <= k < |s| - 1 ==> s[k] == args[k - e - 1];
    assert s[|s| - 1] == ')';
    assert forall k :: e + 1 <= k < |s| - 1 ==> s[k] != ')';
    assert IndexOf(s, e + 1, ')') == Some(|s| - 1);
    assert s[e + 1..|s| - 1] == args;
  }

  /**
   * A call with one whole-number keyword argument reads back as that tool
   * with that argument as an integer: `ACTION: scale_horizontal(target=3)`
   * is `("scale_horizontal", {"target": 3})`.
   */
  lemma KeywordCallRoundTrip(name: string, key: string, n: nat)
    requires IsToolWord(name) && IsToolWord(key)
    ensures ParseAction(Tag + " " + name + "(" + key + "=" + Text.NatToString(n) + ")") == (name, map[key := IntV(n)])
  {
    var digits := Text.NatToString(n);
    var args := key + "=" + digits;
    assert ')' !in args by {
      assert forall k :: 0 <= k < |args| ==> args[k] != ')' by {
        assert forall k :: 0 <= k < |key| ==> args[k] == key[k];
        assert forall k :: |key| < k < |args| ==> args[k] == digits[k - |key| - 1];
      }
    }
    assert Tag + " " + name + "(" + key + "=" + digits + ")" == Tag + " " + name + "(" + args + ")";
    CallIsFirstAction(name, args);
    ArgumentsOfPair(key, digits, n);
  }

  /** The argument text `key=digits` gives that key the integer the digits spell. */
  lemma ArgumentsOfPair(key: string, digits: string, n: nat)
    requires IsToolWord(key) && digits == Text.NatToString(n)
    ensures ParseArguments(key + "=" + digits) == map[key := IntV(n)]
  {
    var a := key + "=" + digits;
    ArgumentIsStripped(key, digits);
    PairOfArgument(key, digits);
    Text.StripNoSpace(digits);
    Text.ParseIntRoundTrip(n);
    assert Convert(digits) == IntV(n);
    ArgumentsOfOnePair(a, key, digits);
  }

  /** Stripped argument text that spells one pair gives exactly that keyword argument. */
  lemma ArgumentsOfOnePair(a: string, key: string, v: string)
    requires a != "" && Text.Strip(a) == a && Pairs(a, 0) == [(key, v)]
    ensures ParseArguments(a) == map[key := Convert(v)]
  {
    var ps := Pairs(a, 0);
    var cs := seq(|ps|, i requires 0 <= i < |ps| => (ps[i].0, Convert(ps[i].1)));
    assert cs == [(key, Convert(v))];
    assert Assign(cs) == Assign(cs[..0])[key := Convert(v)];
  }

  lemma ArgumentIsStripped(key: string, digits: string)
    requires IsToolWord(key) && Text.AllDigits(digits)
    ensures Text.Strip(key + "=" + digits) == key + "=" + digits
  {
    var a := key + "=" + digits;
    var e := |key| + 1;
    assert Text.NoSpace(a) by {
      assert forall k :: 0 <= k < |key| ==> a[k] == key[k];
      assert forall k :: e <= k < |a| ==> a[k] == digits[k - e];
    }
    Text.StripNoSpace(a);
  }

  /** The argument text `key=digits` is the one pair it spells. */
  lemma PairOfArgument(key: string, digits: string)
    requires IsToolWord(key) && |digits| > 0 && Text.AllDigits(digits)
    ensures Pairs(key + "=" + digits, 0) == [(key, digits)]
  {
    var a := key + "=" + digits;
    PairAtArgument(key, digits);
    assert Pairs(a, 0) == [(key, digits)] + Pairs(a, |a|);
  }

  lemma PairAtArgument(key: string, digits: string)
    requires IsToolWord(key) && |digits| > 0 && Text.AllDigits(digits)
    ensures PairAt(key + "=" + digits, 0) == Some((key, digits, |key| + 1 + |digits|))
  {
    var a := key + "=" + digits;
    var e := |key| + 1;
    assert a[0..|key|] == key;
    RunEndOnWord(a, 0, key);
    assert a[|key|] == '=';
    assert RunEnd(a, |key|, IsSpace) == |key|;
    ValueOfArgument(key, digits);
  }

  lemma ValueOfArgument(key: string, digits: string)
    requires |digits| > 0 && Text.AllDigits(digits)
    ensures var a := key + "=" + digits; var e := |key| + 1;
      ValueStart(a, e, RunEnd(a, e, IsSpace)) == Some(e) && RunEnd(a, e, InValue) == |a| && a[e..|a|] == digits
  {
    var a := key + "=" + digits;
    var e := |key| + 1;
    assert a[e] == digits[0];
    assert RunEnd(a, e, IsSpace) == e;
    assert forall k :: e <= k < |a| ==> InValue(a[k]) by {
      assert forall k :: e <= k < |a| ==> a[k] == digits[k - e];
    }
    assert a[e..|a|] == digits;
  }

  predicate TagAt(s: string, i: nat)
  {
    i + |Tag| <= |s| && s[i..i + |Tag|] == Tag
  }

  lemma {:induction false} NoTagNoAction(s: string, i: nat)
    requires i <= |s| && forall k :: i <= k <= |s| ==> !TagAt(s, k)
    ensures FirstAction(s, i).None?
    decreases |s| - i
  {
    assert !TagAt(s, i);
    if i < |s| {
      NoTagNoAction(s, i + 1);
    }
  }

  /** Replies without the marker parse as no action at all. */
  lemma UnmarkedReplyIsNone(response: string)
    requires forall k :: 0 <= k <= |response| ==> !TagAt(response, k)
    ensures ParseAction(response) == ("none", map[])
  {
    NoTagNoAction(response, 0);
  }

  /** Argument text with no `key=value` in it is kept whole under `value`. */
  lemma BareArgumentIsValue(args: string)
    requires Text.Strip(args) != "" && '=' !in args
    ensures ParseArguments(args) == map["value" := TextV(Text.Strip(args))]
  {
    var a := Text.Strip(args);
    assert forall k :: 0 <= k < |a| ==> a[k] != '=';
    NoPairsWithoutEquals(a, 0);
  }

  lemma {:induction false} NoPairsWithoutEquals(s: string, p: nat)
    requires p <= |s| && forall k :: 0 <= k < |s| ==> s[k] != '='
    ensures Pairs(s, p) == []
    decreases |s| - p
  {
    if p < |s| {
      assert PairAt(s, p).None?;
      NoPairsWithoutEquals(s, p + 1);
    }
  }
}
