/**
 * Optional values and dictionary lookups with defaults, the two idioms the
 * Python code uses everywhere (`None`, `dict.get(key, default)`).
 */
module Wrappers {

  datatype Option<+T> = None | Some(value: T) {
    /** `x if x is not None else d` */
    function GetOr(d: T): T {
      match this
      case None => d
      case Some(v) => v
    }
  }

  /** `m.get(k, d)` */
  function Get<K, V>(m: map<K, V>, k: K, d: V): V {
    if k in m then m[k] else d
  }

  function Min(a: real, b: real): real { if a <= b then a else b }
  function Max(a: real, b: real): real { if a >= b then a else b }

  /** `max(lo, min(hi, x))` */
  function Clamp(x: real, lo: real, hi: real): real { Max(lo, Min(hi, x)) }

  function Sum(s: seq<real>): real
  {
    if |s| == 0 then 0.0 else Sum(s[..|s| - 1]) + s[|s| - 1]
  }

  /** `sum(s) / len(s)` for a non-empty list, and 0 for the empty one. */
  function Mean(s: seq<real>): real
  {
    if |s| == 0 then 0.0 else Sum(s) / (|s| as real)
  }

  lemma {:induction false} SumAppend(s: seq<real>, x: real)
    ensures Sum(s + [x]) == Sum(s) + x
  {
    assert (s + [x])[..|s + [x]| - 1] == s;
  }

  lemma {:induction false} SumConcat(a: seq<real>, b: seq<real>)
    ensures Sum(a + b) == Sum(a) + Sum(b)
    decreases |b|
  {
    if |b| == 0 {
      assert a + b == a;
    } else {
      var b' := b[..|b| - 1];
      assert a + b == (a + b') + [b[|b| - 1]];
      SumAppend(a + b', b[|b| - 1]);
      SumConcat(a, b');
      assert b == b' + [b[|b| - 1]];
      SumAppend(b', b[|b| - 1]);
    }
  }

  /** A list bounded above by c has its mean at most c. */
  lemma {:induction false} MeanAtMost(s: seq<real>, c: real)
    requires forall i :: 0 <= i < |s| ==> s[i] <= c
    ensures Sum(s) <= |s| as real * c
    ensures |s| > 0 ==> Mean(s) <= c
  {
    if |s| > 0 {
      MeanAtMost(s[..|s| - 1], c);
    }
  }

  /** A non-empty list bounded strictly below by c has its mean above c. */
  lemma {:induction false} MeanAbove(s: seq<real>, c: real)
    requires forall i :: 0 <= i < |s| ==> s[i] > c
    ensures |s| > 0 ==> Sum(s) > |s| as real * c
    ensures |s| > 0 ==> Mean(s) > c
  {
    if |s| > 0 {
      MeanAbove(s[..|s| - 1], c);
    }
  }
}
