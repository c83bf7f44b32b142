/**
 * Python's `sorted(xs, key=..., reverse=True)` and `max(xs, key=...)` as the
 * loop uses them: a stable sort into non-increasing key order, keys compared
 * lexicographically on (primary, secondary), and the first maximal element.
 */
module Sorting {
  type Key = (real, real)

  /** `a` sorts strictly ahead of `b`. */
  predicate Above(a: Key, b: Key) { a.0 > b.0 || (a.0 == b.0 && a.1 > b.1) }

  /** `a` may sit ahead of `b` in a descending order. */
  predicate AtLeast(a: Key, b: Key) { a.0 > b.0 || (a.0 == b.0 && a.1 >= b.1) }

  predicate SortedDesc<T>(s: seq<T>, key: T -> Key)
  {
    forall i, j :: 0 <= i < j < |s| ==> AtLeast(key(s[i]), key(s[j]))
  }

  /** Places `x` after every element that sorts strictly ahead of it. */
  function Insert<T>(x: T, s: seq<T>, key: T -> Key): (r: seq<T>)
    ensures multiset(r) == multiset(s) + multiset{x}
    ensures |r| == |s| + 1
    ensures SortedDesc(s, key) ==> SortedDesc(r, key)
  {
    if |s| == 0 || !Above(key(s[0]), key(x)) then
      assert SortedDesc(s, key) ==> SortedDesc([x] + s, key) by {
        if SortedDesc(s, key) && |s| > 0 {
          ConsSorted(x, s, key);
        }
      }
      [x] + s
    else
      var rest := Insert(x, s[1..], key);
      assert s == [s[0]] + s[1..];
      assert SortedDesc(s, key) ==> SortedDesc([s[0]] + rest, key) by {
        if SortedDesc(s, key) {
          forall k | 0 <= k < |rest|
            ensures AtLeast(key(s[0]), key(rest[k]))
          {
            assert rest[k] in multiset(s[1..]) + multiset{x};
            if rest[k] != x {
              var j :| 0 <= j < |s[1..]| && s[1..][j] == rest[k];
              assert s[j + 1] == rest[k];
            }
          }
          ConsSorted(s[0], rest, key);
        }
      }
      [s[0]] + rest
  }

  /** A head that sorts at least as high as all of a descending tail keeps the list descending. */
  lemma ConsSorted<T>(h: T, tail: seq<T>, key: T -> Key)
    requires SortedDesc(tail, key)
    requires forall k :: 0 <= k < |tail| ==> AtLeast(key(h), key(tail[k]))
    ensures SortedDesc([h] + tail, key)
  {
    var r := [h] + tail;
    forall i, j | 0 <= i < j < |r|
      ensures AtLeast(key(r[i]), key(r[j]))
    {
      assert r[j] == tail[j - 1];
      if i > 0 {
        assert r[i] == tail[i - 1];
      }
    }
  }

  /**
   * `sorted(s, key=key, reverse=True)`: insertion from the back keeps equal
   * keys in their original order.
   */
  function SortDesc<T>(s: seq<T>, key: T -> Key): (r: seq<T>)
    ensures multiset(r) == multiset(s)
    ensures |r| == |s|
    ensures SortedDesc(r, key)
  {
    if |s| == 0 then [] else
      assert s == [s[0]] + s[1..];
      Insert(s[0], SortDesc(s[1..], key), key)
  }

  /** The elements of `s` whose key is `k`, in their order in `s`. */
  function WithKey<T>(s: seq<T>, key: T -> Key, k: Key): seq<T>
  {
    if |s| == 0 then [] else (if key(s[0]) == k then [s[0]] else []) + WithKey(s[1..], key, k)
  }

  /** Inserting `x` puts it ahead of every element that shares its key. */
  lemma {:induction false} InsertKeepsKeyOrder<T>(x: T, s: seq<T>, key: T -> Key, k: Key)
    ensures WithKey(Insert(x, s, key), key, k) == (if key(x) == k then [x] else []) + WithKey(s, key, k)
    decreases |s|
  {
    if |s| == 0 || !Above(key(s[0]), key(x)) {
      assert ([x] + s)[1..] == s;
    } else {
      var rest := Insert(x, s[1..], key);
      InsertKeepsKeyOrder(x, s[1..], key, k);
      assert ([s[0]] + rest)[1..] == rest;
      assert !(key(s[0]) == k && key(x) == k);
    }
  }

  /** The sort is stable: the elements that share a key keep their input order. */
  lemma {:induction false} SortDescIsStable<T>(s: seq<T>, key: T -> Key, k: Key)
    ensures WithKey(SortDesc(s, key), key, k) == WithKey(s, key, k)
    decreases |s|
  {
    if |s| > 0 {
      SortDescIsStable(s[1..], key, k);
      InsertKeepsKeyOrder(s[0], SortDesc(s[1..], key), key, k);
    }
  }

  /** `s[:k]` */
  function Take<T>(s: seq<T>, k: nat): (r: seq<T>)
    ensures |r| <= k && |r| <= |s|
    ensures |r| == if k < |s| then k else |s|
    ensures forall i :: 0 <= i < |r| ==> r[i] == s[i]
  {
    if k < |s| then s[..k] else s
  }

  /** `s[:k]` for any integer `k`: a negative `k` drops that many from the end. */
  function Prefix<T>(s: seq<T>, k: int): (r: seq<T>)
    ensures k >= 0 ==> r == Take(s, k)
    ensures k < 0 ==> |r| == if |s| + k > 0 then |s| + k else 0
    ensures |r| <= |s| && r == s[..|r|]
  {
    if k >= 0 then Take(s, k) else if |s| + k > 0 then s[..|s| + k] else []
  }

  /** `s[-k:]` for any integer `k`: the last `k` when positive, all of `s` when zero, and `s[-k:]` otherwise. */
  function Suffix<T>(s: seq<T>, k: int): (r: seq<T>)
    ensures |r| <= |s| && r == s[|s| - |r|..]
    ensures k > 0 ==> |r| == if k < |s| then k else |s|
    ensures k == 0 ==> r == s
    ensures k < 0 ==> |r| == if |s| + k > 0 then |s| + k else 0
  {
    if k > 0 then (if k < |s| then s[|s| - k..] else s)
    else if k == 0 then s
    else if -k < |s| then s[-k..] else []
  }

  /**
   * Whatever a top-k cut of a descending sort leaves out sorts no higher
   * than anything it keeps.
   */
  lemma TopKDominates<T>(sorted: seq<T>, k: int, key: T -> Key, x: T)
    requires SortedDesc(sorted, key)
    requires x in sorted && x !in Prefix(sorted, k)
    ensures forall y :: y in Prefix(sorted, k) ==> AtLeast(key(y), key(x))
  {
    var r := Prefix(sorted, k);
    var i :| 0 <= i < |sorted| && sorted[i] == x;
    assert i >= |r|;
    forall y | y in r ensures AtLeast(key(y), key(x)) {
      var j :| 0 <= j < |r| && r[j] == y;
      assert sorted[j] == y;
    }
  }

  /** Everything a top-k cut leaves out sorts no higher than anything it keeps. */
  lemma PrefixDominance<T>(sorted: seq<T>, k: int, key: T -> Key)
    requires SortedDesc(sorted, key)
    ensures forall x, y :: x in sorted && x !in Prefix(sorted, k) && y in Prefix(sorted, k) ==> AtLeast(key(y), key(x))
  {
    forall x, y | x in sorted && x !in Prefix(sorted, k) && y in Prefix(sorted, k)
      ensures AtLeast(key(y), key(x))
    {
      TopKDominates(sorted, k, key, x);
    }
  }

  lemma PrefixSubset<T>(s: seq<T>, k: int)
    ensures forall x :: x in Prefix(s, k) ==> x in s
  {
    var r := Prefix(s, k);
    forall x | x in r ensures x in s {
      var i :| 0 <= i < |r| && r[i] == x;
      assert s[i] == x;
    }
  }

  lemma PrefixSorted<T>(s: seq<T>, k: int, key: T -> Key)
    requires SortedDesc(s, key)
    ensures SortedDesc(Prefix(s, k), key)
  {
  }

  /** Two sequences with the same multiset hold the same elements. */
  lemma SameElements<T>(a: seq<T>, b: seq<T>)
    requires multiset(a) == multiset(b)
    ensures forall x :: x in a <==> x in b
  {
    forall x ensures x in a <==> x in b {
      assert x in a <==> x in multiset(a);
      assert x in b <==> x in multiset(b);
    }
  }

  lemma TakeSorted<T>(s: seq<T>, k: nat, key: T -> Key)
    requires SortedDesc(s, key)
    ensures SortedDesc(Take(s, k), key)
  {
  }

  /** The position `max(keys)` would return: the first maximal one. */
  function FirstMax(keys: seq<real>): (i: nat)
    requires |keys| > 0
    ensures i < |keys|
    ensures forall j :: 0 <= j < |keys| ==> keys[j] <= keys[i]
    ensures forall j :: 0 <= j < i ==> keys[j] < keys[i]
  {
    if |keys| == 1 then 0 else
      var k := FirstMax(keys[..|keys| - 1]);
      if keys[|keys| - 1] > keys[k] then |keys| - 1 else k
  }

  /** The filtered keys of a non-empty sequence; the front of a descending sort is the maximum. */
  lemma SortedHeadIsMax<T>(s: seq<T>, key: T -> Key)
    requires |s| > 0 && SortedDesc(s, key)
    ensures forall j :: 0 <= j < |s| ==> key(s[j]).0 <= key(s[0]).0
  {
    forall j | 0 <= j < |s| ensures key(s[j]).0 <= key(s[0]).0 {
      if j > 0 {
        assert AtLeast(key(s[0]), key(s[j]));
      }
    }
  }
}
