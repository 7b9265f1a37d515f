/**
 * `Array.prototype.sort` with a numeric comparator `(a, b) => key(a) - key(b)`.
 * The JavaScript sort is stable, so it is modelled by a stable insertion sort:
 * the result is ordered by key, is a permutation of the input, and keeps the
 * input order among entries with equal keys.
 */
module Sorting {
  import opened Lists

  predicate SortedBy<T>(s: seq<T>, key: T -> int) {
    forall i, j :: 0 <= i < j < |s| ==> key(s[i]) <= key(s[j])
  }

  /** Inserts `x` before the first entry whose key is not smaller than its own. */
  function Insert<T>(x: T, s: seq<T>, key: T -> int): (r: seq<T>)
    ensures |r| == |s| + 1
    ensures multiset(r) == multiset(s) + multiset{x}
    decreases |s|
  {
    if |s| == 0 || key(x) <= key(s[0]) then [x] + s
    else
      assert s == [s[0]] + s[1..];
      [s[0]] + Insert(x, s[1..], key)
  }

  /** The stable sort by ascending key. */
  function SortBy<T>(s: seq<T>, key: T -> int): (r: seq<T>)
    ensures |r| == |s|
    ensures multiset(r) == multiset(s)
    decreases |s|
  {
    if |s| == 0 then []
    else
      assert s == [s[0]] + s[1..];
      Insert(s[0], SortBy(s[1..], key), key)
  }

  /** Every key in an insertion result is the inserted key or a key of the original list. */
  lemma {:induction false} InsertKeys<T>(x: T, s: seq<T>, key: T -> int, lo: int)
    requires lo <= key(x)
    requires forall i :: 0 <= i < |s| ==> lo <= key(s[i])
    ensures forall i :: 0 <= i < |Insert(x, s, key)| ==> lo <= key(Insert(x, s, key)[i])
    decreases |s|
  {
    if |s| > 0 && key(x) > key(s[0]) {
      InsertKeys(x, s[1..], key, lo);
    }
  }

  lemma {:induction false} InsertSorted<T>(x: T, s: seq<T>, key: T -> int)
    requires SortedBy(s, key)
    ensures SortedBy(Insert(x, s, key), key)
    decreases |s|
  {
    if |s| > 0 && key(x) > key(s[0]) {
      InsertSorted(x, s[1..], key);
      InsertKeys(x, s[1..], key, key(s[0]));
    }
  }

  /** The sort orders its result by key. */
  lemma {:induction false} SortBySorted<T>(s: seq<T>, key: T -> int)
    ensures SortedBy(SortBy(s, key), key)
    decreases |s|
  {
    if |s| > 0 {
      SortBySorted(s[1..], key);
      InsertSorted(s[0], SortBy(s[1..], key), key);
    }
  }

  /** The entries with key `k`, in their original order. */
  function FilterKey<T>(s: seq<T>, key: T -> int, k: int): seq<T>
  {
    Filter(s, (x: T) => key(x) == k)
  }

  lemma {:induction false} InsertFilter<T>(x: T, s: seq<T>, key: T -> int, k: int)
    ensures FilterKey(Insert(x, s, key), key, k)
         == (if key(x) == k then [x] else []) + FilterKey(s, key, k)
    decreases |s|
  {
    var r := Insert(x, s, key);
    if |s| == 0 || key(x) <= key(s[0]) {
      assert r[0] == x && r[1..] == s;
    } else {
      var t := Insert(x, s[1..], key);
      assert r[0] == s[0] && r[1..] == t;
      InsertFilter(x, s[1..], key, k);
      // `x` and `s[0]` have different keys, so at most one of them is kept.
      if key(s[0]) == k {
        assert FilterKey(r, key, k) == [s[0]] + FilterKey(t, key, k);
      } else {
        assert FilterKey(r, key, k) == FilterKey(t, key, k);
      }
    }
  }

  /** Stability: for every key, the sort keeps the relative order of the entries with that key. */
  lemma {:induction false} SortByStable<T>(s: seq<T>, key: T -> int, k: int)
    ensures FilterKey(SortBy(s, key), key, k) == FilterKey(s, key, k)
    decreases |s|
  {
    if |s| > 0 {
      SortByStable(s[1..], key, k);
      InsertFilter(s[0], SortBy(s[1..], key), key, k);
    }
  }

  lemma {:induction false} FilterAllOneKey<T>(s: seq<T>, key: T -> int, b: int, a: int)
    requires forall i :: 0 <= i < |s| ==> key(s[i]) == b
    requires a != b
    ensures FilterKey(s, key, b) == s && FilterKey(s, key, a) == []
    decreases |s|
  {
    if |s| > 0 {
      FilterAllOneKey(s[1..], key, b, a);
      assert [s[0]] + s[1..] == s;
    }
  }

  /** A sorted list whose keys are `a < b` only is its `a` entries followed by its `b` entries. */
  lemma {:induction false} SortedTwoKeys<T>(s: seq<T>, key: T -> int, a: int, b: int)
    requires SortedBy(s, key)
    requires a < b
    requires forall i :: 0 <= i < |s| ==> key(s[i]) == a || key(s[i]) == b
    ensures s == FilterKey(s, key, a) + FilterKey(s, key, b)
    decreases |s|
  {
    if |s| > 0 {
      if key(s[0]) == a {
        SortedTwoKeys(s[1..], key, a, b);
        assert [s[0]] + s[1..] == s;
      } else {
        FilterAllOneKey(s, key, b, a);
      }
    }
  }

  /** Sorting a list with two keys `a < b` is the stable partition into `a` entries then `b` entries. */
  lemma SortTwoKeysIsPartition<T>(s: seq<T>, key: T -> int, a: int, b: int)
    requires a < b
    requires forall i :: 0 <= i < |s| ==> key(s[i]) == a || key(s[i]) == b
    ensures SortBy(s, key) == FilterKey(s, key, a) + FilterKey(s, key, b)
  {
    var r := SortBy(s, key);
    SortBySorted(s, key);
    forall i | 0 <= i < |r| ensures key(r[i]) == a || key(r[i]) == b {
      assert r[i] in multiset(r);
      assert r[i] in multiset(s);
    }
    SortedTwoKeys(r, key, a, b);
    SortByStable(s, key, a);
    SortByStable(s, key, b);
  }
}
