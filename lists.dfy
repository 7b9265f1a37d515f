/**
 * The array operations the in-memory stores are built from: `findIndex`
 * by a string key, `splice(i, 1)`, and counting entries with a key.
 * The key is passed as a function (`BotName`, `ServerName`, ...).
 */
module Lists {

  import opened Wrappers

  /** `s.findIndex(e => key(e) === k)`: the first index with that key, or -1. */
  function IndexOf<T>(s: seq<T>, key: T -> string, k: string): (i: int)
    ensures -1 <= i < |s|
    ensures i == -1 <==> forall j :: 0 <= j < |s| ==> key(s[j]) != k
    ensures 0 <= i ==> key(s[i]) == k && forall j :: 0 <= j < i ==> key(s[j]) != k
    decreases |s|
  {
    if |s| == 0 then -1
    else if key(s[0]) == k then 0
    else
      var r := IndexOf(s[1..], key, k);
      if r == -1 then -1 else r + 1
  }

  /** `s.some(e => key(e) === k)`. */
  predicate Contains<T>(s: seq<T>, key: T -> string, k: string) {
    exists j :: 0 <= j < |s| && key(s[j]) == k
  }

  /** `s.splice(i, 1)` applied to a copy: the entry at `i` is dropped. */
  function RemoveAt<T>(s: seq<T>, i: nat): (r: seq<T>)
    requires i < |s|
    ensures |r| == |s| - 1
    ensures forall j :: 0 <= j < i ==> r[j] == s[j]
    ensures forall j :: i <= j < |r| ==> r[j] == s[j + 1]
    ensures multiset(r) + multiset{s[i]} == multiset(s)
  {
    assert s == s[..i] + [s[i]] + s[i + 1..];
    s[..i] + s[i + 1..]
  }

  /** How many entries carry key `k`. */
  function Count<T>(s: seq<T>, key: T -> string, k: string): nat
  {
    if |s| == 0 then 0 else (if key(s[0]) == k then 1 else 0) + Count(s[1..], key, k)
  }

  lemma {:induction false} CountAppend<T>(a: seq<T>, b: seq<T>, key: T -> string, k: string)
    ensures Count(a + b, key, k) == Count(a, key, k) + Count(b, key, k)
    decreases |a|
  {
    if |a| > 0 {
      assert (a + b)[1..] == a[1..] + b;
      CountAppend(a[1..], b, key, k);
    } else {
      assert a + b == b;
    }
  }

  lemma {:induction false} CountZero<T>(s: seq<T>, key: T -> string, k: string)
    ensures Count(s, key, k) == 0 <==> !Contains(s, key, k)
    decreases |s|
  {
    if |s| > 0 {
      CountZero(s[1..], key, k);
      if Contains(s[1..], key, k) {
        var j :| 0 <= j < |s[1..]| && key(s[1..][j]) == k;
        assert key(s[j + 1]) == k;
      }
      if Contains(s, key, k) && key(s[0]) != k {
        var j :| 0 <= j < |s| && key(s[j]) == k;
        assert key(s[1..][j - 1]) == k;
      }
    }
  }

  /**
   * Removing the first entry with key `k` removes exactly one entry with that
   * key and no entry with any other key.
   */
  lemma RemoveFirstCount<T>(s: seq<T>, key: T -> string, k: string, other: string)
    requires IndexOf(s, key, k) >= 0
    ensures var r := RemoveAt(s, IndexOf(s, key, k));
      && Count(r, key, k) == Count(s, key, k) - 1
      && (other != k ==> Count(r, key, other) == Count(s, key, other))
  {
    var i := IndexOf(s, key, k);
    assert s == s[..i] + [s[i]] + s[i + 1..];
    CountAppend(s[..i] + [s[i]], s[i + 1..], key, k);
    CountAppend(s[..i], [s[i]], key, k);
    CountAppend(s[..i], s[i + 1..], key, k);
    CountAppend(s[..i] + [s[i]], s[i + 1..], key, other);
    CountAppend(s[..i], [s[i]], key, other);
    CountAppend(s[..i], s[i + 1..], key, other);
  }

  /** Appending an entry whose key is new, then removing the first with that key, restores the list. */
  lemma AppendThenRemove<T>(s: seq<T>, x: T, key: T -> string)
    requires !Contains(s, key, key(x))
    ensures IndexOf(s + [x], key, key(x)) == |s|
    ensures RemoveAt(s + [x], |s|) == s
  {
    var t := s + [x];
    assert key(t[|s|]) == key(x);
    assert forall j :: 0 <= j < |s| ==> t[j] == s[j];
    assert t[..|s|] == s;
  }

  /** `s.find(e => key(e) === k)`: the first entry with that key, if any. */
  function Find<T>(s: seq<T>, key: T -> string, k: string): (r: Option<T>)
    ensures r.None? <==> !Contains(s, key, k)
    ensures r.Some? ==> key(r.value) == k
    ensures r.Some? ==> exists i :: 0 <= i < |s| && s[i] == r.value && forall j :: 0 <= j < i ==> key(s[j]) != k
  {
    var i := IndexOf(s, key, k);
    if i == -1 then None else Some(s[i])
  }

  /**
   * `const i = s.findIndex(...); if (i === -1) throw ...; s[i] = x;` on a value:
   * `None` when no entry has key `k`, otherwise the list with the first such
   * entry replaced by `x` and every other entry kept at its index.
   */
  function ReplaceFirst<T>(s: seq<T>, key: T -> string, k: string, x: T): (r: Option<seq<T>>)
    ensures r.None? <==> !Contains(s, key, k)
    ensures r.Some? ==> |r.value| == |s|
    ensures r.Some? ==> var i := IndexOf(s, key, k);
      r.value[i] == x && forall j :: 0 <= j < |s| && j != i ==> r.value[j] == s[j]
  {
    var i := IndexOf(s, key, k);
    if i == -1 then None else Some(s[i := x])
  }

  /**
   * `const i = s.findIndex(...); if (i === -1) throw ...; s.splice(i, 1);` on a
   * value: `None` when no entry has key `k`, otherwise the list without its
   * first entry with that key, the others kept in order.
   */
  function RemoveFirst<T>(s: seq<T>, key: T -> string, k: string): (r: Option<seq<T>>)
    ensures r.None? <==> !Contains(s, key, k)
    ensures r.Some? ==> |r.value| == |s| - 1
    ensures r.Some? ==> var i := IndexOf(s, key, k);
      && (forall j :: 0 <= j < i ==> r.value[j] == s[j])
      && (forall j :: i <= j < |r.value| ==> r.value[j] == s[j + 1])
  {
    var i := IndexOf(s, key, k);
    if i == -1 then None else Some(RemoveAt(s, i))
  }

  /** Deleting removes one entry with the key and keeps the count of every other key. */
  lemma RemoveFirstCounts<T>(s: seq<T>, key: T -> string, k: string, other: string)
    requires Contains(s, key, k)
    ensures var r := RemoveFirst(s, key, k).value;
      && Count(r, key, k) == Count(s, key, k) - 1
      && (other != k ==> Count(r, key, other) == Count(s, key, other))
  {
    RemoveFirstCount(s, key, k, other);
  }

  /** Normalises a JavaScript `slice` bound: negative counts from the end, then clamp to `[0, n]`. */
  function ClampIndex(i: int, n: nat): (r: nat)
    ensures r <= n
    ensures 0 <= i <= n ==> r == i
  {
    if i < 0 then (if n + i < 0 then 0 else n + i) else if i > n then n else i
  }

  /** `s.slice(start, end)` with JavaScript's handling of negative and out-of-range bounds. */
  function JsSlice<T>(s: seq<T>, start: int, end: int): (r: seq<T>)
    ensures |r| <= |s|
    ensures forall x :: x in r ==> x in s
    ensures 0 <= start <= end ==> |r| <= end - start
    ensures 0 <= start <= end ==> |r| == (if end <= |s| then end else |s|) - (if start <= |s| then start else |s|)
    ensures 0 <= start <= end ==> forall i :: 0 <= i < |r| ==> r[i] == s[start + i]
  {
    var from := ClampIndex(start, |s|);
    var to := ClampIndex(end, |s|);
    if from < to then s[from..to] else []
  }

  /** `s.filter(keep)`: the entries that pass, in order. */
  function Filter<T>(s: seq<T>, keep: T -> bool): (r: seq<T>)
    ensures |r| <= |s|
    ensures forall i :: 0 <= i < |r| ==> keep(r[i])
    decreases |s|
  {
    if |s| == 0 then []
    else (if keep(s[0]) then [s[0]] else []) + Filter(s[1..], keep)
  }

  /** The filter keeps exactly the entries that pass. */
  lemma {:induction false} FilterMembers<T>(s: seq<T>, keep: T -> bool)
    ensures forall x :: x in Filter(s, keep) <==> x in s && keep(x)
    decreases |s|
  {
    if |s| > 0 {
      FilterMembers(s[1..], keep);
      assert forall x :: x in s <==> x == s[0] || x in s[1..];
    }
  }

  /**
   * The filter distributes over concatenation, and keeps a single entry
   * exactly when it passes: the passing entries in order, every copy kept.
   */
  lemma {:induction false} FilterAppend<T>(a: seq<T>, b: seq<T>, keep: T -> bool)
    ensures Filter(a + b, keep) == Filter(a, keep) + Filter(b, keep)
    ensures |a| == 1 ==> Filter(a, keep) == (if keep(a[0]) then a else [])
    decreases |a|
  {
    if |a| == 0 {
      assert a + b == b;
    } else {
      assert (a + b)[0] == a[0];
      assert (a + b)[1..] == a[1..] + b;
      FilterAppend(a[1..], b, keep);
      if |a| == 1 {
        assert a[1..] == [];
      }
    }
  }
}
