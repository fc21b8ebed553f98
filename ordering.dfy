/**
 * `xs.sort((a, b) => key(b) - key(a))`: JavaScript's `Array.prototype.sort` is stable, so
 * with this comparator the result is ordered newest first and items with equal keys keep
 * their original relative order. The sort is modelled by a stable insertion sort.
 */
module Ordering {

  /** Keys never increase from left to right. */
  ghost predicate SortedDesc<T>(xs: seq<T>, key: T -> int) {
    forall i, j :: 0 <= i < j < |xs| ==> key(xs[i]) >= key(xs[j])
  }

  /** Inserts `x` in front of the first element whose key is not larger than its own. */
  function Insert<T>(x: T, ys: seq<T>, key: T -> int): (r: seq<T>)
    ensures |r| == |ys| + 1
    ensures multiset(r) == multiset{x} + multiset(ys)
  {
    if ys == [] || key(x) >= key(ys[0]) then [x] + ys
    else
      assert ys == [ys[0]] + ys[1..];
      [ys[0]] + Insert(x, ys[1..], key)
  }

  /** The result of the stable descending sort. */
  function SortDesc<T>(xs: seq<T>, key: T -> int): (r: seq<T>)
    ensures |r| == |xs|
    ensures multiset(r) == multiset(xs)
  {
    if xs == [] then []
    else
      assert xs == [xs[0]] + xs[1..];
      Insert(xs[0], SortDesc(xs[1..], key), key)
  }

  /** The elements of `xs` whose key is `k`, in order. */
  function WithKey<T>(xs: seq<T>, key: T -> int, k: int): seq<T> {
    if xs == [] then []
    else (if key(xs[0]) == k then [xs[0]] else []) + WithKey(xs[1..], key, k)
  }

  lemma {:induction false} InsertKeepsSorted<T>(x: T, ys: seq<T>, key: T -> int)
    requires SortedDesc(ys, key)
    ensures SortedDesc(Insert(x, ys, key), key)
  {
    if ys == [] || key(x) >= key(ys[0]) {
    } else {
      InsertKeepsSorted(x, ys[1..], key);
      var r := Insert(x, ys, key);
      var tail := Insert(x, ys[1..], key);
      assert r == [ys[0]] + tail;
      forall j | 0 < j < |r| ensures key(r[0]) >= key(r[j]) {
        assert r[j] in multiset(tail);
        assert r[j] == x || r[j] in multiset(ys[1..]);
        if r[j] != x {
          var m :| 0 <= m < |ys[1..]| && ys[1..][m] == r[j];
          assert ys[1..][m] == ys[m + 1];
        }
      }
    }
  }

  /** The sort's result is ordered newest first. */
  lemma {:induction false} SortDescIsSorted<T>(xs: seq<T>, key: T -> int)
    ensures SortedDesc(SortDesc(xs, key), key)
  {
    if xs != [] {
      SortDescIsSorted(xs[1..], key);
      InsertKeepsSorted(xs[0], SortDesc(xs[1..], key), key);
    }
  }

  lemma {:induction false} InsertWithKey<T>(x: T, ys: seq<T>, key: T -> int, k: int)
    ensures WithKey(Insert(x, ys, key), key, k) ==
            (if key(x) == k then [x] else []) + WithKey(ys, key, k)
  {
    if ys == [] || key(x) >= key(ys[0]) {
      assert ([x] + ys)[1..] == ys;
    } else {
      var tail := Insert(x, ys[1..], key);
      InsertWithKey(x, ys[1..], key, k);
      var head := if key(ys[0]) == k then [ys[0]] else [];
      var own := if key(x) == k then [x] else [];
      assert Insert(x, ys, key) == [ys[0]] + tail;
      assert ([ys[0]] + tail)[0] == ys[0];
      assert ([ys[0]] + tail)[1..] == tail;
      assert WithKey(Insert(x, ys, key), key, k) == head + (own + WithKey(ys[1..], key, k));
      assert WithKey(ys, key, k) == head + WithKey(ys[1..], key, k);
      if key(x) == k {
        assert key(ys[0]) != k;
        assert head == [];
      } else {
        assert own == [];
      }
    }
  }

  /** Stability: for every key, the items carrying it appear in their original order. */
  lemma {:induction false} SortDescIsStable<T>(xs: seq<T>, key: T -> int, k: int)
    ensures WithKey(SortDesc(xs, key), key, k) == WithKey(xs, key, k)
  {
    if xs != [] {
      SortDescIsStable(xs[1..], key, k);
      InsertWithKey(xs[0], SortDesc(xs[1..], key), key, k);
    }
  }

  /** An already ordered sequence is left exactly as it is. */
  lemma {:induction false} SortDescOfSorted<T>(xs: seq<T>, key: T -> int)
    requires SortedDesc(xs, key)
    ensures SortDesc(xs, key) == xs
  {
    if xs != [] {
      assert SortedDesc(xs[1..], key);
      SortDescOfSorted(xs[1..], key);
      if |xs| > 1 {
        assert key(xs[0]) >= key(xs[1..][0]);
      }
    }
  }

  /** Sorting twice gives the same array as sorting once. */
  lemma SortDescIdempotent<T>(xs: seq<T>, key: T -> int)
    ensures SortDesc(SortDesc(xs, key), key) == SortDesc(xs, key)
  {
    SortDescIsSorted(xs, key);
    SortDescOfSorted(SortDesc(xs, key), key);
  }
}
