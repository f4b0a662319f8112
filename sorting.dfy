/**
 * The ordering the database applies for `sort({ field: -1 })` and `$sort`: a stable insertion sort on an
 * integer key, largest first, and the grouping `$group` does by a key with `$sum: 1`.
 */
module Sorting {
  predicate SortedDesc<T>(xs: seq<T>, key: T -> int) {
    forall i, j :: 0 <= i < j < |xs| ==> key(xs[i]) >= key(xs[j])
  }

  /** Places `x` before the first element with a smaller key, so earlier equals stay earlier. */
  function Insert<T>(x: T, xs: seq<T>, key: T -> int): (r: seq<T>)
    requires SortedDesc(xs, key)
    ensures SortedDesc(r, key)
    ensures multiset(r) == multiset(xs) + multiset{x}
    ensures |r| == |xs| + 1
  {
    if xs == [] then [x]
    else if key(x) >= key(xs[0]) then [x] + xs
    else
      var rest := Insert(x, xs[1..], key);
      assert xs == [xs[0]] + xs[1..];
      forall y | y in rest ensures key(xs[0]) >= key(y) {
        assert y in multiset(rest);
        if y != x {
          assert y in multiset(xs[1..]);
          var j :| 0 <= j < |xs[1..]| && xs[1..][j] == y;
          assert xs[j + 1] == y;
        }
      }
      [xs[0]] + rest
  }

  /** The elements of `xs`, largest key first; equal keys keep their relative order. */
  function SortDesc<T>(xs: seq<T>, key: T -> int): (r: seq<T>)
    ensures SortedDesc(r, key)
    ensures multiset(r) == multiset(xs)
    ensures |r| == |xs|
  {
    if xs == [] then []
    else
      assert xs == [xs[0]] + xs[1..];
      Insert(xs[0], SortDesc(xs[1..], key), key)
  }

  /** `limit(n)`: the first `n` elements, or all of them when there are fewer. */
  function Take<T>(xs: seq<T>, n: nat): (r: seq<T>)
    ensures |r| <= n && |r| <= |xs| && (|r| == n || r == xs)
    ensures r == xs[..|r|]
  {
    if |xs| <= n then xs else xs[..n]
  }

  /** The number of elements equal to `k`. */
  function Count<K(==)>(xs: seq<K>, k: K): (n: nat)
    ensures n == multiset(xs)[k]
  {
    if xs == [] then 0
    else
      assert xs == xs[..|xs| - 1] + [xs[|xs| - 1]];
      Count(xs[..|xs| - 1], k) + (if xs[|xs| - 1] == k then 1 else 0)
  }

  /** The distinct elements of `xs`, in order of first appearance. */
  function Distinct<K(==,!new)>(xs: seq<K>): (d: seq<K>)
    ensures forall i, j :: 0 <= i < j < |d| ==> d[i] != d[j]
    ensures forall k :: k in d <==> k in xs
  {
    if xs == [] then []
    else
      var d := Distinct(xs[..|xs| - 1]);
      var last := xs[|xs| - 1];
      assert xs == xs[..|xs| - 1] + [last];
      if last in d then d else d + [last]
  }

  /**
   * The first `n` of the sorted elements are the `n` largest: they come from `xs`, in order, and any
   * element of `xs` not among them has a key no larger than each of them.
   */
  lemma TopOfSorted<T>(xs: seq<T>, key: T -> int, n: nat)
    ensures var top := Take(SortDesc(xs, key), n);
      |top| == (if |xs| < n then |xs| else n) && SortedDesc(top, key) && multiset(top) <= multiset(xs)
      && forall x, y :: x in xs && x !in top && y in top ==> key(x) <= key(y)
  {
    var sorted := SortDesc(xs, key);
    var top := Take(sorted, n);
    assert sorted == top + sorted[|top|..];
    assert multiset(sorted) == multiset(top) + multiset(sorted[|top|..]);
    forall x, y | x in xs && x !in top && y in top ensures key(x) <= key(y) {
      assert x in multiset(sorted);
      var j :| 0 <= j < |sorted| && sorted[j] == x;
      var i :| 0 <= i < |top| && top[i] == y;
      assert sorted[i] == y;
    }
  }
}
