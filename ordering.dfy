/**
 * The one ordering the summary needs twice: JavaScript's
 * `Array.prototype.sort` with a comparator of the form `key(b) - key(a)`,
 * which puts larger keys first, and the cut to the first `n` elements that
 * follows it. The contracts say nothing about the order of ties.
 */
module Ordering {

  /** Every element's key is at least as large as the keys after it. */
  predicate Descending<T>(key: T -> int, s: seq<T>) {
    forall i, j :: 0 <= i < j < |s| ==> key(s[i]) >= key(s[j])
  }

  /**
   * Puts `x` before the first element of `s` whose key is no larger, so that
   * `x` stays ahead of the elements it ties with.
   */
  function InsertBy<T(==)>(key: T -> int, x: T, s: seq<T>): (r: seq<T>)
    requires Descending(key, s)
    ensures Descending(key, r)
    ensures multiset(r) == multiset(s) + multiset{x}
    ensures |r| == |s| + 1
    ensures r[0] == if s == [] || key(s[0]) <= key(x) then x else s[0]
  {
    if s == [] || key(s[0]) <= key(x) then [x] + s
    else
      var rest := InsertBy(key, x, s[1..]);
      assert s == [s[0]] + s[1..];
      var r := [s[0]] + rest;
      assert Descending(key, r) by {
        forall i, j | 0 <= i < j < |r| ensures key(r[i]) >= key(r[j]) {
          if i == 0 {
            assert key(rest[0]) <= key(s[0]);
            assert r[j] == rest[j - 1];
          } else {
            assert r[i] == rest[i - 1] && r[j] == rest[j - 1];
          }
        }
      }
      r
  }

  /** `s.sort((a, b) => key(b) - key(a))`: largest key first. */
  function SortBy<T(==)>(key: T -> int, s: seq<T>): (r: seq<T>)
    ensures Descending(key, r)
    ensures multiset(r) == multiset(s)
    ensures |r| == |s|
  {
    if s == [] then []
    else
      assert s == [s[0]] + s[1..];
      InsertBy(key, s[0], SortBy(key, s[1..]))
  }

  /** The first `n` elements, or all of them when there are fewer. */
  function Take<T>(s: seq<T>, n: nat): (r: seq<T>)
    ensures |r| == if |s| > n then n else |s|
    ensures r == s[..|r|]
  {
    if |s| > n then s[..n] else s
  }

  /**
   * Sorting and cutting keeps the largest: the result is sorted, holds
   * min(n, |s|) elements of `s`, and has no element whose key is smaller
   * than that of an element left out.
   */
  lemma TopShape<T>(key: T -> int, s: seq<T>, n: nat)
    ensures Descending(key, Take(SortBy(key, s), n))
    ensures |Take(SortBy(key, s), n)| == if |s| > n then n else |s|
    ensures multiset(Take(SortBy(key, s), n)) <= multiset(s)
  {
    var sorted := SortBy(key, s);
    var top := Take(sorted, n);
    assert sorted == top + sorted[|top|..];
  }

  /** No element left out of the top `n` has a larger key than an element kept. */
  lemma TopKeepsLargest<T>(key: T -> int, s: seq<T>, n: nat, kept: T, dropped: T)
    requires kept in Take(SortBy(key, s), n)
    requires dropped in multiset(s) - multiset(Take(SortBy(key, s), n))
    ensures key(kept) >= key(dropped)
  {
    var sorted := SortBy(key, s);
    PrefixKeepsLargest(key, sorted, multiset(s), |Take(sorted, n)|, kept, dropped);
  }

  /**
   * Of a descending arrangement of a bag, the first `k` elements have keys
   * no smaller than anything else in the bag.
   */
  lemma PrefixKeepsLargest<T>(key: T -> int, sorted: seq<T>, bag: multiset<T>, k: nat, kept: T, dropped: T)
    requires Descending(key, sorted) && multiset(sorted) == bag && k <= |sorted|
    requires kept in sorted[..k]
    requires dropped in bag - multiset(sorted[..k])
    ensures key(kept) >= key(dropped)
  {
    var top := sorted[..k];
    var tail := sorted[k..];
    assert sorted == top + tail;
    InDifference(top, tail, dropped);
    PrefixDominates(key, sorted, k, kept, dropped);
  }

  /** What `b` adds to `a`, beyond the elements of `a`, comes from `b`. */
  lemma InDifference<T>(a: seq<T>, b: seq<T>, x: T)
    requires x in multiset(a + b) - multiset(a)
    ensures x in b
  {
    assert multiset(a + b) == multiset(a) + multiset(b);
  }

  /** In a descending sequence, everything before position `k` has a key no smaller than anything from `k` on. */
  lemma PrefixDominates<T>(key: T -> int, s: seq<T>, k: nat, kept: T, dropped: T)
    requires Descending(key, s) && k <= |s|
    requires kept in s[..k] && dropped in s[k..]
    ensures key(kept) >= key(dropped)
  {
    var i :| 0 <= i < k && s[..k][i] == kept;
    var j :| 0 <= j < |s| - k && s[k..][j] == dropped;
    assert s[i] == kept && s[k + j] == dropped;
  }
}
