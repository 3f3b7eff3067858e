/**
 * `Array.prototype.sort` with a numeric comparator `(a, b) => key(a) - key(b)`.
 * It is modelled here as an insertion sort that places a new element before the first
 * element whose key is not smaller; only sortedness and the permutation are stated.
 */
module Sorting {

  /** Non-decreasing by `key`. */
  ghost predicate SortedBy<T>(s: seq<T>, key: T -> int)
  {
    forall i, j :: 0 <= i < j < |s| ==> key(s[i]) <= key(s[j])
  }

  /** No two elements share a value of `group`. */
  ghost predicate DistinctBy<T>(s: seq<T>, group: T -> int)
  {
    forall i, j :: 0 <= i < j < |s| ==> group(s[i]) != group(s[j])
  }

  function InsertBy<T>(x: T, s: seq<T>, key: T -> int): (r: seq<T>)
    ensures multiset(r) == multiset(s) + multiset{x}
  {
    if s == [] || key(x) <= key(s[0]) then [x] + s
    else
      assert s == [s[0]] + s[1..];
      [s[0]] + InsertBy(x, s[1..], key)
  }

  lemma {:induction false} InsertBySorted<T>(x: T, s: seq<T>, key: T -> int)
    requires SortedBy(s, key)
    ensures SortedBy(InsertBy(x, s, key), key)
  {
    if s == [] || key(x) <= key(s[0]) {
    } else {
      InsertBySorted(x, s[1..], key);
      var rest := InsertBy(x, s[1..], key);
      forall k | 0 <= k < |rest|
        ensures key(s[0]) <= key(rest[k])
      {
        assert rest[k] in multiset(rest);
        if rest[k] != x {
          assert rest[k] in multiset(s[1..]);
          var j :| 0 <= j < |s[1..]| && s[1..][j] == rest[k];
          assert s[j + 1] == rest[k];
        }
      }
    }
  }

  /** The sorted permutation of `s`. */
  function SortBy<T>(s: seq<T>, key: T -> int): (r: seq<T>)
    ensures SortedBy(r, key)
    ensures multiset(r) == multiset(s)
  {
    if s == [] then []
    else
      assert s == [s[0]] + s[1..];
      InsertBySorted(s[0], SortBy(s[1..], key), key);
      InsertBy(s[0], SortBy(s[1..], key), key)
  }

  /** Every element of a sorted result comes from the input. */
  lemma SortByMember<T>(s: seq<T>, key: T -> int, k: nat)
    requires k < |SortBy(s, key)|
    ensures SortBy(s, key)[k] in s
  {
    var r := SortBy(s, key);
    assert r[k] in multiset(r);
  }

  lemma {:induction false} InsertByDistinct<T>(x: T, s: seq<T>, key: T -> int, group: T -> int)
    requires DistinctBy(s, group)
    requires forall k :: 0 <= k < |s| ==> group(s[k]) != group(x)
    ensures DistinctBy(InsertBy(x, s, key), group)
  {
    if s == [] || key(x) <= key(s[0]) {
    } else {
      InsertByDistinct(x, s[1..], key, group);
      var rest := InsertBy(x, s[1..], key);
      forall k | 0 <= k < |rest|
        ensures group(s[0]) != group(rest[k])
      {
        assert rest[k] in multiset(rest);
        if rest[k] != x {
          assert rest[k] in multiset(s[1..]);
          var j :| 0 <= j < |s[1..]| && s[1..][j] == rest[k];
          assert s[j + 1] == rest[k];
        }
      }
    }
  }

  /** Sorting never merges two groups: distinct `group` values stay distinct. */
  lemma {:induction false} SortByDistinct<T>(s: seq<T>, key: T -> int, group: T -> int)
    requires DistinctBy(s, group)
    ensures DistinctBy(SortBy(s, key), group)
  {
    if s != [] {
      SortByDistinct(s[1..], key, group);
      var sorted := SortBy(s[1..], key);
      forall k | 0 <= k < |sorted|
        ensures group(sorted[k]) != group(s[0])
      {
        assert sorted[k] in multiset(sorted);
        assert sorted[k] in multiset(s[1..]);
        var j :| 0 <= j < |s[1..]| && s[1..][j] == sorted[k];
        assert s[j + 1] == sorted[k];
      }
      InsertByDistinct(s[0], sorted, key, group);
    }
  }
}
