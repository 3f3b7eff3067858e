/** Shared value types and sequence helpers used by every store of the marketplace. */
module Common {

  /** A value that may be missing (`T | undefined` in the source). */
  datatype Option<+T> = None | Some(value: T)

  /** The outcome of an operation that either returns a value or throws an error. */
  datatype Result<+T, +E> = Ok(value: T) | Err(error: E)

  /** `r` can be obtained from `s` by deleting elements: order is kept (greedy matching). */
  predicate IsSubsequence<T(==)>(r: seq<T>, s: seq<T>)
  {
    if r == [] then true
    else if s == [] then false
    else if r[0] == s[0] then IsSubsequence(r[1..], s[1..])
    else IsSubsequence(r, s[1..])
  }

  /**
   * One step of `filter`: if `rest` is `s[1..]` filtered, then `r`, which puts `s[0]` in front
   * of `rest` exactly when it is kept, is `s` filtered, in order.
   */
  lemma FiltroPaso<T>(s: seq<T>, rest: seq<T>, keep: T -> bool, r: seq<T>)
    requires s != []
    requires |rest| <= |s[1..]|
    requires forall i :: 0 <= i < |rest| ==> rest[i] in s[1..] && keep(rest[i])
    requires forall i :: 0 <= i < |s[1..]| && keep(s[1..][i]) ==> s[1..][i] in rest
    requires IsSubsequence(rest, s[1..])
    requires r == if keep(s[0]) then [s[0]] + rest else rest
    ensures |r| <= |s|
    ensures forall i :: 0 <= i < |r| ==> r[i] in s && keep(r[i])
    ensures forall i :: 0 <= i < |s| && keep(s[i]) ==> s[i] in r
    ensures IsSubsequence(r, s)
  {
    assert s == [s[0]] + s[1..];
    if keep(s[0]) {
      forall i | 0 <= i < |s| && keep(s[i])
        ensures s[i] in r
      {
        if i > 0 { assert s[i] == s[1..][i - 1]; }
      }
    } else {
      assert rest != [] ==> rest[0] != s[0] by {
        if rest != [] { assert rest[0] in rest; }
      }
      forall i | 0 <= i < |s| && keep(s[i])
        ensures s[i] in r
      {
        assert i > 0 && s[i] == s[1..][i - 1];
      }
    }
  }

  /** The same step for multiplicities: each kept element occurs in `r` as often as in `s`. */
  lemma MultiplicidadPaso<T>(s: seq<T>, rest: seq<T>, keep: T -> bool, r: seq<T>)
    requires s != []
    requires multiset(rest) <= multiset(s[1..])
    requires forall x {:trigger multiset(rest)[x]} :: x in multiset(s[1..]) ==>
               multiset(rest)[x] == if keep(x) then multiset(s[1..])[x] else 0
    requires r == if keep(s[0]) then [s[0]] + rest else rest
    ensures multiset(r) <= multiset(s)
    ensures forall x {:trigger multiset(r)[x]} :: x in multiset(s) ==> multiset(r)[x] == if keep(x) then multiset(s)[x] else 0
  {
    assert s == [s[0]] + s[1..];
    assert multiset(s) == multiset{s[0]} + multiset(s[1..]);
    if keep(s[0]) {
      assert multiset(r) == multiset{s[0]} + multiset(rest);
    }
  }

  /** `s.filter(keep)`: the elements of `s` that satisfy `keep`, in their original order. */
  function Filter<T(==)>(s: seq<T>, keep: T -> bool): (r: seq<T>)
    ensures |r| <= |s|
    ensures forall i :: 0 <= i < |r| ==> r[i] in s && keep(r[i])
    ensures forall i :: 0 <= i < |s| && keep(s[i]) ==> s[i] in r
    ensures IsSubsequence(r, s)
    ensures multiset(r) <= multiset(s)
    ensures forall x {:trigger multiset(r)[x]} :: x in multiset(s) ==> multiset(r)[x] == if keep(x) then multiset(s)[x] else 0
  {
    if s == [] then []
    else
      var rest := Filter(s[1..], keep);
      var r := if keep(s[0]) then [s[0]] + rest else rest;
      FiltroPaso(s, rest, keep, r);
      MultiplicidadPaso(s, rest, keep, r);
      r
  }

  /** Filtering with a predicate that accepts everything returns the sequence itself. */
  lemma {:induction false} FilterAll<T>(s: seq<T>, keep: T -> bool)
    requires forall i :: 0 <= i < |s| ==> keep(s[i])
    ensures Filter(s, keep) == s
  {
    if s != [] {
      FilterAll(s[1..], keep);
    }
  }

  /** Filtering depends only on what the predicate says about the elements. */
  lemma {:induction false} FilterExt<T>(s: seq<T>, p: T -> bool, q: T -> bool)
    requires forall i :: 0 <= i < |s| ==> p(s[i]) == q(s[i])
    ensures Filter(s, p) == Filter(s, q)
  {
    if s != [] {
      FilterExt(s[1..], p, q);
    }
  }

  /** Filtering a sequence extended by one element filters the old part and then tests the new one. */
  lemma {:induction false} FilterAppend<T>(s: seq<T>, x: T, keep: T -> bool)
    ensures Filter(s + [x], keep) == Filter(s, keep) + (if keep(x) then [x] else [])
  {
    if s == [] {
      assert s + [x] == [x];
    } else {
      assert (s + [x])[1..] == s[1..] + [x];
      FilterAppend(s[1..], x, keep);
    }
  }

  /** Filtering with a predicate that rejects everything leaves nothing. */
  lemma {:induction false} FilterNone<T>(s: seq<T>, keep: T -> bool)
    requires forall i :: 0 <= i < |s| ==> !keep(s[i])
    ensures Filter(s, keep) == []
  {
    if s != [] {
      FilterNone(s[1..], keep);
    }
  }

  /** Filtering twice is filtering once with the conjunction of the two predicates. */
  lemma {:induction false} FilterFilter<T>(s: seq<T>, p: T -> bool, q: T -> bool, both: T -> bool)
    requires forall i :: 0 <= i < |s| ==> both(s[i]) == (p(s[i]) && q(s[i]))
    ensures Filter(Filter(s, p), q) == Filter(s, both)
  {
    if s != [] {
      FilterFilter(s[1..], p, q, both);
    }
  }
}
