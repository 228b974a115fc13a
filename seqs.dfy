/** `List.RemoveAll` and `FirstOrDefault` as functions on sequences. */
module Seqs {
  import opened Wrappers

  /**
    * The elements of `s` that satisfy `keep`, in their order: what
    * `RemoveAll(x => !keep(x))` leaves in a list.
    */
  function Filter<T>(s: seq<T>, keep: T -> bool): (r: seq<T>)
    ensures |r| <= |s|
    ensures forall i :: 0 <= i < |r| ==> r[i] in s && keep(r[i])
    ensures forall i :: 0 <= i < |s| && keep(s[i]) ==> s[i] in r
  {
    if s == [] then []
    else (if keep(s[0]) then [s[0]] else []) + Filter(s[1..], keep)
  }

  /** Filtering works piecewise, so the kept elements keep their order. */
  lemma {:induction false} FilterConcat<T>(a: seq<T>, b: seq<T>, keep: T -> bool)
    ensures Filter(a + b, keep) == Filter(a, keep) + Filter(b, keep)
  {
    if a != [] {
      var head := if keep(a[0]) then [a[0]] else [];
      assert (a + b)[0] == a[0];
      assert (a + b)[1..] == a[1..] + b;
      FilterConcat(a[1..], b, keep);
      calc {
        Filter(a + b, keep);
        head + Filter(a[1..] + b, keep);
        head + (Filter(a[1..], keep) + Filter(b, keep));
        (head + Filter(a[1..], keep)) + Filter(b, keep);
        Filter(a, keep) + Filter(b, keep);
      }
    } else {
      assert a + b == b;
    }
  }

  /** Nothing is removed when every element is kept. */
  lemma {:induction false} FilterKeepsAll<T>(s: seq<T>, keep: T -> bool)
    requires forall x :: x in s ==> keep(x)
    ensures Filter(s, keep) == s
  {
    if s != [] {
      FilterKeepsAll(s[1..], keep);
    }
  }

  /** Each kept element keeps its multiplicity; removed ones vanish. */
  /** `r` is `s` with some elements left out, the others in their order. */
  predicate IsSubsequence<T(==)>(r: seq<T>, s: seq<T>)
    decreases |s|
  {
    if r == [] then true
    else if s == [] then false
    else (r[0] == s[0] && IsSubsequence(r[1..], s[1..])) || IsSubsequence(r, s[1..])
  }

  lemma {:induction false} IsSubsequenceOfItself<T>(s: seq<T>)
    ensures IsSubsequence(s, s)
  {
    if s != [] {
      IsSubsequenceOfItself(s[1..]);
    }
  }

  /** Filtering keeps the order of what it keeps. */
  lemma {:induction false} FilterIsSubsequence<T>(s: seq<T>, keep: T -> bool)
    ensures IsSubsequence(Filter(s, keep), s)
  {
    if s != [] {
      FilterIsSubsequence(s[1..], keep);
      var rest := Filter(s[1..], keep);
      if keep(s[0]) {
        assert Filter(s, keep) == [s[0]] + rest;
        assert ([s[0]] + rest)[1..] == rest;
      } else {
        assert Filter(s, keep) == rest;
      }
    }
  }

  lemma {:induction false} FilterMultiset<T>(s: seq<T>, keep: T -> bool, x: T)
    ensures multiset(Filter(s, keep))[x] == if keep(x) then multiset(s)[x] else 0
  {
    if s != [] {
      var head := if keep(s[0]) then [s[0]] else [];
      FilterMultiset(s[1..], keep, x);
      assert s == [s[0]] + s[1..];
      assert multiset(Filter(s, keep)) == multiset(head) + multiset(Filter(s[1..], keep));
    }
  }

  /** Index of the first element that satisfies `p` (`FindIndex`), or -1. */
  function FirstIndex<T>(s: seq<T>, p: T -> bool): (r: int)
    ensures -1 <= r < |s|
    ensures r == -1 <==> forall i :: 0 <= i < |s| ==> !p(s[i])
    ensures r >= 0 ==> p(s[r]) && forall i :: 0 <= i < r ==> !p(s[i])
  {
    if s == [] then -1
    else if p(s[0]) then 0
    else
      var k := FirstIndex(s[1..], p);
      if k == -1 then -1 else k + 1
  }

  /** The first element that satisfies `p` (`FirstOrDefault`), or None. */
  function FirstWhere<T>(s: seq<T>, p: T -> bool): (r: Option<T>)
    ensures r == None <==> forall i :: 0 <= i < |s| ==> !p(s[i])
    ensures r.Some? ==>
      (exists i :: 0 <= i < |s| && s[i] == r.value && p(s[i]) && (forall j :: 0 <= j < i ==> !p(s[j])))
  {
    var k := FirstIndex(s, p);
    if k == -1 then None else Some(s[k])
  }

  /** The first match is the head of the filtered sequence. */
  lemma {:induction false} FirstWhereIsHeadOfFilter<T>(s: seq<T>, p: T -> bool)
    ensures FirstWhere(s, p) == if Filter(s, p) == [] then None else Some(Filter(s, p)[0])
  {
    if s != [] && !p(s[0]) {
      FirstWhereIsHeadOfFilter(s[1..], p);
      assert FirstWhere(s, p) == FirstWhere(s[1..], p);
    }
  }

  /** Filtering again by a stronger condition only applies the stronger one. */
  lemma {:induction false} FilterOfFilterImplied<T>(s: seq<T>, p: T -> bool, q: T -> bool)
    requires forall x :: q(x) ==> p(x)
    ensures Filter(Filter(s, p), q) == Filter(s, q)
  {
    if s != [] {
      var head := if p(s[0]) then [s[0]] else [];
      FilterConcat(head, Filter(s[1..], p), q);
      FilterOfFilterImplied(s[1..], p, q);
    }
  }

  /** Filtering by a condition the first filter already excluded leaves nothing. */
  lemma {:induction false} FilterOfFilterDisjoint<T>(s: seq<T>, p: T -> bool, q: T -> bool)
    requires forall x :: q(x) ==> !p(x)
    ensures Filter(Filter(s, p), q) == []
  {
    if s != [] {
      var head := if p(s[0]) then [s[0]] else [];
      FilterConcat(head, Filter(s[1..], p), q);
      FilterOfFilterDisjoint(s[1..], p, q);
    }
  }

  /** No two elements of `s` share a key. */
  ghost predicate DistinctKeys<T, K>(s: seq<T>, key: T -> K) {
    forall i, j :: 0 <= i < j < |s| ==> key(s[i]) != key(s[j])
  }

  /** Distinct keys stay distinct in any filtered subsequence. */
  lemma {:induction false} FilterKeepsKeysDistinct<T, K>(s: seq<T>, keep: T -> bool, key: T -> K)
    requires DistinctKeys(s, key)
    ensures DistinctKeys(Filter(s, keep), key)
  {
    if s != [] {
      var rest := Filter(s[1..], keep);
      FilterKeepsKeysDistinct(s[1..], keep, key);
      HeadKeyNotInTail(s, rest, key);
      if keep(s[0]) {
        assert Filter(s, keep) == [s[0]] + rest;
        ConsDistinctKeys(s[0], rest, key);
      } else {
        assert Filter(s, keep) == rest;
      }
    }
  }

  /** Putting an element with a fresh key in front keeps the keys distinct. */
  lemma ConsDistinctKeys<T, K>(x: T, rest: seq<T>, key: T -> K)
    requires DistinctKeys(rest, key)
    requires forall j :: 0 <= j < |rest| ==> key(rest[j]) != key(x)
    ensures DistinctKeys([x] + rest, key)
  {
    var r := [x] + rest;
    forall i, j | 0 <= i < j < |r| ensures key(r[i]) != key(r[j]) {
      assert r[j] == rest[j - 1];
      if i > 0 {
        assert r[i] == rest[i - 1];
      }
    }
  }

  /** A key that occurs once, at the head, is not the key of any element drawn from the tail. */
  lemma HeadKeyNotInTail<T, K>(s: seq<T>, rest: seq<T>, key: T -> K)
    requires s != [] && DistinctKeys(s, key)
    requires forall i :: 0 <= i < |rest| ==> rest[i] in s[1..]
    ensures forall j :: 0 <= j < |rest| ==> key(rest[j]) != key(s[0])
  {
    forall j | 0 <= j < |rest| ensures key(rest[j]) != key(s[0]) {
      var m :| 0 <= m < |s[1..]| && s[1..][m] == rest[j];
      assert s[m + 1] == rest[j];
    }
  }
}
