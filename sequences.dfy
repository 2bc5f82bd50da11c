/** The Kotlin collection operations the core relies on: `indexOfFirst`, `find` and `filter`. */
module Sequences {
  import opened Wrappers

  /** `a` can be obtained from `b` by deleting elements, keeping the order of the rest. */
  predicate IsSubsequence<T(==)>(a: seq<T>, b: seq<T>)
    decreases |b|
  {
    if a == [] then true
    else if b == [] then false
    else if a[0] == b[0] then IsSubsequence(a[1..], b[1..])
    else IsSubsequence(a, b[1..])
  }

  /** Kotlin's `indexOfFirst`: the first position whose element satisfies `p`, or -1. */
  function IndexOfFirst<T>(s: seq<T>, p: T -> bool): (r: int)
    ensures -1 <= r < |s|
    ensures r == -1 <==> forall i | 0 <= i < |s| :: !p(s[i])
    ensures r >= 0 ==> p(s[r]) && forall i | 0 <= i < r :: !p(s[i])
    decreases |s|
  {
    if s == [] then -1
    else if p(s[0]) then 0
    else
      var r := IndexOfFirst(s[1..], p);
      if r == -1 then -1 else r + 1
  }

  /** Kotlin's `find`: the first element satisfying `p`, or null. */
  function Find<T>(s: seq<T>, p: T -> bool): (r: Option<T>)
    ensures r.None? <==> forall i | 0 <= i < |s| :: !p(s[i])
    ensures r.Some? ==> r.value == s[IndexOfFirst(s, p)]
  {
    var i := IndexOfFirst(s, p);
    if i == -1 then None else Some(s[i])
  }

  /**
   * Kotlin's `filter`: the elements satisfying `p`, in their original order, each kept as
   * often as it occurs.
   */
  function Filter<T(==,!new)>(s: seq<T>, p: T -> bool): (r: seq<T>)
    ensures |r| <= |s|
    ensures forall i | 0 <= i < |r| :: r[i] in s && p(r[i])
    ensures forall i | 0 <= i < |s| && p(s[i]) :: s[i] in r
    ensures IsSubsequence(r, s)
    ensures (forall i | 0 <= i < |s| :: p(s[i])) ==> r == s
    ensures forall x {:trigger multiset(r)[x]} | p(x) :: multiset(r)[x] == multiset(s)[x]
    ensures forall x {:trigger multiset(r)[x]} | !p(x) :: multiset(r)[x] == 0
    decreases |s|
  {
    if s == [] then []
    else
      var rest := Filter(s[1..], p);
      FilterStepCounts(s, p, rest);
      MembersFromCounts(s, p, if p(s[0]) then [s[0]] + rest else rest);
      if p(s[0]) then
        SubsequenceStep(s, rest);
        AllKeptStep(s, p, rest);
        [s[0]] + rest
      else
        assert rest != [] ==> rest[0] != s[0] by {
          if rest != [] { assert p(rest[0]); }
        }
        SubsequenceStep(s, rest);
        rest
  }

  /** Extending a subsequence of a tail to one of the whole sequence, with or without the head. */
  lemma SubsequenceStep<T>(s: seq<T>, rest: seq<T>)
    requires s != [] && IsSubsequence(rest, s[1..])
    ensures IsSubsequence([s[0]] + rest, s)
    ensures rest == [] || rest[0] != s[0] ==> IsSubsequence(rest, s)
  {
    assert ([s[0]] + rest)[1..] == rest;
  }

  /** When every element satisfies `p`, so does every element of the tail, and the head is kept. */
  lemma AllKeptStep<T>(s: seq<T>, p: T -> bool, rest: seq<T>)
    requires s != []
    requires (forall i | 0 <= i < |s[1..]| :: p(s[1..][i])) ==> rest == s[1..]
    ensures (forall i | 0 <= i < |s| :: p(s[i])) ==> [s[0]] + rest == s
  {
    if forall i | 0 <= i < |s| :: p(s[i]) {
      assert forall i | 0 <= i < |s[1..]| :: p(s[1..][i]) by {
        forall i | 0 <= i < |s[1..]| ensures p(s[1..][i]) {
          assert s[1..][i] == s[i + 1];
        }
      }
      assert [s[0]] + s[1..] == s;
    }
  }

  /** A result that keeps each element satisfying `p` as often as it occurs, and no other. */
  lemma MembersFromCounts<T(!new)>(s: seq<T>, p: T -> bool, r: seq<T>)
    requires forall x | p(x) :: multiset(r)[x] == multiset(s)[x]
    requires forall x | !p(x) :: multiset(r)[x] == 0
    ensures forall i | 0 <= i < |r| :: r[i] in s && p(r[i])
    ensures forall i | 0 <= i < |s| && p(s[i]) :: s[i] in r
  {
    forall i | 0 <= i < |r| ensures r[i] in s && p(r[i]) {
      assert r[i] in multiset(r);
    }
    forall i | 0 <= i < |s| && p(s[i]) ensures s[i] in r {
      assert s[i] in multiset(s);
    }
  }

  /**
   * The counting step of `filter`: if `rest` keeps each element of the tail that satisfies
   * `p` as often as it occurs and no other, then so does the result for the whole sequence.
   */
  lemma FilterStepCounts<T(!new)>(s: seq<T>, p: T -> bool, rest: seq<T>)
    requires s != []
    requires forall x | p(x) :: multiset(rest)[x] == multiset(s[1..])[x]
    requires forall x | !p(x) :: multiset(rest)[x] == 0
    ensures p(s[0]) ==> forall x | p(x) :: multiset([s[0]] + rest)[x] == multiset(s)[x]
    ensures p(s[0]) ==> forall x | !p(x) :: multiset([s[0]] + rest)[x] == 0
    ensures !p(s[0]) ==> forall x | p(x) :: multiset(rest)[x] == multiset(s)[x]
  {
    assert s == [s[0]] + s[1..];
    assert multiset(s) == multiset([s[0]]) + multiset(s[1..]);
    assert multiset([s[0]] + rest) == multiset([s[0]]) + multiset(rest);
  }

  /** One step of `filter`: the head is kept exactly when it satisfies `p`. */
  lemma FilterCons<T(!new)>(x: T, s: seq<T>, p: T -> bool)
    ensures Filter([x] + s, p) == if p(x) then [x] + Filter(s, p) else Filter(s, p)
  {
    assert ([x] + s)[1..] == s;
  }

  /** Appending an element that fails `p` to a sequence whose elements all pass it: filtering gives the sequence back. */
  lemma {:induction false} FilterAppendDropped<T(!new)>(s: seq<T>, x: T, p: T -> bool)
    requires forall i | 0 <= i < |s| :: p(s[i])
    requires !p(x)
    ensures Filter(s + [x], p) == s
    decreases |s|
  {
    if s == [] {
      FilterCons(x, [], p);
      assert s + [x] == [x] + [];
    } else {
      var tail := s[1..] + [x];
      assert s + [x] == [s[0]] + tail;
      FilterCons(s[0], tail, p);
      FilterAppendDropped(s[1..], x, p);
      assert [s[0]] + s[1..] == s;
    }
  }
}
