/** Generic facts about the list operations the modelled code performs. */
module Seqs {
  import opened Wrappers

  /** The elements of `xs` whose flag in `keep` is set, in their order in `xs`:
   *  the list that a loop `for x in xs: if keep: out.append(x)` builds. */
  function Select<T>(xs: seq<T>, keep: seq<bool>): (r: seq<T>)
    requires |xs| == |keep|
    ensures |r| <= |xs|
    decreases |xs|
  {
    if |xs| == 0 then []
    else Select(xs[..|xs| - 1], keep[..|keep| - 1]) + (if keep[|keep| - 1] then [xs[|xs| - 1]] else [])
  }

  /** One more iteration of the selecting loop. */
  lemma SelectStep<T>(xs: seq<T>, keep: seq<bool>, i: nat)
    requires i < |xs| == |keep|
    ensures Select(xs[..i + 1], keep[..i + 1]) == Select(xs[..i], keep[..i]) + (if keep[i] then [xs[i]] else [])
  {
    assert xs[..i + 1][..i] == xs[..i];
    assert keep[..i + 1][..i] == keep[..i];
  }

  predicate NoDup<T(==)>(s: seq<T>)
  {
    forall i, j :: 0 <= i < j < |s| ==> s[i] != s[j]
  }

  /** `x` is selected iff it sits at a position whose flag is set. */
  lemma {:induction false} SelectMember<T>(xs: seq<T>, keep: seq<bool>, x: T)
    requires |xs| == |keep|
    ensures x in Select(xs, keep) <==> exists i :: 0 <= i < |xs| && keep[i] && xs[i] == x
    decreases |xs|
  {
    if |xs| > 0 {
      var n := |xs| - 1;
      SelectMember(xs[..n], keep[..n], x);
      if x in Select(xs[..n], keep[..n]) {
        var i :| 0 <= i < n && keep[..n][i] && xs[..n][i] == x;
        assert keep[i] && xs[i] == x;
      }
      if exists i :: 0 <= i < |xs| && keep[i] && xs[i] == x {
        var i :| 0 <= i < |xs| && keep[i] && xs[i] == x;
        if i < n {
          assert keep[..n][i] && xs[..n][i] == x;
        }
      }
    }
  }

  /** Selecting from a duplicate-free list gives a duplicate-free list. */
  lemma {:induction false} SelectNoDup<T>(xs: seq<T>, keep: seq<bool>)
    requires |xs| == |keep| && NoDup(xs)
    ensures NoDup(Select(xs, keep))
    decreases |xs|
  {
    if |xs| > 0 {
      var n := |xs| - 1;
      assert NoDup(xs[..n]);
      SelectNoDup(xs[..n], keep[..n]);
      if keep[n] {
        SelectMember(xs[..n], keep[..n], xs[n]);
        assert xs[n] !in Select(xs[..n], keep[..n]);
      }
    }
  }

  /** With complementary flags, every element lands in exactly one of the two selections. */
  lemma SelectSplit<T>(xs: seq<T>, k1: seq<bool>, k2: seq<bool>, x: T)
    requires |xs| == |k1| == |k2| && NoDup(xs)
    requires forall i :: 0 <= i < |xs| ==> k1[i] != k2[i]
    ensures x in xs <==> (x in Select(xs, k1) || x in Select(xs, k2))
    ensures !(x in Select(xs, k1) && x in Select(xs, k2))
  {
    SelectMember(xs, k1, x);
    SelectMember(xs, k2, x);
  }

  /** `k1` and `k2` set exactly one flag at every position. */
  predicate Complementary(k1: seq<bool>, k2: seq<bool>)
  {
    |k1| == |k2| && forall i :: 0 <= i < |k1| ==> k1[i] != k2[i]
  }

  lemma ComplementaryPrefix(k1: seq<bool>, k2: seq<bool>, n: nat)
    requires Complementary(k1, k2) && n <= |k1|
    ensures Complementary(k1[..n], k2[..n])
  {
    forall i | 0 <= i < n
      ensures k1[..n][i] != k2[..n][i]
    {
      assert k1[..n][i] == k1[i];
    }
  }

  /** With complementary flags, the two selections together are a permutation of the list. */
  lemma {:induction false} SelectMultiset<T>(xs: seq<T>, k1: seq<bool>, k2: seq<bool>)
    requires |xs| == |k1| && Complementary(k1, k2)
    ensures multiset(Select(xs, k1)) + multiset(Select(xs, k2)) == multiset(xs)
    decreases |xs|
  {
    if |xs| > 0 {
      var n := |xs| - 1;
      ComplementaryPrefix(k1, k2, n);
      SelectMultiset(xs[..n], k1[..n], k2[..n]);
      MultisetSnoc(Select(xs[..n], k1[..n]), Select(xs[..n], k2[..n]), xs, k1[n]);
    }
  }

  /** Appending the last element of `p` to one of two lists that together hold the rest of `p`. */
  lemma MultisetSnoc<T>(a: seq<T>, b: seq<T>, p: seq<T>, left: bool)
    requires |p| > 0 && multiset(a) + multiset(b) == multiset(p[..|p| - 1])
    ensures var x := p[|p| - 1];
      multiset(a + (if left then [x] else [])) + multiset(b + (if left then [] else [x])) == multiset(p)
  {
    assert p == p[..|p| - 1] + [p[|p| - 1]];
  }

  /** Number of occurrences of `x` in `s`. */
  function Count<T(==)>(s: seq<T>, x: T): (n: nat)
    ensures n <= |s|
    decreases |s|
  {
    if |s| == 0 then 0 else Count(s[..|s| - 1], x) + (if s[|s| - 1] == x then 1 else 0)
  }

  lemma {:induction false} CountZero<T>(s: seq<T>, x: T)
    ensures Count(s, x) == 0 <==> x !in s
    decreases |s|
  {
    if |s| > 0 {
      CountZero(s[..|s| - 1], x);
      assert s == s[..|s| - 1] + [s[|s| - 1]];
    }
  }

  /** `n` copies of `x`. */
  function Repeat<T>(x: T, n: nat): (r: seq<T>)
    ensures |r| == n
    ensures forall i :: 0 <= i < n ==> r[i] == x
  {
    seq(n, i => x)
  }

  function Elems<T>(s: seq<T>): set<T>
  {
    set x | x in s
  }

  lemma ConcatAssoc<T>(a: seq<T>, b: seq<T>, c: seq<T>)
    ensures a + (b + c) == (a + b) + c
  {
  }

  /** An element of both of the first two parts occurs at least twice in the whole. */
  lemma TwiceInConcat<T>(a: seq<T>, b: seq<T>, c: seq<T>, x: T)
    requires x in a && x in b
    ensures multiset(a + b + c)[x] >= 2
  {
    assert multiset(a + b + c) == multiset(a) + multiset(b) + multiset(c);
  }

  /** The values `f` keeps, in order: the list a loop `for x in xs: if f(x) ...` visits. */
  function FilterMap<T, U>(xs: seq<T>, f: T -> Option<U>): (r: seq<U>)
    ensures |r| <= |xs|
    decreases |xs|
  {
    if |xs| == 0 then []
    else
      var n := |xs| - 1;
      FilterMap(xs[..n], f) + (if f(xs[n]).Some? then [f(xs[n]).value] else [])
  }

  /** One more iteration of the filtering loop. */
  lemma FilterMapStep<T, U>(xs: seq<T>, f: T -> Option<U>, i: nat)
    requires i < |xs|
    ensures f(xs[i]).Some? ==> FilterMap(xs[..i + 1], f) == FilterMap(xs[..i], f) + [f(xs[i]).value]
    ensures f(xs[i]).None? ==> FilterMap(xs[..i + 1], f) == FilterMap(xs[..i], f)
  {
    assert xs[..i + 1][..i] == xs[..i];
  }
}
