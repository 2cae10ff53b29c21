/**
 * The two array idioms the pages use: `xs.filter(p)` and the left fold
 * `xs.reduce((s, x) => s + f(x), 0)`, over exact `real` amounts.
 */
module Seqs {

  /** `a` can be obtained from `b` by deleting elements, keeping the order of the rest. */
  predicate IsSubsequence<T(==)>(a: seq<T>, b: seq<T>)
    decreases |b|
  {
    a == [] || (|b| > 0 && ((a[0] == b[0] && IsSubsequence(a[1..], b[1..])) || IsSubsequence(a, b[1..])))
  }

  /**
   * `s.filter(p)`: exactly the elements of `s` that satisfy `p`, each as often
   * as it occurs in `s`, in their original order.
   */
  function Filter<T(==,!new)>(s: seq<T>, p: T -> bool): (r: seq<T>)
    ensures |r| <= |s|
    ensures IsSubsequence(r, s)
    ensures forall i :: 0 <= i < |r| ==> p(r[i])
    ensures forall x :: multiset(r)[x] == if p(x) then multiset(s)[x] else 0
  {
    if |s| == 0 then []
    else
      var rest := Filter(s[1..], p);
      assert s == [s[0]] + s[1..];
      assert multiset(s) == multiset{s[0]} + multiset(s[1..]);
      if p(s[0]) then
        assert ([s[0]] + rest)[1..] == rest;
        [s[0]] + rest
      else rest
  }

  /** An element of `s` that satisfies `p` survives the filter. */
  lemma FilterKeeps<T(!new)>(s: seq<T>, p: T -> bool, x: T)
    requires x in s && p(x)
    ensures x in Filter(s, p)
  {
    var r := Filter(s, p);
    assert multiset(s)[x] > 0;
    assert multiset(r)[x] > 0;
  }

  /** A filter that every element passes returns the whole sequence. */
  lemma {:induction false} FilterAll<T(!new)>(s: seq<T>, p: T -> bool)
    requires forall i :: 0 <= i < |s| ==> p(s[i])
    ensures Filter(s, p) == s
  {
    if |s| > 0 {
      FilterAll(s[1..], p);
      assert [s[0]] + s[1..] == s;
    }
  }

  /** A filter that no element passes returns nothing. */
  lemma FilterNone<T(!new)>(s: seq<T>, p: T -> bool)
    requires forall i :: 0 <= i < |s| ==> !p(s[i])
    ensures Filter(s, p) == []
  {
  }

  /** When no two positions pass the filter, at most one element survives it. */
  lemma {:induction false} FilterAtMostOne<T(!new)>(s: seq<T>, p: T -> bool)
    requires forall i, j :: 0 <= i < j < |s| && p(s[i]) ==> !p(s[j])
    ensures |Filter(s, p)| <= 1
  {
    if |s| > 0 {
      if p(s[0]) {
        FilterNone(s[1..], p);
      } else {
        FilterAtMostOne(s[1..], p);
      }
    }
  }

  /** Filters by two predicates that agree on the elements give the same result. */
  lemma {:induction false} FilterSamePredicate<T(!new)>(s: seq<T>, p: T -> bool, q: T -> bool)
    requires forall i :: 0 <= i < |s| ==> p(s[i]) == q(s[i])
    ensures Filter(s, p) == Filter(s, q)
  {
    if |s| > 0 {
      FilterSamePredicate(s[1..], p, q);
    }
  }

  /** A one-element sequence is kept or dropped whole. */
  lemma FilterSingleton<T(!new)>(x: T, p: T -> bool)
    ensures Filter([x], p) == if p(x) then [x] else []
  {
    assert [x][1..] == [];
  }

  /** Appending elements the filter keeps appends them to the result. */
  lemma FilterAppendKept<T(!new)>(a: seq<T>, b: seq<T>, p: T -> bool)
    requires forall i :: 0 <= i < |b| ==> p(b[i])
    ensures Filter(a + b, p) == Filter(a, p) + b
  {
    FilterAll(b, p);
    FilterAppend(a, b, p);
  }

  /** Filtering out the one element after a run that the filter keeps whole leaves the run. */
  lemma FilterDropLast<T(!new)>(a: seq<T>, x: T, p: T -> bool)
    requires forall i :: 0 <= i < |a| ==> p(a[i])
    requires !p(x)
    ensures Filter(a + [x], p) == a
  {
    FilterSingleton(x, p);
    FilterAll(a, p);
    FilterAppend(a, [x], p);
    assert a + [] == a;
  }

  /** Filtering out the one element between two runs that the filter keeps whole joins the runs. */
  lemma FilterDropOne<T(!new)>(a: seq<T>, x: T, b: seq<T>, p: T -> bool)
    requires forall i :: 0 <= i < |a| ==> p(a[i])
    requires forall i :: 0 <= i < |b| ==> p(b[i])
    requires !p(x)
    ensures Filter(a + [x] + b, p) == a + b
  {
    FilterDropLast(a, x, p);
    FilterAppendKept(a + [x], b, p);
  }

  /** Filtering distributes over concatenation. */
  lemma {:induction false} FilterAppend<T(!new)>(a: seq<T>, b: seq<T>, p: T -> bool)
    ensures Filter(a + b, p) == Filter(a, p) + Filter(b, p)
  {
    if |a| > 0 {
      assert (a + b)[1..] == a[1..] + b;
      FilterAppend(a[1..], b, p);
    } else {
      assert a + b == b;
    }
  }

  /** The sum of `f` over `s`, adding from the left as JavaScript's `reduce` does, starting at 0. */
  function SumOf<T>(s: seq<T>, f: T -> real): real {
    if |s| == 0 then 0.0 else SumOf(s[..|s| - 1], f) + f(s[|s| - 1])
  }

  /** The fold over one element is that element's term. */
  lemma SumSingleton<T>(x: T, f: T -> real)
    ensures SumOf([x], f) == f(x)
  {
    assert [x][..0] == [];
  }

  /** Appending one element adds its term to the fold. */
  lemma SumSnoc<T>(s: seq<T>, x: T, f: T -> real)
    ensures SumOf(s + [x], f) == SumOf(s, f) + f(x)
  {
    assert (s + [x])[..|s|] == s;
  }

  /** The fold over a concatenation is the sum of the folds. */
  lemma {:induction false} SumAppend<T>(a: seq<T>, b: seq<T>, f: T -> real)
    ensures SumOf(a + b, f) == SumOf(a, f) + SumOf(b, f)
    decreases |b|
  {
    if |b| == 0 {
      assert a + b == a;
    } else {
      var ab := a + b;
      assert ab[..|ab| - 1] == a + b[..|b| - 1];
      SumAppend(a, b[..|b| - 1], f);
    }
  }

  /** Removing the element at `j` removes exactly its term from the sum. */
  lemma SumRemoveAt<T>(s: seq<T>, j: nat, f: T -> real)
    requires j < |s|
    ensures SumOf(s, f) == SumOf(s[..j] + s[j + 1..], f) + f(s[j])
  {
    var a, x, b := s[..j], s[j], s[j + 1..];
    assert s == a + [x] + b by {
      assert s == s[..j] + s[j..];
      assert s[j..] == [x] + b;
    }
    SumSplit(a, x, b, f);
  }

  /** The fold around one element: the folds of the runs on either side, plus its term. */
  lemma SumSplit<T>(a: seq<T>, x: T, b: seq<T>, f: T -> real)
    ensures SumOf(a + [x] + b, f) == SumOf(a + b, f) + f(x)
  {
    SumAppend(a + [x], b, f);
    SumAppend(a, [x], f);
    SumAppend(a, b, f);
    SumSingleton(x, f);
  }

  /** The fold does not depend on the order of the elements. */
  lemma {:induction false} SumPermutation<T>(a: seq<T>, b: seq<T>, f: T -> real)
    requires multiset(a) == multiset(b)
    ensures SumOf(a, f) == SumOf(b, f)
    decreases |a|
  {
    if |a| == 0 {
      assert |b| == |multiset(b)| == 0;
    } else {
      var x := a[|a| - 1];
      var a' := a[..|a| - 1];
      assert a == a' + [x];
      assert x in multiset(b);
      var j :| 0 <= j < |b| && b[j] == x;
      var b' := b[..j] + b[j + 1..];
      assert b == b[..j] + [x] + b[j + 1..];
      assert multiset(b) == multiset(b') + multiset{x};
      assert multiset(a) == multiset(a') + multiset{x};
      assert multiset(a') == multiset(a) - multiset{x};
      assert multiset(b') == multiset(b) - multiset{x};
      SumPermutation(a', b', f);
      SumRemoveAt(b, j, f);
    }
  }

  /** Every reordering of `a` has the same sum. */
  lemma SumPermutations<T>(a: seq<T>, f: T -> real)
    ensures forall b :: multiset(b) == multiset(a) ==> SumOf(b, f) == SumOf(a, f)
  {
    forall b | multiset(b) == multiset(a)
      ensures SumOf(b, f) == SumOf(a, f)
    {
      SumPermutation(b, a, f);
    }
  }

  /** Every term non-negative gives a non-negative sum. */
  lemma {:induction false} SumNonNegative<T>(s: seq<T>, f: T -> real)
    requires forall i :: 0 <= i < |s| ==> f(s[i]) >= 0.0
    ensures SumOf(s, f) >= 0.0
  {
    if |s| > 0 {
      SumNonNegative(s[..|s| - 1], f);
    }
  }

  /** Two folds over the same sequence add up termwise. */
  lemma {:induction false} SumAddTerms<T>(s: seq<T>, f: T -> real, g: T -> real, h: T -> real)
    requires forall i :: 0 <= i < |s| ==> h(s[i]) == f(s[i]) + g(s[i])
    ensures SumOf(s, h) == SumOf(s, f) + SumOf(s, g)
  {
    if |s| > 0 {
      SumAddTerms(s[..|s| - 1], f, g, h);
    }
  }

  /** A fold whose terms are a constant multiple of another's is that multiple of it. */
  lemma {:induction false} SumScale<T>(s: seq<T>, f: T -> real, g: T -> real, c: real)
    requires forall i :: 0 <= i < |s| ==> g(s[i]) == c * f(s[i])
    ensures SumOf(s, g) == c * SumOf(s, f)
  {
    if |s| > 0 {
      SumScale(s[..|s| - 1], f, g, c);
    }
  }
}
