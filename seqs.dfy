/** First-match search, filtering and subsequences: the list shapes the
    services build with `for … return`, comprehensions and `append` loops. */
module Seqs {
  import opened Wrappers

  function Min(a: int, b: int): int {
    if a < b then a else b
  }

  /** The index of the first element satisfying `p`, as a `for` loop with an
      early `return` finds it. */
  function FirstWhere<T>(xs: seq<T>, p: T -> bool): (r: Option<nat>)
    ensures r.Some? ==> r.value < |xs| && p(xs[r.value])
    ensures r.Some? ==> forall j :: 0 <= j < r.value ==> !p(xs[j])
    ensures r.None? ==> forall j :: 0 <= j < |xs| ==> !p(xs[j])
    decreases |xs|
  {
    if |xs| == 0 then None
    else if p(xs[0]) then Some(0)
    else match FirstWhere(xs[1..], p)
      case Some(k) => Some(k + 1)
      case None => None
  }

  /** `[x for x in xs if p(x)]`. */
  function Filter<T>(xs: seq<T>, p: T -> bool): seq<T>
    decreases |xs|
  {
    if |xs| == 0 then []
    else Filter(xs[..|xs| - 1], p) + (if p(xs[|xs| - 1]) then [xs[|xs| - 1]] else [])
  }

  /** `a` is `b` with some elements left out, the rest in their order. */
  predicate IsSubsequence<T(==)>(a: seq<T>, b: seq<T>)
    decreases |b|
  {
    if |a| == 0 then true
    else if |b| == 0 then false
    else if a[|a| - 1] == b[|b| - 1] then IsSubsequence(a[..|a| - 1], b[..|b| - 1])
    else IsSubsequence(a, b[..|b| - 1])
  }

  lemma {:induction false} SubsequenceExtend<T>(a: seq<T>, b: seq<T>, x: T)
    requires IsSubsequence(a, b)
    ensures IsSubsequence(a, b + [x])
    decreases |b|, 1
  {
    var b' := b + [x];
    assert b'[..|b'| - 1] == b;
    if |a| > 0 && a[|a| - 1] == x {
      SubsequenceDropLast(a, b);
    }
  }

  lemma {:induction false} SubsequenceDropLast<T>(a: seq<T>, b: seq<T>)
    requires |a| > 0 && IsSubsequence(a, b)
    ensures IsSubsequence(a[..|a| - 1], b)
    decreases |b|, 0
  {
    var a' := a[..|a| - 1];
    if a[|a| - 1] == b[|b| - 1] {
      if |a'| > 0 {
        SubsequenceExtend(a', b[..|b| - 1], b[|b| - 1]);
        assert b[..|b| - 1] + [b[|b| - 1]] == b;
      }
    } else {
      SubsequenceDropLast(a, b[..|b| - 1]);
      if |a'| > 0 {
        SubsequenceExtend(a', b[..|b| - 1], b[|b| - 1]);
        assert b[..|b| - 1] + [b[|b| - 1]] == b;
      }
    }
  }

  /** A filter keeps exactly the elements satisfying `p`, in their order. */
  lemma FilterSpec<T>(xs: seq<T>, p: T -> bool)
    ensures |Filter(xs, p)| <= |xs|
    ensures forall k :: 0 <= k < |Filter(xs, p)| ==> p(Filter(xs, p)[k])
    ensures forall k :: 0 <= k < |xs| && p(xs[k]) ==> xs[k] in Filter(xs, p)
    ensures forall y :: y in Filter(xs, p) ==> y in xs
    ensures IsSubsequence(Filter(xs, p), xs)
  {
    FilterKeeps(xs, p);
    FilterSubsequence(xs, p);
  }

  /** A filter is no longer than its input, and keeps the elements
      satisfying `p` and only those. */
  lemma {:induction false} FilterKeeps<T>(xs: seq<T>, p: T -> bool)
    ensures |Filter(xs, p)| <= |xs|
    ensures forall k :: 0 <= k < |Filter(xs, p)| ==> p(Filter(xs, p)[k])
    ensures forall k :: 0 <= k < |xs| && p(xs[k]) ==> xs[k] in Filter(xs, p)
    ensures forall y :: y in Filter(xs, p) ==> y in xs
    decreases |xs|
  {
    if |xs| > 0 {
      var init := xs[..|xs| - 1];
      var x := xs[|xs| - 1];
      FilterKeeps(init, p);
      assert xs == init + [x];
      forall k | 0 <= k < |xs| && p(xs[k]) ensures xs[k] in Filter(xs, p) {
        if k < |xs| - 1 { assert xs[k] == init[k]; }
      }
    }
  }

  /** A filter keeps the order of its input. */
  lemma {:induction false} FilterSubsequence<T>(xs: seq<T>, p: T -> bool)
    ensures IsSubsequence(Filter(xs, p), xs)
    decreases |xs|
  {
    if |xs| > 0 {
      var init := xs[..|xs| - 1];
      var x := xs[|xs| - 1];
      FilterSubsequence(init, p);
      assert xs == init + [x];
      if p(x) {
        assert Filter(xs, p)[..|Filter(xs, p)| - 1] == Filter(init, p);
      } else {
        assert Filter(xs, p) == Filter(init, p);
        SubsequenceExtend(Filter(init, p), init, x);
      }
    }
  }

  /** A filter keeps every occurrence of an element satisfying `p` and none
      of the others. */
  lemma {:induction false} FilterMultiset<T>(xs: seq<T>, p: T -> bool)
    ensures forall y :: multiset(Filter(xs, p))[y] == if p(y) then multiset(xs)[y] else 0
    decreases |xs|
  {
    if |xs| > 0 {
      var init := xs[..|xs| - 1];
      var x := xs[|xs| - 1];
      FilterMultiset(init, p);
      assert xs == init + [x];
      assert multiset(xs) == multiset(init) + multiset{x};
    }
  }

  /** Filtering a concatenation filters each part. */
  lemma {:induction false} FilterAppend<T>(xs: seq<T>, ys: seq<T>, p: T -> bool)
    ensures Filter(xs + ys, p) == Filter(xs, p) + Filter(ys, p)
    decreases |ys|
  {
    if |ys| > 0 {
      var init := ys[..|ys| - 1];
      assert (xs + ys)[..|xs + ys| - 1] == xs + init;
      FilterAppend(xs, init, p);
    } else {
      assert xs + ys == xs;
    }
  }

  /** An element satisfying `p` sits in the filter right after the
      elements kept from before it. */
  lemma FilterAt<T>(xs: seq<T>, p: T -> bool, k: nat)
    requires k < |xs| && p(xs[k])
    ensures |Filter(xs[..k], p)| < |Filter(xs, p)|
    ensures Filter(xs, p)[|Filter(xs[..k], p)|] == xs[k]
  {
    assert xs == xs[..k + 1] + xs[k + 1..];
    FilterAppend(xs[..k + 1], xs[k + 1..], p);
    assert xs[..k + 1][..k] == xs[..k];
  }

  /** A prefix of a subsequence is a subsequence. */
  lemma {:induction false} SubsequencePrefix<T>(a: seq<T>, b: seq<T>, n: nat)
    requires n <= |a| && IsSubsequence(a, b)
    ensures IsSubsequence(a[..n], b)
    decreases |a| - n
  {
    if n < |a| {
      SubsequenceDropLast(a, b);
      assert a[..|a| - 1][..n] == a[..n];
      SubsequencePrefix(a[..|a| - 1], b, n);
    } else {
      assert a[..n] == a;
    }
  }

  /** The first present value of a list of optional values. */
  function FirstPresent<T>(xs: seq<Option<T>>): (r: Option<T>)
    ensures r.Some? ==> r in xs
    ensures r.None? ==> forall k :: 0 <= k < |xs| ==> xs[k].None?
    decreases |xs|
  {
    if |xs| == 0 then None
    else if xs[0].Some? then xs[0]
    else FirstPresent(xs[1..])
  }
}
