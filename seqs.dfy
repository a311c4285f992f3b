/**
 * The array combinators the source uses on lists of records: `filter`,
 * `reduce` to a sum, and `Array.from(new Set(xs))` (distinct values in
 * first-appearance order), with the facts about them the rest of the model
 * relies on.
 */
module Seqs {
  import opened Options

  /** `xs.filter(p)`: the elements satisfying `p`, in their original order. */
  function Filter<T(==)>(xs: seq<T>, p: T -> bool): (r: seq<T>)
    ensures |r| <= |xs|
    ensures forall k :: 0 <= k < |r| ==> r[k] in xs && p(r[k])
    ensures forall k :: 0 <= k < |xs| && p(xs[k]) ==> xs[k] in r
  {
    if xs == [] then []
    else
      var init := xs[..|xs| - 1];
      assert xs == init + [xs[|xs| - 1]];
      var r := Filter(init, p);
      if p(xs[|xs| - 1]) then r + [xs[|xs| - 1]] else r
  }

  /** Filtering distributes over concatenation, so relative order is kept. */
  lemma {:induction false} FilterConcat<T>(a: seq<T>, b: seq<T>, p: T -> bool)
    ensures Filter(a + b, p) == Filter(a, p) + Filter(b, p)
  {
    if b == [] {
      assert a + b == a;
    } else {
      var b' := b[..|b| - 1];
      assert (a + b)[..|a + b| - 1] == a + b';
      assert (a + b)[|a + b| - 1] == b[|b| - 1];
      FilterConcat(a, b', p);
    }
  }

  /** An element that fails the test makes the filter strictly shorter. */
  lemma FilterDrops<T>(xs: seq<T>, p: T -> bool, i: nat)
    requires i < |xs| && !p(xs[i])
    ensures |Filter(xs, p)| < |xs|
  {
    assert xs == xs[..i] + [xs[i]] + xs[i + 1..];
    FilterConcat(xs[..i] + [xs[i]], xs[i + 1..], p);
    FilterConcat(xs[..i], [xs[i]], p);
    assert Filter([xs[i]], p) == [] by {
      assert [xs[i]][..0] == [];
    }
  }

  /** A value is in the filter exactly when it is in the list and passes. */
  lemma FilterHas<T>(xs: seq<T>, p: T -> bool, x: T)
    ensures x in Filter(xs, p) <==> x in xs && p(x)
  {
    if x in Filter(xs, p) {
      var k :| 0 <= k < |Filter(xs, p)| && Filter(xs, p)[k] == x;
    }
    if x in xs && p(x) {
      var k :| 0 <= k < |xs| && xs[k] == x;
    }
  }

  /** When no element passes, the filter is empty. */
  lemma {:induction false} FilterNone<T>(xs: seq<T>, p: T -> bool)
    requires forall k :: 0 <= k < |xs| ==> !p(xs[k])
    ensures Filter(xs, p) == []
  {
    if xs != [] {
      FilterNone(xs[..|xs| - 1], p);
    }
  }

  /** Filtering twice is filtering once by both tests. */
  lemma {:induction false} FilterTwice<T>(xs: seq<T>, p: T -> bool, q: T -> bool, r: T -> bool)
    requires forall k :: 0 <= k < |xs| ==> r(xs[k]) == (p(xs[k]) && q(xs[k]))
    ensures Filter(Filter(xs, p), q) == Filter(xs, r)
  {
    if xs != [] {
      var n := |xs| - 1;
      var init := xs[..n];
      FilterTwice(init, p, q, r);
      if p(xs[n]) {
        FilterConcat(Filter(init, p), [xs[n]], q);
        FilterSingleton(xs[n], q);
      }
    }
  }

  /** Filtering one element keeps it exactly when it passes. */
  lemma FilterSingleton<T>(x: T, p: T -> bool)
    ensures Filter([x], p) == if p(x) then [x] else []
  {
    assert [x][..0] == [];
  }

  /** When every element passes, the filter is the identity. */
  lemma {:induction false} FilterAll<T>(xs: seq<T>, p: T -> bool)
    requires forall k :: 0 <= k < |xs| ==> p(xs[k])
    ensures Filter(xs, p) == xs
  {
    if xs != [] {
      FilterAll(xs[..|xs| - 1], p);
    }
  }

  /** Two tests that agree on every element filter alike. */
  lemma {:induction false} FilterCongruent<T>(xs: seq<T>, p: T -> bool, q: T -> bool)
    requires forall k :: 0 <= k < |xs| ==> p(xs[k]) == q(xs[k])
    ensures Filter(xs, p) == Filter(xs, q)
  {
    if xs != [] {
      FilterCongruent(xs[..|xs| - 1], p, q);
    }
  }

  /** The present values of `xs`, in order: a `map` to flagged values followed by a `filter` on the flag. */
  function Somes<T>(xs: seq<Option<T>>): (r: seq<T>)
    ensures |r| <= |xs|
  {
    if xs == [] then []
    else
      var last := xs[|xs| - 1];
      Somes(xs[..|xs| - 1]) + if last.Some? then [last.value] else []
  }

  /** When `xs[i]` is present exactly when `p(ys[i])` holds, `Somes(xs)` is as long as `Filter(ys, p)`. */
  lemma {:induction false} SomesCount<T, U>(ys: seq<T>, xs: seq<Option<U>>, p: T -> bool)
    requires |xs| == |ys|
    requires forall i :: 0 <= i < |xs| ==> (xs[i].Some? <==> p(ys[i]))
    ensures |Somes(xs)| == |Filter(ys, p)|
  {
    if xs != [] {
      var n := |xs| - 1;
      assert ys == ys[..n] + [ys[n]];
      SomesCount(ys[..n], xs[..n], p);
    }
  }

  /** A property of every present value holds of every kept value. */
  lemma {:induction false} SomesAll<T>(xs: seq<Option<T>>, good: T -> bool)
    requires forall i :: 0 <= i < |xs| && xs[i].Some? ==> good(xs[i].value)
    ensures forall k :: 0 <= k < |Somes(xs)| ==> good(Somes(xs)[k])
  {
    if xs != [] {
      var n := |xs| - 1;
      SomesAll(xs[..n], good);
      assert forall i :: 0 <= i < n ==> xs[..n][i] == xs[i];
    }
  }

  /** Every present value is kept. */
  lemma {:induction false} SomesHas<T>(xs: seq<Option<T>>, i: nat)
    requires i < |xs| && xs[i].Some?
    ensures xs[i].value in Somes(xs)
  {
    var n := |xs| - 1;
    if i < n {
      SomesHas(xs[..n], i);
    }
  }

  /** `xs.reverse()`, on a copy. */
  function Reverse<T>(xs: seq<T>): seq<T>
  {
    seq(|xs|, k requires 0 <= k < |xs| => xs[|xs| - 1 - k])
  }

  /** `xs.reduce((sum, x) => sum + f(x), 0)`, summed left to right. */
  function Sum<T>(xs: seq<T>, f: T -> real): real
  {
    if xs == [] then 0.0 else Sum(xs[..|xs| - 1], f) + f(xs[|xs| - 1])
  }

  lemma {:induction false} SumConcat<T>(a: seq<T>, b: seq<T>, f: T -> real)
    ensures Sum(a + b, f) == Sum(a, f) + Sum(b, f)
  {
    if b == [] {
      assert a + b == a;
    } else {
      var b' := b[..|b| - 1];
      assert (a + b)[..|a + b| - 1] == a + b';
      assert (a + b)[|a + b| - 1] == b[|b| - 1];
      SumConcat(a, b', f);
    }
  }

  lemma {:induction false} SumNonNegative<T>(xs: seq<T>, f: T -> real)
    requires forall k :: 0 <= k < |xs| ==> f(xs[k]) >= 0.0
    ensures Sum(xs, f) >= 0.0
  {
    if xs != [] {
      SumNonNegative(xs[..|xs| - 1], f);
    }
  }

  lemma SumSingleton<T>(x: T, f: T -> real)
    ensures Sum([x], f) == f(x)
  {
    assert [x][..0] == [];
  }

  /** The sum of a pointwise sum is the sum of the two sums. */
  lemma {:induction false} SumPlus<T>(xs: seq<T>, f: T -> real, g: T -> real, h: T -> real)
    requires forall k :: 0 <= k < |xs| ==> h(xs[k]) == f(xs[k]) + g(xs[k])
    ensures Sum(xs, h) == Sum(xs, f) + Sum(xs, g)
  {
    if xs != [] {
      SumPlus(xs[..|xs| - 1], f, g, h);
    }
  }

  /** `f` where `p` holds and 0 elsewhere. */
  function Gated<T>(p: T -> bool, f: T -> real): T -> real
  {
    x => if p(x) then f(x) else 0.0
  }

  /** Summing the filtered elements is summing every element with the others counted as 0. */
  lemma {:induction false} SumFilter<T>(xs: seq<T>, p: T -> bool, f: T -> real)
    ensures Sum(Filter(xs, p), f) == Sum(xs, Gated(p, f))
  {
    if xs != [] {
      var n := |xs| - 1;
      SumFilter(xs[..n], p, f);
      if p(xs[n]) {
        SumConcat(Filter(xs[..n], p), [xs[n]], f);
        SumSingleton(xs[n], f);
      }
    }
  }

  /** Two summands that agree on every element give the same sum. */
  lemma {:induction false} SumCongruent<T>(xs: seq<T>, f: T -> real, g: T -> real)
    requires forall k :: 0 <= k < |xs| ==> f(xs[k]) == g(xs[k])
    ensures Sum(xs, f) == Sum(xs, g)
  {
    if xs != [] {
      SumCongruent(xs[..|xs| - 1], f, g);
    }
  }

  /** Sequences whose elements contribute the same amounts, place by place, have the same sum. */
  lemma {:induction false} SumPointwise<T, U>(xs: seq<T>, f: T -> real, ys: seq<U>, g: U -> real)
    requires |xs| == |ys|
    requires forall k :: 0 <= k < |xs| ==> f(xs[k]) == g(ys[k])
    ensures Sum(xs, f) == Sum(ys, g)
  {
    if xs != [] {
      var n := |xs| - 1;
      SumPointwise(xs[..n], f, ys[..n], g);
    }
  }

  /** The sum does not depend on the order of the elements. */
  lemma {:induction false} SumPermutation<T>(a: seq<T>, b: seq<T>, f: T -> real)
    requires multiset(a) == multiset(b)
    ensures Sum(a, f) == Sum(b, f)
    decreases |a|
  {
    if a == [] {
      assert |b| == |multiset(b)| == 0;
    } else {
      var n := |a| - 1;
      var x := a[n];
      assert a == a[..n] + [x];
      assert x in multiset(b);
      var i :| 0 <= i < |b| && b[i] == x;
      assert b == b[..i] + [x] + b[i + 1..];
      var rest := b[..i] + b[i + 1..];
      assert multiset(rest) == multiset(b) - multiset{x};
      assert multiset(a[..n]) == multiset(a) - multiset{x};
      SumPermutation(a[..n], rest, f);
      SumConcat(b[..i] + [x], b[i + 1..], f);
      SumConcat(b[..i], [x], f);
      SumConcat(b[..i], b[i + 1..], f);
      SumSingleton(x, f);
    }
  }

  predicate NoDuplicates<T(==)>(xs: seq<T>)
  {
    forall i, j :: 0 <= i < j < |xs| ==> xs[i] != xs[j]
  }

  /** Index of the first occurrence of `x` in `xs`. */
  function FirstIndex<T(==)>(xs: seq<T>, x: T): (i: nat)
    requires x in xs
    ensures i < |xs| && xs[i] == x && x !in xs[..i]
  {
    if xs[0] == x then 0
    else
      var i := FirstIndex(xs[1..], x);
      assert xs[..i + 1] == [xs[0]] + xs[1..][..i];
      i + 1
  }

  /** `Array.from(new Set(xs))`: each value once, in first-appearance order. */
  function Distinct<T(==)>(xs: seq<T>): (r: seq<T>)
    ensures NoDuplicates(r)
    ensures forall k :: 0 <= k < |r| ==> r[k] in xs
    ensures forall k :: 0 <= k < |xs| ==> xs[k] in r
    ensures |r| <= |xs|
  {
    if xs == [] then []
    else
      var init := xs[..|xs| - 1];
      assert xs == init + [xs[|xs| - 1]];
      var d := Distinct(init);
      if xs[|xs| - 1] in d then d else d + [xs[|xs| - 1]]
  }

  /** Appending a value adds it to the distinct values when it is new. */
  lemma DistinctSnoc<T>(xs: seq<T>, x: T)
    ensures Distinct(xs + [x]) == if x in xs then Distinct(xs) else Distinct(xs) + [x]
  {
    assert (xs + [x])[..|xs|] == xs;
  }

  /** The values of `Distinct(xs)` come in the order of their first appearance in `xs`. */
  lemma {:induction false} DistinctFirstAppearance<T>(xs: seq<T>, i: nat, j: nat)
    requires i < j < |Distinct(xs)|
    ensures FirstIndex(xs, Distinct(xs)[i]) < FirstIndex(xs, Distinct(xs)[j])
  {
    var init := xs[..|xs| - 1];
    var last := xs[|xs| - 1];
    assert xs == init + [last];
    var d := Distinct(init);
    var a, b := Distinct(xs)[i], Distinct(xs)[j];
    FirstIndexPrefix(init, last, a);
    if last in d {
      DistinctFirstAppearance(init, i, j);
      FirstIndexPrefix(init, last, b);
    } else if j < |d| {
      DistinctFirstAppearance(init, i, j);
      FirstIndexPrefix(init, last, b);
    } else {
      assert b == last && b !in init;
      assert FirstIndex(xs, b) == |init|;
    }
  }

  lemma FirstIndexPrefix<T>(init: seq<T>, last: T, x: T)
    requires x in init
    ensures FirstIndex(init + [last], x) == FirstIndex(init, x)
  {
    var xs := init + [last];
    var i := FirstIndex(init, x);
    var k := FirstIndex(xs, x);
    assert xs[..i] == init[..i];
    assert xs[i] == x;
    assert forall m :: 0 <= m < i ==> xs[m] == init[..i][m] != x;
    assert forall m :: 0 <= m < k ==> xs[m] == xs[..k][m] != x;
  }
}
