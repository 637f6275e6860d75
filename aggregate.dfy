/** Order-independent summaries used by the statistics blocks: sum, extremes
    and mean of a numeric column, distinct-value counts and per-value
    histograms (`value_counts`, or a dictionary of counters). */
module Aggregate {

  function Sum(xs: seq<real>): real
    decreases |xs|
  {
    if xs == [] then 0.0 else Sum(xs[..|xs| - 1]) + xs[|xs| - 1]
  }

  /** Python's `max(xs)`: an element of `xs` that no element exceeds. */
  function Max(xs: seq<real>): (m: real)
    requires |xs| > 0
    ensures exists i :: 0 <= i < |xs| && xs[i] == m
    ensures forall i :: 0 <= i < |xs| ==> xs[i] <= m
    decreases |xs|
  {
    if |xs| == 1 then xs[0]
    else
      var p := Max(xs[..|xs| - 1]);
      if xs[|xs| - 1] > p then xs[|xs| - 1] else p
  }

  /** Python's `min(xs)`: an element of `xs` that exceeds no element. */
  function Min(xs: seq<real>): (m: real)
    requires |xs| > 0
    ensures exists i :: 0 <= i < |xs| && xs[i] == m
    ensures forall i :: 0 <= i < |xs| ==> m <= xs[i]
    decreases |xs|
  {
    if |xs| == 1 then xs[0]
    else
      var p := Min(xs[..|xs| - 1]);
      if xs[|xs| - 1] < p then xs[|xs| - 1] else p
  }

  /** `sum(xs) / len(xs)` (before any rounding). */
  function Mean(xs: seq<real>): real
    requires |xs| > 0
  {
    Sum(xs) / (|xs| as real)
  }

  /** `n` copies of `x` added up; keeps the bounds below free of products. */
  function Times(n: nat, x: real): real {
    if n == 0 then 0.0 else Times(n - 1, x) + x
  }

  lemma {:induction false} TimesIsProduct(n: nat, x: real)
    ensures Times(n, x) == (n as real) * x
  {
    if n > 0 {
      TimesIsProduct(n - 1, x);
    }
  }

  lemma {:induction false} SumAtLeast(xs: seq<real>, lo: real)
    requires forall i :: 0 <= i < |xs| ==> lo <= xs[i]
    ensures Times(|xs|, lo) <= Sum(xs)
    decreases |xs|
  {
    if xs != [] {
      SumAtLeast(xs[..|xs| - 1], lo);
    }
  }

  lemma {:induction false} SumAtMost(xs: seq<real>, hi: real)
    requires forall i :: 0 <= i < |xs| ==> xs[i] <= hi
    ensures Sum(xs) <= Times(|xs|, hi)
    decreases |xs|
  {
    if xs != [] {
      SumAtMost(xs[..|xs| - 1], hi);
    }
  }

  lemma DivideBounds(total: real, n: nat, lo: real, hi: real)
    requires n > 0 && Times(n, lo) <= total <= Times(n, hi)
    ensures lo <= total / (n as real) <= hi
  {
    TimesIsProduct(n, lo);
    TimesIsProduct(n, hi);
    assert (total / (n as real)) * (n as real) == total;
  }

  /** The mean of a non-empty column lies between its minimum and its maximum. */
  lemma MeanBetweenMinAndMax(xs: seq<real>)
    requires |xs| > 0
    ensures Min(xs) <= Mean(xs) <= Max(xs)
  {
    SumAtLeast(xs, Min(xs));
    SumAtMost(xs, Max(xs));
    DivideBounds(Sum(xs), |xs|, Min(xs), Max(xs));
  }

  /** How many times `k` occurs in `xs`. */
  function Count<T(==)>(xs: seq<T>, k: T): (c: nat)
    ensures c > 0 <==> k in xs
    ensures c <= |xs|
    decreases |xs|
  {
    if xs == [] then 0
    else
      assert xs == xs[..|xs| - 1] + [xs[|xs| - 1]];
      Count(xs[..|xs| - 1], k) + (if xs[|xs| - 1] == k then 1 else 0)
  }

  /** The counters built by `counts[x] += 1` (or `= 1` on first sight) over `xs`,
      which is also what pandas' `value_counts()` gives for a column of strings. */
  function Histogram(xs: seq<string>): (h: map<string, nat>)
    ensures forall k :: k in h <==> k in xs
    ensures forall k :: k in h ==> h[k] == Count(xs, k)
    decreases |xs|
  {
    if xs == [] then map[]
    else
      var h := Histogram(xs[..|xs| - 1]);
      var x := xs[|xs| - 1];
      assert xs == xs[..|xs| - 1] + [x];
      h[x := if x in h then h[x] + 1 else 1]
  }

  predicate NoDuplicates<T(==)>(s: seq<T>) {
    forall i, j :: 0 <= i < j < |s| ==> s[i] != s[j]
  }

  /** The sum of the counters named by `keys`. */
  function SumOver(h: map<string, nat>, keys: seq<string>): nat
    requires forall k :: k in keys ==> k in h
    decreases |keys|
  {
    if keys == [] then 0
    else
      assert keys[|keys| - 1] in keys;
      SumOver(h, keys[..|keys| - 1]) + h[keys[|keys| - 1]]
  }

  /** The sum of `Count(xs, k)` over `keys`. */
  function CountsOver(xs: seq<string>, keys: seq<string>): nat
    decreases |keys|
  {
    if keys == [] then 0 else CountsOver(xs, keys[..|keys| - 1]) + Count(xs, keys[|keys| - 1])
  }

  lemma {:induction false} CountsOverAppend(xs: seq<string>, x: string, keys: seq<string>)
    ensures CountsOver(xs + [x], keys) == CountsOver(xs, keys) + Count(keys, x)
    decreases |keys|
  {
    if keys != [] {
      var ys := xs + [x];
      assert ys[..|ys| - 1] == xs;
      CountsOverAppend(xs, x, keys[..|keys| - 1]);
    }
  }

  lemma {:induction false} CountOfUnique(keys: seq<string>, x: string)
    requires NoDuplicates(keys) && x in keys
    ensures Count(keys, x) == 1
    decreases |keys|
  {
    var p := keys[..|keys| - 1];
    assert keys == p + [keys[|keys| - 1]];
    if keys[|keys| - 1] == x {
      assert x !in p by {
        forall i | 0 <= i < |p| ensures p[i] != x {
          assert keys[i] != keys[|keys| - 1];
        }
      }
    } else {
      CountOfUnique(p, x);
    }
  }

  lemma {:induction false} CountsOverTotal(xs: seq<string>, keys: seq<string>)
    requires NoDuplicates(keys)
    requires forall x :: x in xs ==> x in keys
    ensures CountsOver(xs, keys) == |xs|
    decreases |xs|
  {
    if xs == [] {
      EmptyCounts(keys);
    } else {
      var p := xs[..|xs| - 1];
      var x := xs[|xs| - 1];
      assert xs == p + [x];
      CountsOverTotal(p, keys);
      CountsOverAppend(p, x, keys);
      CountOfUnique(keys, x);
    }
  }

  lemma {:induction false} EmptyCounts(keys: seq<string>)
    ensures CountsOver([], keys) == 0
    decreases |keys|
  {
    if keys != [] {
      EmptyCounts(keys[..|keys| - 1]);
    }
  }

  lemma {:induction false} SumOverHistogram(xs: seq<string>, keys: seq<string>)
    requires forall k :: k in keys ==> k in Histogram(xs)
    ensures SumOver(Histogram(xs), keys) == CountsOver(xs, keys)
    decreases |keys|
  {
    if keys != [] {
      SumOverHistogram(xs, keys[..|keys| - 1]);
    }
  }

  /** The counters of a histogram add up to the number of values counted:
      summing over any duplicate-free listing of its keys gives `|xs|`. */
  lemma HistogramTotal(xs: seq<string>, keys: seq<string>)
    requires NoDuplicates(keys)
    requires forall k :: k in keys <==> k in Histogram(xs)
    ensures SumOver(Histogram(xs), keys) == |xs|
  {
    SumOverHistogram(xs, keys);
    CountsOverTotal(xs, keys);
  }

  /** `len(column.unique())`. */
  function DistinctCount<T(==)>(xs: seq<T>): nat {
    |set x | x in xs|
  }

  /** A non-empty column has at least one and at most `|xs|` distinct values. */
  lemma {:induction false} DistinctCountBounds<T>(xs: seq<T>)
    ensures DistinctCount(xs) <= |xs|
    ensures |xs| > 0 ==> DistinctCount(xs) >= 1
    decreases |xs|
  {
    if xs != [] {
      var p := xs[..|xs| - 1];
      var x := xs[|xs| - 1];
      assert xs == p + [x];
      DistinctCountBounds(p);
      assert (set y | y in xs) == (set y | y in p) + {x};
      assert x in (set y | y in xs);
    }
  }
}
