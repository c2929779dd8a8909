/**
 * Sequence arithmetic shared by the models: sums, means, population
 * variance, Python-style suffix slices and counting.
 */
module Seqs {

  /** A count out of a positive total is a share between 0 and 1, zero only for a zero count. */
  lemma RatioInUnit(n: nat, d: nat)
    requires 0 < d && n <= d
    ensures 0.0 <= (n as real) / (d as real) <= 1.0
    ensures (n as real) / (d as real) == 0.0 <==> n == 0
    ensures (n as real) / (d as real) == 1.0 <==> n == d
  {
    if (n as real) / (d as real) == 1.0 {
      assert (n as real) == ((n as real) / (d as real)) * (d as real);
    }
  }

  /** Python's `sum(xs)` over reals. */
  function Sum(xs: seq<real>): real
  {
    if |xs| == 0 then 0.0 else Sum(xs[..|xs| - 1]) + xs[|xs| - 1]
  }

  /** Arithmetic mean of a non-empty sequence. */
  function Mean(xs: seq<real>): real
    requires |xs| > 0
  {
    Sum(xs) / (|xs| as real)
  }

  /** Sum of squared deviations from `m`. */
  function SquaredDeviations(xs: seq<real>, m: real): real
  {
    if |xs| == 0 then 0.0
    else SquaredDeviations(xs[..|xs| - 1], m) + (xs[|xs| - 1] - m) * (xs[|xs| - 1] - m)
  }

  /** Population variance, as numpy's `var` with its default `ddof = 0`. */
  function Variance(xs: seq<real>): real
    requires |xs| > 0
  {
    SquaredDeviations(xs, Mean(xs)) / (|xs| as real)
  }

  lemma {:induction false} SumAppend(xs: seq<real>, x: real)
    ensures Sum(xs + [x]) == Sum(xs) + x
  {
    assert (xs + [x])[..|xs|] == xs;
  }

  lemma {:induction false} SumBounds(xs: seq<real>, lo: real, hi: real)
    requires forall i :: 0 <= i < |xs| ==> lo <= xs[i] <= hi
    ensures (|xs| as real) * lo <= Sum(xs) <= (|xs| as real) * hi
  {
    if |xs| > 0 {
      SumBounds(xs[..|xs| - 1], lo, hi);
    }
  }

  lemma {:induction false} SquaredDeviationsNonNegative(xs: seq<real>, m: real)
    ensures SquaredDeviations(xs, m) >= 0.0
  {
    if |xs| > 0 {
      SquaredDeviationsNonNegative(xs[..|xs| - 1], m);
      var d := xs[|xs| - 1] - m;
      if d < 0.0 {
        assert d * d == (-d) * (-d);
      }
    }
  }

  /** The mean of values that all lie in [lo, hi] lies in [lo, hi]. */
  lemma MeanBounds(xs: seq<real>, lo: real, hi: real)
    requires |xs| > 0
    requires forall i :: 0 <= i < |xs| ==> lo <= xs[i] <= hi
    ensures lo <= Mean(xs) <= hi
  {
    SumBounds(xs, lo, hi);
  }

  lemma VarianceNonNegative(xs: seq<real>)
    requires |xs| > 0
    ensures Variance(xs) >= 0.0
  {
    SquaredDeviationsNonNegative(xs, Mean(xs));
  }

  lemma {:induction false} SumConstant(xs: seq<real>, c: real)
    requires forall i :: 0 <= i < |xs| ==> xs[i] == c
    ensures Sum(xs) == (|xs| as real) * c
  {
    if |xs| > 0 {
      SumConstant(xs[..|xs| - 1], c);
    }
  }

  /** The mean of values that all equal `c` is `c`. */
  lemma MeanConstant(xs: seq<real>, c: real)
    requires |xs| > 0
    requires forall i :: 0 <= i < |xs| ==> xs[i] == c
    ensures Mean(xs) == c
  {
    SumConstant(xs, c);
  }

  lemma {:induction false} SquaredDeviationsZero(xs: seq<real>, m: real)
    requires forall i :: 0 <= i < |xs| ==> xs[i] == m
    ensures SquaredDeviations(xs, m) == 0.0
  {
    if |xs| > 0 {
      SquaredDeviationsZero(xs[..|xs| - 1], m);
    }
  }

  /** Values that are all equal have zero variance. */
  lemma ConstantVarianceZero(xs: seq<real>)
    requires |xs| > 0
    requires forall i :: 0 <= i < |xs| ==> xs[i] == xs[0]
    ensures Variance(xs) == 0.0
  {
    SumConstant(xs, xs[0]);
    assert Mean(xs) == xs[0];
    SquaredDeviationsZero(xs, Mean(xs));
  }

  /** Python's `xs[-n:]`: the last `n` elements, or all of them when fewer. */
  function LastN<T>(xs: seq<T>, n: nat): seq<T>
  {
    if |xs| <= n then xs else xs[|xs| - n..]
  }

  /** One history after appending: over `limit` entries it keeps only the last `keep`. */
  function Bounded<T>(xs: seq<T>, limit: nat, keep: nat): (r: seq<T>)
    requires 0 < keep <= limit
    ensures |r| <= limit
    ensures |xs| <= limit ==> r == xs
    ensures |xs| > limit ==> r == xs[|xs| - keep..]
  {
    if |xs| > limit then xs[|xs| - keep..] else xs
  }

  /** The trimming step on a history just appended to. */
  method Trimmed<T>(xs: seq<T>, limit: nat, keep: nat) returns (r: seq<T>)
    requires 0 < keep <= limit
    ensures r == Bounded(xs, limit, keep)
  {
    r := xs;
    if |r| > limit {
      r := r[|r| - keep..];
    }
  }

  /** Python's `xs[:n]`: the first `n` elements, or all of them when fewer. */
  function FirstN<T>(xs: seq<T>, n: nat): seq<T>
  {
    if |xs| <= n then xs else xs[..n]
  }

  /** How many of `bs` are true. */
  function CountTrue(bs: seq<bool>): nat
  {
    if |bs| == 0 then 0 else CountTrue(bs[..|bs| - 1]) + (if bs[|bs| - 1] then 1 else 0)
  }

  lemma {:induction false} CountTrueBound(bs: seq<bool>)
    ensures CountTrue(bs) <= |bs|
  {
    if |bs| > 0 {
      CountTrueBound(bs[..|bs| - 1]);
    }
  }

  lemma {:induction false} CountTrueAppend(bs: seq<bool>, b: bool)
    ensures CountTrue(bs + [b]) == CountTrue(bs) + (if b then 1 else 0)
  {
    assert (bs + [b])[..|bs|] == bs;
  }

  lemma {:induction false} CountTrueAll(bs: seq<bool>)
    requires forall i :: 0 <= i < |bs| ==> bs[i]
    ensures CountTrue(bs) == |bs|
  {
    if |bs| > 0 {
      CountTrueAll(bs[..|bs| - 1]);
    }
  }

  /** Turning false entries true never lowers the count. */
  lemma {:induction false} CountTrueMonotone(a: seq<bool>, b: seq<bool>)
    requires |a| == |b| && forall i :: 0 <= i < |a| ==> a[i] ==> b[i]
    ensures CountTrue(a) <= CountTrue(b)
  {
    if |a| > 0 {
      CountTrueMonotone(a[..|a| - 1], b[..|b| - 1]);
    }
  }

  /** `sum(bs) / len(bs)`: the fraction of true values in a non-empty sequence. */
  function Fraction(bs: seq<bool>): (r: real)
    requires |bs| > 0
    ensures 0.0 <= r <= 1.0
  {
    CountTrueBound(bs);
    (CountTrue(bs) as real) / (|bs| as real)
  }

  lemma FractionAllTrue(bs: seq<bool>)
    requires |bs| > 0
    requires forall i :: 0 <= i < |bs| ==> bs[i]
    ensures Fraction(bs) == 1.0
  {
    CountTrueAll(bs);
  }

  /**
   * `k` is where a left-to-right scan that replaces its best only on a
   * strictly greater value ends: a maximum, and the first one.
   */
  predicate IsFirstMax(xs: seq<real>, k: int)
  {
    0 <= k < |xs|
    && (forall j :: 0 <= j < |xs| ==> xs[j] <= xs[k])
    && (forall j :: 0 <= j < k ==> xs[j] < xs[k])
  }

  /** The same, for a minimum (Python's `min` with a key keeps the first minimal element). */
  predicate IsFirstMin(xs: seq<real>, k: int)
  {
    0 <= k < |xs|
    && (forall j :: 0 <= j < |xs| ==> xs[k] <= xs[j])
    && (forall j :: 0 <= j < k ==> xs[k] < xs[j])
  }

  /** `xs` without its occurrences of `x` (Python `list.remove` on a list without duplicates). */
  function Without<T(==,!new)>(xs: seq<T>, x: T): (r: seq<T>)
    ensures forall y :: y in r <==> y in xs && y != x
    ensures |r| <= |xs|
  {
    if |xs| == 0 then []
    else if xs[0] == x then Without(xs[1..], x)
    else [xs[0]] + Without(xs[1..], x)
  }

  /** `xs.index(x)`: the first position holding `x`. */
  function IndexOf<T(==)>(xs: seq<T>, x: T): (r: nat)
    requires x in xs
    ensures r < |xs| && xs[r] == x
    ensures forall j :: 0 <= j < r ==> xs[j] != x
  {
    if xs[0] == x then 0 else 1 + IndexOf(xs[1..], x)
  }

  /** Removing twice removes no more than removing once. */
  lemma {:induction false} WithoutIdempotent<T(!new)>(xs: seq<T>, x: T)
    ensures Without(Without(xs, x), x) == Without(xs, x)
  {
    if |xs| > 0 {
      WithoutIdempotent(xs[1..], x);
      if xs[0] != x {
        assert ([xs[0]] + Without(xs[1..], x))[1..] == Without(xs[1..], x);
      }
    }
  }

  /** A subset is no larger, a proper subset strictly smaller. */
  lemma SubsetCard<T>(a: set<T>, b: set<T>)
    requires a <= b
    ensures |a| <= |b|
    ensures a < b ==> |a| < |b|
  {
    assert b == a + (b - a);
  }

  /** No element occurs twice. */
  predicate Distinct<T(==)>(xs: seq<T>)
  {
    forall i, j :: 0 <= i < j < |xs| ==> xs[i] != xs[j]
  }

  lemma {:induction false} WithoutDistinct<T(!new)>(xs: seq<T>, x: T)
    requires Distinct(xs)
    ensures Distinct(Without(xs, x))
  {
    if |xs| > 0 {
      WithoutDistinct(xs[1..], x);
      if xs[0] != x {
        assert xs[0] !in Without(xs[1..], x);
      }
    }
  }

  function Min(a: real, b: real): real { if a <= b then a else b }
  function Max(a: real, b: real): real { if a >= b then a else b }

  /** `max(lo, min(hi, x))`. */
  function Clamp(x: real, lo: real, hi: real): (r: real)
    requires lo <= hi
    ensures lo <= r <= hi
    ensures lo <= x <= hi ==> r == x
  {
    Max(lo, Min(hi, x))
  }
}
