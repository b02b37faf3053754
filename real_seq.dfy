/** Left folds over sequences of reals, as `Array.prototype.reduce` and
    `Math.max(...xs)` compute them, and the bounds the fusion rules rely on. */
module RealSeq {

  /** `xs.reduce((sum, x) => sum + x, 0)`. */
  function Sum(xs: seq<real>): real {
    if |xs| == 0 then 0.0 else Sum(xs[..|xs| - 1]) + xs[|xs| - 1]
  }

  /** `xs.reduce((sum, x, i) => sum + x * ws[i], 0)`. */
  function WeightedSum(xs: seq<real>, ws: seq<real>): real
    requires |xs| == |ws|
  {
    if |xs| == 0 then 0.0
    else WeightedSum(xs[..|xs| - 1], ws[..|ws| - 1]) + xs[|xs| - 1] * ws[|ws| - 1]
  }

  function Max2(a: real, b: real): real { if a >= b then a else b }
  function Min2(a: real, b: real): real { if a <= b then a else b }

  /** `Math.max(...xs)` for a non-empty list. */
  function Max(xs: seq<real>): real
    requires |xs| > 0
  {
    if |xs| == 1 then xs[0] else Max2(Max(xs[..|xs| - 1]), xs[|xs| - 1])
  }

  function Min(xs: seq<real>): real
    requires |xs| > 0
  {
    if |xs| == 1 then xs[0] else Min2(Min(xs[..|xs| - 1]), xs[|xs| - 1])
  }

  /** The maximum is an element of the list and no element exceeds it. */
  lemma {:induction false} MaxIsLargestElement(xs: seq<real>)
    requires |xs| > 0
    ensures Max(xs) in xs
    ensures forall k :: 0 <= k < |xs| ==> xs[k] <= Max(xs)
  {
    if |xs| > 1 {
      var init := xs[..|xs| - 1];
      MaxIsLargestElement(init);
      assert forall k :: 0 <= k < |xs| - 1 ==> xs[k] == init[k];
    }
  }

  /** The minimum is an element of the list and no element is below it. */
  lemma {:induction false} MinIsSmallestElement(xs: seq<real>)
    requires |xs| > 0
    ensures Min(xs) in xs
    ensures forall k :: 0 <= k < |xs| ==> Min(xs) <= xs[k]
  {
    if |xs| > 1 {
      var init := xs[..|xs| - 1];
      MinIsSmallestElement(init);
      assert forall k :: 0 <= k < |xs| - 1 ==> xs[k] == init[k];
    }
  }

  /** If every element lies in [lo, hi], the sum lies in [n*lo, n*hi]. */
  lemma {:induction false} SumBounds(xs: seq<real>, lo: real, hi: real)
    requires forall k :: 0 <= k < |xs| ==> lo <= xs[k] <= hi
    ensures (|xs| as real) * lo <= Sum(xs) <= (|xs| as real) * hi
  {
    if |xs| > 0 {
      var n := |xs|;
      SumBounds(xs[..n - 1], lo, hi);
      assert (n as real) * lo == ((n - 1) as real) * lo + lo;
      assert (n as real) * hi == ((n - 1) as real) * hi + hi;
    }
  }

  /** With non-negative weights and every value in [lo, hi], the weighted
      sum lies between lo and hi times the total weight. */
  lemma {:induction false} WeightedSumBounds(xs: seq<real>, ws: seq<real>, lo: real, hi: real)
    requires |xs| == |ws|
    requires forall k :: 0 <= k < |ws| ==> ws[k] >= 0.0
    requires forall k :: 0 <= k < |xs| ==> lo <= xs[k] <= hi
    ensures lo * Sum(ws) <= WeightedSum(xs, ws) <= hi * Sum(ws)
  {
    if |xs| > 0 {
      var n := |xs|;
      WeightedSumBounds(xs[..n - 1], ws[..n - 1], lo, hi);
      var x, w := xs[n - 1], ws[n - 1];
      assert (x - lo) * w >= 0.0;
      assert (hi - x) * w >= 0.0;
    }
  }

  /** Every weight is non-negative, so the total is too; it is zero only
      when every weight is. */
  lemma {:induction false} SumOfNonNegatives(ws: seq<real>)
    requires forall k :: 0 <= k < |ws| ==> ws[k] >= 0.0
    ensures Sum(ws) >= 0.0
    ensures Sum(ws) == 0.0 ==> forall k :: 0 <= k < |ws| ==> ws[k] == 0.0
  {
    if |ws| > 0 {
      var n := |ws|;
      SumOfNonNegatives(ws[..n - 1]);
      assert forall k :: 0 <= k < n - 1 ==> ws[k] == ws[..n - 1][k];
    }
  }

  /** With one weight `w` repeated, the weighted sum is `w` times the plain
      sum and the total weight is `n * w`. */
  lemma {:induction false} UniformWeights(xs: seq<real>, ws: seq<real>, w: real)
    requires |xs| == |ws|
    requires forall k :: 0 <= k < |ws| ==> ws[k] == w
    ensures WeightedSum(xs, ws) == w * Sum(xs)
    ensures Sum(ws) == (|ws| as real) * w
  {
    if |xs| > 0 {
      var n := |xs|;
      UniformWeights(xs[..n - 1], ws[..n - 1], w);
      assert (n as real) * w == ((n - 1) as real) * w + w;
    }
  }

  /** a / b >= c exactly when a >= b * c, for b > 0 (and likewise for <=). */
  lemma DivisionBounds(a: real, b: real, c: real)
    requires b > 0.0
    ensures a >= b * c ==> a / b >= c
    ensures a <= b * c ==> a / b <= c
  {
    assert (a / b) * b == a;
    if a >= b * c {
      assert (a / b) * b >= c * b;
    }
    if a <= b * c {
      assert (a / b) * b <= c * b;
    }
  }

  /** A common positive factor cancels: (w * a) / (n * w) == a / n. */
  lemma CancelFactor(a: real, n: real, w: real)
    requires n > 0.0 && w > 0.0
    ensures (w * a) / (n * w) == a / n
  {
    assert (w * a) / (n * w) * (n * w) == w * a;
    assert (a / n) * (n * w) == w * a;
  }

  /** A ratio a / b with b > 0 lies in [lo, hi] when a lies in [lo * b, hi * b]. */
  lemma RatioBetween(a: real, b: real, lo: real, hi: real)
    requires b > 0.0
    requires lo * b <= a <= hi * b
    ensures lo <= a / b <= hi
  {
    DivisionBounds(a, b, lo);
    DivisionBounds(a, b, hi);
  }

  /** The mean of a non-empty list lies between its minimum and maximum. */
  lemma {:induction false} MeanWithinRange(xs: seq<real>)
    requires |xs| > 0
    ensures Min(xs) <= Sum(xs) / (|xs| as real) <= Max(xs)
  {
    MinIsSmallestElement(xs);
    MaxIsLargestElement(xs);
    SumBounds(xs, Min(xs), Max(xs));
    RatioBetween(Sum(xs), |xs| as real, Min(xs), Max(xs));
  }

  /** A weighted mean with non-negative weights of positive total lies in
      any range that holds every value. */
  lemma {:induction false} WeightedMeanBetween(xs: seq<real>, ws: seq<real>, lo: real, hi: real)
    requires |xs| == |ws|
    requires forall k :: 0 <= k < |ws| ==> ws[k] >= 0.0
    requires forall k :: 0 <= k < |xs| ==> lo <= xs[k] <= hi
    requires Sum(ws) > 0.0
    ensures lo <= WeightedSum(xs, ws) / Sum(ws) <= hi
  {
    WeightedSumBounds(xs, ws, lo, hi);
    RatioBetween(WeightedSum(xs, ws), Sum(ws), lo, hi);
  }

  /** In particular it lies between the minimum and the maximum value. */
  lemma {:induction false} WeightedMeanWithinRange(xs: seq<real>, ws: seq<real>)
    requires |xs| == |ws| && |xs| > 0
    requires forall k :: 0 <= k < |ws| ==> ws[k] >= 0.0
    requires Sum(ws) > 0.0
    ensures Min(xs) <= WeightedSum(xs, ws) / Sum(ws) <= Max(xs)
  {
    MinIsSmallestElement(xs);
    MaxIsLargestElement(xs);
    WeightedMeanBetween(xs, ws, Min(xs), Max(xs));
  }
}
