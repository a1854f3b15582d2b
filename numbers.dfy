/** Python numeric behaviour the scripts depend on: `int()` of a float
    truncates toward zero, and running sums and means over hit values. */
module Numbers {

  /** `int(x)` for a float `x`: the integer part, rounded toward zero. */
  function Trunc(x: real): (r: int)
    ensures x >= 0.0 ==> r >= 0 && r as real <= x < r as real + 1.0
    ensures x < 0.0 ==> r <= 0 && r as real - 1.0 < x <= r as real
  {
    if x >= 0.0 then x.Floor else -((-x).Floor)
  }

  /** Truncation keeps the order of its arguments. */
  lemma {:induction false} TruncMonotone(x: real, y: real)
    requires x <= y
    ensures Trunc(x) <= Trunc(y)
  {
  }

  /** Truncating a whole number gives it back. */
  lemma {:induction false} TruncWhole(n: int)
    ensures Trunc(n as real) == n
  {
  }

  /** Truncation differs from Dafny's floor on negative fractions: -0.5 becomes 0. */
  lemma {:induction false} TruncTowardZero()
    ensures Trunc(-0.5) == 0 && (-0.5).Floor == -1
  {
  }

  /** A part of a positive whole, in percent, is at most 100 exactly when the part is at most the whole. */
  lemma {:induction false} PercentAtMostHundred(part: real, whole: real)
    requires whole > 0.0
    ensures part / whole * 100.0 <= 100.0 <==> part <= whole
  {
    var q := part / whole;
    assert q * whole == part;
    assert (q - 1.0) * whole == part - whole;
    if q <= 1.0 {
      assert (1.0 - q) * whole >= 0.0;
    } else {
      assert (q - 1.0) * whole > 0.0;
    }
  }

  /** Left-to-right sum, the order in which the scripts accumulate. */
  function Sum(xs: seq<real>): real
  {
    if xs == [] then 0.0 else Sum(xs[..|xs| - 1]) + xs[|xs| - 1]
  }

  /** `sum / count`, or 0.0 when there is nothing to average. */
  function Mean(xs: seq<real>): real
  {
    if |xs| == 0 then 0.0 else Sum(xs) / |xs| as real
  }

  /** A sum of values in [lo, hi] lies between n*lo and n*hi. */
  lemma {:induction false} SumBounds(xs: seq<real>, lo: real, hi: real)
    requires forall i :: 0 <= i < |xs| ==> lo <= xs[i] <= hi
    ensures |xs| as real * lo <= Sum(xs) <= |xs| as real * hi
  {
    if xs != [] {
      SumBounds(xs[..|xs| - 1], lo, hi);
    }
  }

  /** The mean of values in [lo, hi] lies in [lo, hi]. */
  lemma {:induction false} MeanBounds(xs: seq<real>, lo: real, hi: real)
    requires |xs| > 0
    requires forall i :: 0 <= i < |xs| ==> lo <= xs[i] <= hi
    ensures lo <= Mean(xs) <= hi
  {
    SumBounds(xs, lo, hi);
    var n := |xs| as real;
    assert Mean(xs) * n == Sum(xs);
  }

  /** Means of equally many values add up as their sums do. */
  lemma {:induction false} MeanAdds(xs: seq<real>, ys: seq<real>, zs: seq<real>)
    requires |xs| == |ys| == |zs|
    requires Sum(zs) == Sum(xs) + Sum(ys)
    ensures Mean(zs) == Mean(xs) + Mean(ys)
  {
    if zs != [] {
      var n := |zs| as real;
      assert (Sum(xs) + Sum(ys)) / n == Sum(xs) / n + Sum(ys) / n;
    }
  }

  /** The mean of values at least zero is at least zero. */
  lemma {:induction false} MeanNonNegative(xs: seq<real>)
    requires forall i :: 0 <= i < |xs| ==> 0.0 <= xs[i]
    ensures 0.0 <= Mean(xs)
  {
    SumNonNegative(xs);
    if |xs| > 0 {
      var s, n := Sum(xs), |xs| as real;
      assert 0.0 <= s / n;
    }
  }

  /** The sum of non-negative values is non-negative. */
  lemma {:induction false} SumNonNegative(xs: seq<real>)
    requires forall i :: 0 <= i < |xs| ==> 0.0 <= xs[i]
    ensures 0.0 <= Sum(xs)
  {
    if xs != [] {
      SumNonNegative(xs[..|xs| - 1]);
    }
  }

  /** Sum distributes over concatenation. */
  lemma {:induction false} SumAppend(xs: seq<real>, ys: seq<real>)
    ensures Sum(xs + ys) == Sum(xs) + Sum(ys)
    decreases |ys|
  {
    if ys == [] {
      assert xs + ys == xs;
    } else {
      assert (xs + ys)[..|xs + ys| - 1] == xs + ys[..|ys| - 1];
      SumAppend(xs, ys[..|ys| - 1]);
    }
  }

  /** Front view of the sum: the first value plus the sum of the rest. */
  lemma {:induction false} SumFront(xs: seq<real>)
    requires xs != []
    ensures Sum(xs) == xs[0] + Sum(xs[1..])
  {
    SumAppend([xs[0]], xs[1..]);
    assert [xs[0]] + xs[1..] == xs;
  }
}
