/**
 * Scalar reductions: sums, element means (`torch.mean`, `nn.MSELoss`) and the
 * unweighted average of a list of losses (`np.average`). The mean of an empty
 * collection is NaN in both torch and numpy, so results are `Scalar`s.
 */
module Stats {

  /** A floating-point result seen as either an exact real or NaN. */
  datatype Scalar = Num(value: real) | NaN

  /** Left-to-right sum, as an accumulating loop computes it. */
  function Sum(s: seq<real>): real
    decreases |s|
  {
    if |s| == 0 then 0.0 else Sum(s[..|s| - 1]) + s[|s| - 1]
  }

  /** Mean of the elements; NaN exactly when there are none. */
  function Mean(s: seq<real>): (m: Scalar)
    ensures m.NaN? <==> |s| == 0
    ensures m.Num? ==> m.value * (|s| as real) == Sum(s)
  {
    if |s| == 0 then NaN else Num(Sum(s) / (|s| as real))
  }

  /** Multiplying every element by `k` multiplies the sum by `k`. */
  lemma {:induction false} SumScaled(a: seq<real>, b: seq<real>, k: real)
    requires |a| == |b|
    requires forall i :: 0 <= i < |a| ==> a[i] == k * b[i]
    ensures Sum(a) == k * Sum(b)
    decreases |a|
  {
    if |a| > 0 {
      var n := |a| - 1;
      SumScaled(a[..n], b[..n], k);
    }
  }

  lemma {:induction false} SumNonNegative(a: seq<real>)
    requires forall i :: 0 <= i < |a| ==> a[i] >= 0.0
    ensures Sum(a) >= 0.0
    decreases |a|
  {
    if |a| > 0 {
      SumNonNegative(a[..|a| - 1]);
    }
  }

  lemma {:induction false} SumBounds(a: seq<real>, lo: real, hi: real)
    requires forall i :: 0 <= i < |a| ==> lo <= a[i] <= hi
    ensures (|a| as real) * lo <= Sum(a) <= (|a| as real) * hi
    decreases |a|
  {
    if |a| > 0 {
      var n := |a| - 1;
      SumBounds(a[..n], lo, hi);
      assert Sum(a) == Sum(a[..n]) + a[n];
      assert (|a| as real) * hi == (n as real) * hi + hi;
      assert (|a| as real) * lo == (n as real) * lo + lo;
    }
  }

  /** Scaling a loss value; NaN stays NaN. */
  function Scale(k: real, m: Scalar): Scalar {
    if m.Num? then Num(k * m.value) else NaN
  }

  /** The mean of `k` times each element is `k` times the mean. */
  lemma MeanScaled(a: seq<real>, b: seq<real>, k: real)
    requires |a| == |b|
    requires forall i :: 0 <= i < |a| ==> a[i] == k * b[i]
    ensures Mean(a) == Scale(k, Mean(b))
  {
    if |a| > 0 {
      SumScaled(a, b, k);
      var n := |a| as real;
      calc {
        Sum(a) / n;
        (k * Sum(b)) / n;
        k * (Sum(b) / n);
      }
    }
  }

  /** The values of a list of losses none of which is NaN. */
  function Values(ls: seq<Scalar>): (vs: seq<real>)
    requires forall i :: 0 <= i < |ls| ==> ls[i].Num?
    ensures |vs| == |ls| && forall i :: 0 <= i < |ls| ==> vs[i] == ls[i].value
  {
    seq(|ls|, i requires 0 <= i < |ls| => ls[i].value)
  }

  /** `np.average` of a list of scalar losses: the unweighted mean, NaN when the
      list is empty (mean of an empty slice) or when any entry is NaN. */
  function Average(ls: seq<Scalar>): (m: Scalar)
    ensures m.Num? <==> |ls| > 0 && forall i :: 0 <= i < |ls| ==> ls[i].Num?
  {
    if |ls| > 0 && forall i :: 0 <= i < |ls| ==> ls[i].Num? then Mean(Values(ls)) else NaN
  }

  /** The average lies between the smallest and the largest loss. */
  lemma AverageWithin(ls: seq<Scalar>, lo: real, hi: real)
    requires |ls| > 0
    requires forall i :: 0 <= i < |ls| ==> ls[i].Num? && lo <= ls[i].value <= hi
    ensures Average(ls).Num? && lo <= Average(ls).value <= hi
  {
    var vs := Values(ls);
    SumBounds(vs, lo, hi);
    var n := |vs| as real;
    assert Average(ls) == Mean(vs);
    var m := Mean(vs).value;
    assert m * n == Sum(vs);
    MulOrder(lo, m, n);
    MulOrder(m, hi, n);
  }

  /** Multiplying by a positive factor keeps the order. */
  lemma MulOrder(a: real, b: real, n: real)
    requires n > 0.0
    ensures a <= b <==> a * n <= b * n
  {
    if a < b { PositiveProduct(b - a, n); }
    if b < a { PositiveProduct(a - b, n); }
  }

  lemma PositiveProduct(x: real, y: real)
    requires x > 0.0 && y > 0.0
    ensures x * y > 0.0
  {
  }

  /** Averaging a single loss returns that loss. */
  lemma AverageSingleton(l: Scalar)
    ensures Average([l]) == l
  {
    if l.Num? {
      assert Values([l]) == [l.value];
      assert Sum([l.value]) == Sum([]) + l.value;
    }
  }
}
