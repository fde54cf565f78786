/**
 * The SLA-focused loss: a mean squared error whose per-element weight depends
 * on which latency band the target lies in, with an extra doubling for a
 * severe underprediction of an SLA breach.
 */
module SlaLoss {
  import opened Stats

  /** The constructor arguments of the loss: the breach and "good" thresholds
      (in the model's normalised units) and the three penalties. */
  datatype SlaParams = SlaParams(sla: real, good: real, high: real, low: real, normal: real)

  /** The constructor's default arguments: thresholds 0.200 and 0.100, and
      penalties 15, 8 and 1. The "good" band lies below the breach band, and a
      breach costs more than a good target, which costs more than a normal one. */
  function DefaultParams(): (p: SlaParams)
    ensures 0.0 < p.good < p.sla
    ensures 0.0 < p.normal < p.low < p.high
  {
    SlaParams(0.200, 0.100, 15.0, 8.0, 1.0)
  }

  /** Offset below the breach threshold under which a prediction of a breach
      counts as a severe underprediction; it is not rescaled with the thresholds. */
  const SevereOffset: real := 50.0

  function Square(x: real): (r: real)
    ensures r >= 0.0
  {
    if x >= 0.0 then x * x else (-x) * (-x)
  }

  /** The penalty band of a target: "good" (below the good threshold) takes
      precedence over "breach" (above the SLA threshold); everything else,
      including a target exactly on either threshold, is normal. */
  function Band(p: SlaParams, target: real): real {
    if target < p.good then p.low
    else if target > p.sla then p.high
    else p.normal
  }

  predicate SevereUnderprediction(p: SlaParams, prediction: real, target: real) {
    target > p.sla && prediction < p.sla - SevereOffset
  }

  /** The weight of one element. */
  function Weight(p: SlaParams, prediction: real, target: real): (w: real)
    ensures w == Band(p, target) || w == 2.0 * Band(p, target)
    ensures target <= p.sla ==> w == Band(p, target)
    ensures p.high >= 0.0 && p.low >= 0.0 && p.normal >= 0.0 ==> w >= 0.0
  {
    if SevereUnderprediction(p, prediction, target) then 2.0 * Band(p, target) else Band(p, target)
  }

  function SquaredErrors(predictions: seq<real>, targets: seq<real>): (e: seq<real>)
    requires |predictions| == |targets|
    ensures |e| == |targets|
    ensures forall i :: 0 <= i < |e| ==> e[i] >= 0.0
    ensures forall i :: 0 <= i < |e| ==> predictions[i] == targets[i] ==> e[i] == 0.0
  {
    seq(|targets|, i requires 0 <= i < |targets| => Square(predictions[i] - targets[i]))
  }

  function WeightedErrors(p: SlaParams, predictions: seq<real>, targets: seq<real>): (e: seq<real>)
    requires |predictions| == |targets|
    ensures |e| == |targets|
    ensures forall i :: 0 <= i < |e| ==>
      e[i] == Weight(p, predictions[i], targets[i]) * SquaredErrors(predictions, targets)[i]
  {
    seq(|targets|, i requires 0 <= i < |targets| =>
      Weight(p, predictions[i], targets[i]) * Square(predictions[i] - targets[i]))
  }

  /** `nn.MSELoss()`: the mean of the squared errors. */
  function Mse(predictions: seq<real>, targets: seq<real>): (r: Scalar)
    requires |predictions| == |targets|
    ensures r.NaN? <==> |targets| == 0
    ensures r.Num? ==> r.value >= 0.0
  {
    var e := SquaredErrors(predictions, targets);
    SumNonNegative(e);
    assert |e| > 0 ==> Sum(e) / (|e| as real) >= 0.0;
    Mean(e)
  }

  /** The value the loss's forward pass computes: the mean of the weighted
      squared errors. */
  function Loss(p: SlaParams, predictions: seq<real>, targets: seq<real>): (r: Scalar)
    requires |predictions| == |targets|
    ensures r.NaN? <==> |targets| == 0
  {
    Mean(WeightedErrors(p, predictions, targets))
  }

  /** Elementwise product of two equally long sequences. */
  function Product(a: seq<real>, b: seq<real>): (r: seq<real>)
    requires |a| == |b|
    ensures |r| == |a| && forall i :: 0 <= i < |r| ==> r[i] == a[i] * b[i]
  {
    seq(|a|, i requires 0 <= i < |a| => a[i] * b[i])
  }

  /** The forward pass, written as the source writes it: the squared errors,
      a weight tensor built in place by `PenaltyWeights`, and the mean of
      their elementwise product. Elements are taken in row-major order; the
      loss does not depend on the shape. */
  method Forward(p: SlaParams, predictions: seq<real>, targets: seq<real>) returns (loss: Scalar)
    requires |predictions| == |targets|
    ensures loss == Loss(p, predictions, targets)
  {
    var baseError := SquaredErrors(predictions, targets);
    var weights := PenaltyWeights(p, predictions, targets);
    var weighted := Product(weights, baseError);
    ghost var expected := WeightedErrors(p, predictions, targets);
    forall i | 0 <= i < |weighted| ensures weighted[i] == expected[i] {
      assert weights[i] == Weight(p, predictions[i], targets[i]);
    }
    assert weighted == expected;
    loss := Mean(weighted);
  }

  /** The weight tensor of the forward pass, built by successive in-place
      masked writes: fill with the normal penalty, overwrite breaches, then
      overwrite good targets, then double severe underpredictions. */
  method PenaltyWeights(p: SlaParams, predictions: seq<real>, targets: seq<real>) returns (weights: seq<real>)
    requires |predictions| == |targets|
    ensures |weights| == |targets|
    ensures forall k :: 0 <= k < |targets| ==> weights[k] == Weight(p, predictions[k], targets[k])
  {
    var n := |targets|;
    var w := new real[n](_ => p.normal);
    for i := 0 to n
      invariant forall k :: 0 <= k < n ==>
        w[k] == if k < i && targets[k] > p.sla then p.high else p.normal
    {
      if targets[i] > p.sla {
        w[i] := p.high;
      }
    }
    for i := 0 to n
      invariant forall k :: 0 <= k < n ==>
        w[k] == if k < i && targets[k] < p.good then p.low
                else if targets[k] > p.sla then p.high
                else p.normal
    {
      if targets[i] < p.good {
        w[i] := p.low;
      }
    }
    for i := 0 to n
      invariant forall k :: 0 <= k < n ==>
        w[k] == if k < i then Weight(p, predictions[k], targets[k]) else Band(p, targets[k])
    {
      if targets[i] > p.sla && predictions[i] < p.sla - SevereOffset {
        w[i] := w[i] * 2.0;
      }
    }
    weights := w[..];
  }

  /** The weight table: the band rules, their order, the thresholds themselves
      and the doubling. */
  lemma WeightRules(p: SlaParams, prediction: real, target: real)
    ensures p.good <= target <= p.sla ==> Weight(p, prediction, target) == p.normal
    ensures target < p.good && !(target > p.sla) ==> Weight(p, prediction, target) == p.low
    ensures target < p.good && target > p.sla ==>
      Weight(p, prediction, target) == (if prediction < p.sla - SevereOffset then 2.0 * p.low else p.low)
    ensures target >= p.good && target > p.sla ==>
      Weight(p, prediction, target) == (if prediction < p.sla - SevereOffset then 2.0 * p.high else p.high)
  {
  }

  /** A severe underprediction of a breach weighs exactly twice what the same
      target weighs with a close prediction. */
  lemma EscalationDoubles(p: SlaParams, far: real, close: real, target: real)
    requires target > p.sla && far < p.sla - SevereOffset && close >= p.sla - SevereOffset
    ensures Weight(p, far, target) == 2.0 * Weight(p, close, target)
  {
  }

  /** A perfect prediction has zero loss. */
  lemma LossOfExactPrediction(p: SlaParams, targets: seq<real>)
    requires |targets| > 0
    ensures Loss(p, targets, targets) == Num(0.0)
  {
    var e := WeightedErrors(p, targets, targets);
    MeanScaled(e, e, 0.0);
  }

  /** With non-negative penalties the loss is never negative. */
  lemma LossNonNegative(p: SlaParams, predictions: seq<real>, targets: seq<real>)
    requires |predictions| == |targets| > 0
    requires p.high >= 0.0 && p.low >= 0.0 && p.normal >= 0.0
    ensures Loss(p, predictions, targets).Num? && Loss(p, predictions, targets).value >= 0.0
  {
    var e := WeightedErrors(p, predictions, targets);
    var sq := SquaredErrors(predictions, targets);
    forall i | 0 <= i < |e| ensures e[i] >= 0.0 {
      assert Weight(p, predictions[i], targets[i]) >= 0.0;
      assert sq[i] >= 0.0;
    }
    SumNonNegative(e);
    var n := |e| as real;
    assert Sum(e) / n >= 0.0;
  }

  /** When every element carries the same weight `w`, the loss is `w` times
      the plain mean squared error. */
  lemma LossWithUniformWeight(p: SlaParams, predictions: seq<real>, targets: seq<real>, w: real)
    requires |predictions| == |targets|
    requires forall i :: 0 <= i < |targets| ==> Weight(p, predictions[i], targets[i]) == w
    ensures Loss(p, predictions, targets) == Scale(w, Mse(predictions, targets))
  {
    MeanScaled(WeightedErrors(p, predictions, targets), SquaredErrors(predictions, targets), w);
  }

  /** Targets all below the good threshold: `low_penalty` times the MSE. */
  lemma LossAllGood(p: SlaParams, predictions: seq<real>, targets: seq<real>)
    requires |predictions| == |targets|
    requires p.good <= p.sla
    requires forall i :: 0 <= i < |targets| ==> targets[i] < p.good
    ensures Loss(p, predictions, targets) == Scale(p.low, Mse(predictions, targets))
  {
    LossWithUniformWeight(p, predictions, targets, p.low);
  }

  /** Targets all above the SLA threshold, none severely underpredicted:
      `high_penalty` times the MSE. */
  lemma LossAllBreaching(p: SlaParams, predictions: seq<real>, targets: seq<real>)
    requires |predictions| == |targets|
    requires p.good <= p.sla
    requires forall i :: 0 <= i < |targets| ==> targets[i] > p.sla && predictions[i] >= p.sla - SevereOffset
    ensures Loss(p, predictions, targets) == Scale(p.high, Mse(predictions, targets))
  {
    LossWithUniformWeight(p, predictions, targets, p.high);
  }

  /** Targets all above the SLA threshold and all severely underpredicted:
      twice `high_penalty` times the MSE. */
  lemma LossAllSeverelyUnderpredicted(p: SlaParams, predictions: seq<real>, targets: seq<real>)
    requires |predictions| == |targets|
    requires p.good <= p.sla
    requires forall i :: 0 <= i < |targets| ==> targets[i] > p.sla && predictions[i] < p.sla - SevereOffset
    ensures Loss(p, predictions, targets) == Scale(2.0 * p.high, Mse(predictions, targets))
  {
    LossWithUniformWeight(p, predictions, targets, 2.0 * p.high);
  }

  /** Targets all between the thresholds (inclusive): `normal_penalty` times the MSE. */
  lemma LossAllNormal(p: SlaParams, predictions: seq<real>, targets: seq<real>)
    requires |predictions| == |targets|
    requires forall i :: 0 <= i < |targets| ==> p.good <= targets[i] <= p.sla
    ensures Loss(p, predictions, targets) == Scale(p.normal, Mse(predictions, targets))
  {
    LossWithUniformWeight(p, predictions, targets, p.normal);
  }
}
