/**
 * Choosing the training criterion from the configured loss name, and applying
 * a criterion to a prediction and a target tensor of the same shape.
 */
module Criteria {
  import opened Wrappers
  import opened Tensors
  import opened Stats
  import opened Scaling
  import opened SlaLoss

  datatype Criterion = MseCriterion | SlaCriterion(params: SlaParams)

  datatype CriterionError =
    | UnboundCriterion(name: string)   // no branch assigned `criterion`, so returning it raises
    | MissingTargetColumn              // the scaler has no feature to take the last column of

  /** Upper-casing of one character (ASCII letters). */
  function UpperChar(c: char): char {
    if 'a' <= c <= 'z' then (c as int - 32) as char else c
  }

  function LowerChar(c: char): char {
    if 'A' <= c <= 'Z' then (c as int + 32) as char else c
  }

  /** `str.upper()`. */
  function Upper(s: string): (u: string)
    ensures |u| == |s| && forall i :: 0 <= i < |s| ==> u[i] == UpperChar(s[i])
  {
    seq(|s|, i requires 0 <= i < |s| => UpperChar(s[i]))
  }

  predicate AllUpperLetters(w: string) {
    forall i :: 0 <= i < |w| ==> 'A' <= w[i] <= 'Z'
  }

  /** A name upper-cases to the upper-case word `w` exactly when it spells `w`
      with each letter in either case. */
  lemma UpperMatches(s: string, w: string)
    requires AllUpperLetters(w)
    ensures Upper(s) == w <==>
      |s| == |w| && forall i :: 0 <= i < |s| ==> s[i] == w[i] || s[i] == LowerChar(w[i])
  {
    if |s| == |w| && forall i :: 0 <= i < |s| ==> s[i] == w[i] || s[i] == LowerChar(w[i]) {
      forall i | 0 <= i < |s| ensures Upper(s)[i] == w[i] {
      }
    }
    if Upper(s) == w {
      forall i | 0 <= i < |s| ensures s[i] == w[i] || s[i] == LowerChar(w[i]) {
        assert UpperChar(s[i]) == w[i];
      }
    }
  }

  /** Upper-casing twice changes nothing more. */
  lemma UpperIdempotent(s: string)
    ensures Upper(Upper(s)) == Upper(s)
  {
  }

  /** `getattr(args, 'loss', 'MSE').upper()`. */
  function LossKind(configured: Option<string>): (k: string)
    ensures Upper(k) == k
    ensures configured.None? ==> k == "MSE"
    ensures configured.Some? ==> |k| == |configured.value|
  {
    var name := if configured.Some? then configured.value else "MSE";
    UpperIdempotent(name);
    Upper(name)
  }

  /** `_select_criterion`: "MSE" gives the plain mean squared error; "SLA"
      gives the SLA loss with the 100 ms and 200 ms thresholds moved into the
      scaler's normalised space for the last feature and penalties 15, 3, 1;
      any other name leaves the criterion unbound. */
  function SelectCriterion(configured: Option<string>, scaler: StandardScaler): (r: Result<Criterion, CriterionError>)
    requires scaler.Fitted()
    ensures r.Ok? <==> LossKind(configured) == "MSE" || (LossKind(configured) == "SLA" && |scaler.mean| > 0)
    ensures r.Ok? && LossKind(configured) == "MSE" ==> r.value == MseCriterion
    ensures r.Ok? && LossKind(configured) == "SLA" ==>
      && r.value.SlaCriterion?
      && var p, m, s := r.value.params, scaler.mean[|scaler.mean| - 1], scaler.scale[|scaler.scale| - 1];
      && p.good * s + m == 0.100 && p.sla * s + m == 0.200
      && p.good < p.sla
      && p.high == 15.0 && p.low == 3.0 && p.normal == 1.0
    ensures r.Err? ==> r.error == (if LossKind(configured) == "SLA" then MissingTargetColumn
                                  else UnboundCriterion(LossKind(configured)))
  {
    var kind := LossKind(configured);
    if kind == "SLA" then
      if |scaler.mean| == 0 then Err(MissingTargetColumn)
      else
        var m, s := scaler.mean[|scaler.mean| - 1], scaler.scale[|scaler.scale| - 1];
        var scaledLow := (0.100 - m) / s;
        var scaledHigh := (0.200 - m) / s;
        ThresholdsOrdered(m, s);
        Ok(SlaCriterion(SlaParams(scaledHigh, scaledLow, 15.0, 3.0, 1.0)))
    else if kind == "MSE" then Ok(MseCriterion)
    else Err(UnboundCriterion(kind))
  }

  /** Rescaling keeps the order of the two thresholds for a positive scale. */
  lemma ThresholdsOrdered(m: real, s: real)
    requires s > 0.0
    ensures (0.100 - m) / s < (0.200 - m) / s
  {
    var d := (0.200 - m) / s - (0.100 - m) / s;
    assert d * s == 0.100;
    if d <= 0.0 {
      if d < 0.0 {
        PositiveProduct(-d, s);
      }
    }
  }

  /** Only the letters matter, not their case. */
  lemma SelectIgnoresCase(name: string, scaler: StandardScaler)
    requires scaler.Fitted()
    ensures SelectCriterion(Some(name), scaler) == SelectCriterion(Some(Upper(name)), scaler)
  {
    UpperIdempotent(name);
  }

  /** An absent setting selects the plain mean squared error. */
  lemma SelectDefault(scaler: StandardScaler)
    requires scaler.Fitted()
    ensures SelectCriterion(None, scaler) == Ok(MseCriterion)
  {
    assert Upper("MSE") == "MSE";
  }

  /** `criterion(pred, true)` on two tensors of one shape. */
  function Apply(c: Criterion, pred: Tensor, target: Tensor): (r: Scalar)
    requires pred.Valid() && target.Valid() && SameShape(pred, target)
    ensures r.NaN? <==> pred.batch * pred.steps * pred.channels == 0
  {
    var y, t := Elements(pred), Elements(target);
    match c
    case MseCriterion => Mse(y, t)
    case SlaCriterion(p) => Loss(p, y, t)
  }
}
