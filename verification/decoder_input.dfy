/**
 * The decoder's seed sequence: the label window followed by zero placeholders
 * for the forecast horizon, and, at prediction time, the time-feature marks
 * extended to the decoder input's length by holding the last known step.
 */
module DecoderInput {
  import opened Wrappers
  import opened Tensors
  import opened Slicing

  /** `torch.cat([a, b], dim=1)`: `b`'s steps after `a`'s, sample by sample. */
  function ConcatSteps(a: Tensor, b: Tensor): (r: Tensor)
    requires a.Valid() && b.Valid() && a.batch == b.batch && a.channels == b.channels
    ensures r.Valid() && r.batch == a.batch && r.channels == a.channels
    ensures r.steps == a.steps + b.steps
    ensures forall i, t :: 0 <= i < r.batch && 0 <= t < a.steps ==> r.data[i][t] == a.data[i][t]
    ensures forall i, t :: 0 <= i < r.batch && 0 <= t < b.steps ==> r.data[i][a.steps + t] == b.data[i][t]
  {
    Tensor(a.batch, a.steps + b.steps, a.channels, ZipAppend(a.data, b.data))
  }

  function Min(a: nat, b: nat): nat {
    if a <= b then a else b
  }

  /** Decoder input of the train, vali and test loops:
      `cat([y[:, :label_len, :], zeros_like(y[:, -pred_len:, :])], dim=1)`. */
  function Build(y: Tensor, labelLen: nat, predLen: nat): (d: Tensor)
    requires y.Valid()
    ensures d.Valid() && d.batch == y.batch && d.channels == y.channels
    ensures d.steps == Min(labelLen, y.steps) + TailLen(y.steps, predLen)
    ensures forall b, t :: 0 <= b < d.batch && 0 <= t < Min(labelLen, y.steps) ==>
      d.data[b][t] == y.data[b][t]
    ensures forall b, t, c :: 0 <= b < d.batch && Min(labelLen, y.steps) <= t < d.steps && 0 <= c < d.channels ==>
      d.data[b][t][c] == 0.0
  {
    var placeholders := Zeros(y.batch, TailLen(y.steps, predLen), y.channels);
    ConcatSteps(FirstSteps(y, labelLen), placeholders)
  }

  /** For a well-formed batch (`y` spans `label_len + pred_len` steps and the
      horizon is not empty) the decoder input has exactly `y`'s length: the
      label window verbatim, then `pred_len` zero steps. */
  lemma {:induction false} BuildWellFormed(y: Tensor, labelLen: nat, predLen: nat)
    requires y.Valid() && y.steps == labelLen + predLen && predLen >= 1
    ensures var d := Build(y, labelLen, predLen);
      && d.batch == y.batch && d.channels == y.channels && d.steps == labelLen + predLen
      && (forall b, t :: 0 <= b < d.batch && 0 <= t < labelLen ==> d.data[b][t] == y.data[b][t])
      && (forall b, t :: 0 <= b < d.batch && labelLen <= t < d.steps ==> d.data[b][t] == ZeroStep(y.channels))
  {
    var d := Build(y, labelLen, predLen);
    forall b, t | 0 <= b < d.batch && labelLen <= t < d.steps
      ensures d.data[b][t] == ZeroStep(y.channels)
    {
    }
  }

  /** Decoder input of the predict loop: all of `y`, then `pred_len` zero steps
      (`torch.zeros((B, pred_len, C))`, not a slice of `y`). */
  function BuildForPredict(y: Tensor, predLen: nat): (d: Tensor)
    requires y.Valid()
    ensures d.Valid() && d.batch == y.batch && d.channels == y.channels
    ensures d.steps == y.steps + predLen
    ensures forall b, t :: 0 <= b < d.batch && 0 <= t < y.steps ==> d.data[b][t] == y.data[b][t]
    ensures forall b, t, c :: 0 <= b < d.batch && y.steps <= t < d.steps && 0 <= c < d.channels ==>
      d.data[b][t][c] == 0.0
  {
    ConcatSteps(y, Zeros(y.batch, predLen, y.channels))
  }

  /** `x.repeat(1, k, 1)`: the time axis laid out `k` times in a row. */
  function RepeatSteps(x: Tensor, k: nat): (r: Tensor)
    requires x.Valid()
    ensures r.Valid() && r.batch == x.batch && r.channels == x.channels
    ensures r.steps == x.steps * k
    ensures forall b, t :: 0 <= b < r.batch && 0 <= t < r.steps ==> r.data[b][t] == x.data[b][t % x.steps]
  {
    if x.steps == 0 then
      Tensor(x.batch, 0, x.channels, seq(x.batch, _ => []))
    else
      Tensor(x.batch, x.steps * k, x.channels,
        seq(x.batch, b requires 0 <= b < x.batch =>
          seq(x.steps * k, t requires 0 <= t < x.steps * k => x.data[b][t % x.steps])))
  }

  datatype PadError = NegativeRepeat(count: int)

  /** Mark padding of the predict loop: when the mark's length differs from the
      decoder input's, its last step is repeated `target - steps` times and
      appended. A mark that is too long asks torch for a negative repeat count,
      which raises. */
  function PadMark(mark: Tensor, target: nat): (r: Result<Tensor, PadError>)
    requires mark.Valid()
    ensures r.Err? <==> mark.steps > target
    ensures r.Ok? ==> r.value.Valid() && r.value.batch == mark.batch && r.value.channels == mark.channels
    ensures mark.steps == target ==> r == Ok(mark)
    ensures r.Ok? && mark.steps >= 1 ==>
      && r.value.steps == target
      && (forall b, t :: 0 <= b < mark.batch && 0 <= t < mark.steps ==> r.value.data[b][t] == mark.data[b][t])
      && (forall b, t :: 0 <= b < mark.batch && mark.steps <= t < target ==>
            r.value.data[b][t] == mark.data[b][mark.steps - 1])
    ensures r.Ok? && mark.steps == 0 ==> r.value.steps == 0
  {
    if mark.steps != target then
      var padding: int := target - mark.steps;
      if padding < 0 then Err(NegativeRepeat(padding))
      else
        var last := LastSteps(mark, 1);
        var held := RepeatSteps(last, padding);
        assert mark.steps >= 1 ==> forall b, k :: 0 <= b < mark.batch && 0 <= k < padding ==>
          held.data[b][k] == mark.data[b][mark.steps - 1];
        var padded := ConcatSteps(mark, held);
        assert forall b, t :: 0 <= b < mark.batch && mark.steps <= t < padded.steps ==>
          padded.data[b][t] == held.data[b][t - mark.steps];
        Ok(padded)
    else Ok(mark)
  }
}
