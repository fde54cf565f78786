/**
 * The per-batch pipelines of the validation, test and predict loops, and the
 * loops themselves as methods of the experiment object, whose network is an
 * opaque function and whose only mutable state is its train/eval mode.
 */
module Experiment {
  import opened Wrappers
  import opened Tensors
  import opened Stats
  import opened Slicing
  import opened DecoderInput
  import opened Scaling
  import opened Criteria

  /** The settings the loops read. */
  datatype Config = Config(labelLen: nat, predLen: nat, features: string, inverse: bool)

  /** One batch from the data loader: input window, label+target window and
      their time-feature marks. */
  datatype Batch = Batch(x: Tensor, y: Tensor, xMark: Tensor, yMark: Tensor)
  {
    predicate Valid() {
      x.Valid() && y.Valid() && xMark.Valid() && yMark.Valid()
    }
  }

  /** The network's forward pass `(x, x_mark, dec_inp, y_mark) -> outputs`. */
  type Forecaster = (Tensor, Tensor, Tensor, Tensor) -> Tensor

  /** What the loops need of the network's output: the target's batch size and
      a horizon slice as long as the target's. */
  predicate HorizonAligned(predLen: nat, outputs: Tensor, y: Tensor) {
    && outputs.Valid() && y.Valid()
    && outputs.batch == y.batch
    && TailLen(outputs.steps, predLen) == TailLen(y.steps, predLen)
  }

  /** What the loss needs of the network's output: horizon alignment, and
      feature slices of output and target with one channel count, since the
      loss compares them entry by entry. Without "MS" the two channel counts
      agree; with "MS" both keep their last channel, or both have none. */
  predicate Aligned(cfg: Config, outputs: Tensor, y: Tensor) {
    && HorizonAligned(cfg.predLen, outputs, y)
    && FeatureChannels(outputs.channels, cfg.features) == FeatureChannels(y.channels, cfg.features)
  }

  /** In "MS" mode a network with any number of output channels, a univariate
      one included, is aligned with a target that has channels. */
  lemma UnivariateOutputAligned(cfg: Config, outputs: Tensor, y: Tensor)
    requires HorizonAligned(cfg.predLen, outputs, y) && cfg.features == "MS"
    requires outputs.channels >= 1 && y.channels >= 1
    ensures Aligned(cfg, outputs, y)
  {
  }

  datatype LoopError =
    | PadFailed(pad: PadError)
    | ScaleFailed(scale: ScaleError)
    | NothingToConcatenate
    | RaggedBatches
    | ReshapeFailed   // `reshape(-1, T, C)` of an array with `T * C == 0`

  /** The loss of one batch in the train and vali loops:
      `criterion(outputs[:, -pred_len:, f_dim:], batch_y[:, -pred_len:, f_dim:])`. */
  function BatchLoss(cfg: Config, crit: Criterion, outputs: Tensor, y: Tensor): (loss: Scalar)
    requires Aligned(cfg, outputs, y)
    ensures loss.NaN? <==> y.batch == 0 || TailLen(y.steps, cfg.predLen) == 0 || y.channels == 0
  {
    var pred := HorizonFeatureSlice(outputs, cfg.predLen, cfg.features);
    var truth := HorizonFeatureSlice(y, cfg.predLen, cfg.features);
    ProductZero(pred.batch, pred.steps, pred.channels);
    Apply(crit, pred, truth)
  }

  /** The network's output on a batch in the train, vali and test loops. */
  function TrainOutputs(cfg: Config, model: Forecaster, b: Batch): Tensor
    requires b.Valid()
  {
    model(b.x, b.xMark, Build(b.y, cfg.labelLen, cfg.predLen), b.yMark)
  }

  /** A batch is well formed and the network's output on it is aligned with
      its target. */
  predicate ValiReadyAt(cfg: Config, model: Forecaster, b: Batch) {
    b.Valid() && Aligned(cfg, TrainOutputs(cfg, model, b), b.y)
  }

  /** Every batch of a validation pass is ready. */
  predicate ValiReady(cfg: Config, model: Forecaster, batches: seq<Batch>) {
    forall i :: 0 <= i < |batches| ==> ValiReadyAt(cfg, model, batches[i])
  }

  /** The loss of one batch of a validation pass: `criterion` on the loss
      slices of the network's output and of the target. A pass is only run
      on ready batches (`ValiReady`), so the `NaN` for the others is never
      used. */
  function ValiLoss(cfg: Config, model: Forecaster, crit: Criterion): Batch -> Scalar {
    b => if ValiReadyAt(cfg, model, b) then BatchLoss(cfg, crit, TrainOutputs(cfg, model, b), b.y) else NaN
  }

  /** What a loop appending `f(batch)` for each of the first `n` batches
      builds: entry `i` is `f` of batch `i`. */
  function Appended<T>(f: Batch -> T, batches: seq<Batch>, n: nat): (ls: seq<T>)
    requires n <= |batches|
    ensures |ls| == n && forall i :: 0 <= i < n ==> ls[i] == f(batches[i])
  {
    if n == 0 then [] else Appended(f, batches, n - 1) + [f(batches[n - 1])]
  }

  /** The losses of the first `n` batches of a validation pass, in order. */
  function ValiLosses(cfg: Config, model: Forecaster, crit: Criterion, batches: seq<Batch>, n: nat): (ls: seq<Scalar>)
    requires n <= |batches| && ValiReady(cfg, model, batches)
    ensures |ls| == n
    ensures forall i :: 0 <= i < n ==> ls[i] == BatchLoss(cfg, crit, TrainOutputs(cfg, model, batches[i]), batches[i].y)
  {
    Appended(ValiLoss(cfg, model, crit), batches, n)
  }

  /** When the inverse-scaling block raises on a horizon of `batch` samples and
      `steps` steps, with `c` output and `cy` target channels: `reshape(0, -1)`
      of an empty horizon, a division by a zero channel count, or a tiled
      width that is not `cy`. */
  predicate ScalingRaises(batch: nat, steps: nat, c: nat, cy: nat) {
    batch == 0 || steps == 0 || (c != cy && (c == 0 || cy % c != 0))
  }

  /** Per-batch results of the test loop: the horizon of outputs and targets,
      inverse-scaled when the dataset is scaled and inversion is requested
      (tiling the output's channels to the target's first), then cut to the
      feature slice. */
  function TestBatch(cfg: Config, scaled: bool, inv: seq<real> -> seq<real>, outputs: Tensor, y: Tensor)
    : (r: Result<(Tensor, Tensor), ScaleError>)
    requires HorizonAligned(cfg.predLen, outputs, y) && RowMap(inv, y.channels)
    ensures r.Err? <==>
      scaled && cfg.inverse && ScalingRaises(y.batch, TailLen(y.steps, cfg.predLen), outputs.channels, y.channels)
    ensures r.Ok? ==> r.value.0.Valid() && r.value.1.Valid()
    ensures r.Ok? ==> r.value.0.batch == y.batch && r.value.1.batch == y.batch
    ensures r.Ok? ==> r.value.0.steps == TailLen(y.steps, cfg.predLen) && r.value.1.steps == TailLen(y.steps, cfg.predLen)
    ensures r.Ok? && scaled && cfg.inverse ==> r.value.0.channels == r.value.1.channels
  {
    var out := LastSteps(outputs, cfg.predLen);
    var truth := LastSteps(y, cfg.predLen);
    if scaled && cfg.inverse then
      MatchChannelsWidth(out, truth.channels);
      TestScaled(cfg, inv, out, truth)
    else
      Ok((FeatureSlice(out, cfg.features), FeatureSlice(truth, cfg.features)))
  }

  /** The inverse-scaling branch of a test batch, on the horizon slices. */
  function TestScaled(cfg: Config, inv: seq<real> -> seq<real>, out: Tensor, truth: Tensor)
    : (r: Result<(Tensor, Tensor), ScaleError>)
    requires out.Valid() && truth.Valid() && out.batch == truth.batch && out.steps == truth.steps
    requires RowMap(inv, truth.channels)
    ensures r.Ok? <==>
      && out.batch > 0 && out.steps > 0
      && MatchChannels(out, truth.channels).Ok? && MatchChannels(out, truth.channels).value.channels == truth.channels
    ensures r.Ok? ==> r.value.0.Valid() && r.value.1.Valid() && SameShape(r.value.0, r.value.1)
    ensures r.Ok? ==> r.value.0.batch == out.batch && r.value.0.steps == out.steps
  {
    var tiled :- MatchChannels(out, truth.channels);
    if out.batch == 0 || out.steps == 0 then Err(EmptyReshape)
    else if tiled.channels != truth.channels then Err(ChannelMismatch(tiled.channels, truth.channels))
    else
      Ok((FeatureSlice(InverseSteps(tiled, inv), cfg.features), FeatureSlice(InverseSteps(truth, inv), cfg.features)))
  }

  /** With matching channels, no feature cut and a non-empty horizon, a
      scaled test batch is the inverse transform of the network's horizon and
      of the target's, with no tiling. */
  lemma TestBatchScaled(cfg: Config, inv: seq<real> -> seq<real>, outputs: Tensor, y: Tensor)
    requires HorizonAligned(cfg.predLen, outputs, y) && RowMap(inv, y.channels)
    requires cfg.inverse && cfg.features != "MS" && outputs.channels == y.channels
    requires y.batch > 0 && TailLen(y.steps, cfg.predLen) > 0
    ensures TestBatch(cfg, true, inv, outputs, y) ==
      Ok((InverseSteps(LastSteps(outputs, cfg.predLen), inv), InverseSteps(LastSteps(y, cfg.predLen), inv)))
  {
    var out := LastSteps(outputs, cfg.predLen);
    var truth := LastSteps(y, cfg.predLen);
    assert MatchChannels(out, truth.channels) == Ok(out);
  }

  /** Hence, at every step of the horizon, a scaled test batch holds the
      inverse transform of the network's and of the target's step there. */
  lemma TestBatchStepwise(cfg: Config, inv: seq<real> -> seq<real>, outputs: Tensor, y: Tensor, b: nat, t: nat)
    requires HorizonAligned(cfg.predLen, outputs, y) && RowMap(inv, y.channels)
    requires cfg.inverse && cfg.features != "MS" && outputs.channels == y.channels
    requires b < y.batch && t < TailLen(y.steps, cfg.predLen)
    ensures var r := TestBatch(cfg, true, inv, outputs, y);
      && r.Ok?
      && r.value.0.data[b][t] == inv(outputs.data[b][outputs.steps - TailLen(y.steps, cfg.predLen) + t])
      && r.value.1.data[b][t] == inv(y.data[b][y.steps - TailLen(y.steps, cfg.predLen) + t])
  {
    TestBatchScaled(cfg, inv, outputs, y);
    InverseStepwise(LastSteps(outputs, cfg.predLen), inv, b, t);
    InverseStepwise(LastSteps(y, cfg.predLen), inv, b, t);
  }

  /** With a univariate output and a non-empty horizon, a scaled test batch
      is the inverse transform of the tiled horizon and of the target's, each
      then cut to the feature slice. */
  lemma TestBatchTiled(cfg: Config, inv: seq<real> -> seq<real>, outputs: Tensor, y: Tensor)
    requires HorizonAligned(cfg.predLen, outputs, y) && RowMap(inv, y.channels)
    requires cfg.inverse && outputs.channels == 1
    requires y.batch > 0 && TailLen(y.steps, cfg.predLen) > 0
    ensures var m := MatchChannels(LastSteps(outputs, cfg.predLen), y.channels);
      && m.Ok? && m.value.Valid() && m.value.channels == y.channels
      && TestBatch(cfg, true, inv, outputs, y) ==
           Ok((FeatureSlice(InverseSteps(m.value, inv), cfg.features),
               FeatureSlice(InverseSteps(LastSteps(y, cfg.predLen), inv), cfg.features)))
  {
    MatchSingleChannel(LastSteps(outputs, cfg.predLen), y.channels);
  }

  /** A univariate output is tiled to every target channel before the inverse
      transform: each step of a scaled test prediction is the inverse
      transform of the network's single value, repeated `C_y` times. */
  lemma TestBatchTiledStepwise(cfg: Config, inv: seq<real> -> seq<real>, outputs: Tensor, y: Tensor, b: nat, t: nat)
    requires HorizonAligned(cfg.predLen, outputs, y) && RowMap(inv, y.channels)
    requires cfg.inverse && cfg.features != "MS" && outputs.channels == 1
    requires b < y.batch && t < TailLen(y.steps, cfg.predLen)
    ensures var r := TestBatch(cfg, true, inv, outputs, y);
      var h := TailLen(y.steps, cfg.predLen);
      && r.Ok?
      && r.value.0.data[b][t] == inv(Fill(y.channels, outputs.data[b][outputs.steps - h + t][0]))
      && r.value.1.data[b][t] == inv(y.data[b][y.steps - h + t])
  {
    var out := LastSteps(outputs, cfg.predLen);
    var truth := LastSteps(y, cfg.predLen);
    TestBatchTiled(cfg, inv, outputs, y);
    var tiled := MatchChannels(out, y.channels).value;
    InverseStepwise(tiled, inv, b, t);
    InverseStepwise(truth, inv, b, t);
    MatchSingleChannelAt(out, y.channels, b, t);
  }

  /** Without inverse scaling, a test batch is the loss slice of the
      network's output and of the target. */
  lemma TestBatchUnscaled(cfg: Config, scaled: bool, inv: seq<real> -> seq<real>, outputs: Tensor, y: Tensor)
    requires HorizonAligned(cfg.predLen, outputs, y) && RowMap(inv, y.channels)
    requires !(scaled && cfg.inverse)
    ensures TestBatch(cfg, scaled, inv, outputs, y) ==
      Ok((HorizonFeatureSlice(outputs, cfg.predLen, cfg.features), HorizonFeatureSlice(y, cfg.predLen, cfg.features)))
  {
  }

  /** The `f_dim:` cut of one row in "MS" mode: its last value, or nothing
      when the row is empty. */
  function LastChannel(row: seq<real>): seq<real> {
    if |row| == 0 then [] else [row[|row| - 1]]
  }

  /** In "MS" mode the inverse transform sees every channel, and only its
      result is cut to the last channel. */
  lemma InverseThenCutAt(x: Tensor, inv: seq<real> -> seq<real>, b: nat, t: nat)
    requires x.Valid() && RowMap(inv, x.channels) && b < x.batch && t < x.steps
    ensures FeatureSlice(InverseSteps(x, inv), "MS").data[b][t] == LastChannel(inv(x.data[b][t]))
  {
    InverseStepwise(x, inv, b, t);
    assert |inv(x.data[b][t])| == x.channels;
  }

  /** In "MS" mode with an output as wide as the target, each step of a
      scaled test batch is the last channel of the inverse transform of the
      network's step, and likewise for the target. */
  lemma TestBatchMsStepwise(cfg: Config, inv: seq<real> -> seq<real>, outputs: Tensor, y: Tensor, b: nat, t: nat)
    requires HorizonAligned(cfg.predLen, outputs, y) && RowMap(inv, y.channels)
    requires cfg.inverse && cfg.features == "MS" && outputs.channels == y.channels
    requires b < y.batch && t < TailLen(y.steps, cfg.predLen)
    ensures var r := TestBatch(cfg, true, inv, outputs, y);
      var h := TailLen(y.steps, cfg.predLen);
      && r.Ok?
      && r.value.0.data[b][t] == LastChannel(inv(outputs.data[b][outputs.steps - h + t]))
      && r.value.1.data[b][t] == LastChannel(inv(y.data[b][y.steps - h + t]))
  {
    var out := LastSteps(outputs, cfg.predLen);
    var truth := LastSteps(y, cfg.predLen);
    assert MatchChannels(out, truth.channels) == Ok(out);
    assert TestBatch(cfg, true, inv, outputs, y) ==
      Ok((FeatureSlice(InverseSteps(out, inv), "MS"), FeatureSlice(InverseSteps(truth, inv), "MS")));
    InverseThenCutAt(out, inv, b, t);
    InverseThenCutAt(truth, inv, b, t);
    assert out.data[b][t] == outputs.data[b][outputs.steps - out.steps + t];
    assert truth.data[b][t] == y.data[b][y.steps - truth.steps + t];
  }

  /** In "MS" mode with a univariate network, the case the tiling is for:
      the network's single value is repeated over all `C_y` channels, the
      repeated row is inverse-transformed, and its last channel is kept. The
      target's step is cut the same way. */
  lemma TestBatchMsTiledStepwise(cfg: Config, inv: seq<real> -> seq<real>, outputs: Tensor, y: Tensor, b: nat, t: nat)
    requires HorizonAligned(cfg.predLen, outputs, y) && RowMap(inv, y.channels)
    requires cfg.inverse && cfg.features == "MS" && outputs.channels == 1
    requires b < y.batch && t < TailLen(y.steps, cfg.predLen)
    ensures var r := TestBatch(cfg, true, inv, outputs, y);
      var h := TailLen(y.steps, cfg.predLen);
      && r.Ok?
      && r.value.0.data[b][t] == LastChannel(inv(Fill(y.channels, outputs.data[b][outputs.steps - h + t][0])))
      && r.value.1.data[b][t] == LastChannel(inv(y.data[b][y.steps - h + t]))
  {
    var out := LastSteps(outputs, cfg.predLen);
    var truth := LastSteps(y, cfg.predLen);
    TestBatchTiled(cfg, inv, outputs, y);
    var tiled := MatchChannels(out, y.channels).value;
    InverseThenCutAt(tiled, inv, b, t);
    InverseThenCutAt(truth, inv, b, t);
    MatchSingleChannelAt(out, y.channels, b, t);
  }

  /** The network's output on a batch in the predict loop: the decoder input
      is all of `y` plus zero steps, and the marks are padded to its length. */
  function PredictOutputs(cfg: Config, model: Forecaster, b: Batch): (r: Result<Tensor, PadError>)
    requires b.Valid()
    ensures r.Err? <==> b.yMark.steps > b.y.steps + cfg.predLen
  {
    var decInp := BuildForPredict(b.y, cfg.predLen);
    var mark :- PadMark(b.yMark, decInp.steps);
    Ok(model(b.x, b.xMark, decInp, mark))
  }

  /** Per-batch result of the predict loop: the horizon of the output, inverse
      scaled (tiled to the target's channel count first) when requested, then
      cut to the feature slice. */
  function PredictBatch(cfg: Config, scaled: bool, inv: seq<real> -> seq<real>, outputs: Tensor, cy: nat)
    : (r: Result<Tensor, ScaleError>)
    requires outputs.Valid() && RowMap(inv, cy)
    ensures r.Err? <==>
      scaled && cfg.inverse && ScalingRaises(outputs.batch, TailLen(outputs.steps, cfg.predLen), outputs.channels, cy)
    ensures r.Ok? ==> r.value.Valid() && r.value.batch == outputs.batch && r.value.steps == TailLen(outputs.steps, cfg.predLen)
    ensures r.Ok? && cfg.features != "MS" ==> r.value.channels == if scaled && cfg.inverse then cy else outputs.channels
  {
    var out := LastSteps(outputs, cfg.predLen);
    if scaled && cfg.inverse then
      MatchChannelsWidth(out, cy);
      PredictScaled(cfg, inv, out, cy)
    else
      Ok(FeatureSlice(out, cfg.features))
  }

  /** The inverse-scaling branch of a predict batch, on the horizon slice. */
  function PredictScaled(cfg: Config, inv: seq<real> -> seq<real>, out: Tensor, cy: nat)
    : (r: Result<Tensor, ScaleError>)
    requires out.Valid() && RowMap(inv, cy)
    ensures r.Ok? <==>
      out.batch > 0 && out.steps > 0 && MatchChannels(out, cy).Ok? && MatchChannels(out, cy).value.channels == cy
    ensures r.Ok? ==> r.value.Valid() && r.value.batch == out.batch && r.value.steps == out.steps
    ensures r.Ok? && cfg.features != "MS" ==> r.value.channels == cy
  {
    var tiled :- MatchChannels(out, cy);
    if out.batch == 0 || out.steps == 0 then Err(EmptyReshape)
    else if tiled.channels != cy then Err(ChannelMismatch(tiled.channels, cy))
    else Ok(FeatureSlice(InverseSteps(tiled, inv), cfg.features))
  }

  /** With matching channels and no feature cut, each step of a scaled
      forecast is the inverse transform of the network's step there. */
  lemma PredictBatchStepwise(cfg: Config, inv: seq<real> -> seq<real>, outputs: Tensor, cy: nat, b: nat, t: nat)
    requires outputs.Valid() && RowMap(inv, cy)
    requires cfg.inverse && cfg.features != "MS" && outputs.channels == cy
    requires b < outputs.batch && t < TailLen(outputs.steps, cfg.predLen)
    ensures var r := PredictBatch(cfg, true, inv, outputs, cy);
      && r.Ok?
      && r.value.data[b][t] == inv(outputs.data[b][outputs.steps - TailLen(outputs.steps, cfg.predLen) + t])
  {
    var out := LastSteps(outputs, cfg.predLen);
    assert MatchChannels(out, cy) == Ok(out);
    assert PredictBatch(cfg, true, inv, outputs, cy) == Ok(InverseSteps(out, inv));
    InverseStepwise(out, inv, b, t);
  }

  /** With a univariate output and a non-empty horizon, a scaled forecast is
      the inverse transform of the tiled horizon, cut to the feature slice. */
  lemma PredictBatchTiled(cfg: Config, inv: seq<real> -> seq<real>, outputs: Tensor, cy: nat)
    requires outputs.Valid() && RowMap(inv, cy)
    requires cfg.inverse && outputs.channels == 1
    requires outputs.batch > 0 && TailLen(outputs.steps, cfg.predLen) > 0
    ensures var m := MatchChannels(LastSteps(outputs, cfg.predLen), cy);
      && m.Ok? && m.value.Valid() && m.value.channels == cy
      && PredictBatch(cfg, true, inv, outputs, cy) == Ok(FeatureSlice(InverseSteps(m.value, inv), cfg.features))
  {
    MatchSingleChannel(LastSteps(outputs, cfg.predLen), cy);
  }

  /** A univariate forecast is tiled to the target's `C_y` channels before
      the inverse transform: each step is the inverse transform of the
      network's single value, repeated `C_y` times. */
  lemma PredictBatchTiledStepwise(cfg: Config, inv: seq<real> -> seq<real>, outputs: Tensor, cy: nat, b: nat, t: nat)
    requires outputs.Valid() && RowMap(inv, cy)
    requires cfg.inverse && cfg.features != "MS" && outputs.channels == 1
    requires b < outputs.batch && t < TailLen(outputs.steps, cfg.predLen)
    ensures var r := PredictBatch(cfg, true, inv, outputs, cy);
      && r.Ok?
      && r.value.data[b][t] == inv(Fill(cy, outputs.data[b][outputs.steps - TailLen(outputs.steps, cfg.predLen) + t][0]))
  {
    var out := LastSteps(outputs, cfg.predLen);
    PredictBatchTiled(cfg, inv, outputs, cy);
    var tiled := MatchChannels(out, cy).value;
    InverseStepwise(tiled, inv, b, t);
    MatchSingleChannelAt(out, cy, b, t);
  }

  /** Without inverse scaling, a forecast is the loss slice of the network's
      output. */
  lemma PredictBatchUnscaled(cfg: Config, scaled: bool, inv: seq<real> -> seq<real>, outputs: Tensor, cy: nat)
    requires outputs.Valid() && RowMap(inv, cy)
    requires !(scaled && cfg.inverse)
    ensures PredictBatch(cfg, scaled, inv, outputs, cy) == Ok(HorizonFeatureSlice(outputs, cfg.predLen, cfg.features))
  {
  }

  /** In "MS" mode with an output of `C_y` channels, each step of a scaled
      forecast is the last channel of the inverse transform of the network's
      step. */
  lemma PredictBatchMsStepwise(cfg: Config, inv: seq<real> -> seq<real>, outputs: Tensor, cy: nat, b: nat, t: nat)
    requires outputs.Valid() && RowMap(inv, cy)
    requires cfg.inverse && cfg.features == "MS" && outputs.channels == cy
    requires b < outputs.batch && t < TailLen(outputs.steps, cfg.predLen)
    ensures var r := PredictBatch(cfg, true, inv, outputs, cy);
      && r.Ok?
      && r.value.data[b][t] == LastChannel(inv(outputs.data[b][outputs.steps - TailLen(outputs.steps, cfg.predLen) + t]))
  {
    var out := LastSteps(outputs, cfg.predLen);
    assert MatchChannels(out, cy) == Ok(out);
    assert PredictBatch(cfg, true, inv, outputs, cy) == Ok(FeatureSlice(InverseSteps(out, inv), "MS"));
    InverseThenCutAt(out, inv, b, t);
    assert out.data[b][t] == outputs.data[b][outputs.steps - out.steps + t];
  }

  /** In "MS" mode with a univariate network, each step of a scaled forecast
      is the last channel of the inverse transform of the network's single
      value repeated `C_y` times. */
  lemma PredictBatchMsTiledStepwise(cfg: Config, inv: seq<real> -> seq<real>, outputs: Tensor, cy: nat, b: nat, t: nat)
    requires outputs.Valid() && RowMap(inv, cy)
    requires cfg.inverse && cfg.features == "MS" && outputs.channels == 1
    requires b < outputs.batch && t < TailLen(outputs.steps, cfg.predLen)
    ensures var r := PredictBatch(cfg, true, inv, outputs, cy);
      && r.Ok?
      && r.value.data[b][t] == LastChannel(inv(Fill(cy, outputs.data[b][outputs.steps - TailLen(outputs.steps, cfg.predLen) + t][0])))
  {
    var out := LastSteps(outputs, cfg.predLen);
    PredictBatchTiled(cfg, inv, outputs, cy);
    var tiled := MatchChannels(out, cy).value;
    InverseThenCutAt(tiled, inv, b, t);
    MatchSingleChannelAt(out, cy, b, t);
  }

  /** `np.concatenate(parts, axis=0)`, which raises for an empty list and for
      parts whose step or channel counts differ. */
  function ConcatenateBatches(parts: seq<Tensor>): (r: Result<Tensor, LoopError>)
    ensures r.Ok? <==> |parts| > 0 && Conforming(parts, parts[0].steps, parts[0].channels)
    ensures r.Ok? ==> r.value.Valid() && r.value.batch == TotalBatch(parts)
  {
    if |parts| == 0 then Err(NothingToConcatenate)
    else if !Conforming(parts, parts[0].steps, parts[0].channels) then Err(RaggedBatches)
    else Ok(JoinBatches(parts, parts[0].steps, parts[0].channels))
  }

  /** `x.reshape(-1, x.shape[-2], x.shape[-1])` on a concatenated `[N, T, C]`
      array: numpy cannot infer the leading dimension when `T * C == 0` and
      raises; otherwise the array is unchanged. */
  function ReshapeBack(x: Tensor): (r: Result<Tensor, LoopError>)
    ensures r.Err? <==> x.steps == 0 || x.channels == 0
    ensures r.Ok? ==> r.value == x
  {
    if x.steps == 0 || x.channels == 0 then Err(ReshapeFailed) else Ok(x)
  }

  /** The number of target samples in the first `n` batches. */
  function Samples(batches: seq<Batch>, n: nat): nat
    requires n <= |batches|
  {
    if n == 0 then 0 else Samples(batches, n - 1) + batches[n - 1].y.batch
  }

  /** Batches the test loop can run on: well formed, with horizon-aligned
      network outputs and a row map for the target's channel count. */
  ghost predicate TestReady(cfg: Config, model: Forecaster, inv: seq<real> -> seq<real>, batches: seq<Batch>) {
    forall i {:trigger TestReadyAt(cfg, model, inv, batches[i])} :: 0 <= i < |batches| ==>
      TestReadyAt(cfg, model, inv, batches[i])
  }

  /** A batch the test loop can run on. */
  ghost predicate TestReadyAt(cfg: Config, model: Forecaster, inv: seq<real> -> seq<real>, b: Batch) {
    && b.Valid()
    && HorizonAligned(cfg.predLen, TrainOutputs(cfg, model, b), b.y)
    && RowMap(inv, b.y.channels)
  }


  /** One iteration of the test loop: it raises exactly when inverse scaling
      does, and otherwise yields a prediction and a ground truth with the
      batch's samples and the horizon's steps. */
  function TestStep(cfg: Config, model: Forecaster, scaled: bool, inv: seq<real> -> seq<real>, b: Batch)
    : (r: Result<(Tensor, Tensor), LoopError>)
    requires TestReadyAt(cfg, model, inv, b)
    ensures r.Err? <==>
      scaled && cfg.inverse &&
      ScalingRaises(b.y.batch, TailLen(b.y.steps, cfg.predLen), TrainOutputs(cfg, model, b).channels, b.y.channels)
    ensures r.Ok? ==> r.value.0.Valid() && r.value.1.Valid()
    ensures r.Ok? ==> r.value.0.batch == b.y.batch && r.value.1.batch == b.y.batch
    ensures r.Ok? ==> r.value.0.steps == TailLen(b.y.steps, cfg.predLen) && r.value.1.steps == TailLen(b.y.steps, cfg.predLen)
  {
    match TestBatch(cfg, scaled, inv, TrainOutputs(cfg, model, b), b.y)
    case Err(e) => Err(ScaleFailed(e))
    case Ok(pt) => Ok(pt)
  }

  /** The prediction and ground-truth lists after the test loop has run on the
      first `n` batches, or the first error raised. */
  function TestLists(cfg: Config, model: Forecaster, scaled: bool, inv: seq<real> -> seq<real>, batches: seq<Batch>, n: nat)
    : (r: Result<(seq<Tensor>, seq<Tensor>), LoopError>)
    requires n <= |batches| && TestReady(cfg, model, inv, batches)
    ensures r.Ok? ==> |r.value.0| == n && |r.value.1| == n
    ensures r.Ok? ==> TotalBatch(r.value.0) == Samples(batches, n) && TotalBatch(r.value.1) == Samples(batches, n)
    decreases n, 1
  {
    if n == 0 then Ok(([], [])) else TestIteration(cfg, model, scaled, inv, batches, n - 1)
  }

  /** Iteration `i` of the test loop: batch `i`'s prediction and ground truth
      appended to the lists of the iterations before it, unless one of those
      or batch `i` itself raised. */
  function TestIteration(cfg: Config, model: Forecaster, scaled: bool, inv: seq<real> -> seq<real>, batches: seq<Batch>, i: nat)
    : (r: Result<(seq<Tensor>, seq<Tensor>), LoopError>)
    requires i < |batches| && TestReady(cfg, model, inv, batches)
    ensures r.Ok? ==> |r.value.0| == i + 1 && |r.value.1| == i + 1
    ensures r.Ok? ==> TotalBatch(r.value.0) == Samples(batches, i + 1) && TotalBatch(r.value.1) == Samples(batches, i + 1)
    decreases i + 1, 0
  {
    var lists :- TestLists(cfg, model, scaled, inv, batches, i);
    assert TestReadyAt(cfg, model, inv, batches[i]);
    var pt :- TestStep(cfg, model, scaled, inv, batches[i]);
    TotalBatchAppend(lists.0, pt.0);
    TotalBatchAppend(lists.1, pt.1);
    Ok((lists.0 + [pt.0], lists.1 + [pt.1]))
  }

  /** Once a batch has raised, the later batches are never run: the pass ends
      with that error. */
  lemma {:induction false} TestListsErrStays(cfg: Config, model: Forecaster, scaled: bool, inv: seq<real> -> seq<real>, batches: seq<Batch>, n: nat, m: nat)
    requires n <= m <= |batches| && TestReady(cfg, model, inv, batches)
    requires TestLists(cfg, model, scaled, inv, batches, n).Err?
    ensures TestLists(cfg, model, scaled, inv, batches, m) == TestLists(cfg, model, scaled, inv, batches, n)
    decreases m
  {
    if n < m {
      TestListsErrStays(cfg, model, scaled, inv, batches, n, m - 1);
    }
  }

  /** The input windows of the first `n` batches, in order. */
  function Inputs(batches: seq<Batch>, n: nat): (xs: seq<Tensor>)
    requires n <= |batches|
    ensures |xs| == n && forall i :: 0 <= i < n ==> xs[i] == batches[i].x
  {
    if n == 0 then [] else Inputs(batches, n - 1) + [batches[n - 1].x]
  }

  /** What a test pass leaves for the metrics and the result files: the
      concatenated and reshaped predictions, ground truth and raw inputs, or
      the first error raised. */
  ghost function TestRun(cfg: Config, model: Forecaster, scaled: bool, inv: seq<real> -> seq<real>, batches: seq<Batch>)
    : (r: Result<(Tensor, Tensor, Tensor), LoopError>)
    requires TestReady(cfg, model, inv, batches)
    ensures r.Ok? ==> |batches| > 0
    ensures r.Ok? ==> r.value.0.batch == Samples(batches, |batches|) && r.value.1.batch == Samples(batches, |batches|)
  {
    var lists :- TestLists(cfg, model, scaled, inv, batches, |batches|);
    ConcatenateAll(lists.0, lists.1, Inputs(batches, |batches|))
  }

  /** The three `np.concatenate` calls at the end of a test pass, then the
      three reshapes, in order. */
  function ConcatenateAll(preds: seq<Tensor>, trues: seq<Tensor>, inputs: seq<Tensor>)
    : (r: Result<(Tensor, Tensor, Tensor), LoopError>)
    ensures r.Ok? ==> |preds| > 0 && |trues| > 0 && |inputs| > 0
    ensures r.Ok? ==> r.value.0.batch == TotalBatch(preds) && r.value.1.batch == TotalBatch(trues)
    ensures r.Ok? ==> r.value.2.batch == TotalBatch(inputs)
    ensures r.Ok? ==> r.value.0.Valid() && r.value.0.steps > 0 && r.value.0.channels > 0
    ensures r.Ok? ==> r.value.1.Valid() && r.value.1.steps > 0 && r.value.1.channels > 0
    ensures r.Ok? ==> r.value.2.Valid() && r.value.2.steps > 0 && r.value.2.channels > 0
  {
    var p :- ConcatenateBatches(preds);
    var t :- ConcatenateBatches(trues);
    var x :- ConcatenateBatches(inputs);
    var p' :- ReshapeBack(p);
    var t' :- ReshapeBack(t);
    var x' :- ReshapeBack(x);
    Ok((p', t', x'))
  }

  /** Batches the predict loop can run on. */
  ghost predicate PredictReady(cfg: Config, model: Forecaster, inv: seq<real> -> seq<real>, batches: seq<Batch>) {
    forall i {:trigger PredictReadyAt(cfg, model, inv, batches[i])} :: 0 <= i < |batches| ==>
      PredictReadyAt(cfg, model, inv, batches[i])
  }

  /** A batch the predict loop can run on: well formed, with a well-formed
      network output with the batch's samples whenever its marks can be
      padded, and a row map for the target's channel count. */
  ghost predicate PredictReadyAt(cfg: Config, model: Forecaster, inv: seq<real> -> seq<real>, b: Batch) {
    && b.Valid()
    && RowMap(inv, b.y.channels)
    && (PredictOutputs(cfg, model, b).Ok? ==>
          PredictOutputs(cfg, model, b).value.Valid() && PredictOutputs(cfg, model, b).value.batch == b.y.batch)
  }

  /** One iteration of the predict loop: it raises exactly when the marks
      cannot be padded or inverse scaling raises, and otherwise yields a
      forecast with the batch's samples and the horizon's steps. */
  function PredictStep(cfg: Config, model: Forecaster, scaled: bool, inv: seq<real> -> seq<real>, b: Batch)
    : (r: Result<Tensor, LoopError>)
    requires PredictReadyAt(cfg, model, inv, b)
    ensures var o := PredictOutputs(cfg, model, b);
      r.Err? <==>
        o.Err? ||
        (scaled && cfg.inverse && ScalingRaises(o.value.batch, TailLen(o.value.steps, cfg.predLen), o.value.channels, b.y.channels))
    ensures r.Ok? ==> r.value.Valid() && r.value.batch == b.y.batch
    ensures r.Ok? ==> r.value.steps == TailLen(PredictOutputs(cfg, model, b).value.steps, cfg.predLen)
    ensures r.Ok? && cfg.features != "MS" ==>
      r.value.channels == if scaled && cfg.inverse then b.y.channels else PredictOutputs(cfg, model, b).value.channels
  {
    match PredictOutputs(cfg, model, b)
    case Err(e) => Err(PadFailed(e))
    case Ok(outputs) =>
      match PredictBatch(cfg, scaled, inv, outputs, b.y.channels)
      case Err(e) => Err(ScaleFailed(e))
      case Ok(p) => Ok(p)
  }

  /** The forecast list after the predict loop has run on the first `n`
      batches, or the first error raised. */
  function PredictLists(cfg: Config, model: Forecaster, scaled: bool, inv: seq<real> -> seq<real>, batches: seq<Batch>, n: nat)
    : (r: Result<seq<Tensor>, LoopError>)
    requires n <= |batches| && PredictReady(cfg, model, inv, batches)
    ensures r.Ok? ==> |r.value| == n && TotalBatch(r.value) == Samples(batches, n)
    decreases n, 1
  {
    if n == 0 then Ok([]) else PredictIteration(cfg, model, scaled, inv, batches, n - 1)
  }

  /** Iteration `i` of the predict loop: batch `i`'s forecast appended to the
      list of the iterations before it, unless one of those or batch `i`
      itself raised. */
  function PredictIteration(cfg: Config, model: Forecaster, scaled: bool, inv: seq<real> -> seq<real>, batches: seq<Batch>, i: nat)
    : (r: Result<seq<Tensor>, LoopError>)
    requires i < |batches| && PredictReady(cfg, model, inv, batches)
    ensures r.Ok? ==> |r.value| == i + 1 && TotalBatch(r.value) == Samples(batches, i + 1)
    decreases i + 1, 0
  {
    var preds :- PredictLists(cfg, model, scaled, inv, batches, i);
    assert PredictReadyAt(cfg, model, inv, batches[i]);
    var p :- PredictStep(cfg, model, scaled, inv, batches[i]);
    TotalBatchAppend(preds, p);
    Ok(preds + [p])
  }

  /** Once a batch has raised, the pass ends with that error. */
  lemma {:induction false} PredictListsErrStays(cfg: Config, model: Forecaster, scaled: bool, inv: seq<real> -> seq<real>, batches: seq<Batch>, n: nat, m: nat)
    requires n <= m <= |batches| && PredictReady(cfg, model, inv, batches)
    requires PredictLists(cfg, model, scaled, inv, batches, n).Err?
    ensures PredictLists(cfg, model, scaled, inv, batches, m) == PredictLists(cfg, model, scaled, inv, batches, n)
    decreases m
  {
    if n < m {
      PredictListsErrStays(cfg, model, scaled, inv, batches, n, m - 1);
    }
  }

  /** What a predict pass returns: the concatenated and reshaped forecasts,
      or the first error raised. */
  ghost function PredictRun(cfg: Config, model: Forecaster, scaled: bool, inv: seq<real> -> seq<real>, batches: seq<Batch>)
    : (r: Result<Tensor, LoopError>)
    requires PredictReady(cfg, model, inv, batches)
    ensures r.Ok? ==> |batches| > 0 && r.value.batch == Samples(batches, |batches|)
    ensures r.Ok? ==> r.value.Valid() && r.value.steps > 0 && r.value.channels > 0
  {
    var preds :- PredictLists(cfg, model, scaled, inv, batches, |batches|);
    var joined :- ConcatenateBatches(preds);
    ReshapeBack(joined)
  }

  /** The experiment: its settings, its network, and the network's mode. */
  class Experiment {
    const args: Config
    const model: Forecaster
    /** `model.training`: true in train mode, false in eval mode. */
    var training: bool

    constructor (args: Config, model: Forecaster)
      ensures this.args == args && this.model == model && training
    {
      this.args := args;
      this.model := model;
      training := true;
    }

    /** `vali`: in eval mode, the loss of every batch, appended to a list and
        averaged; the network is put back in train mode before returning. */
    method Vali(batches: seq<Batch>, crit: Criterion) returns (loss: Scalar)
      requires ValiReady(args, model, batches)
      modifies this
      ensures training
      ensures loss == Average(ValiLosses(args, model, crit, batches, |batches|))
    {
      training := false;
      var totalLoss: seq<Scalar> := [];
      for i := 0 to |batches|
        invariant totalLoss == ValiLosses(args, model, crit, batches, i)
      {
        var b := batches[i];
        var decInp := Build(b.y, args.labelLen, args.predLen);
        var outputs := model(b.x, b.xMark, decInp, b.yMark);
        assert outputs == TrainOutputs(args, model, b);
        var batchLoss := BatchLoss(args, crit, outputs, b.y);
        totalLoss := totalLoss + [batchLoss];
      }
      loss := Average(totalLoss);
      training := true;
    }

    /** `test` without the files, plots and metrics: in eval mode, the
        per-batch predictions, ground truth and inputs appended to lists and
        concatenated and reshaped at the end. */
    method Test(batches: seq<Batch>, scaled: bool, inv: seq<real> -> seq<real>)
      returns (r: Result<(Tensor, Tensor, Tensor), LoopError>)
      requires TestReady(args, model, inv, batches)
      modifies this
      ensures !training
      ensures r == TestRun(args, model, scaled, inv, batches)
    {
      training := false;
      var preds: seq<Tensor> := [];
      var trues: seq<Tensor> := [];
      var inputs: seq<Tensor> := [];
      for i := 0 to |batches|
        invariant TestLists(args, model, scaled, inv, batches, i) == Ok((preds, trues))
        invariant inputs == Inputs(batches, i)
      {
        var b := batches[i];
        assert TestReadyAt(args, model, inv, b);
        var decInp := Build(b.y, args.labelLen, args.predLen);
        var outputs := model(b.x, b.xMark, decInp, b.yMark);
        assert outputs == TrainOutputs(args, model, b);
        var pt := TestBatch(args, scaled, inv, outputs, b.y);
        assert TestLists(args, model, scaled, inv, batches, i + 1) == TestIteration(args, model, scaled, inv, batches, i);
        if pt.Err? {
          assert TestStep(args, model, scaled, inv, b) == Err(ScaleFailed(pt.error));
          TestListsErrStays(args, model, scaled, inv, batches, i + 1, |batches|);
          return Err(ScaleFailed(pt.error));
        }
        assert TestStep(args, model, scaled, inv, b) == Ok(pt.value);
        inputs := inputs + [b.x];
        preds := preds + [pt.value.0];
        trues := trues + [pt.value.1];
      }
      r := ConcatenateAll(preds, trues, inputs);
    }

    /** One iteration of `predict`: the decoder input from all of `y`, the
        mark padded to its length, the network's forecast, and the horizon
        inverse-scaled and cut to the feature slice. */
    method ForecastBatch(b: Batch, scaled: bool, inv: seq<real> -> seq<real>) returns (pred: Result<Tensor, LoopError>)
      requires PredictReadyAt(args, model, inv, b)
      ensures b.yMark.steps > b.y.steps + args.predLen ==> pred.Err? && pred.error.PadFailed?
      ensures b.yMark.steps <= b.y.steps + args.predLen ==>
        var out := PredictOutputs(args, model, b).value;
        && (pred.Err? <==>
              scaled && args.inverse && ScalingRaises(out.batch, TailLen(out.steps, args.predLen), out.channels, b.y.channels))
        && (pred.Ok? ==> pred.value.Valid() && pred.value.batch == b.y.batch && pred.value.steps == TailLen(out.steps, args.predLen))
        && (pred.Ok? && args.features != "MS" ==>
              pred.value.channels == if scaled && args.inverse then b.y.channels else out.channels)
      ensures pred == PredictStep(args, model, scaled, inv, b)
    {
      var decInp := BuildForPredict(b.y, args.predLen);
      var mark := b.yMark;
      if mark.steps != decInp.steps {
        var padded := PadMark(mark, decInp.steps);
        if padded.Err? {
          return Err(PadFailed(padded.error));
        }
        mark := padded.value;
      }
      var outputs := model(b.x, b.xMark, decInp, mark);
      assert PredictOutputs(args, model, b) == Ok(outputs);
      var p := PredictBatch(args, scaled, inv, outputs, b.y.channels);
      if p.Err? {
        return Err(ScaleFailed(p.error));
      }
      return Ok(p.value);
    }

    /** `predict`: in eval mode, the forecast of every batch appended to a
        list, concatenated and reshaped; the first batch that raises ends the pass. */
    method Predict(batches: seq<Batch>, scaled: bool, inv: seq<real> -> seq<real>)
      returns (r: Result<Tensor, LoopError>)
      requires PredictReady(args, model, inv, batches)
      modifies this
      ensures !training
      ensures r == PredictRun(args, model, scaled, inv, batches)
    {
      training := false;
      var preds: seq<Tensor> := [];
      for i := 0 to |batches|
        invariant PredictLists(args, model, scaled, inv, batches, i) == Ok(preds)
        invariant !training
      {
        assert PredictReadyAt(args, model, inv, batches[i]);
        var pred := ForecastBatch(batches[i], scaled, inv);
        assert PredictLists(args, model, scaled, inv, batches, i + 1) == PredictIteration(args, model, scaled, inv, batches, i);
        if pred.Err? {
          assert PredictIteration(args, model, scaled, inv, batches, i) == Err(pred.error);
          PredictListsErrStays(args, model, scaled, inv, batches, i + 1, |batches|);
          return Err(pred.error);
        }
        assert PredictIteration(args, model, scaled, inv, batches, i) == Ok(preds + [pred.value]);
        preds := preds + [pred.value];
      }
      var joined := ConcatenateBatches(preds);
      if joined.Err? {
        return Err(joined.error);
      }
      r := ReshapeBack(joined.value);
    }
  }
}
