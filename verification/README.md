# Long-term forecasting experiment: data shaping, losses and evaluation loops

This project models the core of the long-term forecasting experiment class of
a time-series forecasting library (`exp/exp_long_term_forecasting.py`). It
covers the following:

- **Decoder input.** The train/vali/test form is the label window followed by
  zero steps. The predict form is the whole target window followed by zero
  steps, with the time-feature marks padded by holding their last step.
- **Horizon and feature slices.** These are `x[:, -pred_len:, f_dim:]`, with
  Python's slice rules written out. In particular `-0:` keeps the whole
  window, and `f_dim = -1` keeps only the last channel for `"MS"`.
- **Inverse scaling in the test and predict loops.** The output's channels are
  first tiled to the target's with `np.tile`. The `[B, T, C]` tensor is then
  flattened to `[B*T, C]`, given to the dataset's row-wise `inverse_transform`,
  and reshaped back.
- **The SLA-focused loss.** Weights are set by ordered in-place masked writes,
  one prediction-dependent doubling follows, and the loss is the mean of
  weight times squared error.
- **Criterion selection.** The loss name is case-insensitive with a default of
  `"MSE"`. For `"SLA"`, the thresholds are rescaled into the scaler's
  normalised space. Any other name leaves the criterion unbound.
- **The vali, test and predict loops.** They are methods of an `Experiment`
  class whose mutable state is the network's train/eval mode. Each loop
  appends per-batch results to lists and then averages them, or concatenates
  and reshapes them.

Tensors are exact-real nested sequences with explicit dimensions
(`Tensors.Tensor`), so zero-size shapes exist as they do in torch. The
network's forward pass is an opaque function parameter. The dataset's
`inverse_transform` is an opaque row map that keeps the row width. The
standard scaler's inverse transform, on rows of its feature count, is such a
row map (`Scaling.ScalerInverseIsRowMap`). These exceptions on the modelled
paths are an `Err` of a `Result`:

- a negative repeat count;
- a division by a zero channel count;
- a `reshape(B*T, -1)` with no rows to infer the width from;
- a `reshape(-1, T, C)` with `T * C == 0`;
- a reshape of a tiled block whose width is not the target's;
- an empty or ragged `np.concatenate`;
- an `"SLA"` criterion for a scaler with no features (`mean_[-1]`);
- an unbound criterion.

The test loop's plot block has exceptions of its own, which are not among
these (see "Left out").

The mean of nothing is `NaN`, as in torch and numpy.

Two details of the code are easy to misread.
1. **Mark padding guard.** The guard is `!=` (line 456), not `<`. So a mark
   longer than the decoder input asks `repeat` for a negative count, which
   raises. `DecoderInput.PadMark` returns an error in that case.
2. **SLA low penalty.** The constructor's default low penalty is 8.0
   (`SlaLoss.DefaultParams`), but `_select_criterion` passes 3.0.

## Model

| member | source | states |
|---|---|---|
| `Tensors.Zeros` | exp/exp_long_term_forecasting.py:452 | `torch.zeros((b, t, c))` is well formed, has the requested shape and is 0.0 everywhere |
| `Tensors.JoinBatches` | exp/exp_long_term_forecasting.py:386-388 | `np.concatenate(axis=0)` of conforming parts keeps steps and channels and has the summed batch size |
| `Tensors.JoinBatchesAt` | exp/exp_long_term_forecasting.py:386-388 | sample `b` of part `i` lands at index (samples of the parts before `i`) + `b`: parts stay in order, each intact |
| `Slicing.LastSteps` | exp/exp_long_term_forecasting.py:344-345 | `x[:, -n:, :]` keeps `n` steps when `1 <= n <= T` and all `T` steps when `n == 0` or `n > T`; step `t` is input step `T - len + t` |
| `Slicing.TailLen` | exp/exp_long_term_forecasting.py:139 | `s[-n:]` keeps at most `len` and, for `n >= 1`, at most `n` positions, and none only of an empty sequence |
| `Slicing.FirstSteps` | exp/exp_long_term_forecasting.py:123 | `x[:, :n, :]` keeps the first `min(n, T)` steps unchanged |
| `Slicing.ChannelsFrom` | exp/exp_long_term_forecasting.py:362-363 | `x[:, :, start:]` keeps the channels from Python's slice start on, for negative starts too |
| `Slicing.ChannelsFromZero` | exp/exp_long_term_forecasting.py:343 | `f_dim = 0` removes nothing: `x[:, :, 0:] == x` |
| `Slicing.FeatureSlice` | exp/exp_long_term_forecasting.py:138-140 | for any mode but `"MS"` the tensor is unchanged; for `"MS"` exactly the last channel survives (none if there is no channel) |
| `Slicing.FeatureDim` | exp/exp_long_term_forecasting.py:138 | `f_dim` is `-1` exactly for `"MS"` and `0` otherwise |
| `Slicing.HorizonFeatureSlice` | exp/exp_long_term_forecasting.py:138-140 | the loss slice has the input's batch, the horizon's length, and all channels, or one for `"MS"` |
| `Slicing.HorizonFeatureSliceAt` | exp/exp_long_term_forecasting.py:138-140 | step `t` of the loss slice is input step `T - h + t` whole, or only its last channel for `"MS"` |
| `Slicing.SliceOrderIrrelevant` | exp/exp_long_term_forecasting.py:343-363 | taking the horizon first and the feature slice later (test/predict) gives the same tensor as the reverse order |
| `DecoderInput.ConcatSteps` | exp/exp_long_term_forecasting.py:121-124 | `torch.cat(dim=1)` has `a`'s steps followed by `b`'s, per sample |
| `DecoderInput.Build` | exp/exp_long_term_forecasting.py:118-127 | decoder input: the first `min(label_len, T)` steps are `y`'s, every later entry is 0.0, batch and channels unchanged |
| `DecoderInput.BuildWellFormed` | exp/exp_long_term_forecasting.py:195-204 | when `T == label_len + pred_len` and `pred_len >= 1` the decoder input has exactly `T` steps: `y`'s label window, then zero steps |
| `DecoderInput.BuildForPredict` | exp/exp_long_term_forecasting.py:452-454 | predict decoder input: all of `y` followed by `pred_len` zero steps |
| `DecoderInput.RepeatSteps` | exp/exp_long_term_forecasting.py:458 | `x.repeat(1, k, 1)` has `T * k` steps, step `t` being step `t mod T` |
| `DecoderInput.PadMark` | exp/exp_long_term_forecasting.py:455-459 | error exactly when the mark is longer than the target; unchanged when lengths match; otherwise the original mark is a prefix and every appended step equals its last step |
| `Scaling.TileChannels` | exp/exp_long_term_forecasting.py:351-354 | `np.tile(x, [1, 1, k])` has `C * k` channels and entry `j` is channel `j mod C` |
| `Scaling.MatchChannels` | exp/exp_long_term_forecasting.py:350-354 | unchanged when channel counts match; error only for an output with no channels; otherwise `C_out * floor(C_y / C_out)` channels with entry `j` = channel `j mod C_out` |
| `Scaling.MatchChannelsExact` | exp/exp_long_term_forecasting.py:350-357 | the tiled block has the target's width exactly when `C_out` divides `C_y` (otherwise the reshape fails) |
| `Scaling.MatchSingleChannel` | exp/exp_long_term_forecasting.py:479-483 | a univariate output is broadcast: every one of the `C_y` channels is the single value |
| `Scaling.MatchSingleChannelAt` | exp/exp_long_term_forecasting.py:350-354 | each step of a tiled univariate output is its single value repeated `C_y` times |
| `Scaling.MatchChannelsWidth` | exp/exp_long_term_forecasting.py:350-357 | for every output channel count, tiling reaches `C_y` iff the counts match or `C_out > 0` divides `C_y` |
| `Scaling.Flatten` | exp/exp_long_term_forecasting.py:356 | `reshape(B * T, -1)` has `B * T` rows of `C` values |
| `Scaling.FlattenAt` | exp/exp_long_term_forecasting.py:355-357 | row `b * T + t` of the flattened matrix is step `t` of sample `b` |
| `Scaling.Unflatten` | exp/exp_long_term_forecasting.py:357 | `reshape((B, T, C))` of `B * T` rows of width `C` is a well-formed `[B, T, C]` tensor |
| `Scaling.UnflattenFlatten` | exp/exp_long_term_forecasting.py:355-357 | flattening and reshaping back is the identity on tensors |
| `Scaling.FlattenUnflatten` | exp/exp_long_term_forecasting.py:355-360 | reshaping `[B*T, C]` to `[B, T, C]` and back is the identity on matrices |
| `Scaling.Elements` | exp/exp_long_term_forecasting.py:51 | the elements an elementwise mean sees number `B * T * C` |
| `Scaling.MapRows` | exp/exp_long_term_forecasting.py:355-357 | `inverse_transform` applied row by row: row `i` of the result is the map of row `i` |
| `Scaling.InverseSteps` | exp/exp_long_term_forecasting.py:355-360 | the inverse-scaled tensor is well formed and has the input's shape |
| `Scaling.InverseStepwise` | exp/exp_long_term_forecasting.py:355-360 | inverse scaling acts step-wise: step `t` of sample `b` becomes `inv` of that same step |
| `Scaling.StandardScaler.TransformRow` | exp/exp_long_term_forecasting.py:87-88 | `(row - mean_) / scale_` keeps the row width |
| `Scaling.StandardScaler.InverseRow` | exp/exp_long_term_forecasting.py:355 | `row * scale_ + mean_` keeps the row width |
| `Scaling.InverseAfterTransform` | exp/exp_long_term_forecasting.py:355 | the scaler's inverse transform undoes its transform |
| `Scaling.TransformAfterInverse` | exp/exp_long_term_forecasting.py:87-88 | the scaler's transform undoes its inverse transform |
| `Scaling.ScalerInverseIsRowMap` | exp/exp_long_term_forecasting.py:355-359 | a fitted scaler's inverse transform on rows of its feature count is a width-keeping row map, so it can be the loops' `inverse_transform` |
| `Stats.Mean` | exp/exp_long_term_forecasting.py:51 | `torch.mean` is NaN exactly for no elements, and otherwise mean times count equals the sum |
| `Stats.MeanScaled` | exp/exp_long_term_forecasting.py:51 | scaling every element by `k` scales the mean by `k` |
| `Stats.Average` | exp/exp_long_term_forecasting.py:150 | `np.average` of the per-batch losses is a number exactly when the list is non-empty and no loss is NaN |
| `Stats.AverageWithin` | exp/exp_long_term_forecasting.py:150 | the average lies between the smallest and the largest per-batch loss |
| `Stats.AverageSingleton` | exp/exp_long_term_forecasting.py:150 | the average of one loss is that loss |
| `SlaLoss.DefaultParams` | exp/exp_long_term_forecasting.py:25-30 | the default thresholds are ordered (0 < good < sla) and so are the penalties (0 < normal < low < high) |
| `SlaLoss.Weight` | exp/exp_long_term_forecasting.py:43-49 | an element weighs its band's penalty, doubled only for a target above the SLA threshold; weights are non-negative for non-negative penalties |
| `SlaLoss.Mse` | exp/exp_long_term_forecasting.py:100 | `nn.MSELoss` is NaN exactly for no elements and otherwise non-negative |
| `SlaLoss.Loss` | exp/exp_long_term_forecasting.py:51 | the SLA loss is NaN exactly for no elements |
| `SlaLoss.SquaredErrors` | exp/exp_long_term_forecasting.py:40 | `(predictions - targets) ** 2` is non-negative and zero where prediction equals target |
| `SlaLoss.WeightedErrors` | exp/exp_long_term_forecasting.py:51 | entry `i` of `weights * base_error` is the element's weight times its squared error |
| `SlaLoss.Forward` | exp/exp_long_term_forecasting.py:38-51 | the forward pass returns the mean of weight times squared error over all elements |
| `SlaLoss.PenaltyWeights` | exp/exp_long_term_forecasting.py:43-49 | the in-place masked writes (fill normal, breach -> high, good -> low, double severe underpredictions) leave every element with `Weight` of its prediction and target |
| `SlaLoss.WeightRules` | exp/exp_long_term_forecasting.py:43-49 | targets on or between the thresholds weigh `normal`; below good weigh `low`, which wins when both masks hit; above the SLA threshold weigh `high`, doubled when the prediction is below `sla - 50` |
| `SlaLoss.EscalationDoubles` | exp/exp_long_term_forecasting.py:48-49 | a severe underprediction of a breach weighs exactly twice what a close prediction of the same target weighs |
| `SlaLoss.LossOfExactPrediction` | exp/exp_long_term_forecasting.py:38-51 | predicting every target exactly gives loss 0 |
| `SlaLoss.LossNonNegative` | exp/exp_long_term_forecasting.py:38-51 | with non-negative penalties the loss is a number and at least 0 |
| `SlaLoss.LossWithUniformWeight` | exp/exp_long_term_forecasting.py:38-51 | if every element has weight `w`, the loss is `w` times the plain MSE |
| `SlaLoss.LossAllGood` | exp/exp_long_term_forecasting.py:45 | all targets below the good threshold: loss is `low_penalty` times MSE |
| `SlaLoss.LossAllBreaching` | exp/exp_long_term_forecasting.py:44 | all targets above the SLA threshold, none severely underpredicted: `high_penalty` times MSE |
| `SlaLoss.LossAllSeverelyUnderpredicted` | exp/exp_long_term_forecasting.py:48-49 | all targets above the SLA threshold and all severely underpredicted: twice `high_penalty` times MSE |
| `SlaLoss.LossAllNormal` | exp/exp_long_term_forecasting.py:43 | all targets between the thresholds inclusive: `normal_penalty` times MSE |
| `Criteria.Upper` | exp/exp_long_term_forecasting.py:82 | `.upper()` keeps the length and upper-cases each character |
| `Criteria.LossKind` | exp/exp_long_term_forecasting.py:82 | `getattr(args, "loss", "MSE").upper()` is upper case, as long as the setting, and `"MSE"` when the setting is absent |
| `Criteria.UpperMatches` | exp/exp_long_term_forecasting.py:82-83 | a name upper-cases to an upper-case word iff it spells that word with each letter in either case |
| `Criteria.UpperIdempotent` | exp/exp_long_term_forecasting.py:82 | upper-casing twice changes nothing more |
| `Criteria.SelectCriterion` | exp/exp_long_term_forecasting.py:75-102 | success iff the upper-cased name is `"MSE"` or (`"SLA"` and the scaler has a last column); `"MSE"` gives MSE; `"SLA"` gives thresholds `t` with `t * scale + mean` = 0.100 and 0.200, good < sla, penalties 15/3/1; any other name is the unbound-criterion error |
| `Criteria.ThresholdsOrdered` | exp/exp_long_term_forecasting.py:87-88 | for a positive scale the rescaled good threshold is below the rescaled SLA threshold |
| `Criteria.SelectIgnoresCase` | exp/exp_long_term_forecasting.py:82 | selecting by a name and by its upper-cased form gives the same result |
| `Criteria.SelectDefault` | exp/exp_long_term_forecasting.py:82 | an absent `loss` setting selects plain MSE |
| `Criteria.Apply` | exp/exp_long_term_forecasting.py:147 | `criterion(pred, true)` is NaN exactly when the tensors have no elements |
| `Experiment.BatchLoss` | exp/exp_long_term_forecasting.py:138-147 | for an output whose feature slice has the target's channel count (for `"MS"`: any output with channels), the loss on the horizon/feature slices is NaN exactly when the batch, the horizon or the target's channels are empty |
| `Experiment.UnivariateOutputAligned` | exp/exp_long_term_forecasting.py:138-147 | in `"MS"` mode an output with any number of channels (a univariate one included) is aligned with a target that has channels |
| `Experiment.Appended` | exp/exp_long_term_forecasting.py:149 | a loop appending `f(batch)` for the first `n` batches builds `n` entries, entry `i` being `f` of batch `i` |
| `Experiment.ValiLosses` | exp/exp_long_term_forecasting.py:108-149 | entry `i` of the vali loop's list is the loss of batch `i` (`BatchLoss` on the network's output and the target), one per batch, in batch order; batches need only feature slices of equal width, so a univariate network in `"MS"` mode is admitted |
| `Experiment.TestBatch` | exp/exp_long_term_forecasting.py:343-363 | a test batch raises exactly when inverse scaling is on and the horizon or batch is empty (`reshape(0, -1)`), or the output's channels neither match the target's nor divide them; results have the target's batch and the horizon's length, and share channels when scaled |
| `Experiment.TestScaled` | exp/exp_long_term_forecasting.py:348-363 | the scaled branch succeeds iff the horizon has rows and tiling reaches the target's width; outputs and targets then share one shape |
| `Experiment.TestBatchScaled` | exp/exp_long_term_forecasting.py:348-360 | with matching channels, no feature cut and a non-empty horizon, a scaled test batch is the inverse transform of both horizons, untiled |
| `Experiment.TestBatchStepwise` | exp/exp_long_term_forecasting.py:348-360 | then each horizon step of prediction and truth is `inv` of the network's and of the target's step there |
| `Experiment.TestBatchTiled` | exp/exp_long_term_forecasting.py:350-360 | with a univariate output and a non-empty horizon, tiling reaches `C_y` channels and a scaled test batch is the inverse transform of the tiled horizon and of the target's, then cut to the feature slice |
| `Experiment.TestBatchTiledStepwise` | exp/exp_long_term_forecasting.py:350-360 | with a univariate output and no feature cut, each step of a scaled prediction is `inv` of the network's value repeated `C_y` times, and each truth step `inv` of the target's |
| `Experiment.TestBatchUnscaled` | exp/exp_long_term_forecasting.py:343-363 | without inverse scaling a test batch is the loss slice of output and target |
| `Experiment.InverseThenCutAt` | exp/exp_long_term_forecasting.py:355-363 | in `"MS"` mode the inverse transform sees every channel, and step `t` of the result is the last value of `inv` of step `t` |
| `Experiment.TestBatchMsStepwise` | exp/exp_long_term_forecasting.py:343-363 | in `"MS"` mode with an output as wide as the target, each step of a scaled prediction is the last channel of `inv` of the network's step, and each truth step the last channel of `inv` of the target's |
| `Experiment.TestBatchMsTiledStepwise` | exp/exp_long_term_forecasting.py:343-363 | in `"MS"` mode with a univariate network, each step of a scaled prediction is the last channel of `inv` of the network's value repeated `C_y` times; each truth step the last channel of `inv` of the target's |
| `Experiment.PredictOutputs` | exp/exp_long_term_forecasting.py:452-470 | the predict forward pass fails exactly when the mark is longer than `T + pred_len` |
| `Experiment.PredictBatch` | exp/exp_long_term_forecasting.py:472-489 | a predict batch raises exactly when inverse scaling is on and the horizon or batch is empty, or the output's channels neither match nor divide `C_y`; the result has the output's batch and horizon and, without `"MS"`, `C_y` channels when scaled |
| `Experiment.PredictScaled` | exp/exp_long_term_forecasting.py:477-489 | the scaled branch succeeds iff the horizon has rows and tiling reaches `C_y` channels |
| `Experiment.PredictBatchStepwise` | exp/exp_long_term_forecasting.py:477-489 | with matching channels and no feature cut, each step of a scaled forecast is `inv` of the network's step there |
| `Experiment.PredictBatchTiled` | exp/exp_long_term_forecasting.py:479-489 | with a univariate output and a non-empty horizon, tiling reaches `C_y` channels and a scaled forecast is the inverse transform of the tiled horizon, then cut to the feature slice |
| `Experiment.PredictBatchTiledStepwise` | exp/exp_long_term_forecasting.py:479-486 | with a univariate output and no feature cut, each step of a scaled forecast is `inv` of the network's value repeated `C_y` times |
| `Experiment.PredictBatchUnscaled` | exp/exp_long_term_forecasting.py:472-489 | without inverse scaling a forecast is the loss slice of the network's output |
| `Experiment.PredictBatchMsStepwise` | exp/exp_long_term_forecasting.py:472-489 | in `"MS"` mode with an output of `C_y` channels, each step of a scaled forecast is the last channel of `inv` of the network's step |
| `Experiment.PredictBatchMsTiledStepwise` | exp/exp_long_term_forecasting.py:472-489 | in `"MS"` mode with a univariate network, each step of a scaled forecast is the last channel of `inv` of the network's value repeated `C_y` times |
| `Experiment.ConcatenateBatches` | exp/exp_long_term_forecasting.py:386-388 | `np.concatenate` succeeds iff the list is non-empty and all parts share steps and channels, and then holds all samples |
| `Experiment.ReshapeBack` | exp/exp_long_term_forecasting.py:390-392 | `reshape(-1, T, C)` raises exactly when `T * C == 0` and otherwise leaves the array unchanged |
| `Experiment.TestStep` | exp/exp_long_term_forecasting.py:322-370 | one test iteration raises exactly when its inverse scaling does; otherwise prediction and truth are well formed with the batch's samples and the horizon's steps |
| `Experiment.TestLists` | exp/exp_long_term_forecasting.py:311-370 | after `n` test iterations without error, `preds` and `trues` each hold `n` entries and together all samples of the first `n` batches |
| `Experiment.TestIteration` | exp/exp_long_term_forecasting.py:369-370 | iteration `i` appends one prediction and one truth, adding batch `i`'s samples |
| `Experiment.TestListsErrStays` | exp/exp_long_term_forecasting.py:311-370 | once a batch raises, later batches change nothing: the pass ends with that error |
| `Experiment.Inputs` | exp/exp_long_term_forecasting.py:367 | entry `i` of the kept inputs is batch `i`'s input window |
| `Experiment.ConcatenateAll` | exp/exp_long_term_forecasting.py:386-392 | the three concatenations and reshapes succeed only for non-empty lists, and then hold all samples of each list with non-empty steps and channels |
| `Experiment.TestRun` | exp/exp_long_term_forecasting.py:302-392 | a test pass that succeeds ran at least one batch, and its predictions and ground truth hold all samples of all batches |
| `Experiment.PredictStep` | exp/exp_long_term_forecasting.py:444-492 | one predict iteration raises exactly when the mark is too long or inverse scaling raises; otherwise the forecast has the batch's samples, the horizon's steps and, without `"MS"`, `C_y` channels when scaled |
| `Experiment.PredictLists` | exp/exp_long_term_forecasting.py:444-492 | after `n` predict iterations without error, `preds` holds `n` forecasts with all samples of the first `n` batches |
| `Experiment.PredictIteration` | exp/exp_long_term_forecasting.py:491-492 | iteration `i` appends one forecast, adding batch `i`'s samples |
| `Experiment.PredictListsErrStays` | exp/exp_long_term_forecasting.py:444-492 | once a batch raises, the predict pass ends with that error |
| `Experiment.PredictRun` | exp/exp_long_term_forecasting.py:444-494 | a predict pass that succeeds ran at least one batch, and its forecasts hold all samples of all batches, with non-empty steps and channels |
| `Experiment.Experiment.constructor` | exp/exp_long_term_forecasting.py:53-54 | a new experiment holds its settings and network, in train mode |
| `Experiment.Experiment.Vali` | exp/exp_long_term_forecasting.py:104-152 | `vali` returns `np.average` of the per-batch losses in batch order and leaves the network in train mode |
| `Experiment.Experiment.Test` | exp/exp_long_term_forecasting.py:302-392 | `test` leaves eval mode on and returns `TestRun`: the concatenated and reshaped per-batch lists, or the first error |
| `Experiment.Experiment.ForecastBatch` | exp/exp_long_term_forecasting.py:445-491 | one predict iteration raises a padding error when the mark is longer than `T + pred_len`; otherwise it raises exactly when inverse scaling raises on the network's horizon; a forecast is well formed with the batch's samples, the horizon's steps and, without `"MS"`, `C_y` channels when scaled (or the output's when not) |
| `Experiment.Experiment.Predict` | exp/exp_long_term_forecasting.py:433-494 | `predict` leaves eval mode on and returns `PredictRun`: the concatenated and reshaped forecasts, or the first error |

## Left out

- The training loop (`train`): the optimiser, `backward`, AMP autocast and
  gradient scaling, `EarlyStopping`, `adjust_learning_rate`, and the epoch
  timing and printing. The network changes between batches there, and those
  are external numerics. Its decoder input, slices and loss use the same
  functions as `vali` (`DecoderInput.Build`, `Experiment.BatchLoss`).
- `_build_model`, `_get_data`, `_select_optimizer`, `nn.DataParallel` and
  device moves. These are external constructions.
- The network's forward pass. It is an opaque function parameter. The loops
  require the alignment they rely on: `Experiment.HorizonAligned` says the
  output has the target's batch size and a horizon as long as the target's,
  and `Experiment.Aligned` adds that the two feature slices have equal
  channel counts (for `"MS"`, any output and target with channels).
- Checkpoint loading, `os.makedirs`, the results text file, `np.save`, the
  test plots (`visual`, including the inverse-scaled input used for them), the
  metrics and the DTW loop. These are I/O or foreign numeric code.
- Float32 arithmetic and rounding. Values are exact reals, and NaN is a
  separate value of `Stats.Scalar`.
- Broadcasting of a loss between sliced tensors of different shapes.
  `Criteria.Apply` requires equal shapes, which `Experiment.Aligned` ensures
  for the sliced output and target on the vali path.
- The scaler's fitting. `Criteria.SelectCriterion` requires a fitted scaler
  (one mean and one positive scale per feature).
- The dataset's `inverse_transform` in general. It is a row map that keeps
  the width (`Scaling.RowMap`); only the standard scaler's is spelled out.
- `Criteria.Upper`: `str.upper()` is modelled on ASCII letters only. Other
  Unicode case mappings are not modelled.
- `Scaling.MatchChannels`: `int(C_y / C_out)` is a float division truncated
  toward zero. For the non-negative counts here it equals integer division,
  and float rounding of large counts is not modelled.
- `Experiment.TestStep`, `Experiment.PredictStep`: their own contracts state
  when they raise and the shapes of their results, not the values. The values
  of the batch functions the steps return unchanged are stated step by step:
  on the scaled path by the `Experiment.TestBatch*Stepwise` and
  `Experiment.PredictBatch*Stepwise` lemmas (equal channel counts or a
  univariate output, with and without `"MS"`), on the unscaled path by
  `Experiment.TestBatchUnscaled`, `Experiment.PredictBatchUnscaled` and
  `Slicing.HorizonFeatureSliceAt`. Other channel ratios that tiling accepts
  (`C_out` a proper divisor of `C_y` other than 1) have no stepwise lemma;
  `Scaling.MatchChannels` states their channel-by-channel values.
- `Experiment.Experiment.Test`, `Experiment.TestStep`, `Experiment.TestRun`:
  the plot block run at every 20th batch (lines 371-384) is left out, and so
  are its own exceptions. It indexes sample 0 and the last channel of the
  input, the prediction and the truth, which raises for a batch with no
  samples or a tensor with no channels. On the scaled path it also reshapes
  the input with `reshape(B*T, -1)`, which raises for an empty window. For
  such a batch at an index divisible by 20 the model returns a result where
  the code raises.
- `Experiment.TestLists`, `Experiment.PredictLists`: they state the number of
  entries and the total of samples, but no lemma states entry `j` of the
  lists pointwise as batch `j`'s result. The lists are defined iteration by
  iteration (`TestIteration`, `PredictIteration`), and the loop methods are
  proved equal to that definition.
