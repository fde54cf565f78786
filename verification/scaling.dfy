/**
 * Inverse scaling of outputs and targets in the test and predict loops:
 * matching the output's channel count to the target's by tiling, flattening
 * `[B, T, C]` to `[B*T, C]`, applying the dataset's row-wise
 * `inverse_transform`, and reshaping back.
 */
module Scaling {
  import opened Wrappers
  import opened Tensors

  /** `np.tile(x, [1, 1, k])`: the whole channel block of every step laid out
      `k` times in a row. */
  function TileChannels(x: Tensor, k: nat): (r: Tensor)
    requires x.Valid()
    ensures r.Valid() && r.batch == x.batch && r.steps == x.steps
    ensures r.channels == x.channels * k
    ensures forall b, t, j :: 0 <= b < r.batch && 0 <= t < r.steps && 0 <= j < r.channels ==>
      r.data[b][t][j] == x.data[b][t][j % x.channels]
  {
    if x.channels == 0 then
      Tensor(x.batch, x.steps, 0, seq(x.batch, _ => seq(x.steps, _ => [])))
    else
      var w := x.channels * k;
      Tensor(x.batch, x.steps, w,
        seq(x.batch, b requires 0 <= b < x.batch =>
          seq(x.steps, t requires 0 <= t < x.steps =>
            seq(w, j requires 0 <= j < w => x.data[b][t][j % x.channels]))))
  }

  datatype ScaleError =
    | ZeroDivision                               // `int(C_y / 0)` for an output with no channels
    | ChannelMismatch(got: nat, expected: nat)   // the tiled block does not reshape to the target's shape
    | EmptyReshape                               // `reshape(0, -1)`: no rows to infer the width from

  /** `if outputs.shape[-1] != C_y: outputs = np.tile(outputs, [1, 1, int(C_y / C_out)])`. */
  function MatchChannels(x: Tensor, cy: nat): (r: Result<Tensor, ScaleError>)
    requires x.Valid()
    ensures r.Err? <==> x.channels != cy && x.channels == 0
    ensures x.channels == cy ==> r == Ok(x)
    ensures r.Ok? ==> r.value.Valid() && r.value.batch == x.batch && r.value.steps == x.steps
    ensures r.Ok? && x.channels != cy ==>
      && r.value.channels == x.channels * (cy / x.channels)
      && forall b, t, j :: 0 <= b < x.batch && 0 <= t < x.steps && 0 <= j < r.value.channels ==>
           r.value.data[b][t][j] == x.data[b][t][j % x.channels]
  {
    if x.channels == cy then Ok(x)
    else if x.channels == 0 then Err(ZeroDivision)
    else Ok(TileChannels(x, cy / x.channels))
  }

  /** Tiling reaches the target's channel count exactly when the output's
      channel count divides it; otherwise the later reshape fails. */
  lemma MatchChannelsExact(x: Tensor, cy: nat)
    requires x.Valid() && x.channels > 0
    ensures MatchChannels(x, cy).Ok?
    ensures MatchChannels(x, cy).value.channels == cy <==> cy % x.channels == 0
  {
    var c := x.channels;
    if x.channels != cy {
      assert cy == c * (cy / c) + cy % c;
    }
  }

  /** Whether tiling reaches `C_y` channels, for every output channel count:
      it does when the counts already match, or when the output has channels
      and their count divides `C_y`. */
  lemma MatchChannelsWidth(x: Tensor, cy: nat)
    requires x.Valid()
    ensures (MatchChannels(x, cy).Ok? && MatchChannels(x, cy).value.channels == cy) <==>
      (x.channels == cy || (x.channels > 0 && cy % x.channels == 0))
  {
    if x.channels > 0 {
      MatchChannelsExact(x, cy);
    }
  }

  /** A univariate output is broadcast to every target channel: each step's
      single value is repeated `C_y` times. */
  lemma MatchSingleChannel(x: Tensor, cy: nat)
    requires x.Valid() && x.channels == 1
    ensures var r := MatchChannels(x, cy);
      && r.Ok? && r.value.channels == cy
      && forall b, t, j :: 0 <= b < x.batch && 0 <= t < x.steps && 0 <= j < cy ==>
           r.value.data[b][t][j] == x.data[b][t][0]
  {
  }

  /** One step of a tiled univariate output: its single value, `C_y` times. */
  lemma MatchSingleChannelAt(x: Tensor, cy: nat, b: nat, t: nat)
    requires x.Valid() && x.channels == 1 && b < x.batch && t < x.steps
    ensures MatchChannels(x, cy).Ok? && MatchChannels(x, cy).value.data[b][t] == Fill(cy, x.data[b][t][0])
  {
    MatchSingleChannel(x, cy);
    var tiled := MatchChannels(x, cy).value;
    assert |tiled.data[b][t]| == cy;
  }

  /** `x.reshape(B * T, -1)`: the step rows of all samples, sample after sample. */
  function Flatten(x: Tensor): (m: seq<seq<real>>)
    requires x.Valid()
    ensures |m| == x.batch * x.steps && Uniform(m, x.channels)
  {
    assert Uniform(x.data, x.steps);
    ConcatLength(x.data, x.steps);
    ConcatUniform(x.data, x.channels);
    Concat(x.data)
  }

  /** All entries in row-major order, the order elementwise losses see them in. */
  function Elements(x: Tensor): (e: seq<real>)
    requires x.Valid()
    ensures |e| == x.batch * x.steps * x.channels
  {
    var m := Flatten(x);
    ConcatLength(m, x.channels);
    Concat(m)
  }

  /** Row `b * T + t` of the flattened matrix is time step `t` of sample `b`. */
  lemma FlattenAt(x: Tensor, b: nat, t: nat)
    requires x.Valid() && b < x.batch && t < x.steps
    ensures b * x.steps + t < |Flatten(x)| && Flatten(x)[b * x.steps + t] == x.data[b][t]
  {
    ConcatAt(x.data, x.steps, b, t);
  }

  /** `m.reshape((B, T, C))`: consecutive runs of `T` rows become samples. */
  function Unflatten(m: seq<seq<real>>, batch: nat, steps: nat, channels: nat): (r: Tensor)
    requires |m| == batch * steps && Uniform(m, channels)
    ensures r.Valid() && r.batch == batch && r.steps == steps && r.channels == channels
  {
    var data := Chunks(m, batch, steps);
    assert forall b, t :: 0 <= b < batch && 0 <= t < steps ==> |data[b][t]| == channels by {
      forall b, t | 0 <= b < batch && 0 <= t < steps ensures |data[b][t]| == channels {
        ChunksAt(m, batch, steps, b, t);
      }
    }
    Tensor(batch, steps, channels, data)
  }

  /** Reshaping to `[B*T, C]` and back is the identity. */
  lemma UnflattenFlatten(x: Tensor)
    requires x.Valid()
    ensures Unflatten(Flatten(x), x.batch, x.steps, x.channels) == x
  {
    assert Uniform(x.data, x.steps);
    ChunksConcat(x.data, x.steps);
  }

  /** Reshaping `[B*T, C]` to `[B, T, C]` and back is the identity. */
  lemma FlattenUnflatten(m: seq<seq<real>>, batch: nat, steps: nat, channels: nat)
    requires |m| == batch * steps && Uniform(m, channels)
    ensures Flatten(Unflatten(m, batch, steps, channels)) == m
  {
    ConcatChunks(m, batch, steps);
  }

  /** The dataset's `inverse_transform` seen row by row: it maps every row of
      `c` values to a row of `c` values. */
  ghost predicate RowMap(f: seq<real> -> seq<real>, c: nat) {
    forall row: seq<real> :: |row| == c ==> |f(row)| == c
  }

  function MapRows(m: seq<seq<real>>, f: seq<real> -> seq<real>): (r: seq<seq<real>>)
    ensures |r| == |m| && forall i :: 0 <= i < |m| ==> r[i] == f(m[i])
  {
    if m == [] then [] else [f(m[0])] + MapRows(m[1..], f)
  }

  /** `inverse_transform(x.reshape(B * T, -1)).reshape((B, T, C))`. */
  function InverseSteps(x: Tensor, inv: seq<real> -> seq<real>): (r: Tensor)
    requires x.Valid() && RowMap(inv, x.channels)
    ensures r.Valid() && SameShape(r, x)
  {
    var rows := MapRows(Flatten(x), inv);
    Unflatten(rows, x.batch, x.steps, x.channels)
  }

  /** Inverse scaling acts step by step: every time step of every sample is
      transformed on its own and stays where it was. */
  lemma InverseStepwise(x: Tensor, inv: seq<real> -> seq<real>, b: nat, t: nat)
    requires x.Valid() && RowMap(inv, x.channels) && b < x.batch && t < x.steps
    ensures InverseSteps(x, inv).data[b][t] == inv(x.data[b][t])
  {
    var rows := MapRows(Flatten(x), inv);
    FlattenAt(x, b, t);
    ChunksAt(rows, x.batch, x.steps, b, t);
  }

  /** A fitted standard scaler: per-feature `mean_` and `scale_`. */
  datatype StandardScaler = StandardScaler(mean: seq<real>, scale: seq<real>)
  {
    /** What fitting guarantees: one mean and one positive scale per feature
        (a zero variance is stored as scale 1). */
    predicate Fitted() {
      |mean| == |scale| && forall j :: 0 <= j < |scale| ==> scale[j] > 0.0
    }

    /** `(row - mean_) / scale_`. */
    function TransformRow(row: seq<real>): (r: seq<real>)
      requires Fitted() && |row| == |mean|
      ensures |r| == |row|
    {
      seq(|row|, j requires 0 <= j < |row| => (row[j] - mean[j]) / scale[j])
    }

    /** `row * scale_ + mean_`. */
    function InverseRow(row: seq<real>): (r: seq<real>)
      requires Fitted() && |row| == |mean|
      ensures |r| == |row|
    {
      seq(|row|, j requires 0 <= j < |row| => row[j] * scale[j] + mean[j])
    }
  }

  /** The fitted scaler's inverse transform, on rows of its own width, is a
      row map for its feature count, so it can stand for the dataset's
      `inverse_transform` in the test and predict loops. */
  lemma ScalerInverseIsRowMap(s: StandardScaler)
    requires s.Fitted()
    ensures RowMap(row => if |row| == |s.mean| then s.InverseRow(row) else row, |s.mean|)
  {
    var f := row => if |row| == |s.mean| then s.InverseRow(row) else row;
    forall row: seq<real> | |row| == |s.mean| ensures |f(row)| == |s.mean| {
      assert f(row) == s.InverseRow(row);
    }
  }

  /** Inverse-transforming a transformed row gives the row back. */
  lemma InverseAfterTransform(s: StandardScaler, row: seq<real>)
    requires s.Fitted() && |row| == |s.mean|
    ensures s.InverseRow(s.TransformRow(row)) == row
  {
    var z := s.TransformRow(row);
    forall j | 0 <= j < |row| ensures s.InverseRow(z)[j] == row[j] {
      assert z[j] * s.scale[j] == row[j] - s.mean[j];
    }
  }

  /** Transforming an inverse-transformed row gives the row back. */
  lemma TransformAfterInverse(s: StandardScaler, row: seq<real>)
    requires s.Fitted() && |row| == |s.mean|
    ensures s.TransformRow(s.InverseRow(row)) == row
  {
    var z := s.InverseRow(row);
    forall j | 0 <= j < |row| ensures s.TransformRow(z)[j] == row[j] {
      assert z[j] - s.mean[j] == row[j] * s.scale[j];
    }
  }
}
