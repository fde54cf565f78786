/**
 * The horizon and feature slices applied to model outputs and targets:
 * `x[:, -pred_len:, :]`, `x[:, :label_len, :]` and `x[:, :, f_dim:]`, with
 * Python's slice rules written out (in particular `-0:` keeps everything).
 */
module Slicing {
  import opened Tensors

  /** How many positions `s[-n:]` keeps of a sequence of length `len`. Python
      reads `-0` as `0`, so `n == 0` keeps the whole sequence. */
  function TailLen(len: nat, n: nat): (k: nat)
    ensures k <= len && (1 <= n ==> k <= n)
    ensures k == 0 <==> len == 0
  {
    if n == 0 || n > len then len else n
  }

  /** The start index of the Python slice `s[start:]` on a sequence of length `len`. */
  function SliceStart(len: nat, start: int): nat {
    if start < 0 then (if -start > len then 0 else len + start)
    else if start > len then len
    else start
  }

  /** Every element cut to its first `k` items. */
  function TakeEach<T>(d: seq<seq<T>>, k: nat): (r: seq<seq<T>>)
    requires forall b :: 0 <= b < |d| ==> k <= |d[b]|
    ensures |r| == |d| && forall b :: 0 <= b < |d| ==> r[b] == d[b][..k]
  {
    if d == [] then [] else [d[0][..k]] + TakeEach(d[1..], k)
  }

  /** Every element without its first `k` items. */
  function DropEach<T>(d: seq<seq<T>>, k: nat): (r: seq<seq<T>>)
    requires forall b :: 0 <= b < |d| ==> k <= |d[b]|
    ensures |r| == |d| && forall b :: 0 <= b < |d| ==> r[b] == d[b][k..]
  {
    if d == [] then [] else [d[0][k..]] + DropEach(d[1..], k)
  }

  /** Every element of every element without its first `k` items. */
  function DropInner<T>(d: seq<seq<seq<T>>>, k: nat): (r: seq<seq<seq<T>>>)
    requires forall b, t :: 0 <= b < |d| && 0 <= t < |d[b]| ==> k <= |d[b][t]|
    ensures |r| == |d| && forall b :: 0 <= b < |d| ==> r[b] == DropEach(d[b], k)
  {
    if d == [] then [] else [DropEach(d[0], k)] + DropInner(d[1..], k)
  }

  /** `x[:, -n:, :]`: the last `n` time steps of every sample. */
  function LastSteps(x: Tensor, n: nat): (r: Tensor)
    requires x.Valid()
    ensures r.Valid() && r.batch == x.batch && r.channels == x.channels
    ensures 1 <= n <= x.steps ==> r.steps == n
    ensures n == 0 || n > x.steps ==> r.steps == x.steps
    ensures forall b, t :: 0 <= b < r.batch && 0 <= t < r.steps ==>
      r.data[b][t] == x.data[b][x.steps - r.steps + t]
  {
    var k := TailLen(x.steps, n);
    Tensor(x.batch, k, x.channels, DropEach(x.data, x.steps - k))
  }

  /** `x[:, :n, :]`: the first `n` time steps of every sample (all of them when
      there are fewer). */
  function FirstSteps(x: Tensor, n: nat): (r: Tensor)
    requires x.Valid()
    ensures r.Valid() && r.batch == x.batch && r.channels == x.channels
    ensures r.steps == if n <= x.steps then n else x.steps
    ensures forall b, t :: 0 <= b < r.batch && 0 <= t < r.steps ==> r.data[b][t] == x.data[b][t]
  {
    var k := if n <= x.steps then n else x.steps;
    Tensor(x.batch, k, x.channels, TakeEach(x.data, k))
  }

  /** `x[:, :, start:]`: the channels from `start` on, with Python's rule for a
      negative start. */
  function ChannelsFrom(x: Tensor, start: int): (r: Tensor)
    requires x.Valid()
    ensures r.Valid() && r.batch == x.batch && r.steps == x.steps
    ensures r.channels == x.channels - SliceStart(x.channels, start)
    ensures forall b, t :: 0 <= b < r.batch && 0 <= t < r.steps ==>
      r.data[b][t] == x.data[b][t][SliceStart(x.channels, start)..]
  {
    var k := SliceStart(x.channels, start);
    Tensor(x.batch, x.steps, x.channels - k, DropInner(x.data, k))
  }

  /** `x[:, :, 0:]` keeps everything. */
  lemma ChannelsFromZero(x: Tensor)
    requires x.Valid()
    ensures ChannelsFrom(x, 0) == x
  {
    var r := ChannelsFrom(x, 0);
    forall b | 0 <= b < x.batch ensures r.data[b] == x.data[b] {
      forall t | 0 <= t < x.steps ensures r.data[b][t] == x.data[b][t] {
        assert x.data[b][t][0..] == x.data[b][t];
      }
    }
  }

  /** `f_dim = -1 if features == "MS" else 0`. */
  function FeatureDim(features: string): (d: int)
    ensures -1 <= d <= 0 && (d < 0 <==> features == "MS")
  {
    if features == "MS" then -1 else 0
  }

  /** `x[:, :, f_dim:]`: for "MS" (multivariate input, univariate target) only
      the last channel survives; for every other mode nothing is removed. */
  function FeatureSlice(x: Tensor, features: string): (r: Tensor)
    requires x.Valid()
    ensures r.Valid() && r.batch == x.batch && r.steps == x.steps
    ensures features != "MS" ==> r == x
    ensures features == "MS" && x.channels >= 1 ==>
      r.channels == 1 &&
      forall b, t :: 0 <= b < r.batch && 0 <= t < r.steps ==> r.data[b][t] == [x.data[b][t][x.channels - 1]]
    ensures features == "MS" && x.channels == 0 ==> r.channels == 0
  {
    if features != "MS" then
      ChannelsFromZero(x);
      ChannelsFrom(x, FeatureDim(features))
    else
      var r := ChannelsFrom(x, FeatureDim(features));
      assert forall b, t :: 0 <= b < r.batch && 0 <= t < r.steps && x.channels >= 1 ==>
        r.data[b][t] == x.data[b][t][x.channels - 1..];
      r
  }

  /** How many of `c` channels the feature slice keeps. */
  function FeatureChannels(c: nat, features: string): nat {
    if features != "MS" then c else if c >= 1 then 1 else 0
  }

  /** `x[:, -n:, f_dim:]`, the slice every loss is computed on. */
  function HorizonFeatureSlice(x: Tensor, n: nat, features: string): (r: Tensor)
    requires x.Valid()
    ensures r.Valid() && r.batch == x.batch
    ensures r.steps == TailLen(x.steps, n)
    ensures r.channels == FeatureChannels(x.channels, features)
  {
    FeatureSlice(LastSteps(x, n), features)
  }

  /** Step `t` of the loss slice is step `T - h + t` of the input, where `h` is
      the horizon's length, with all channels, or only the last one for "MS". */
  lemma HorizonFeatureSliceAt(x: Tensor, n: nat, features: string, b: nat, t: nat)
    requires x.Valid() && b < x.batch && t < TailLen(x.steps, n)
    ensures var r := HorizonFeatureSlice(x, n, features);
      var src := x.data[b][x.steps - TailLen(x.steps, n) + t];
      && (features != "MS" ==> r.data[b][t] == src)
      && (features == "MS" && x.channels >= 1 ==> r.data[b][t] == [src[x.channels - 1]])
  {
    var h := LastSteps(x, n);
    assert h.data[b][t] == x.data[b][x.steps - h.steps + t];
  }

  /** Cutting the time axis first and the channel axis afterwards (as the test
      and predict paths do, with the inverse scaling in between) selects the
      same entries as cutting the channels first. */
  lemma SliceOrderIrrelevant(x: Tensor, n: nat, features: string)
    requires x.Valid()
    ensures FeatureSlice(LastSteps(x, n), features) == LastSteps(FeatureSlice(x, features), n)
  {
    if features == "MS" {
      var a := FeatureSlice(LastSteps(x, n), features);
      var b := LastSteps(FeatureSlice(x, features), n);
      forall i | 0 <= i < a.batch ensures a.data[i] == b.data[i] {
        forall t | 0 <= t < a.steps ensures a.data[i][t] == b.data[i][t] {
          SliceOrderIrrelevantAt(x, n, i, t);
        }
      }
      assert a.data == b.data;
    } else {
      assert FeatureSlice(x, features) == x;
      assert FeatureSlice(LastSteps(x, n), features) == LastSteps(x, n);
    }
  }

  /** One step of the "MS" case of `SliceOrderIrrelevant`. */
  lemma SliceOrderIrrelevantAt(x: Tensor, n: nat, i: nat, t: nat)
    requires x.Valid() && i < x.batch && t < TailLen(x.steps, n)
    ensures FeatureSlice(LastSteps(x, n), "MS").data[i][t] == LastSteps(FeatureSlice(x, "MS"), n).data[i][t]
  {
    var h := LastSteps(x, n);
    var f := FeatureSlice(x, "MS");
    assert h.data[i][t] == x.data[i][x.steps - h.steps + t];
    assert LastSteps(f, n).data[i][t] == f.data[i][f.steps - h.steps + t];
    if x.channels == 0 {
      assert FeatureSlice(h, "MS").data[i][t] == [];
      assert LastSteps(f, n).data[i][t] == [];
    }
  }
}
