/**
 * Dense three-dimensional tensors `[batch, steps, channels]` of exact reals,
 * and the sequence-level helpers (concatenation and chunking) that the
 * reshapes between `[B, T, C]` and `[B*T, C]` are built from.
 */
module Tensors {

  /** A `[batch, steps, channels]` tensor. The dimensions are kept explicitly so
      that shapes with a zero extent (an empty horizon, say) still carry their
      other dimensions, as they do in torch and numpy. */
  datatype Tensor = Tensor(batch: nat, steps: nat, channels: nat, data: seq<seq<seq<real>>>)
  {
    /** The data is rectangular and agrees with the stated dimensions. */
    predicate Valid() {
      && |data| == batch
      && (forall b :: 0 <= b < batch ==> |data[b]| == steps)
      && (forall b, t :: 0 <= b < batch && 0 <= t < steps ==> |data[b][t]| == channels)
    }
  }

  predicate SameShape(a: Tensor, b: Tensor) {
    a.batch == b.batch && a.steps == b.steps && a.channels == b.channels
  }

  /** `n` copies of `v`. */
  function Fill<T>(n: nat, v: T): (r: seq<T>)
    ensures |r| == n && forall i :: 0 <= i < n ==> r[i] == v
  {
    if n == 0 then [] else [v] + Fill(n - 1, v)
  }

  /** One time step whose `c` channels are all zero. */
  function ZeroStep(c: nat): seq<real> {
    Fill(c, 0.0)
  }

  /** `torch.zeros((b, t, c))`. */
  function Zeros(b: nat, t: nat, c: nat): (z: Tensor)
    ensures z.Valid() && z.batch == b && z.steps == t && z.channels == c
    ensures forall i, j, k :: 0 <= i < b && 0 <= j < t && 0 <= k < c ==> z.data[i][j][k] == 0.0
  {
    Tensor(b, t, c, Fill(b, Fill(t, ZeroStep(c))))
  }

  /** Element `i` of the result is `a[i]` followed by `b[i]`. */
  function ZipAppend<T>(a: seq<seq<T>>, b: seq<seq<T>>): (r: seq<seq<T>>)
    requires |a| == |b|
    ensures |r| == |a| && forall i :: 0 <= i < |a| ==> r[i] == a[i] + b[i]
  {
    if a == [] then [] else [a[0] + b[0]] + ZipAppend(a[1..], b[1..])
  }

  /** Concatenation of a sequence of sequences, in order. */
  function Concat<T>(s: seq<seq<T>>): seq<T> {
    if s == [] then [] else s[0] + Concat(s[1..])
  }

  /** Every element of `s` has length `w`. */
  predicate Uniform<T>(s: seq<seq<T>>, w: nat) {
    forall i :: 0 <= i < |s| ==> |s[i]| == w
  }

  lemma {:induction false} ConcatLength<T>(s: seq<seq<T>>, w: nat)
    requires Uniform(s, w)
    ensures |Concat(s)| == |s| * w
  {
    if s != [] {
      ConcatLength(s[1..], w);
      MulPred(|s|, w);
    }
  }

  /** Peels one factor off a product. */
  lemma MulPred(i: nat, w: nat)
    requires i > 0
    ensures i * w == w + (i - 1) * w && (i - 1) * w >= 0
  {
  }

  /** A product of three counts is zero exactly when one of them is. */
  lemma ProductZero(a: nat, b: nat, c: nat)
    ensures a * b * c == 0 <==> a == 0 || b == 0 || c == 0
  {
    if a > 0 && b > 0 && c > 0 {
      assert a * b >= 1;
      assert a * b * c >= 1;
    }
  }

  /** Element `i * w + j` of a concatenation of width-`w` pieces is element `j`
      of piece `i`. */
  lemma {:induction false} ConcatAt<T>(s: seq<seq<T>>, w: nat, i: nat, j: nat)
    requires Uniform(s, w) && i < |s| && j < w
    ensures |Concat(s)| == |s| * w && i * w + j < |Concat(s)|
    ensures Concat(s)[i * w + j] == s[i][j]
    decreases i
  {
    ConcatLength(s, w);
    ConcatLength(s[1..], w);
    assert Concat(s) == s[0] + Concat(s[1..]);
    if i > 0 {
      ConcatAt(s[1..], w, i - 1, j);
      MulPred(i, w);
    }
  }

  /** Cuts `rows` into `n` consecutive pieces of `w` elements each. */
  function Chunks<T>(rows: seq<T>, n: nat, w: nat): (r: seq<seq<T>>)
    requires |rows| == n * w
    ensures |r| == n && Uniform(r, w)
    decreases n
  {
    if n == 0 then []
    else
      MulPred(n, w);
      [rows[..w]] + Chunks(rows[w..], n - 1, w)
  }

  lemma {:induction false} ChunksAt<T>(rows: seq<T>, n: nat, w: nat, i: nat, j: nat)
    requires |rows| == n * w && i < n && j < w
    ensures i * w + j < |rows| && Chunks(rows, n, w)[i][j] == rows[i * w + j]
    decreases n
  {
    MulPred(n, w);
    var rest := Chunks(rows[w..], n - 1, w);
    assert Chunks(rows, n, w) == [rows[..w]] + rest;
    if i > 0 {
      ChunksAt(rows[w..], n - 1, w, i - 1, j);
      MulPred(i, w);
      assert Chunks(rows, n, w)[i] == rest[i - 1];
    }
  }

  /** Chunking undoes concatenation of equal-width pieces. */
  lemma {:induction false} ChunksConcat<T>(s: seq<seq<T>>, w: nat)
    requires Uniform(s, w)
    ensures |Concat(s)| == |s| * w && Chunks(Concat(s), |s|, w) == s
    decreases |s|
  {
    ConcatLength(s, w);
    if s != [] {
      var rest := Concat(s[1..]);
      assert Concat(s) == s[0] + rest;
      ChunksConcat(s[1..], w);
      MulPred(|s|, w);
      assert Concat(s)[..w] == s[0];
      assert Concat(s)[w..] == rest;
      assert [s[0]] + s[1..] == s;
    }
  }

  /** Concatenation undoes chunking. */
  lemma {:induction false} ConcatChunks<T>(rows: seq<T>, n: nat, w: nat)
    requires |rows| == n * w
    ensures Concat(Chunks(rows, n, w)) == rows
    decreases n
  {
    if n > 0 {
      MulPred(n, w);
      var rest := Chunks(rows[w..], n - 1, w);
      ConcatChunks(rows[w..], n - 1, w);
      assert Chunks(rows, n, w) == [rows[..w]] + rest;
      assert ([rows[..w]] + rest)[1..] == rest;
      assert rows[..w] + rows[w..] == rows;
    }
  }

  /** When every piece holds rows of width `c`, so does their concatenation. */
  lemma {:induction false} ConcatUniform<T>(s: seq<seq<seq<T>>>, c: nat)
    requires forall i, j :: 0 <= i < |s| && 0 <= j < |s[i]| ==> |s[i][j]| == c
    ensures Uniform(Concat(s), c)
  {
    if s != [] {
      ConcatUniform(s[1..], c);
      var r := Concat(s);
      assert r == s[0] + Concat(s[1..]);
      forall k | 0 <= k < |r| ensures |r[k]| == c {
        if k >= |s[0]| {
          assert r[k] == Concat(s[1..])[k - |s[0]|];
        }
      }
    }
  }

  /** Total number of samples in a list of tensors. */
  function TotalBatch(parts: seq<Tensor>): nat {
    if parts == [] then 0 else parts[0].batch + TotalBatch(parts[1..])
  }

  /** Every part is well formed and has the given steps and channels. */
  predicate Conforming(parts: seq<Tensor>, steps: nat, channels: nat) {
    forall i :: 0 <= i < |parts| ==>
      parts[i].Valid() && parts[i].steps == steps && parts[i].channels == channels
  }

  /** Appending a part adds its samples to the total. */
  lemma {:induction false} TotalBatchAppend(parts: seq<Tensor>, x: Tensor)
    ensures TotalBatch(parts + [x]) == TotalBatch(parts) + x.batch
  {
    if parts == [] {
      assert parts + [x] == [x];
    } else {
      assert (parts + [x])[1..] == parts[1..] + [x];
      TotalBatchAppend(parts[1..], x);
    }
  }

  /** `np.concatenate(parts, axis=0)` for parts of one step and channel count. */
  function JoinBatches(parts: seq<Tensor>, steps: nat, channels: nat): (r: Tensor)
    requires Conforming(parts, steps, channels)
    ensures r.Valid() && r.batch == TotalBatch(parts) && r.steps == steps && r.channels == channels
  {
    if parts == [] then Tensor(0, steps, channels, [])
    else
      var rest := JoinBatches(parts[1..], steps, channels);
      Tensor(parts[0].batch + rest.batch, steps, channels, parts[0].data + rest.data)
  }

  /** Sample `b` of part `i` lands after all samples of the parts before it. */
  lemma {:induction false} JoinBatchesAt(parts: seq<Tensor>, steps: nat, channels: nat, i: nat, b: nat)
    requires Conforming(parts, steps, channels) && i < |parts| && b < parts[i].batch
    ensures var r := JoinBatches(parts, steps, channels);
      TotalBatch(parts[..i]) + b < r.batch && r.data[TotalBatch(parts[..i]) + b] == parts[i].data[b]
  {
    if i > 0 {
      JoinBatchesAt(parts[1..], steps, channels, i - 1, b);
      assert parts[..i][1..] == parts[1..][..i - 1];
    } else {
      assert parts[..0] == [];
    }
  }
}
