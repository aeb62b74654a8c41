/** The mask generators for coupling layers and the sampling-shape arithmetic
    of tools.py. Masks are rank-4 tensors [batch][channel][height][width] whose
    entries are 0 or 1; the source stores them as float32, here they are `int`. */
module Tools {
  import opened Wrappers

  /** A rank-4 tensor, indexed [batch][channel][height][width]. */
  type Tensor4 = seq<seq<seq<seq<int>>>>

  /** `t` is a non-ragged n0 x n1 x n2 x n3 tensor. */
  predicate HasShape(t: Tensor4, n0: nat, n1: nat, n2: nat, n3: nat)
  {
    && |t| == n0
    && (forall a | 0 <= a < n0 :: |t[a]| == n1)
    && (forall a, b | 0 <= a < n0 && 0 <= b < n1 :: |t[a][b]| == n2)
    && (forall a, b, i | 0 <= a < n0 && 0 <= b < n1 && 0 <= i < n2 :: |t[a][b][i]| == n3)
  }

  /** `r` and `t` have the same (possibly ragged) shape. */
  predicate SameShape(r: Tensor4, t: Tensor4)
  {
    && |r| == |t|
    && (forall a | 0 <= a < |t| :: |r[a]| == |t[a]|)
    && (forall a, b | 0 <= a < |t| && 0 <= b < |t[a]| :: |r[a][b]| == |t[a][b]|)
    && (forall a, b, i | 0 <= a < |t| && 0 <= b < |t[a]| && 0 <= i < |t[a][b]| ::
          |r[a][b][i]| == |t[a][b][i]|)
  }

  /** Every entry of `t` is 0 or 1. */
  predicate IsBinary(t: Tensor4)
  {
    forall a, b, i, j | 0 <= a < |t| && 0 <= b < |t[a]| && 0 <= i < |t[a][b]| && 0 <= j < |t[a][b][i]| ::
      t[a][b][i][j] == 0 || t[a][b][i][j] == 1
  }

  /** `r` is the elementwise `1 - t`, with the shape of `t`. */
  predicate IsComplementOf(r: Tensor4, t: Tensor4)
  {
    && SameShape(r, t)
    && (forall a, b, i, j | 0 <= a < |t| && 0 <= b < |t[a]| && 0 <= i < |t[a][b]| && 0 <= j < |t[a][b][i]| ::
          r[a][b][i][j] == 1 - t[a][b][i][j])
  }

  /** The `1 - mask` of the `invert` branches. */
  function Complement(t: Tensor4): (r: Tensor4)
    ensures IsComplementOf(r, t)
  {
    seq(|t|, a requires 0 <= a < |t| =>
      seq(|t[a]|, b requires 0 <= b < |t[a]| =>
        seq(|t[a][b]|, i requires 0 <= i < |t[a][b]| =>
          seq(|t[a][b][i]|, j requires 0 <= j < |t[a][b][i]| => 1 - t[a][b][i][j]))))
  }

  /** Two tensors of the same shape that agree at every index are equal. */
  lemma TensorExtensionality(r: Tensor4, t: Tensor4)
    requires SameShape(r, t)
    requires forall a, b, i, j | 0 <= a < |t| && 0 <= b < |t[a]| && 0 <= i < |t[a][b]| && 0 <= j < |t[a][b][i]| ::
               r[a][b][i][j] == t[a][b][i][j]
    ensures r == t
  {
    forall a | 0 <= a < |t|
      ensures r[a] == t[a]
    {
      forall b | 0 <= b < |t[a]|
        ensures r[a][b] == t[a][b]
      {
        forall i | 0 <= i < |t[a][b]|
          ensures r[a][b][i] == t[a][b][i]
        {
        }
      }
    }
  }

  /** The complement of a tensor is unique, and complementing twice gives the tensor back. */
  lemma ComplementInvolutive(t: Tensor4)
    ensures Complement(Complement(t)) == t
    ensures forall r | IsComplementOf(r, t) :: r == Complement(t)
  {
    TensorExtensionality(Complement(Complement(t)), t);
    forall r | IsComplementOf(r, t)
      ensures r == Complement(t)
    {
      TensorExtensionality(r, Complement(t));
    }
  }

  /** Complementing keeps a tensor binary. */
  lemma ComplementBinary(t: Tensor4)
    requires IsBinary(t)
    ensures IsBinary(Complement(t))
  {
  }

  // ---------------------------------------------------------------------------
  // create_checkerboard_mask

  /** create_checkerboard_mask(h, w, invert): a 1 x 1 x h x w mask whose cell (i, j)
      is 1 exactly when i + j is odd, the other way round when `invert`. */
  function CheckerboardMask(h: nat, w: nat, invert: bool := false): (m: Tensor4)
    ensures HasShape(m, 1, 1, h, w)
    ensures forall i, j | 0 <= i < h && 0 <= j < w ::
              m[0][0][i][j] == if ((i + j) % 2 == 1) != invert then 1 else 0
  {
    // the parity of the row index plus the column index; both are
    // non-negative, so a truncating remainder and Dafny's % agree
    var grid := seq(h, i => seq(w, j => (i + j) % 2));
    // one batch entry holding one channel
    var mask := [[grid]];
    if invert then Complement(mask) else mask
  }

  /** Every checkerboard entry is 0 or 1, inverted or not. */
  lemma CheckerboardBinary(h: nat, w: nat, invert: bool)
    ensures IsBinary(CheckerboardMask(h, w, invert))
  {
  }

  /** The inverted checkerboard is the complement of the plain one, and the
      other way round; both have the same shape. */
  lemma CheckerboardInvertComplements(h: nat, w: nat)
    ensures CheckerboardMask(h, w, true) == Complement(CheckerboardMask(h, w, false))
    ensures CheckerboardMask(h, w, false) == Complement(CheckerboardMask(h, w, true))
  {
    ComplementInvolutive(CheckerboardMask(h, w, false));
  }

  /** Horizontally and vertically adjacent cells differ, and the top-left cell
      of the plain mask is 0. */
  lemma CheckerboardAlternates(h: nat, w: nat, invert: bool, i: nat, j: nat)
    requires i < h && j < w
    ensures i + 1 < h ==> CheckerboardMask(h, w, invert)[0][0][i][j] != CheckerboardMask(h, w, invert)[0][0][i + 1][j]
    ensures j + 1 < w ==> CheckerboardMask(h, w, invert)[0][0][i][j] != CheckerboardMask(h, w, invert)[0][0][i][j + 1]
    ensures CheckerboardMask(h, w, false)[0][0][0][0] == 0
  {
  }

  // ---------------------------------------------------------------------------
  // create_channel_mask

  /** create_channel_mask(c_in, invert): a 1 x c_in x 1 x 1 mask that is 1 on the
      first c_in // 2 channels and 0 on the rest, the other way round when `invert`. */
  function ChannelMask(cIn: nat, invert: bool := false): (m: Tensor4)
    ensures HasShape(m, 1, cIn, 1, 1)
    ensures forall k | 0 <= k < cIn :: m[0][k][0][0] == if (k < cIn / 2) != invert then 1 else 0
  {
    // the lower half of the channels (rounded down) is 1, the rest 0
    var flat := seq(cIn / 2, _ => 1) + seq(cIn - cIn / 2, _ => 0);
    // one batch entry, each channel a 1 x 1 map
    var mask := [seq(cIn, k requires 0 <= k < cIn => [[flat[k]]])];
    if invert then Complement(mask) else mask
  }

  /** The per-channel values of a 1 x c x 1 x 1 mask. */
  function ChannelValues(m: Tensor4, c: nat): (v: seq<int>)
    requires HasShape(m, 1, c, 1, 1)
  {
    seq(c, k requires 0 <= k < c => m[0][k][0][0])
  }

  /** Every channel-mask entry is 0 or 1, inverted or not. */
  lemma ChannelBinary(cIn: nat, invert: bool)
    ensures IsBinary(ChannelMask(cIn, invert))
  {
  }

  /** The inverted channel mask is the complement of the plain one, and the
      other way round; both have the same shape. */
  lemma ChannelInvertComplements(cIn: nat)
    ensures ChannelMask(cIn, true) == Complement(ChannelMask(cIn, false))
    ensures ChannelMask(cIn, false) == Complement(ChannelMask(cIn, true))
  {
    ComplementInvolutive(ChannelMask(cIn, false));
  }

  lemma {:induction false} ConstantCount(n: nat, v: int)
    ensures multiset(seq(n, _ => v))[v] == n
  {
    if n > 0 {
      ConstantCount(n - 1, v);
      assert seq(n, _ => v) == seq(n - 1, _ => v) + [v];
    }
  }

  /** The plain channel mask holds c_in // 2 ones followed by c_in - c_in // 2
      zeros; for an odd c_in the extra channel is in the zero half. */
  lemma ChannelMaskHalves(cIn: nat)
    ensures var v := ChannelValues(ChannelMask(cIn), cIn);
      && multiset(v)[1] == cIn / 2
      && multiset(v)[0] == cIn - cIn / 2
      && (cIn % 2 == 1 ==> multiset(v)[0] == multiset(v)[1] + 1 && v[cIn - 1] == 0)
  {
    var v := ChannelValues(ChannelMask(cIn), cIn);
    var ones, zeros := seq(cIn / 2, _ => 1), seq(cIn - cIn / 2, _ => 0);
    assert v == ones + zeros;
    ConstantCount(cIn / 2, 1);
    ConstantCount(cIn - cIn / 2, 0);
  }

  // ---------------------------------------------------------------------------
  // Sampling shape in sample_save_show

  /** torch's `.int()` of a float: truncation toward zero. */
  function TruncateToInt(x: real): (r: int)
    ensures 0.0 <= x ==> r as real <= x < r as real + 1.0
    ensures x < 0.0 ==> r as real - 1.0 < x <= r as real
  {
    if x >= 0.0 then x.Floor else -((-x).Floor)
  }

  /** One entry of the sampling shape: a dimension times its factor, truncated. */
  function ScaleDim(d: int, f: real): int
  {
    TruncateToInt(d as real * f)
  }

  /** (cat([num_samples], img_shape) * sample_shape_factor).int(): an elementwise
      product of two 1-d tensors under torch broadcasting (lengths equal, or one
      of them 1), truncated toward zero. None is the broadcasting error. */
  function SampleShape(numSamples: int, imgShape: seq<int>, factor: seq<real>): (r: Option<seq<int>>)
    ensures r.Some? <==> (|factor| == 1 + |imgShape| || |factor| == 1 || |imgShape| == 0)
    ensures |factor| == 1 + |imgShape| ==>
              && |r.value| == 1 + |imgShape|
              && r.value[0] == ScaleDim(numSamples, factor[0])
              && forall k | 0 <= k < |imgShape| :: r.value[k + 1] == ScaleDim(imgShape[k], factor[k + 1])
  {
    var batched := [numSamples] + imgShape;
    assert batched[0] == numSamples && forall k | 0 <= k < |imgShape| :: batched[k + 1] == imgShape[k];
    if |factor| == |batched| then
      Some(seq(|batched|, k requires 0 <= k < |batched| => ScaleDim(batched[k], factor[k])))
    else if |factor| == 1 then
      Some(seq(|batched|, k requires 0 <= k < |batched| => ScaleDim(batched[k], factor[0])))
    else if |batched| == 1 then
      Some(seq(|factor|, k requires 0 <= k < |factor| => ScaleDim(batched[0], factor[k])))
    else
      None
  }

  /** When every product of the batched shape and the factor is a whole number,
      the sampling shape is exactly that list of products. */
  lemma SampleShapeExact(numSamples: int, imgShape: seq<int>, factor: seq<real>, target: seq<int>)
    requires |factor| == 1 + |imgShape| == |target|
    requires numSamples as real * factor[0] == target[0] as real
    requires forall k | 0 <= k < |imgShape| :: imgShape[k] as real * factor[k + 1] == target[k + 1] as real
    ensures SampleShape(numSamples, imgShape, factor) == Some(target)
  {
    var r := SampleShape(numSamples, imgShape, factor).value;
    forall k | 0 <= k < |target|
      ensures r[k] == target[k]
    {
      TruncateWhole(target[k]);
      if k == 0 {
        assert r[0] == ScaleDim(numSamples, factor[0]) == TruncateToInt(target[0] as real);
      } else {
        assert r[k] == ScaleDim(imgShape[k - 1], factor[k]) == TruncateToInt(target[k] as real);
      }
    }
    assert r == target;
  }

  lemma TruncateWhole(n: int)
    ensures TruncateToInt(n as real) == n
  {
  }
}
