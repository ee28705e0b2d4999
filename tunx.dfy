/** The structural rules of the rotary-embedding transformer (`model/tunx.py`) that do not depend on
    numerics: the additive causal mask built once per forward call, how it is added to the attention
    scores, the broadcast shape of the rotary table, the slicing of the precomputed rotary table, and
    which blocks get a dense feed-forward network rather than a mixture of experts. The table
    entries, projections and normalisations are not modelled. */
module Tunx {
  import opened Common
  import opened Shapes

  /** A score or mask entry: a real number or negative infinity. */
  datatype ExtReal = NegInf | Finite(r: real)

  /** `x + m` with IEEE negative infinity absorbing any finite value. */
  function ExtAdd(x: real, m: ExtReal): ExtReal
  {
    match m
    case NegInf => NegInf
    case Finite(v) => Finite(x + v)
  }

  /** `Tunx.forward`: no mask at all for a single position (or none), otherwise
      `torch.full((L, L), -inf).triu_(1)`: negative infinity strictly above the diagonal
      and zero on and below it. */
  function CausalMask(seqLen: nat): (m: Option<seq<seq<ExtReal>>>)
    ensures m.None? <==> seqLen <= 1
    ensures m.Some? ==> |m.value| == seqLen && Rectangular(m.value, seqLen)
    ensures m.Some? ==> forall i, j :: 0 <= i < seqLen && 0 <= j < seqLen ==>
      (m.value[i][j] == NegInf <==> j > i) && (j <= i ==> m.value[i][j] == Finite(0.0))
  {
    if seqLen > 1 then Some(Triu(Full(seqLen, seqLen, NegInf), 1, Finite(0.0))) else None
  }

  /** `Attention.forward`: `scores = scores + mask` for the `(L, L)` score matrix of one batch
      element and head, where the mask is the one `Tunx.forward` built for the same `L`. */
  function MaskScores(scores: seq<seq<real>>): (r: seq<seq<ExtReal>>)
    requires Rectangular(scores, |scores|)
    ensures |r| == |scores| && Rectangular(r, |scores|)
  {
    var n := |scores|;
    var mask := CausalMask(n);
    seq(n, i requires 0 <= i < n => seq(n, j requires 0 <= j < n =>
      if mask.None? then Finite(scores[i][j]) else ExtAdd(scores[i][j], mask.value[i][j])))
  }

  /** Query `i` loses exactly the keys after it and keeps its own score and every earlier one
      unchanged, so no row of the masked scores is entirely negative infinity. */
  lemma MaskScoresCausal(scores: seq<seq<real>>, i: nat, j: nat)
    requires Rectangular(scores, |scores|)
    requires i < |scores| && j < |scores|
    ensures MaskScores(scores)[i][j] == NegInf <==> j > i
    ensures j <= i ==> MaskScores(scores)[i][j] == Finite(scores[i][j])
    ensures MaskScores(scores)[i][i] == Finite(scores[i][i])
  {
    var mask := CausalMask(|scores|);
    if mask.Some? {
      assert mask.value[i][j] == NegInf <==> j > i;
      assert mask.value[i][i] == Finite(0.0);
    }
  }

  /** The shape `reshape_for_broadcast` computes for `x`: dimension 1 and the last dimension of `x`
      are kept and every other dimension is 1. */
  function BroadcastTarget(xShape: seq<nat>): (shape: seq<nat>)
    ensures |shape| == |xShape|
  {
    seq(|xShape|, i requires 0 <= i < |xShape| => if i == 1 || i == |xShape| - 1 then xShape[i] else 1)
  }

  /** `reshape_for_broadcast`: both assertions, then `view` to the computed shape, which fails when
      that shape does not hold as many elements as the table. */
  function BroadcastShape(freqsShape: seq<nat>, xShape: seq<nat>): Result<seq<nat>, Exception>
  {
    var ndim := |xShape|;
    if !(0 <= 1 < ndim) then Failure(AssertionError)
    else if freqsShape != [xShape[1], xShape[ndim - 1]] then Failure(AssertionError)
    else
      var shape := BroadcastTarget(xShape);
      if Product(shape) != Product(freqsShape) then Failure(RuntimeError) else Success(shape)
  }

  /** A shape that is 1 everywhere except at position 1 and the last position. */
  lemma {:induction false} ProductOfBroadcast(shape: seq<nat>, p: nat)
    requires 2 <= p <= |shape|
    requires forall i :: 0 <= i < p && i != 1 ==> shape[i] == 1
    ensures Product(shape[..p]) == shape[1]
  {
    if p == 2 {
      var pre := shape[..p];
      assert pre[..1] == [shape[0]] && pre[..1][..0] == [];
      assert Product(pre[..1]) == Product(pre[..1][..0]) * shape[0] == 1;
      assert Product(pre) == Product(pre[..1]) * pre[1];
    } else {
      ProductOfBroadcast(shape, p - 1);
      assert shape[..p][..p - 1] == shape[..p - 1];
    }
  }

  lemma ProductPair(a: nat, b: nat)
    ensures Product([a, b]) == a * b
  {
    var s := [a, b];
    assert s[..1] == [a] && [a][..0] == [];
    assert Product([a]) == Product([a][..0]) * a == a;
    assert Product(s) == Product(s[..1]) * s[1];
  }

  /** The element count of the computed shape: the kept dimensions multiplied for rank 3 or more,
      and only dimension 1 for rank 2, where the two kept dimensions coincide. */
  lemma BroadcastTargetProduct(xShape: seq<nat>)
    requires |xShape| >= 2
    ensures |xShape| >= 3 ==> Product(BroadcastTarget(xShape)) == xShape[1] * xShape[|xShape| - 1]
    ensures |xShape| == 2 ==> Product(BroadcastTarget(xShape)) == xShape[1]
  {
    var shape := BroadcastTarget(xShape);
    var ndim := |xShape|;
    if ndim >= 3 {
      ProductOfBroadcast(shape, ndim - 1);
      assert shape[..ndim] == shape;
    } else {
      assert shape == [1, xShape[1]];
      ProductPair(1, xShape[1]);
    }
  }

  /** For a tensor of rank at least 3 the view always succeeds once the table has shape
      `(x.shape[1], x.shape[-1])`; for rank 2 it succeeds only when `x.shape[1] <= 1`, because the
      computed shape `[1, x.shape[1]]` holds fewer elements than the table otherwise. On success the
      shape keeps dimension 1 and the last dimension and is 1 elsewhere. */
  lemma BroadcastShapeSpec(freqsShape: seq<nat>, xShape: seq<nat>)
    ensures BroadcastShape(freqsShape, xShape).Success? <==>
      (|xShape| >= 2 && freqsShape == [xShape[1], xShape[|xShape| - 1]] && (|xShape| >= 3 || xShape[1] <= 1))
    ensures BroadcastShape(freqsShape, xShape).Success? ==>
      var shape := BroadcastShape(freqsShape, xShape).value;
      |shape| == |xShape| && shape[1] == xShape[1] && shape[|xShape| - 1] == xShape[|xShape| - 1] &&
      forall i :: 0 <= i < |xShape| && i != 1 && i != |xShape| - 1 ==> shape[i] == 1
  {
    var ndim := |xShape|;
    if ndim >= 2 && freqsShape == [xShape[1], xShape[ndim - 1]] {
      ProductPair(xShape[1], xShape[ndim - 1]);
      BroadcastTargetProduct(xShape);
    }
  }

  /** The shape of `precompute_freqs_cis(dim // n_heads, max_seq_len * 2)`: one row per position up
      to twice the maximum sequence length, one column per channel pair of a head. `Tunx.__init__`
      divides with `//` itself, so only a zero head count fails here; the divisibility assertion
      belongs to the attention layers. */
  function FreqsTableShape(dim: nat, nHeads: nat, maxSeqLen: nat): (r: Result<seq<nat>, Exception>)
    ensures r.Failure? <==> nHeads == 0
    ensures r.Failure? ==> r.error == ZeroDivisionError
    ensures r.Success? ==>
      |r.value| == 2 && r.value[0] == 2 * maxSeqLen &&
      2 * r.value[1] * nHeads <= dim < (2 * r.value[1] + 2) * nHeads
  {
    if nHeads == 0 then Failure(ZeroDivisionError)
    else
      var headDim := dim / nHeads;
      var pairs := headDim / 2;
      DivBounds(dim, nHeads);
      DivBounds(headDim, 2);
      MulMono(2 * pairs, headDim, nHeads);
      MulMono(headDim + 1, 2 * pairs + 2, nHeads);
      assert (headDim + 1) * nHeads == headDim * nHeads + nHeads;
      Success([maxSeqLen * 2, pairs])
  }

  /** The table is built from `dim // n_heads` even when the split is uneven, which the attention
      layers reject; when they accept it, its column count is half their head width. */
  lemma FreqsTableWithHeadDim(dim: nat, nHeads: nat, maxSeqLen: nat)
    requires nHeads > 0
    ensures FreqsTableShape(dim, nHeads, maxSeqLen).Success?
    ensures HeadDim(dim, nHeads).Success? ==>
      FreqsTableShape(dim, nHeads, maxSeqLen).value == [2 * maxSeqLen, HeadDim(dim, nHeads).value / 2]
    ensures dim % nHeads != 0 ==> HeadDim(dim, nHeads) == Failure(AssertionError)
  {
  }

  /** `self.freqs_cis[:seq_len]`: the row count is clipped to the table. */
  function SliceRowsShape(tableShape: seq<nat>, seqLen: nat): seq<nat>
    requires |tableShape| == 2
  {
    [Min(seqLen, tableShape[0]), tableShape[1]]
  }

  /** The table slice that reaches `apply_rotary_emb` for queries of shape `[B, L, H, head_dim / 2]`
      (after the complex view) broadcasts exactly when `L` is at most the `2 * max_seq_len`
      precomputed rows, and then it is viewed as `[1, L, 1, head_dim / 2]`. The queries' last
      dimension is the floor of `head_dim / 2`; for an odd `head_dim` the complex view
      `view(*x.shape[:-1], -1, 2)` in `apply_rotary_emb` already raises, before this broadcast. */
  lemma RotarySliceBroadcast(dim: nat, nHeads: nat, maxSeqLen: nat, batch: nat, seqLen: nat)
    requires HeadDim(dim, nHeads).Success?
    ensures var table := FreqsTableShape(dim, nHeads, maxSeqLen);
      var half := HeadDim(dim, nHeads).value / 2;
      var r := BroadcastShape(SliceRowsShape(table.value, seqLen), [batch, seqLen, nHeads, half]);
      table.Success? && (r.Success? <==> seqLen <= 2 * maxSeqLen) &&
      (r.Success? ==> r.value == [1, seqLen, 1, half])
  {
    var half := HeadDim(dim, nHeads).value / 2;
    var table := FreqsTableShape(dim, nHeads, maxSeqLen);
    var xShape := [batch, seqLen, nHeads, half];
    BroadcastShapeSpec(SliceRowsShape(table.value, seqLen), xShape);
    var r := BroadcastShape(SliceRowsShape(table.value, seqLen), xShape);
    if r.Success? {
      assert r.value == [1, seqLen, 1, half];
    }
  }

  /** The feed-forward kind of one transformer block. */
  datatype FfnKind = Dense | MoE

  /** `TransformerBlock.__init__`: a dense feed-forward network below `n_dense_layers`, otherwise
      a mixture-of-experts layer. */
  function LayerKind(layerId: nat, nDenseLayers: nat): FfnKind
  {
    if layerId < nDenseLayers then Dense else MoE
  }

  /** `Tunx.__init__`: block `idx` for every `idx` in `range(n_layers)`. */
  function LayerKinds(nLayers: nat, nDenseLayers: nat): (kinds: seq<FfnKind>)
    ensures |kinds| == nLayers
    ensures forall i :: 0 <= i < nLayers ==> (kinds[i] == Dense <==> i < nDenseLayers)
  {
    seq(nLayers, i requires 0 <= i < nLayers => LayerKind(i, nDenseLayers))
  }

  function CountDense(kinds: seq<FfnKind>): nat
  {
    if kinds == [] then 0
    else CountDense(kinds[..|kinds| - 1]) + (if kinds[|kinds| - 1] == Dense then 1 else 0)
  }

  /** The dense blocks are the first `min(n_layers, n_dense_layers)` blocks: there are exactly that
      many of them, and no mixture-of-experts block comes before a dense one. */
  lemma {:induction false} DenseLayersPrefix(nLayers: nat, nDenseLayers: nat)
    ensures CountDense(LayerKinds(nLayers, nDenseLayers)) == Min(nLayers, nDenseLayers)
    ensures forall i, j :: 0 <= i < j < nLayers && LayerKinds(nLayers, nDenseLayers)[j] == Dense ==>
      LayerKinds(nLayers, nDenseLayers)[i] == Dense
  {
    if nLayers > 0 {
      DenseLayersPrefix(nLayers - 1, nDenseLayers);
      assert LayerKinds(nLayers, nDenseLayers)[..nLayers - 1] == LayerKinds(nLayers - 1, nDenseLayers);
    }
  }
}
