/** The structural rules of `model/transformer.py`: the causal-attention constructor (head split and
    the registered strict-upper-triangular mask buffer), the per-call slice of that buffer and the
    `masked_fill` it drives, and `FeedForward`, a chain of stages whose residual connection applies
    only where a stage keeps the width. Projections, softmax, dropout and the stage networks'
    arithmetic are not modelled: a stage is an opaque function on rows. */
module Transformer {
  import opened Common
  import opened Shapes

  // ---------------------------------------------------------------------------------------------
  // MultiHeadCausalAttention

  /** The state `MultiHeadCausalAttention.__init__` sets up that the model keeps: widths and the
      registered `mask` buffer. */
  datatype CausalAttention = CausalAttention(dModel: nat, nHeads: nat, dK: nat, mask: seq<seq<real>>)

  /** `torch.triu(torch.ones(max_len, max_len), diagonal=1)`. */
  function MaskBuffer(maxLen: nat): seq<seq<real>>
  {
    Triu(Full(maxLen, maxLen, 1.0), 1, 0.0)
  }

  /** `MultiHeadCausalAttention.__init__`: the divisibility assertion (a zero head count raises
      from `%` first), then `d_k = d_model // n_heads` and the mask buffer, whose entry `(i, j)` is
      1 exactly when key `j` comes after query `i` and 0 otherwise. */
  function NewCausalAttention(dModel: nat, nHeads: nat, maxLen: nat): (r: Result<CausalAttention, Exception>)
    ensures r.Success? <==> nHeads > 0 && dModel % nHeads == 0
    ensures nHeads == 0 ==> r == Failure(ZeroDivisionError)
    ensures nHeads > 0 && dModel % nHeads != 0 ==> r == Failure(AssertionError)
    ensures r.Success? ==> r.value.dK * nHeads == dModel && r.value.dModel == dModel && r.value.nHeads == nHeads
    ensures r.Success? ==> |r.value.mask| == maxLen && Rectangular(r.value.mask, maxLen)
    ensures r.Success? ==> forall i, j :: 0 <= i < maxLen && 0 <= j < maxLen ==>
      r.value.mask[i][j] == (if j > i then 1.0 else 0.0)
  {
    match HeadDim(dModel, nHeads)
    case Failure(e) => Failure(e)
    case Success(dK) => Success(CausalAttention(dModel, nHeads, dK, MaskBuffer(maxLen)))
  }

  /** `self.mask.bool()[:seq_len, :seq_len]`: the top-left block, clipped to the buffer, as booleans. */
  function MaskSlice(mask: seq<seq<real>>, seqLen: nat): (m: seq<seq<bool>>)
    ensures |m| == Min(seqLen, |mask|)
    ensures forall i :: 0 <= i < |m| ==> |m[i]| == Min(seqLen, |mask[i]|)
    ensures forall i, j :: 0 <= i < |m| && 0 <= j < |m[i]| ==>
      i < |mask| && j < |mask[i]| && m[i][j] == (mask[i][j] != 0.0)
  {
    var n := Min(seqLen, |mask|);
    seq(n, i requires 0 <= i < n => seq(Min(seqLen, |mask[i]|), j requires 0 <= j < Min(seqLen, |mask[i]|) =>
      mask[i][j] != 0.0))
  }

  /** The per-call mask of a constructed attention layer is the `min(seq_len, max_len)` square whose
      entry `(i, j)` is true exactly when `j > i`. */
  lemma MaskSliceCausal(dModel: nat, nHeads: nat, maxLen: nat, seqLen: nat)
    requires NewCausalAttention(dModel, nHeads, maxLen).Success?
    ensures var m := MaskSlice(NewCausalAttention(dModel, nHeads, maxLen).value.mask, seqLen);
      |m| == Min(seqLen, maxLen) && Rectangular(m, Min(seqLen, maxLen)) &&
      forall i, j :: 0 <= i < |m| && 0 <= j < |m| ==> (m[i][j] <==> j > i)
  {
  }

  /** The value `masked_fill` writes at masked positions. */
  const MaskFill: real := -1000000000.0

  /** `scores.masked_fill(mask, value)` for one `(L, L)` score matrix and an `(m, m)` mask. The
      out-of-place call broadcasts the scores and the mask against each other: position by
      position when `m == L`, the mask's single entry everywhere when `m == 1`, and the single
      score everywhere, giving an `(m, m)` result, when `L == 1` (an empty result when `m == 0`).
      Any other pair of sizes is a shape error. */
  function MaskedFill(scores: seq<seq<real>>, mask: seq<seq<bool>>, value: real): Result<seq<seq<real>>, Exception>
    requires Rectangular(scores, |scores|) && Rectangular(mask, |mask|)
  {
    var n := |scores|;
    if |mask| == n then
      Success(seq(n, i requires 0 <= i < n => seq(n, j requires 0 <= j < n =>
        if mask[i][j] then value else scores[i][j])))
    else if |mask| == 1 then
      Success(seq(n, i requires 0 <= i < n => seq(n, j requires 0 <= j < n =>
        if mask[0][0] then value else scores[i][j])))
    else if n == 1 then
      Success(seq(|mask|, i requires 0 <= i < |mask| => seq(|mask|, j requires 0 <= j < |mask| =>
        if mask[i][j] then value else scores[0][0])))
    else Failure(RuntimeError)
  }

  /** Lines 41 and 44 of `forward`, for one batch element and head. */
  function ApplyCausalMask(attn: CausalAttention, scores: seq<seq<real>>): Result<seq<seq<real>>, Exception>
    requires Rectangular(attn.mask, |attn.mask|)
    requires Rectangular(scores, |scores|)
  {
    var m := MaskSlice(attn.mask, |scores|);
    assert Rectangular(m, |m|);
    MaskedFill(scores, m, MaskFill)
  }

  /** Within the buffer's length, query `i` loses exactly the keys after it and keeps its own score
      and every earlier one. */
  lemma CausalMaskWithinBuffer(dModel: nat, nHeads: nat, maxLen: nat, scores: seq<seq<real>>)
    requires NewCausalAttention(dModel, nHeads, maxLen).Success?
    requires Rectangular(scores, |scores|) && |scores| <= maxLen
    ensures var r := ApplyCausalMask(NewCausalAttention(dModel, nHeads, maxLen).value, scores);
      r.Success? && |r.value| == |scores| && Rectangular(r.value, |scores|) &&
      forall i, j :: 0 <= i < |scores| && 0 <= j < |scores| ==>
        r.value[i][j] == (if j > i then MaskFill else scores[i][j])
  {
    MaskSliceCausal(dModel, nHeads, maxLen, |scores|);
  }

  /** Past the buffer's length the slice is clipped to `max_len`: a one-entry buffer broadcasts and
      masks nothing; an empty buffer against a single score broadcasts the score to an empty
      result; any other length makes `masked_fill` fail. */
  lemma CausalMaskBeyondBuffer(dModel: nat, nHeads: nat, maxLen: nat, scores: seq<seq<real>>)
    requires NewCausalAttention(dModel, nHeads, maxLen).Success?
    requires Rectangular(scores, |scores|) && |scores| > maxLen
    ensures var r := ApplyCausalMask(NewCausalAttention(dModel, nHeads, maxLen).value, scores);
      (maxLen == 1 ==> r == Success(scores)) &&
      (maxLen == 0 && |scores| == 1 ==> r == Success([])) &&
      (maxLen > 1 || (maxLen == 0 && |scores| > 1) ==> r == Failure(RuntimeError))
  {
    var attn := NewCausalAttention(dModel, nHeads, maxLen).value;
    MaskSliceCausal(dModel, nHeads, maxLen, |scores|);
    if maxLen == 1 {
      var r := ApplyCausalMask(attn, scores);
      assert !MaskSlice(attn.mask, |scores|)[0][0];
      assert r.Success?;
      assert forall i :: 0 <= i < |scores| ==> r.value[i] == scores[i];
      assert r.value == scores;
    } else if maxLen == 0 && |scores| == 1 {
      var r := ApplyCausalMask(attn, scores);
      assert |MaskSlice(attn.mask, |scores|)| == 0;
      assert r.Success? && |r.value| == 0;
    }
  }

  // ---------------------------------------------------------------------------------------------
  // FeedForward

  /** `nn.Sequential(nn.Linear(a, b), nn.GELU())` on one row. */
  type Stage = Row -> Row

  /** `FeedForward(layer_sizes, use_res)`: the layer sizes, the residual flag and the stages. */
  datatype FeedForward = FeedForward(sizes: seq<nat>, useRes: bool, stages: seq<Stage>)

  /** `len(range(len(layer_sizes) - 1))`. */
  function NumStages(sizes: seq<nat>): nat
  {
    if |sizes| == 0 then 0 else |sizes| - 1
  }

  /** Stage `i` maps rows of width `sizes[i]` to rows of width `sizes[i + 1]`. */
  ghost predicate StageWidths(net: nat -> Stage, sizes: seq<nat>)
  {
    forall i, v :: 0 <= i < NumStages(sizes) && |v| == sizes[i] ==> |net(i)(v)| == sizes[i + 1]
  }

  /** `FeedForward.__init__`: one stage per consecutive pair of layer sizes; `net(i)` is the
      network built for the pair `(layer_sizes[i], layer_sizes[i + 1])`. */
  function NewFeedForward(sizes: seq<nat>, useRes: bool, net: nat -> Stage): (ff: FeedForward)
    ensures ff.sizes == sizes && ff.useRes == useRes
    ensures |ff.stages| == NumStages(sizes) && |ff.stages| + 1 == Max(|sizes|, 1)
    ensures forall i :: 0 <= i < |ff.stages| ==> ff.stages[i] == net(i)
  {
    FeedForward(sizes, useRes, seq(NumStages(sizes), i requires 0 <= i < NumStages(sizes) => net(i)))
  }

  ghost predicate Valid(ff: FeedForward)
  {
    |ff.stages| == NumStages(ff.sizes) &&
    forall i, v :: 0 <= i < |ff.stages| && |v| == ff.sizes[i] ==> |ff.stages[i](v)| == ff.sizes[i + 1]
  }

  lemma NewFeedForwardValid(sizes: seq<nat>, useRes: bool, net: nat -> Stage)
    requires StageWidths(net, sizes)
    ensures Valid(NewFeedForward(sizes, useRes, net))
  {
  }

  /** One iteration of `FeedForward.forward`: the stage rejects an input of the wrong width;
      otherwise its output replaces `x`, or is added to `x` when `use_res` holds and the shapes agree. */
  function Step(ff: FeedForward, i: nat, x: Row): Result<Row, Exception>
    requires i < |ff.stages| && i < |ff.sizes|
  {
    if |x| != ff.sizes[i] then Failure(RuntimeError)
    else
      var output := ff.stages[i](x);
      if ff.useRes && |output| == |x| then Success(AddRows(output, x)) else Success(output)
  }

  /** The value of `x` after the first `n` stages, or the error that stopped the loop. */
  function Run(ff: FeedForward, x: Row, n: nat): Result<Row, Exception>
    requires n <= |ff.stages| && |ff.stages| == NumStages(ff.sizes)
  {
    if n == 0 then Success(x)
    else
      match Run(ff, x, n - 1)
      case Failure(e) => Failure(e)
      case Success(y) => Step(ff, n - 1, y)
  }

  /** `FeedForward.forward`. */
  method Forward(ff: FeedForward, x: Row) returns (r: Result<Row, Exception>)
    requires Valid(ff)
    ensures r == Run(ff, x, |ff.stages|)
  {
    var cur := x;
    for i := 0 to |ff.stages|
      invariant Run(ff, x, i) == Success(cur)
    {
      var layer := ff.stages[i];
      if |cur| != ff.sizes[i] {
        RunStaysFailed(ff, x, i + 1, |ff.stages|);
        return Failure(RuntimeError);
      }
      var output := layer(cur);
      if ff.useRes && |output| == |cur| {
        cur := AddRows(output, cur);
      } else {
        cur := output;
      }
    }
    return Success(cur);
  }

  lemma {:induction false} RunStaysFailed(ff: FeedForward, x: Row, n: nat, m: nat)
    requires n <= m <= |ff.stages| && |ff.stages| == NumStages(ff.sizes)
    requires Run(ff, x, n).Failure?
    ensures Run(ff, x, m) == Run(ff, x, n)
  {
    if m > n {
      RunStaysFailed(ff, x, n, m - 1);
    }
  }

  /** From a row of width `layer_sizes[0]`, every stage receives the width it expects: after `n`
      stages the row has width `layer_sizes[n]`, whether or not a residual was added. */
  lemma {:induction false} RunWidth(ff: FeedForward, x: Row, n: nat)
    requires Valid(ff) && n <= |ff.stages|
    requires |ff.stages| > 0 ==> |x| == ff.sizes[0]
    ensures Run(ff, x, n).Success?
    ensures |ff.stages| > 0 ==> |Run(ff, x, n).value| == ff.sizes[n]
  {
    if n > 0 {
      RunWidth(ff, x, n - 1);
    }
  }

  /** `FeedForward.forward` succeeds exactly when there are no stages or the input has width
      `layer_sizes[0]`; on success the output has the last layer size as its width (or is the input
      itself when there are no stages). */
  lemma ForwardSpec(ff: FeedForward, x: Row)
    requires Valid(ff)
    ensures Run(ff, x, |ff.stages|).Success? <==> (|ff.stages| == 0 || |x| == ff.sizes[0])
    ensures |ff.stages| == 0 ==> Run(ff, x, 0) == Success(x)
    ensures |ff.stages| > 0 && |x| == ff.sizes[0] ==>
      |Run(ff, x, |ff.stages|).value| == ff.sizes[|ff.sizes| - 1]
  {
    if |ff.stages| == 0 || |x| == ff.sizes[0] {
      RunWidth(ff, x, |ff.stages|);
    } else {
      assert Run(ff, x, 1).Failure?;
      RunStaysFailed(ff, x, 1, |ff.stages|);
    }
  }

  /** The stages applied one after the other with no residual. */
  function Compose(stages: seq<Stage>, x: Row, n: nat): Row
    requires n <= |stages|
  {
    if n == 0 then x else stages[n - 1](Compose(stages, x, n - 1))
  }

  /** The first `n` stages with residuals: stage `i`'s output is added to its input exactly when
      `use_res` holds and `layer_sizes[i] == layer_sizes[i + 1]`. */
  function ComposeResidual(ff: FeedForward, x: Row, n: nat): (y: Row)
    requires Valid(ff) && n <= |ff.stages|
    requires |ff.stages| > 0 ==> |x| == ff.sizes[0]
    ensures |ff.stages| > 0 ==> |y| == ff.sizes[n]
  {
    if n == 0 then x
    else
      var prev := ComposeResidual(ff, x, n - 1);
      var out := ff.stages[n - 1](prev);
      if ff.useRes && ff.sizes[n - 1] == ff.sizes[n] then AddRows(out, prev) else out
  }

  /** On a well-sized input the loop computes the residual chain: a residual is applied at stage
      `i` exactly when `use_res` holds and the stage keeps the width. */
  lemma {:induction false} RunIsResidualChain(ff: FeedForward, x: Row, n: nat)
    requires Valid(ff) && n <= |ff.stages|
    requires |ff.stages| > 0 ==> |x| == ff.sizes[0]
    ensures Run(ff, x, n) == Success(ComposeResidual(ff, x, n))
  {
    if n > 0 {
      RunIsResidualChain(ff, x, n - 1);
    }
  }

  /** Without `use_res` (as `TransformerBlock` builds it) the stages simply compose. */
  lemma {:induction false} RunWithoutResidual(ff: FeedForward, x: Row, n: nat)
    requires Valid(ff) && !ff.useRes && n <= |ff.stages|
    requires |ff.stages| > 0 ==> |x| == ff.sizes[0]
    ensures Run(ff, x, n) == Success(Compose(ff.stages, x, n))
  {
    if n > 0 {
      RunWithoutResidual(ff, x, n - 1);
      RunWidth(ff, x, n - 1);
    }
  }

  /** `TransformerBlock.__init__` builds its feed-forward network with `use_res=False`. */
  function BlockFeedForward(layerSizes: seq<nat>, net: nat -> Stage): FeedForward
  {
    NewFeedForward(layerSizes, false, net)
  }

  /** The block's feed-forward network on a well-sized input is the plain composition of its stages. */
  lemma BlockFeedForwardComposes(layerSizes: seq<nat>, net: nat -> Stage, x: Row)
    requires StageWidths(net, layerSizes)
    requires |layerSizes| > 1 ==> |x| == layerSizes[0]
    ensures var ff := BlockFeedForward(layerSizes, net);
      Run(ff, x, |ff.stages|) == Success(Compose(ff.stages, x, |ff.stages|))
  {
    var ff := BlockFeedForward(layerSizes, net);
    NewFeedForwardValid(layerSizes, false, net);
    RunWithoutResidual(ff, x, |ff.stages|);
  }
}
