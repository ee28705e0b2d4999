# MyLLM core logic in Dafny

MyLLM is a small language-model repository written in Python. This project models four parts of it
that are index-level logic rather than numerics, and proves properties of those models:

- **Mixture-of-experts layer** (`MoELayer.forward` in `model/tunx.py`).
  - Each token's `top_k` experts are picked from a given score matrix; an optional bias affects
    only which experts are picked.
  - The combination weights are gathered from the unbiased scores.
  - `torch.bincount` counts how many (token, slot) pairs each expert received.
  - The expert loop skips experts with a zero count, finds the (token, slot) pairs of each other
    expert with `torch.where`, and adds the weighted expert outputs into a zero-initialised buffer
    in place.
  - The shared expert's output is added, and the result is viewed back to `[B, L, D]`.
  - Alongside it: the additive causal mask of `Tunx.forward`, the shape computed by
    `reshape_for_broadcast`, the rotary-table slicing, the dense-or-MoE choice per block and the
    head-divisibility check.
- **Dataset construction** (`utils/data.py`).
  - `process_data` flattens parsed JSON items into strings.
  - `sliding_window` cuts a token list into `(input_ids, attention_mask, labels)` windows with a
    stride.
  - `PoemDataset` stores the windows of a list of strings in two lists it appends to.
  - `LLMIterableDataset` streams the windows of every line's `content`.
- **Greedy generation** (`utils/generate.py`).
  - `generate_text_simple` crops the context, takes the first maximum of the last position's
    scores, and appends it.
  - `text_to_token_ids` and `token_ids_to_text` add and remove the batch dimension.
- **Causal attention and feed-forward shape rules** (`model/transformer.py`).
  - The constructor checks the head split and registers a strict-upper-triangular mask buffer.
  - Each call slices that buffer and fills the masked scores.
  - `FeedForward` is a chain of stages; a stage's residual applies only where it keeps the width.

Learned layers (experts, stages, the language model itself) are uninterpreted functions on rows of
`real`s. The tokenizer is a pair of functions between strings and token ids.

Files:
- `common.dfy`: `Option`, `Result`, the Python exceptions raised, and Python slicing.
- `shapes.dfy`: rows, `view(-1, d)` and back, `torch.full`, `torch.triu`, element counts, and the
  head-split check.
- `tunx.dfy`: the structural rules of `model/tunx.py`.
- `tunx_moe.dfy`: `MoELayer.forward`.
- `transformer.dfy`: `model/transformer.py`.
- `data.dfy`: `utils/data.py`.
- `generate.dfy`: `utils/generate.py`.

## Model

| member | source | states |
|---|---|---|
| Shapes.UnflattenFlatten | model/tunx.py:231-232 | Viewing a rank-3 tensor as rows and back gives the tensor back, and the flat form has B·L rows. |
| Shapes.FlattenUnflatten | model/tunx.py:260 | Viewing the rows back to `[B, L]` and flattening again gives the rows back. |
| Shapes.FlattenIndex | model/tunx.py:232 | Position `l` of batch element `b` is row `b·L + l` of the flattened tensor. |
| Shapes.UnflattenIndex | model/tunx.py:260 | Row `b·L + l` of the flat output is position `l` of batch element `b` after the final view. |
| Shapes.HeadDim | model/tunx.py:128-132 | A zero head count raises ZeroDivisionError and an uneven split fails the assertion. Otherwise the head width times the head count is the model width. |
| Tunx.CausalMask | model/tunx.py:294-296 | There is no mask exactly when `seq_len <= 1`. Otherwise the mask is `L×L`, entry (i, j) is −inf exactly when j > i, and it is 0 on and below the diagonal. |
| Tunx.MaskScoresCausal | model/tunx.py:159-160 | After adding the mask, query i loses exactly the keys after it, keeps every earlier score and its own score unchanged, and its diagonal stays finite. |
| Tunx.MaskScores | model/tunx.py:159-160 | `scores + mask` as an `L×L` matrix of extended reals; the scores pass unchanged when there is no mask. Its properties are in MaskScoresCausal. |
| Tunx.BroadcastTarget | model/tunx.py:98 | The shape the comprehension computes: one entry per dimension of `x`, keeping dimension 1 and the last one and 1 elsewhere. Its properties are in BroadcastShapeSpec. |
| Tunx.BroadcastShape | model/tunx.py:92-100 | `reshape_for_broadcast`: AssertionError for rank below 2 or a table not shaped `(x.shape[1], x.shape[-1])`, RuntimeError when the computed shape holds a different element count, otherwise that shape. Its properties are in BroadcastShapeSpec. |
| Tunx.BroadcastShapeSpec | model/tunx.py:92-100 | The view succeeds exactly when rank ≥ 2, the table is `(x.shape[1], x.shape[-1])`, and either rank ≥ 3 or `x.shape[1] <= 1`. The resulting shape keeps dimension 1 and the last dimension and is 1 elsewhere. |
| Tunx.FreqsTableShape | model/tunx.py:285 | Fails only for zero heads, with ZeroDivisionError. Otherwise the table has `2·max_seq_len` rows and `c` columns with `2c·n_heads <= dim < (2c+2)·n_heads`, the floor of half of `dim // n_heads`. |
| Tunx.FreqsTableWithHeadDim | model/tunx.py:285 | With a positive head count the table is built even for an uneven split, which the attention layers reject with AssertionError; when they accept the split, its column count is half their head width. |
| Tunx.SliceRowsShape | model/tunx.py:292 | `self.freqs_cis[:seq_len]`: the row count clipped to the table, the column count kept. Its properties are in RotarySliceBroadcast. |
| Tunx.RotarySliceBroadcast | model/tunx.py:285-292 | The sliced rotary table broadcasts to queries `[B, L, H, head_dim/2]` exactly when `L <= 2·max_seq_len`, and then it is viewed as `[1, L, 1, head_dim/2]`. |
| Tunx.LayerKind | model/tunx.py:267 | Block `layer_id` gets a dense feed-forward network when `layer_id < n_dense_layers`, otherwise an MoE layer. Its properties are in LayerKinds and DenseLayersPrefix. |
| Tunx.LayerKinds | model/tunx.py:267 | There are `n_layers` blocks, and block i is dense exactly when `i < n_dense_layers`. |
| Tunx.DenseLayersPrefix | model/tunx.py:282 | Exactly `min(n_layers, n_dense_layers)` blocks are dense, and no MoE block precedes a dense one. |
| TunxMoE.TopK | model/tunx.py:243-245 | Picks k indices that are distinct and valid. They are listed by non-increasing score, and every selected score is ≥ every unselected one. Ties go to the lower index. |
| TunxMoE.SelectionScores | model/tunx.py:238-240 | The scores `topk` ranks: the gate scores, plus the bias row when there is one; each row keeps its length. |
| TunxMoE.RouteSpec | model/tunx.py:238-245 | Every token gets exactly k distinct experts in `[0, n_routed_experts)`. Selection uses the scores plus the bias when there is one, and every selected biased score is ≥ every unselected one. |
| TunxMoE.Route | model/tunx.py:243-245 | One selection of k experts per token; every index is in range and no token repeats an expert. |
| TunxMoE.WeightsArePreBias | model/tunx.py:247 | Weight s of a token is its unbiased score at the s-th selected expert. Without a bias the weights are non-increasing, and each is ≥ every unselected score. |
| TunxMoE.Gather | model/tunx.py:247 | `original_scores.gather(1, indices)`: entry (t, s) is token t's score at its s-th selected expert, with the shape of `indices`. Its properties are in WeightsArePreBias. |
| TunxMoE.BinCount | model/tunx.py:252 | `torch.bincount(flat, minlength=n)`: `max(n, max(flat)+1)` entries, entry i the occurrences of i. Its properties are in CountsSpec. |
| TunxMoE.CountsSpec | model/tunx.py:252 | `bincount(..., minlength=n)` has one entry per expert and its counts add up to N·k. An expert with count 0 occurs in no token's selection. |
| TunxMoE.CountIsWhereSize | model/tunx.py:252-257 | `counts[i]` equals the number of (token, slot) pairs that `where(indices == i)` returns. |
| TunxMoE.Where | model/tunx.py:257 | `torch.where(indices == i)` as (token, slot) pairs in row-major order; each pair is a slot holding expert i. Completeness is in WhereDispatch. |
| TunxMoE.WhereDispatch | model/tunx.py:257 | Each pair from `where` is a slot holding the expert. Every slot holding it is found. No token appears twice, because a token's k indices are distinct. |
| TunxMoE.IndexAddDistinct | model/tunx.py:258 | With distinct indices, the indexed `+=` adds each value to its row and leaves every other row unchanged. |
| TunxMoE.IndexAddDuplicateLoses | model/tunx.py:256-258 | With a repeated index, one contribution may be lost: of two additions to row 0 only one survives. The model keeps the second; which one the tensor library keeps is unspecified. The expert loop never repeats an index (see WhereDispatch). |
| TunxMoE.IndexAddAsWritten | model/tunx.py:258 | `a[idx] += vals` read as `a[idx] = a[idx] + vals`: the rows are gathered once, the values added, and the sums written back in order; the result has the buffer's row count. |
| TunxMoE.IndexAdd | model/tunx.py:258 | The in-place `a[idx] += vals` on the buffer leaves it equal to gather, add, then write back in order. |
| TunxMoE.AddExpert | model/tunx.py:256-258 | One visit of an expert keeps the loop invariant. Afterwards every row holds, per coordinate, the slot sums over experts `0..m` of expert output × weight. |
| TunxMoE.VisitExperts | model/tunx.py:253-258 | The loop over experts, which skips zero counts, ends with every row holding the slot sums over all experts. |
| TunxMoE.RoutedOutput | model/tunx.py:251-258 | Starting from zeros, the in-place expert loop produces, for every token and coordinate, the sum over the token's k slots of expert output × weight, in slot order, with the experts visited in the source's order `0..n-1`. |
| TunxMoE.UnusedExpertIrrelevant | model/tunx.py:253-255 | Replacing an expert that no token selected by any other network leaves the output unchanged. |
| TunxMoE.CombineIsSum | model/tunx.py:250-260 | Row-wise `shared_expert_output + router_expert_output` is the combined output: shared output plus slot sums. |
| TunxMoE.AssembleSpec | model/tunx.py:231-260 | For a given routing, the output has the input's shape `[B, L, dim]`. Position (b, l) is the shared expert's output on `x[b][l]` plus, per slot, the selected expert's output scaled by the slot's weight. |
| TunxMoE.OutputSpec | model/tunx.py:229-260 | The layer keeps the shape `[B, L, dim]`. Position (b, l) is the shared output plus the weighted outputs of the `top_k` experts routed for row `b·L + l`, with the unbiased scores as weights. |
| TunxMoE.Output | model/tunx.py:229-260 | The whole layer on values: flatten, route on the biased scores, gather the unbiased weights, combine with the shared expert, view back to `[B, L, dim]`. Its properties are in OutputSpec and UnusedExpertIrrelevant. |
| TunxMoE.Forward | model/tunx.py:229-260 | Raises RuntimeError when `top_k` exceeds the number of experts. Otherwise it returns exactly the layer output that OutputSpec describes. |
| Transformer.MaskBuffer | model/transformer.py:18-20 | `torch.triu(torch.ones(max_len, max_len), diagonal=1)`. Its entries are stated in NewCausalAttention. |
| Transformer.NewCausalAttention | model/transformer.py:5-20 | Succeeds exactly when `n_heads > 0` and `d_model % n_heads == 0`; a zero head count raises ZeroDivisionError and an uneven split raises AssertionError. Then `d_k·n_heads == d_model`, and buffer entry (i, j) is 1 exactly when j > i, else 0. |
| Transformer.MaskSlice | model/transformer.py:41 | The slice is the top-left block clipped to the buffer; entry (i, j) is true exactly when the buffer entry is non-zero. |
| Transformer.MaskSliceCausal | model/transformer.py:41 | For a constructed layer, the per-call mask is the `min(seq_len, max_len)` square that is true exactly when j > i. |
| Transformer.MaskedFill | model/transformer.py:44 | The out-of-place `masked_fill` broadcasts scores and mask together. An `L×L` mask writes the value where it is true, and a `1×1` mask broadcasts its entry. A single score against an `m×m` mask broadcasts to an `m×m` result, which is empty for `m = 0`. Any other pair of sizes is a RuntimeError. Its properties are in CausalMaskWithinBuffer and CausalMaskBeyondBuffer. |
| Transformer.ApplyCausalMask | model/transformer.py:41-44 | One call's masking: slice the buffer to `[:L, :L]`, then `masked_fill` with −1e9. Its properties are in CausalMaskWithinBuffer and CausalMaskBeyondBuffer. |
| Transformer.CausalMaskWithinBuffer | model/transformer.py:41-44 | When `seq_len <= max_len`, the fill succeeds. Masked pairs are exactly j > i and get −1e9; query i keeps keys 0..i unchanged. |
| Transformer.CausalMaskBeyondBuffer | model/transformer.py:41-44 | When `seq_len > max_len`, the mask is clipped to the buffer. With `max_len == 1` it broadcasts and masks nothing. With `max_len == 0` and `seq_len == 1`, the single score broadcasts to an empty result. Any other case is a shape error. |
| Transformer.NewFeedForward | model/transformer.py:56-62 | `len(layer_sizes) - 1` stages (none for an empty list). Stage i is the network built for sizes i and i+1. |
| Transformer.NewFeedForwardValid | model/transformer.py:59-62 | When each network maps width `layer_sizes[i]` to `layer_sizes[i+1]`, the constructed chain is well-sized. |
| Transformer.Forward | model/transformer.py:64-71 | The in-place loop over stages returns what the stage-by-stage definition `Run` gives. |
| Transformer.ForwardSpec | model/transformer.py:64-71 | Succeeds exactly when there are no stages or the input has width `layer_sizes[0]`. The output width is the last layer size, and with no stages the output is the input. |
| Transformer.Step | model/transformer.py:66-70 | One stage: RuntimeError when the input width is not the stage's input size, otherwise the stage output, plus the input when `use_res` holds and the shapes agree. |
| Transformer.Run | model/transformer.py:65-71 | The first n stages applied in order, stopping at the first error. Its properties are in RunWidth, RunIsResidualChain and RunWithoutResidual. |
| Transformer.RunWidth | model/transformer.py:65-70 | From a well-sized input, after n stages the row has width `layer_sizes[n]`, whether or not residuals were added. |
| Transformer.RunIsResidualChain | model/transformer.py:67-70 | The loop computes the residual chain: stage i's output is added to its input exactly when `use_res` holds and the stage keeps the width. |
| Transformer.RunWithoutResidual | model/transformer.py:64-71 | Without `use_res`, the loop is the plain composition of the stages. |
| Transformer.BlockFeedForward | model/transformer.py:82 | The block's `FeedForward(cfg["layer_sizes"], False)`. Its properties are in BlockFeedForwardComposes. |
| Transformer.BlockFeedForwardComposes | model/transformer.py:82 | The block's feed-forward network, built with `use_res=False`, is the plain composition of its stages on a well-sized input. |
| Data.Processed | utils/data.py:19-27 | Item by item: a dict adds its `content` (KeyError without one), a list adds its elements, anything else adds nothing. Its properties are in ProcessedFails, ProcessedConcat and ProcessedSingle. |
| Data.ProcessData | utils/data.py:19-27 | The append/extend loop returns what the item-by-item definition `Processed` gives, including the KeyError. |
| Data.ProcessedFails | utils/data.py:23 | `process_data` fails exactly when some dict item lacks `content`, and then with KeyError. |
| Data.ProcessedConcat | utils/data.py:21-25 | On two concatenated lists, the result is the concatenation of the two results, or the first error. |
| Data.ProcessedSingle | utils/data.py:22-25 | One item contributes its `content` for a dict, all its elements for a list, and nothing otherwise. |
| Data.NumWindows | utils/data.py:36 | `len(range(0, n - window_size, stride))` for a positive stride. Its properties are in NumWindowsSpec and NoWindowsWhenShort. |
| Data.NumWindowsSpec | utils/data.py:57 | Window k exists exactly when `k·stride < len(tokens) - window_size`. |
| Data.Windows | utils/data.py:57-70 | The windows of one token list, starting at `0, stride, 2·stride, ...` while the start is below `len(tokens) - window_size`. Its properties are in NumWindowsSpec and WindowsSpec. |
| Data.WindowsSpec | utils/data.py:57-70 | Window k is shown by seven facts: (1) it starts at `k·stride`; (2) `k·stride + window_size + 1 <= len(tokens)`; (3) inputs and labels are both the full window length; (4) the inputs are `tokens[k·s : k·s + w]`; (5) `labels[j] == tokens[k·stride + j + 1]`; (6) `labels[j] == input_ids[j+1]`; (7) the attention mask is all true, with length `window_size`. |
| Data.NoWindowsWhenShort | utils/data.py:57 | There are no windows exactly when `len(tokens) <= window_size`. |
| Data.SlidingWindow | utils/data.py:55-76 | A zero stride raises ValueError. Otherwise the loop yields exactly `Windows`, in order. |
| Data.PoemDataset.constructor | utils/data.py:31-40 | The stored inputs and targets are, in item order, the inputs and labels of each string's windows. The object is well-formed: as many targets as inputs, each target as long as its input and shifted by one token. |
| Data.PoemDataset.AddWindows | utils/data.py:35-40 | The inner loop appends exactly the inputs and labels of one token list's windows. Nothing already stored changes. |
| Data.PoemDataset.Len | utils/data.py:43-44 | `len(dataset)` is the number of stored inputs. |
| Data.PoemDataset.GetItem | utils/data.py:46-47 | Returns the pair at a Python index, with negative indices counting from the end. It fails exactly outside `[-len, len)`, with IndexError. |
| Data.NewPoemDataset | utils/data.py:31-40 | A zero stride with a non-empty string list raises ValueError. Otherwise the dataset is fresh and well-formed, and holds the windows of every string. With a positive stride, `len(dataset)` is the total window count of all strings. |
| Data.AllWindowsShifted | utils/data.py:37-38 | Every stored pair has inputs and targets of length `max_length`, and each target is its input shifted by one token. |
| Data.AllWindowsCount | utils/data.py:34-36 | The dataset length is the total number of windows over all strings. |
| Data.StreamOf | utils/data.py:86-91 | Line by line: TypeError for a non-dict line, KeyError without `content`, ValueError for a zero stride, otherwise the line's windows follow the earlier ones; the first error ends the stream. Its properties are in StreamMatchesPoemDataset. |
| Data.Iterate | utils/data.py:86-91 | The loop over lines returns what `StreamOf` gives. A non-dict line raises TypeError; a line without `content` raises KeyError; a zero stride raises ValueError. |
| Data.StreamMatchesPoemDataset | utils/data.py:88-91 | The stream encodes allowing the end-of-text special token and the in-memory dataset with tiktoken's defaults, so the two encoders are separate parameters. When every line has a `content`, the stride is positive and both encoders give the same tokens for every content, the stream yields exactly the windows the in-memory dataset stores for those contents, in order. |
| Generate.Crop | utils/generate.py:6-7 | The context is the whole sequence when it fits (or when `context_size == 0`); otherwise it is the last `context_size` tokens. It is always a suffix. |
| Generate.ArgMax | utils/generate.py:11-12 | The index is valid, it holds a maximum of the row, and no earlier index holds that maximum. |
| Generate.NextToken | utils/generate.py:6-12 | One step's token is computed from the model's scores on the cropped context. It is IndexError when the model returns no positions, and IndexError from `argmax` for an empty last row. Otherwise it is the ArgMax of the last row. |
| Generate.Generated | utils/generate.py:4-14 | n steps of a next-token rule, each appending its token, stopping at the first error. Its properties are in GeneratedGreedy, GeneratedShape, GeneratedErrors and GeneratedCompose. |
| Generate.GenerateTextSimple | utils/generate.py:3-15 | The in-place loop returns what the step-by-step definition `Generated` gives with the model's next-token rule. |
| Generate.GeneratedGreedy | utils/generate.py:4-14 | Generation returns `out` exactly when `out` is the input followed by n tokens, each the rule's choice for the tokens before it. |
| Generate.GeneratedShape | utils/generate.py:14-15 | On success the result is the input followed by exactly `max_new_tokens` tokens. Zero iterations return the input unchanged. |
| Generate.GeneratedErrors | utils/generate.py:9-12 | Generation can stop only with IndexError: no positions in the model's output, or an empty last score row rejected by `argmax`. |
| Generate.GeneratedCompose | utils/generate.py:4 | m iterations followed by n more equal m + n iterations. |
| Generate.TextToTokenIds | utils/generate.py:17-20 | `text_to_token_ids`: a batch of exactly one sequence, the encoded text. |
| Generate.TokenIdsToText | utils/generate.py:21-23 | `token_ids_to_text` succeeds exactly for batches of at most one sequence. A batch of one decodes its sequence and an empty batch decodes the empty list; a larger batch hands nested lists to `decode`, which raises TypeError. |
| Generate.TokenIdsRoundTrip | utils/generate.py:17-23 | Adding and then removing the batch dimension decodes exactly the encoded ids. |

## Left out

- Floating-point arithmetic. It covers:
  - linear projections, RMSNorm and LayerNorm, SiLU and GELU;
  - the gate's softmax, the attention softmax and the attention scaling;
  - `precompute_freqs_cis` and the complex product in `apply_rotary_emb`.
  Scores are exact `real`s and learned layers are uninterpreted functions. The gate is not modelled: `MoELayer.forward` takes the softmax scores as an input matrix.
- The −inf fill of `Tunx.forward` is an extended real (`ExtReal`). The −1e9 fill of `model/transformer.py` is the real constant −10⁹. Neither models IEEE rounding.
- The softmax before `argmax` in `generate_text_simple` is left out. It is strictly increasing, so it does not change the index of the first maximum.
- Dropout is left out, because it draws from a process-wide random generator.
- I/O is left out: `read_json_file`, `get_data`, and file reading and JSON parsing in `LLMIterableDataset`. Items and lines arrive already parsed.
- The report `process_data` prints is left out.
- The tiktoken tokenizer and its `allowed_special` argument become function parameters (`encode`, `decode`). Each call site gets its own encoder.
- Data.NewPoemDataset: `PoemDataset` calls `tokenizer.encode(item)` with tiktoken's defaults, which raise ValueError on text containing `<|endoftext|>`. The model's encoder is a total function, so this error is not modelled. Data.StreamMatchesPoemDataset therefore assumes that the two encoders agree on every content, which excludes texts holding that special token.
- JSON values hold strings only. A dict's `content` and a list's elements are strings; other JSON values become `Other`.
- Sizes and counts are natural numbers, so their negative values are not modelled. This covers strides, window sizes and context sizes. It also covers `d_model`/`dim`, `n_heads`, `max_len`, `max_seq_len`, `top_k`, `n_layers`, `n_dense_layers` and the layer widths. Python's `%` and `//` behave differently on negative operands (for instance `512 % -8 == 0` passes the divisibility assertion).
- TunxMoE.Forward: with `dim == 0`, `x.view(-1, 0)` raises in the source. The model's flatten accepts rows of width zero.
- Generate.NextToken: current PyTorch raises IndexError from `argmax` over a zero-size dimension, and the model follows it. Older PyTorch releases raised RuntimeError there.
- TunxMoE.TopK: PyTorch does not specify how `torch.topk` breaks ties. The model takes the lowest index first.
- Generation handles a batch of one sequence. `token_ids_to_text` models the batch shapes `squeeze(0)` can see; an empty batch decodes the empty list.
- The `avg_probs` buffer is never updated in the source and is left out. The bias is `None` in the source and has no update rule; it is modelled only as an optional selection offset.
- `weights.type_as(x)` discards its result and has no effect.
- TunxMoE.Forward and TunxMoE.OutputSpec require the input to be `[B, L, D]` with the score matrix shaped `[B·L, n_routed_experts]`. `x.view(-1, self.dim)` alone would accept any element count that is a multiple of `dim`; the shapes hold because the only caller, `TransformerBlock.forward` (model/tunx.py:273), passes a `[B, L, dim]` tensor.
- `model/gpt.py` is not part of this model. Nor are `main.py`, `utils/logger.py`, `utils/plot.py`, `utils/tokenizer.py` or `test/test_data.py`.
