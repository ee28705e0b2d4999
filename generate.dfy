/** Greedy text generation (`utils/generate.py`) for a batch of one sequence: the context is
    cropped to the model's window, the model scores the next token at every position, and the
    highest-scoring token of the last position is appended, `max_new_tokens` times. The model is a
    function from token ids to one score row per position; the tokenizer is a pair of functions. */
module Generate {
  import opened Common

  /** The language model applied to one sequence: a row of vocabulary scores per position. */
  type Model = seq<nat> -> seq<seq<real>>

  /** `idx if idx.size(1) <= context_size else idx[:, -context_size:]`: the whole sequence when it
      fits, otherwise its last `context_size` tokens; a zero context size slices `[-0:]`, which is
      the whole sequence. The context is always a suffix of the sequence. */
  function Crop(idx: seq<nat>, contextSize: nat): (r: seq<nat>)
    ensures |r| == (if contextSize == 0 then |idx| else Min(|idx|, contextSize))
    ensures r == idx[|idx| - |r|..]
  {
    if |idx| <= contextSize then idx else SliceFrom(idx, -(contextSize as int))
  }

  /** `torch.argmax` of a non-empty row: the index of the first maximum. */
  function ArgMax(row: seq<real>): (i: nat)
    requires |row| > 0
    ensures i < |row|
    ensures forall j :: 0 <= j < |row| ==> row[j] <= row[i]
    ensures forall j :: 0 <= j < i ==> row[j] < row[i]
  {
    if |row| == 1 then 0
    else
      var i := ArgMax(row[..|row| - 1]);
      if row[|row| - 1] > row[i] then |row| - 1 else i
  }

  /** One iteration's choice: the model sees the cropped context, `logits[:, -1, :]` needs at least
      one position (IndexError otherwise) and `argmax` a non-empty row (otherwise it
      raises IndexError too, for a zero-size reduction dimension).
      The softmax in between is strictly increasing and does not change the maximum. */
  function NextToken(model: Model, idx: seq<nat>, contextSize: nat): Result<nat, Exception>
  {
    var logits := model(Crop(idx, contextSize));
    if |logits| == 0 then Failure(IndexError)
    else if |logits[|logits| - 1]| == 0 then Failure(IndexError)
    else Success(ArgMax(logits[|logits| - 1]))
  }

  /** A rule for the next token of a sequence, or the error that stops generation. */
  type Chooser = seq<nat> -> Result<nat, Exception>

  /** The rule `generate_text_simple` applies with a given model and context size. */
  function NextTokenOf(model: Model, contextSize: nat): (choose: Chooser)
    ensures forall s :: choose(s) == NextToken(model, s, contextSize)
  {
    s => NextToken(model, s, contextSize)
  }

  /** The sequence after `n` more iterations of choosing a token and appending it. */
  function Generated(choose: Chooser, idx: seq<nat>, n: nat): Result<seq<nat>, Exception>
    decreases n
  {
    if n == 0 then Success(idx)
    else
      match choose(idx)
      case Failure(e) => Failure(e)
      case Success(t) => Generated(choose, idx + [t], n - 1)
  }

  /** `generate_text_simple(model, idx, max_new_tokens, context_size)`. */
  method GenerateTextSimple(model: Model, idx: seq<nat>, maxNewTokens: nat, contextSize: nat)
    returns (r: Result<seq<nat>, Exception>)
    ensures r == Generated(NextTokenOf(model, contextSize), idx, maxNewTokens)
  {
    ghost var choose := NextTokenOf(model, contextSize);
    var current := idx;
    for step := 0 to maxNewTokens
      invariant Generated(choose, current, maxNewTokens - step) == Generated(choose, idx, maxNewTokens)
    {
      var idxCond := if |current| <= contextSize then current else SliceFrom(current, -(contextSize as int));
      assert idxCond == Crop(current, contextSize);
      var logits := model(idxCond);
      if |logits| == 0 {
        assert choose(current) == Failure(IndexError);
        return Failure(IndexError);
      }
      var last := logits[|logits| - 1];
      if |last| == 0 {
        assert choose(current) == Failure(IndexError);
        return Failure(IndexError);
      }
      var nextIdx := ArgMax(last);
      assert choose(current) == Success(nextIdx);
      current := current + [nextIdx];
    }
    return Success(current);
  }

  /** `out` is `idx` followed by `n` tokens, each of them the rule's choice for the tokens before
      it. */
  ghost predicate Greedy(choose: Chooser, idx: seq<nat>, n: nat, out: seq<nat>)
  {
    |out| == |idx| + n && out[..|idx|] == idx &&
    forall p :: |idx| <= p < |out| ==> choose(out[..p]) == Success(out[p])
  }

  /** Generation succeeds with `out` exactly when `out` is the greedy continuation of the input. */
  lemma {:induction false} GeneratedGreedy(choose: Chooser, idx: seq<nat>, n: nat, out: seq<nat>)
    ensures Generated(choose, idx, n) == Success(out) <==> Greedy(choose, idx, n, out)
    decreases n
  {
    if n == 0 {
      if |out| == |idx| && out[..|idx|] == idx {
        assert out == idx;
      }
    } else {
      var first := choose(idx);
      if first.Success? {
        GeneratedGreedy(choose, idx + [first.value], n - 1, out);
        GreedyStep(choose, idx, n, out, first.value);
      } else {
        GreedyFirstFails(choose, idx, n, out);
      }
    }
  }

  /** After the first choice `t`, the rest of a greedy continuation is greedy from `idx + [t]`. */
  lemma GreedyStep(choose: Chooser, idx: seq<nat>, n: nat, out: seq<nat>, t: nat)
    requires n > 0 && choose(idx) == Success(t)
    ensures Greedy(choose, idx, n, out) <==> Greedy(choose, idx + [t], n - 1, out)
  {
    if Greedy(choose, idx + [t], n - 1, out) {
      GreedyExtend(choose, idx, n, out, t);
    }
    if Greedy(choose, idx, n, out) {
      GreedyShorten(choose, idx, n, out, t);
    }
  }

  lemma GreedyExtend(choose: Chooser, idx: seq<nat>, n: nat, out: seq<nat>, t: nat)
    requires n > 0 && choose(idx) == Success(t)
    requires Greedy(choose, idx + [t], n - 1, out)
    ensures Greedy(choose, idx, n, out)
  {
    var next := idx + [t];
    assert out[..|idx|] == out[..|next|][..|idx|];
    assert out[|idx|] == out[..|next|][|idx|];
    assert out[..|idx|] == idx;
  }

  lemma GreedyShorten(choose: Chooser, idx: seq<nat>, n: nat, out: seq<nat>, t: nat)
    requires n > 0 && choose(idx) == Success(t)
    requires Greedy(choose, idx, n, out)
    ensures Greedy(choose, idx + [t], n - 1, out)
  {
    assert choose(out[..|idx|]) == Success(out[|idx|]);
    assert out[..|idx| + 1] == out[..|idx|] + [out[|idx|]];
  }

  /** A first step that fails admits no greedy continuation. */
  lemma GreedyFirstFails(choose: Chooser, idx: seq<nat>, n: nat, out: seq<nat>)
    requires n > 0 && choose(idx).Failure?
    ensures !Greedy(choose, idx, n, out)
  {
    if |out| == |idx| + n && out[..|idx|] == idx {
      assert choose(out[..|idx|]).Failure?;
    }
  }

  /** The result extends the input by exactly `max_new_tokens` tokens, and no iterations leave the
      input as it is. */
  lemma {:induction false} GeneratedShape(choose: Chooser, idx: seq<nat>, n: nat)
    decreases n
    ensures n == 0 ==> Generated(choose, idx, n) == Success(idx)
    ensures Generated(choose, idx, n).Success? ==>
      |Generated(choose, idx, n).value| == |idx| + n && Generated(choose, idx, n).value[..|idx|] == idx
  {
    if n > 0 {
      var first := choose(idx);
      if first.Success? {
        var next := idx + [first.value];
        GeneratedShape(choose, next, n - 1);
        if Generated(choose, idx, n).Success? {
          var out := Generated(choose, idx, n).value;
          assert out[..|idx|] == out[..|next|][..|idx|];
        }
      }
    }
  }

  /** Only IndexError can stop `generate_text_simple`: from `logits[:, -1, :]` when the model
      returns no position, or from `argmax` when the last position has no scores. */
  lemma {:induction false} GeneratedErrors(model: Model, idx: seq<nat>, n: nat, contextSize: nat)
    decreases n
    ensures Generated(NextTokenOf(model, contextSize), idx, n).Failure? ==>
      Generated(NextTokenOf(model, contextSize), idx, n).error == IndexError
  {
    var choose := NextTokenOf(model, contextSize);
    if n > 0 && choose(idx).Success? {
      GeneratedErrors(model, idx + [choose(idx).value], n - 1, contextSize);
    }
  }

  /** Running `m` iterations and then `n` more is running `m + n` iterations. */
  lemma {:induction false} GeneratedCompose(choose: Chooser, idx: seq<nat>, m: nat, n: nat)
    ensures Generated(choose, idx, m + n) ==
      match Generated(choose, idx, m)
      case Failure(e) => Failure(e)
      case Success(mid) => Generated(choose, mid, n)
    decreases m
  {
    if m > 0 {
      var first := choose(idx);
      if first.Success? {
        GeneratedCompose(choose, idx + [first.value], m - 1, n);
        assert m + n - 1 == (m - 1) + n;
      }
    }
  }

  /** `text_to_token_ids`: the encoded ids with a batch dimension of one added. */
  function TextToTokenIds(text: string, encode: string -> seq<nat>): (batch: seq<seq<nat>>)
    ensures |batch| == 1 && batch[0] == encode(text)
  {
    [encode(text)]
  }

  /** `token_ids_to_text`: `squeeze(0)` drops the batch dimension only when it has size one and
      never fails; an empty batch becomes the empty list, and a larger batch stays nested, so
      `decode` receives nested lists and rejects them with TypeError. */
  function TokenIdsToText(batch: seq<seq<nat>>, decode: seq<nat> -> string): (r: Result<string, Exception>)
    ensures r.Success? <==> |batch| <= 1
    ensures |batch| == 1 ==> r == Success(decode(batch[0]))
    ensures |batch| == 0 ==> r == Success(decode([]))
    ensures r.Failure? ==> r.error == TypeError
  {
    if |batch| == 1 then Success(decode(batch[0]))
    else if |batch| == 0 then Success(decode([]))
    else Failure(TypeError)
  }

  /** Adding and then removing the batch dimension leaves the encoded ids unchanged, so the round
      trip decodes exactly what was encoded. */
  lemma TokenIdsRoundTrip(text: string, encode: string -> seq<nat>, decode: seq<nat> -> string)
    ensures TokenIdsToText(TextToTokenIds(text, encode), decode) == Success(decode(encode(text)))
  {
  }
}
