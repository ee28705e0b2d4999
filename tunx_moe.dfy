/** `MoELayer.forward` of `model/tunx.py`: per-token top-k routing over a given score matrix, weights
    gathered from the scores before any bias, per-expert token counts, and the per-expert dispatch
    loop that accumulates weighted expert outputs into a zero-initialised buffer, plus the shared
    expert's output. Experts are uninterpreted functions from a row to a row; the gate's softmax
    scores are an input matrix. */
module TunxMoE {
  import opened Common
  import opened Shapes

  /** One expert network applied to one token row. */
  type Expert = Row -> Row

  /** `f` maps rows of width `d` to rows of width `d` (every expert is `dim -> hidden -> dim`). */
  ghost predicate KeepsWidth(f: Expert, d: nat)
  {
    forall v: Row :: |v| == d ==> |f(v)| == d
  }

  predicate Distinct(s: seq<nat>)
  {
    forall p, q :: 0 <= p < q < |s| ==> s[p] != s[q]
  }

  function Zeros(d: nat): Row { seq(d, _ => 0.0) }

  /** `v * w` for a row `v` and a scalar weight `w`. */
  function Scale(v: Row, w: real): (r: Row)
    ensures |r| == |v| && forall j :: 0 <= j < |v| ==> r[j] == v[j] * w
  {
    seq(|v|, j requires 0 <= j < |v| => v[j] * w)
  }

  // ---------------------------------------------------------------------------------------------
  // Top-k selection

  /** Among the indices below `n` that are not in `taken`, the first one with the largest score. */
  function BestBelow(row: Row, taken: seq<nat>, n: nat): (r: Option<nat>)
    requires n <= |row|
    ensures r.None? <==> forall i :: 0 <= i < n ==> i in taken
    ensures r.Some? ==> r.value < n && r.value !in taken
    ensures r.Some? ==> forall i :: 0 <= i < n && i !in taken ==> row[i] <= row[r.value]
    ensures r.Some? ==> forall i :: 0 <= i < r.value && i !in taken ==> row[i] < row[r.value]
  {
    if n == 0 then None
    else
      var prev := BestBelow(row, taken, n - 1);
      if n - 1 in taken then prev
      else if prev.None? || row[prev.value] < row[n - 1] then Some(n - 1)
      else prev
  }

  /** Fewer than `n` indices leave some index below `n` free. */
  lemma {:induction false} FreeIndexExists(taken: seq<nat>, n: nat)
    requires |taken| < n
    ensures exists i :: 0 <= i < n && i !in taken
  {
    if n - 1 in taken {
      var p :| 0 <= p < |taken| && taken[p] == n - 1;
      var rest := taken[..p] + taken[p + 1..];
      FreeIndexExists(rest, n - 1);
      var i :| 0 <= i < n - 1 && i !in rest;
      assert taken == taken[..p] + [taken[p]] + taken[p + 1..];
      assert i !in taken;
    } else {
      assert n - 1 !in taken;
    }
  }

  /** What `torch.topk` promises of its indices, for a selection `sel` from `row`: valid distinct
      indices, listed by non-increasing score, every selected score at least every unselected one;
      among equal scores the lower index comes first, so each slot holds the first maximum of what
      earlier slots left. */
  ghost predicate Ranked(row: Row, sel: seq<nat>)
  {
    (forall s :: 0 <= s < |sel| ==> sel[s] < |row|) &&
    Distinct(sel) &&
    (forall s, s' :: 0 <= s < s' < |sel| ==> row[sel[s']] <= row[sel[s]]) &&
    (forall s, i :: 0 <= s < |sel| && 0 <= i < |row| && i !in sel ==> row[i] <= row[sel[s]]) &&
    (forall s, i :: 0 <= s < |sel| && 0 <= i < sel[s] && i !in sel[..s] ==> row[i] < row[sel[s]])
  }

  /** `torch.topk(row, k)` with its indices: `k` indices ranked as above. */
  function TopK(row: Row, k: nat): (sel: seq<nat>)
    requires k <= |row|
    ensures |sel| == k && Ranked(row, sel)
  {
    if k == 0 then []
    else
      var prev := TopK(row, k - 1);
      FreeIndexExists(prev, |row|);
      var b := BestBelow(row, prev, |row|).value;
      TopKExtend(row, prev, b);
      prev + [b]
  }

  /** Appending the best index not yet taken keeps the selection ranked. */
  lemma TopKExtend(row: Row, prev: seq<nat>, b: nat)
    requires Ranked(row, prev)
    requires b < |row| && b !in prev
    requires forall i :: 0 <= i < |row| && i !in prev ==> row[i] <= row[b]
    requires forall i :: 0 <= i < b && i !in prev ==> row[i] < row[b]
    ensures Ranked(row, prev + [b])
  {
    var sel := prev + [b];
    assert sel[..|prev|] == prev;
    forall s | 0 <= s < |prev|
      ensures sel[..s] == prev[..s]
    {
    }
  }

  /** `scores + self.bias` when a bias is present (broadcast over tokens). */
  function SelectionScores(scores: seq<Row>, bias: Option<Row>): (r: seq<Row>)
    requires bias.Some? ==> forall t :: 0 <= t < |scores| ==> |scores[t]| == |bias.value|
    ensures |r| == |scores| && forall t :: 0 <= t < |r| ==> |r[t]| == |scores[t]|
  {
    match bias
    case None => scores
    case Some(b) => seq(|scores|, t requires 0 <= t < |scores| => AddRows(scores[t], b))
  }

  /** The `indices` of `torch.topk(scores, k=self.top_k, dim=-1)` taken over the biased scores. */
  function Route(scores: seq<Row>, bias: Option<Row>, k: nat, nExperts: nat): (indices: seq<seq<nat>>)
    requires Rectangular(scores, nExperts) && k <= nExperts
    requires bias.Some? ==> |bias.value| == nExperts
    ensures |indices| == |scores| && Rectangular(indices, k)
    ensures forall t, s :: 0 <= t < |indices| && 0 <= s < |indices[t]| ==>
      indices[t][s] < nExperts && indices[t][s] < |scores[t]|
    ensures forall t :: 0 <= t < |indices| ==> Distinct(indices[t])
  {
    var sel := SelectionScores(scores, bias);
    seq(|scores|, t requires 0 <= t < |scores| => TopK(sel[t], k))
  }

  /** Every token gets exactly `k` distinct experts in `[0, n_routed_experts)`, and each selected
      biased score is at least every unselected biased score of the same token. */
  lemma RouteSpec(scores: seq<Row>, bias: Option<Row>, k: nat, nExperts: nat, t: nat)
    requires Rectangular(scores, nExperts) && k <= nExperts
    requires bias.Some? ==> |bias.value| == nExperts
    requires t < |scores|
    ensures var sel := Route(scores, bias, k, nExperts)[t];
      var biased := SelectionScores(scores, bias)[t];
      |sel| == k && Distinct(sel) && (forall s :: 0 <= s < k ==> sel[s] < nExperts) &&
      (bias.None? ==> biased == scores[t]) &&
      (bias.Some? ==> forall i :: 0 <= i < nExperts ==> biased[i] == scores[t][i] + bias.value[i]) &&
      forall s, i :: 0 <= s < k && 0 <= i < nExperts && i !in sel ==> biased[i] <= biased[sel[s]]
  {
  }

  /** `original_scores.gather(1, indices)`. */
  function Gather(scores: seq<Row>, indices: seq<seq<nat>>): (w: seq<seq<real>>)
    requires |indices| == |scores|
    requires forall t, s :: 0 <= t < |indices| && 0 <= s < |indices[t]| ==> indices[t][s] < |scores[t]|
    ensures |w| == |indices| && forall t :: 0 <= t < |w| ==> |w[t]| == |indices[t]|
  {
    seq(|indices|, t requires 0 <= t < |indices| =>
      seq(|indices[t]|, s requires 0 <= s < |indices[t]| => scores[t][indices[t][s]]))
  }

  /** The combination weights are the pre-bias scores of the selected experts: the bias picks the
      experts and never changes a weight's value. Without a bias the weights are the token's `k`
      largest scores in non-increasing order. */
  lemma WeightsArePreBias(scores: seq<Row>, bias: Option<Row>, k: nat, nExperts: nat, t: nat)
    requires Rectangular(scores, nExperts) && k <= nExperts
    requires bias.Some? ==> |bias.value| == nExperts
    requires t < |scores|
    ensures var indices := Route(scores, bias, k, nExperts);
      var w := Gather(scores, indices);
      |w[t]| == k && (forall s :: 0 <= s < k ==> w[t][s] == scores[t][indices[t][s]]) &&
      (bias.None? ==> ((forall s, s' :: 0 <= s < s' < k ==> w[t][s'] <= w[t][s]) &&
        (forall s, i :: 0 <= s < k && 0 <= i < nExperts && i !in indices[t] ==> scores[t][i] <= w[t][s])))
  {
    RouteSpec(scores, bias, k, nExperts, t);
  }


  // ---------------------------------------------------------------------------------------------
  // Counting and where

  function MaxPlusOne(flat: seq<nat>): nat
  {
    if flat == [] then 0 else Max(MaxPlusOne(flat[..|flat| - 1]), flat[|flat| - 1] + 1)
  }

  lemma {:induction false} MaxPlusOneBound(flat: seq<nat>, bound: nat)
    requires forall p :: 0 <= p < |flat| ==> flat[p] < bound
    ensures MaxPlusOne(flat) <= bound
  {
    if flat != [] {
      MaxPlusOneBound(flat[..|flat| - 1], bound);
    }
  }

  /** The number of times `v` occurs in `s`. */
  function Occurrences(s: seq<nat>, v: nat): nat
  {
    multiset(s)[v]
  }

  lemma OccurrencesConcat(s: seq<nat>, t: seq<nat>, v: nat)
    ensures Occurrences(s + t, v) == Occurrences(s, v) + Occurrences(t, v)
  {
    assert multiset(s + t) == multiset(s) + multiset(t);
  }

  /** `torch.bincount(flat, minlength)`: one count per value up to the larger of `minlength` and
      the largest value plus one. */
  function BinCount(flat: seq<nat>, minLength: nat): (counts: seq<nat>)
  {
    var len := Max(minLength, MaxPlusOne(flat));
    seq(len, i requires 0 <= i < len => Occurrences(flat, i))
  }

  function Sum(s: seq<nat>): nat
  {
    if s == [] then 0 else Sum(s[..|s| - 1]) + s[|s| - 1]
  }

  /** Occurrences in `flat` of the values below `n`. */
  function CountBelow(flat: seq<nat>, n: nat): nat
  {
    if n == 0 then 0 else CountBelow(flat, n - 1) + Occurrences(flat, n - 1)
  }

  lemma {:induction false} CountBelowAppend(s: seq<nat>, x: nat, n: nat)
    ensures CountBelow(s + [x], n) == CountBelow(s, n) + (if x < n then 1 else 0)
  {
    if n > 0 {
      CountBelowAppend(s, x, n - 1);
      OccurrencesConcat(s, [x], n - 1);
    }
  }

  lemma {:induction false} CountBelowEmpty(n: nat)
    ensures CountBelow([], n) == 0
  {
    if n > 0 {
      CountBelowEmpty(n - 1);
    }
  }

  lemma {:induction false} CountBelowAll(flat: seq<nat>, n: nat)
    requires forall p :: 0 <= p < |flat| ==> flat[p] < n
    ensures CountBelow(flat, n) == |flat|
  {
    if flat == [] {
      CountBelowEmpty(n);
    } else {
      var init := flat[..|flat| - 1];
      assert flat == init + [flat[|flat| - 1]];
      CountBelowAll(init, n);
      CountBelowAppend(init, flat[|flat| - 1], n);
    }
  }

  lemma {:induction false} SumCounts(flat: seq<nat>, counts: seq<nat>)
    requires forall i :: 0 <= i < |counts| ==> counts[i] == Occurrences(flat, i)
    ensures Sum(counts) == CountBelow(flat, |counts|)
  {
    if counts != [] {
      SumCounts(flat, counts[..|counts| - 1]);
    }
  }

  lemma {:induction false} FlattenBound(x: seq<seq<nat>>, bound: nat)
    requires forall b, l :: 0 <= b < |x| && 0 <= l < |x[b]| ==> x[b][l] < bound
    ensures forall p :: 0 <= p < |Flatten<nat>(x)| ==> Flatten<nat>(x)[p] < bound
  {
    if x != [] {
      FlattenBound(x[..|x| - 1], bound);
    }
  }

  /** The slots of `row` that hold `i`. */
  function SlotsOf(row: seq<nat>, i: nat): (r: seq<nat>)
    ensures forall p :: 0 <= p < |r| ==> r[p] < |row| && row[r[p]] == i
    ensures forall s :: 0 <= s < |row| && row[s] == i ==> s in r
  {
    if row == [] then []
    else
      var init := row[..|row| - 1];
      SlotsOf(init, i) + (if row[|row| - 1] == i then [|row| - 1] else [])
  }

  lemma {:induction false} SlotsCount(row: seq<nat>, i: nat)
    ensures |SlotsOf(row, i)| == Occurrences(row, i)
  {
    if row != [] {
      var init := row[..|row| - 1];
      assert row == init + [row[|row| - 1]];
      SlotsCount(init, i);
      OccurrencesConcat(init, [row[|row| - 1]], i);
    }
  }

  lemma {:induction false} SlotsAtMostOne(row: seq<nat>, i: nat)
    requires Distinct(row)
    ensures |SlotsOf(row, i)| <= 1
  {
    if row != [] {
      var init := row[..|row| - 1];
      SlotsAtMostOne(init, i);
      if row[|row| - 1] == i {
        forall p | 0 <= p < |init| ensures init[p] != i {
          assert init[p] == row[p];
        }
        SlotsCount(init, i);
        assert i !in init;
      }
    }
  }

  /** The pairs `(t, s)` of one token `t` and the given slots. */
  function Tag(t: nat, slots: seq<nat>): (r: seq<(nat, nat)>)
    ensures |r| == |slots| && forall p :: 0 <= p < |r| ==> r[p] == (t, slots[p])
  {
    seq(|slots|, p requires 0 <= p < |slots| => (t, slots[p]))
  }

  /** `torch.where(indices == i)`: the (token, slot) coordinates holding `i`, in row-major order. */
  function Where(indices: seq<seq<nat>>, i: nat): (r: seq<(nat, nat)>)
    ensures forall q :: 0 <= q < |r| ==>
      r[q].0 < |indices| && r[q].1 < |indices[r[q].0]| && indices[r[q].0][r[q].1] == i
  {
    if indices == [] then []
    else
      var n := |indices| - 1;
      Where(indices[..n], i) + Tag(n, SlotsOf(indices[n], i))
  }

  /** Every coordinate holding `i` is found by `where`. */
  lemma {:induction false} WhereComplete(indices: seq<seq<nat>>, i: nat, t: nat, s: nat)
    requires t < |indices| && s < |indices[t]| && indices[t][s] == i
    ensures (t, s) in Where(indices, i)
  {
    var n := |indices| - 1;
    if t < n {
      assert indices[..n][t] == indices[t];
      WhereComplete(indices[..n], i, t, s);
    } else {
      var slots := SlotsOf(indices[n], i);
      var p :| 0 <= p < |slots| && slots[p] == s;
      assert Tag(n, slots)[p] == (t, s);
    }
  }

  /** When no token selects an expert twice, each token appears at most once among the coordinates
      `where` returns for one expert. */
  lemma {:induction false} WhereTokensDistinct(indices: seq<seq<nat>>, i: nat)
    requires forall t :: 0 <= t < |indices| ==> Distinct(indices[t])
    ensures forall q, q' :: 0 <= q < q' < |Where(indices, i)| ==> Where(indices, i)[q].0 != Where(indices, i)[q'].0
  {
    if indices != [] {
      var n := |indices| - 1;
      WhereTokensDistinct(indices[..n], i);
      var front := Where(indices[..n], i);
      var block := Tag(n, SlotsOf(indices[n], i));
      SlotsAtMostOne(indices[n], i);
      var r := front + block;
      forall q, q' | 0 <= q < q' < |r| ensures r[q].0 != r[q'].0 {
        if q' >= |front| {
          assert |block| <= 1;
          assert q < |front|;
          assert r[q'] == block[q' - |front|];
          assert r[q'].0 == n;
          assert r[q] == front[q];
          assert front[q].0 < n;
        } else {
          assert r[q] == front[q] && r[q'] == front[q'];
          assert front[q].0 != front[q'].0;
        }
      }
    }
  }

  lemma {:induction false} WhereCount(indices: seq<seq<nat>>, i: nat)
    ensures |Where(indices, i)| == Occurrences(Flatten(indices), i)
  {
    if indices != [] {
      var n := |indices| - 1;
      WhereCount(indices[..n], i);
      SlotsCount(indices[n], i);
      OccurrencesConcat(Flatten(indices[..n]), indices[n], i);
    }
  }

  /** `idx` of `idx, top = torch.where(...)`: the tokens of the coordinates. */
  function Tokens(pairs: seq<(nat, nat)>): (r: seq<nat>)
    ensures |r| == |pairs| && forall q :: 0 <= q < |r| ==> r[q] == pairs[q].0
  {
    seq(|pairs|, q requires 0 <= q < |pairs| => pairs[q].0)
  }

  /** `top` of `idx, top = torch.where(...)`: the slots of the coordinates. */
  function Slots(pairs: seq<(nat, nat)>): (r: seq<nat>)
    ensures |r| == |pairs| && forall q :: 0 <= q < |r| ==> r[q] == pairs[q].1
  {
    seq(|pairs|, q requires 0 <= q < |pairs| => pairs[q].1)
  }

  /** `counts[i]` is the number of coordinates `where` finds for expert `i`. */
  lemma CountIsWhereSize(indices: seq<seq<nat>>, nExperts: nat, i: nat)
    requires i < nExperts
    ensures i < |BinCount(Flatten(indices), nExperts)|
    ensures BinCount(Flatten(indices), nExperts)[i] == |Where(indices, i)|
  {
    WhereCount(indices, i);
  }

  /** `bincount(indices.flatten(), minlength=n_routed_experts)` has exactly one entry per expert, an
      expert whose count is zero appears in no token's selection, and the counts add up to `N * k`,
      one per (token, slot) pair. */
  lemma CountsSpec(indices: seq<seq<nat>>, k: nat, nExperts: nat)
    requires Rectangular(indices, k)
    requires forall t, s :: 0 <= t < |indices| && 0 <= s < k ==> indices[t][s] < nExperts
    ensures var counts := BinCount(Flatten(indices), nExperts);
      |counts| == nExperts && Sum(counts) == |indices| * k &&
      forall i, t, s :: 0 <= i < nExperts && counts[i] == 0 && 0 <= t < |indices| && 0 <= s < k ==>
        indices[t][s] != i
  {
    var flat := Flatten(indices);
    FlattenLength(indices, k);
    FlattenBound(indices, nExperts);
    MaxPlusOneBound(flat, nExperts);
    forall i: nat, t: nat, s: nat | i < nExperts && Occurrences(flat, i) == 0 && t < |indices| && s < k
      ensures indices[t][s] != i
    {
      FlattenMember(indices, t, s);
    }
    SumCounts(flat, BinCount(flat, nExperts));
    CountBelowAll(flat, nExperts);
  }

  /** What the expert loop needs from `where` for expert `m`: the tokens are distinct, each pair
      is a slot holding `m`, and every slot holding `m` has its token among them. */
  lemma WhereDispatch(indices: seq<seq<nat>>, k: nat, m: nat)
    requires Rectangular(indices, k)
    requires forall t :: 0 <= t < |indices| ==> Distinct(indices[t])
    ensures Distinct(Tokens(Where(indices, m)))
    ensures forall q :: 0 <= q < |Where(indices, m)| ==>
      Tokens(Where(indices, m))[q] < |indices| && Slots(Where(indices, m))[q] < k &&
      indices[Tokens(Where(indices, m))[q]][Slots(Where(indices, m))[q]] == m
    ensures forall t, s :: 0 <= t < |indices| && 0 <= s < k && indices[t][s] == m ==> t in Tokens(Where(indices, m))
  {
    var pairs := Where(indices, m);
    WhereTokensDistinct(indices, m);
    forall t, s | 0 <= t < |indices| && 0 <= s < k && indices[t][s] == m
      ensures t in Tokens(pairs)
    {
      WhereComplete(indices, m, t, s);
      var q :| 0 <= q < |pairs| && pairs[q] == (t, s);
      assert Tokens(pairs)[q] == t;
    }
  }

  // ---------------------------------------------------------------------------------------------
  // Indexed accumulation

  /** `a[idx] += vals` read as Python writes it, `a[idx] = a[idx] + vals`: gather the rows
      `a[idx]` once, add `vals`, then write each sum back. The tensor library leaves the outcome
      of a repeated index in `index_put_` unspecified; this model writes the sums back in order,
      so a repeated index keeps its last sum, and `WhereTokensDistinct` shows that the expert loop
      never repeats one. */
  function IndexAddAsWritten(a: seq<Row>, idx: seq<nat>, vals: seq<Row>): (r: seq<Row>)
    requires |idx| == |vals|
    requires forall q :: 0 <= q < |idx| ==> idx[q] < |a| && |vals[q]| == |a[idx[q]]|
    ensures |r| == |a|
  {
    if idx == [] then a
    else
      var m := |idx| - 1;
      IndexAddAsWritten(a, idx[..m], vals[..m])[idx[m] := AddRows(a[idx[m]], vals[m])]
  }

  /** With distinct indices the indexed `+=` is a genuine accumulation: every indexed row gets its
      value added, and every other row is unchanged. */
  lemma {:induction false} IndexAddDistinct(a: seq<Row>, idx: seq<nat>, vals: seq<Row>)
    requires |idx| == |vals|
    requires forall q :: 0 <= q < |idx| ==> idx[q] < |a| && |vals[q]| == |a[idx[q]]|
    requires Distinct(idx)
    ensures forall q :: 0 <= q < |idx| ==>
      IndexAddAsWritten(a, idx, vals)[idx[q]] == AddRows(a[idx[q]], vals[q])
    ensures forall t :: 0 <= t < |a| && t !in idx ==> IndexAddAsWritten(a, idx, vals)[t] == a[t]
  {
    if idx != [] {
      var m := |idx| - 1;
      IndexAddDistinct(a, idx[..m], vals[..m]);
      forall t | 0 <= t < |a| && t !in idx ensures IndexAddAsWritten(a, idx, vals)[t] == a[t] {
        assert t !in idx[..m];
      }
    }
  }

  /** With a repeated index the indexed `+=` can lose a contribution: of two additions to row 0
      only one survives (the second under the in-order write-back of this model; which one the
      tensor library keeps is unspecified). */
  lemma IndexAddDuplicateLoses()
    ensures IndexAddAsWritten([[0.0]], [0, 0], [[1.0], [2.0]]) == [[2.0]]
  {
    var a: seq<Row> := [[0.0]];
    assert [0, 0][..1] == [0];
    assert [[1.0], [2.0]][..1] == [[1.0]];
    var mid := IndexAddAsWritten(a, [0], [[1.0]]);
    assert |mid| == 1;
    assert AddRows([0.0], [2.0]) == [2.0] by {
      assert AddRows([0.0], [2.0])[0] == 2.0;
    }
    assert IndexAddAsWritten(a, [0, 0], [[1.0], [2.0]]) == mid[0 := AddRows(a[0], [2.0])];
  }

  /** The in-place form of `a[idx] += vals` on the output buffer. */
  method IndexAdd(a: array<Row>, idx: seq<nat>, vals: seq<Row>)
    requires |idx| == |vals|
    requires forall q :: 0 <= q < |idx| ==> idx[q] < a.Length && |vals[q]| == |a[idx[q]]|
    modifies a
    ensures a[..] == IndexAddAsWritten(old(a[..]), idx, vals)
  {
    var snapshot := a[..];
    var gathered := seq(|idx|, q requires 0 <= q < |idx| => snapshot[idx[q]]);
    for q := 0 to |idx|
      invariant a[..] == IndexAddAsWritten(snapshot, idx[..q], vals[..q])
    {
      assert idx[..q + 1][..q] == idx[..q] && vals[..q + 1][..q] == vals[..q];
      a[idx[q]] := AddRows(gathered[q], vals[q]);
    }
    assert idx[..|idx|] == idx && vals[..|vals|] == vals;
  }

  // ---------------------------------------------------------------------------------------------
  // Combination

  /** Coordinate `j` of expert `i`'s output on row `x` (zero outside the experts' range, which
      never happens for a valid routing). */
  function ExpertOut(experts: seq<Expert>, x: Row, i: nat, j: nat): real
  {
    if i < |experts| && j < |experts[i](x)| then experts[i](x)[j] else 0.0
  }

  /** Coordinate `j` of one token's routed output: the sum over its first `n` slots of
      expert output times weight, in slot order. */
  function SlotSum(sel: seq<nat>, wts: seq<real>, experts: seq<Expert>, x: Row, j: nat, n: nat): real
    requires n <= |sel| && n <= |wts|
  {
    if n == 0 then 0.0
    else SlotSum(sel, wts, experts, x, j, n - 1) + ExpertOut(experts, x, sel[n - 1], j) * wts[n - 1]
  }

  /** The same sum restricted to slots whose expert is below `m`: what the expert loop has added
      after visiting experts `0 .. m - 1`. */
  function SlotSumBelow(sel: seq<nat>, wts: seq<real>, experts: seq<Expert>, x: Row, j: nat, n: nat, m: nat): real
    requires n <= |sel| && n <= |wts|
  {
    if n == 0 then 0.0
    else
      var last := if sel[n - 1] < m then ExpertOut(experts, x, sel[n - 1], j) * wts[n - 1] else 0.0;
      SlotSumBelow(sel, wts, experts, x, j, n - 1, m) + last
  }

  /** Visiting an expert that no slot selected adds nothing. */
  lemma {:induction false} SlotSumBelowSkip(sel: seq<nat>, wts: seq<real>, experts: seq<Expert>, x: Row, j: nat, n: nat, m: nat)
    requires n <= |sel| && n <= |wts|
    requires forall s :: 0 <= s < n ==> sel[s] != m
    ensures SlotSumBelow(sel, wts, experts, x, j, n, m + 1) == SlotSumBelow(sel, wts, experts, x, j, n, m)
  {
    if n > 0 {
      SlotSumBelowSkip(sel, wts, experts, x, j, n - 1, m);
    }
  }

  /** Visiting the expert selected by slot `s` adds that slot's contribution, and only it: no other
      slot selected the same expert. */
  lemma {:induction false} SlotSumBelowHit(sel: seq<nat>, wts: seq<real>, experts: seq<Expert>, x: Row, j: nat, n: nat,
                                           m: nat, s: nat)
    requires n <= |sel| && n <= |wts|
    requires Distinct(sel)
    requires s < n && sel[s] == m
    ensures SlotSumBelow(sel, wts, experts, x, j, n, m + 1) ==
      SlotSumBelow(sel, wts, experts, x, j, n, m) + ExpertOut(experts, x, m, j) * wts[s]
  {
    assert sel[n - 1] == m <==> s == n - 1;
    if s == n - 1 {
      SlotSumBelowSkip(sel, wts, experts, x, j, n - 1, m);
    } else {
      SlotSumBelowHit(sel, wts, experts, x, j, n - 1, m, s);
    }
  }

  lemma {:induction false} SlotSumBelowAll(sel: seq<nat>, wts: seq<real>, experts: seq<Expert>, x: Row, j: nat, n: nat, m: nat)
    requires n <= |sel| && n <= |wts|
    requires forall s :: 0 <= s < n ==> sel[s] < m
    ensures SlotSumBelow(sel, wts, experts, x, j, n, m) == SlotSum(sel, wts, experts, x, j, n)
  {
    if n > 0 {
      SlotSumBelowAll(sel, wts, experts, x, j, n - 1, m);
    }
  }

  lemma {:induction false} SlotSumBelowZero(sel: seq<nat>, wts: seq<real>, experts: seq<Expert>, x: Row, j: nat, n: nat)
    requires n <= |sel| && n <= |wts|
    ensures SlotSumBelow(sel, wts, experts, x, j, n, 0) == 0.0
  {
    if n > 0 {
      SlotSumBelowZero(sel, wts, experts, x, j, n - 1);
    }
  }

  /** The layer's output rows before the final `view(shape)`: shared-expert output plus, for each
      token, the sum over its `k` slots of expert output times pre-bias weight. */
  function Combine(xf: seq<Row>, dim: nat, indices: seq<seq<nat>>, weights: seq<seq<real>>,
                   experts: seq<Expert>, shared: Expert): (out: seq<Row>)
    requires Rectangular(xf, dim) && KeepsWidth(shared, dim)
    requires |indices| == |xf| && |weights| == |xf|
    requires forall t :: 0 <= t < |xf| ==> |weights[t]| == |indices[t]|
    ensures |out| == |xf| && Rectangular(out, dim)
  {
    seq(|xf|, t requires 0 <= t < |xf| => seq(dim, j requires 0 <= j < dim =>
      shared(xf[t])[j] + SlotSum(indices[t], weights[t], experts, xf[t], j, |indices[t]|)))
  }

  lemma {:induction false} SlotSumReplace(sel: seq<nat>, wts: seq<real>, experts: seq<Expert>, x: Row, j: nat, n: nat,
                                          m: nat, other: Expert)
    requires n <= |sel| && n <= |wts| && m < |experts|
    requires forall s :: 0 <= s < n ==> sel[s] != m
    ensures SlotSum(sel, wts, experts[m := other], x, j, n) == SlotSum(sel, wts, experts, x, j, n)
  {
    if n > 0 {
      SlotSumReplace(sel, wts, experts, x, j, n - 1, m, other);
    }
  }

  /** An expert that no token selected has no influence on the layer's output: replacing it by any
      other network leaves every output row unchanged (the loop skips it because its count is 0). */
  lemma UnusedExpertIrrelevant(xf: seq<Row>, dim: nat, indices: seq<seq<nat>>, weights: seq<seq<real>>,
                               experts: seq<Expert>, shared: Expert, m: nat, other: Expert)
    requires Rectangular(xf, dim) && KeepsWidth(shared, dim)
    requires |indices| == |xf| && |weights| == |xf|
    requires forall t :: 0 <= t < |xf| ==> |weights[t]| == |indices[t]|
    requires m < |experts|
    requires forall t, s :: 0 <= t < |indices| && 0 <= s < |indices[t]| ==> indices[t][s] != m
    ensures Combine(xf, dim, indices, weights, experts[m := other], shared) ==
            Combine(xf, dim, indices, weights, experts, shared)
  {
    var a := Combine(xf, dim, indices, weights, experts[m := other], shared);
    var b := Combine(xf, dim, indices, weights, experts, shared);
    forall t | 0 <= t < |xf| ensures a[t] == b[t] {
      forall j | 0 <= j < dim ensures a[t][j] == b[t][j] {
        SlotSumReplace(indices[t], weights[t], experts, xf[t], j, |indices[t]|, m, other);
      }
    }
  }

  /** A rank-3 tensor `[B, L, D]`. */
  ghost predicate Tensor3(x: seq<seq<Row>>, seqLen: nat, dim: nat)
  {
    forall b :: 0 <= b < |x| ==> |x[b]| == seqLen && Rectangular(x[b], dim)
  }

  lemma {:induction false} FlattenRowWidth(x: seq<seq<Row>>, seqLen: nat, dim: nat)
    requires Tensor3(x, seqLen, dim)
    ensures Rectangular(Flatten(x), dim)
  {
    if x != [] {
      FlattenRowWidth(x[..|x| - 1], seqLen, dim);
    }
  }

  lemma FlattenRows(x: seq<seq<Row>>, seqLen: nat, dim: nat)
    requires Tensor3(x, seqLen, dim)
    ensures |Flatten(x)| == |x| * seqLen && Rectangular(Flatten(x), dim)
  {
    FlattenLength(x, seqLen);
    FlattenRowWidth(x, seqLen, dim);
  }

  /** The whole layer on values: flatten the batch, route, gather the weights, combine, reshape. */
  function Output(x: seq<seq<Row>>, seqLen: nat, dim: nat, scores: seq<Row>, bias: Option<Row>,
                  topK: nat, experts: seq<Expert>, shared: Expert): (y: seq<seq<Row>>)
    requires Tensor3(x, seqLen, dim)
    requires |scores| == |x| * seqLen && Rectangular(scores, |experts|)
    requires bias.Some? ==> |bias.value| == |experts|
    requires KeepsWidth(shared, dim)
    requires topK <= |experts|
  {
    FlattenRows(x, seqLen, dim);
    var indices := Route(scores, bias, topK, |experts|);
    Assemble(x, seqLen, dim, indices, Gather(scores, indices), experts, shared)
  }

  /** Combining the flattened rows for a given routing and reshaping back to `[B, L, dim]`. */
  function Assemble(x: seq<seq<Row>>, seqLen: nat, dim: nat, indices: seq<seq<nat>>, weights: seq<seq<real>>,
                    experts: seq<Expert>, shared: Expert): (y: seq<seq<Row>>)
    requires Tensor3(x, seqLen, dim) && KeepsWidth(shared, dim)
    requires |indices| == |x| * seqLen && |weights| == |x| * seqLen
    requires forall t :: 0 <= t < |indices| ==> |weights[t]| == |indices[t]|
  {
    FlattenRows(x, seqLen, dim);
    Unflatten(Combine(Flatten(x), dim, indices, weights, experts, shared), |x|, seqLen)
  }

  /** Reshaping keeps the input's shape `[B, L, dim]`, and position `l` of batch element `b` is
      row `b * L + l` of the flattened computation: the shared expert's output plus, for each of
      its slots, the selected expert's output scaled by the slot's weight. */
  lemma AssembleSpec(x: seq<seq<Row>>, seqLen: nat, dim: nat, indices: seq<seq<nat>>, weights: seq<seq<real>>,
                     experts: seq<Expert>, shared: Expert, b: nat, l: nat)
    requires Tensor3(x, seqLen, dim) && KeepsWidth(shared, dim)
    requires |indices| == |x| * seqLen && |weights| == |x| * seqLen
    requires forall t :: 0 <= t < |indices| ==> |weights[t]| == |indices[t]|
    requires b < |x| && l < seqLen
    ensures |Assemble(x, seqLen, dim, indices, weights, experts, shared)| == |x|
    ensures |Assemble(x, seqLen, dim, indices, weights, experts, shared)[b]| == seqLen
    ensures b * seqLen + l < |indices| &&
      |Assemble(x, seqLen, dim, indices, weights, experts, shared)[b][l]| == dim &&
      forall j :: 0 <= j < dim ==>
        Assemble(x, seqLen, dim, indices, weights, experts, shared)[b][l][j] ==
          shared(x[b][l])[j] +
          SlotSum(indices[b * seqLen + l], weights[b * seqLen + l], experts, x[b][l], j, |indices[b * seqLen + l]|)
  {
    FlattenRows(x, seqLen, dim);
    var c := Combine(Flatten(x), dim, indices, weights, experts, shared);
    var t := b * seqLen + l;
    UnflattenIndex(c, |x|, seqLen, b, l);
    FlattenIndex(x, seqLen, b, l);
    assert Flatten(x)[t] == x[b][l];
  }

  /** The layer keeps the input's shape `[B, L, dim]` (`N = B * L` rows in and out), and each
      position's output is the shared expert's output plus the weighted outputs of the `top_k`
      experts routed for it, with the pre-bias scores as weights. */
  lemma OutputSpec(x: seq<seq<Row>>, seqLen: nat, dim: nat, scores: seq<Row>, bias: Option<Row>,
                   topK: nat, experts: seq<Expert>, shared: Expert, b: nat, l: nat)
    requires Tensor3(x, seqLen, dim)
    requires |scores| == |x| * seqLen && Rectangular(scores, |experts|)
    requires bias.Some? ==> |bias.value| == |experts|
    requires KeepsWidth(shared, dim)
    requires topK <= |experts|
    requires b < |x| && l < seqLen
    ensures |Output(x, seqLen, dim, scores, bias, topK, experts, shared)| == |x|
    ensures |Output(x, seqLen, dim, scores, bias, topK, experts, shared)[b]| == seqLen
    ensures b * seqLen + l < |scores| &&
      |Output(x, seqLen, dim, scores, bias, topK, experts, shared)[b][l]| == dim &&
      forall j :: 0 <= j < dim ==>
        Output(x, seqLen, dim, scores, bias, topK, experts, shared)[b][l][j] ==
          shared(x[b][l])[j] +
          SlotSum(Route(scores, bias, topK, |experts|)[b * seqLen + l],
                  Gather(scores, Route(scores, bias, topK, |experts|))[b * seqLen + l],
                  experts, x[b][l], j, topK)
  {
    var indices := Route(scores, bias, topK, |experts|);
    var weights := Gather(scores, indices);
    assert Output(x, seqLen, dim, scores, bias, topK, experts, shared) ==
      Assemble(x, seqLen, dim, indices, weights, experts, shared);
    AssembleSpec(x, seqLen, dim, indices, weights, experts, shared, b, l);
  }

  lemma SlotAdded(sel: seq<nat>, wts: seq<real>, experts: seq<Expert>, x: Row, j: nat, m: nat, s: nat,
                  before: real, after: real)
    requires |sel| == |wts| && Distinct(sel)
    requires s < |sel| && sel[s] == m && m < |experts| && j < |experts[m](x)|
    requires before == SlotSumBelow(sel, wts, experts, x, j, |sel|, m)
    requires after == before + experts[m](x)[j] * wts[s]
    ensures after == SlotSumBelow(sel, wts, experts, x, j, |sel|, m + 1)
  {
    SlotSumBelowHit(sel, wts, experts, x, j, |sel|, m, s);
  }

  lemma ScaledAdd(before: Row, out: Row, w: real, after: Row)
    requires |before| == |out| && after == AddRows(before, Scale(out, w))
    ensures |after| == |out| && forall j :: 0 <= j < |out| ==> after[j] == before[j] + out[j] * w
  {
  }

  /** A row that the loop updates for expert `m` at slot `s` gains that slot's contribution. */
  lemma RowAdded(sel: seq<nat>, wts: seq<real>, experts: seq<Expert>, x: Row, dim: nat, m: nat, s: nat,
                 before: Row, after: Row)
    requires |sel| == |wts| && Distinct(sel)
    requires s < |sel| && sel[s] == m && m < |experts| && |experts[m](x)| == dim
    requires |before| == dim
    requires forall j :: 0 <= j < dim ==> before[j] == SlotSumBelow(sel, wts, experts, x, j, |sel|, m)
    requires after == AddRows(before, Scale(experts[m](x), wts[s]))
    ensures |after| == dim
    ensures forall j :: 0 <= j < dim ==> after[j] == SlotSumBelow(sel, wts, experts, x, j, |sel|, m + 1)
  {
    ScaledAdd(before, experts[m](x), wts[s], after);
    forall j | 0 <= j < dim ensures after[j] == SlotSumBelow(sel, wts, experts, x, j, |sel|, m + 1) {
      SlotAdded(sel, wts, experts, x, j, m, s, before[j], after[j]);
    }
  }

  /** A row whose token did not select expert `m` already holds the sums over experts `0 .. m`. */
  lemma RowUntouched(sel: seq<nat>, wts: seq<real>, experts: seq<Expert>, x: Row, dim: nat, m: nat, before: Row)
    requires |sel| == |wts| && Distinct(sel)
    requires forall s :: 0 <= s < |sel| ==> sel[s] != m
    requires |before| == dim
    requires forall j :: 0 <= j < dim ==> before[j] == SlotSumBelow(sel, wts, experts, x, j, |sel|, m)
    ensures forall j :: 0 <= j < dim ==> before[j] == SlotSumBelow(sel, wts, experts, x, j, |sel|, m + 1)
  {
    forall j | 0 <= j < dim ensures before[j] == SlotSumBelow(sel, wts, experts, x, j, |sel|, m + 1) {
      SlotSumBelowSkip(sel, wts, experts, x, j, |sel|, m);
    }
  }

  /** After the indexed `+=` for expert `m`, every row holds the slot sums over experts `0 .. m`. */
  lemma ExpertStep(indices: seq<seq<nat>>, weights: seq<seq<real>>, experts: seq<Expert>, xf: seq<Row>,
                   dim: nat, k: nat, m: nat, idx: seq<nat>, top: seq<nat>, before: seq<Row>, after: seq<Row>)
    requires |indices| == |xf| && |weights| == |xf| && |before| == |xf| && |after| == |xf|
    requires Rectangular(xf, dim) && Rectangular(before, dim)
    requires Rectangular(indices, k) && Rectangular(weights, k)
    requires forall t :: 0 <= t < |xf| ==> Distinct(indices[t])
    requires m < |experts| && KeepsWidth(experts[m], dim)
    requires forall t, j :: 0 <= t < |xf| && 0 <= j < dim ==>
      before[t][j] == SlotSumBelow(indices[t], weights[t], experts, xf[t], j, k, m)
    requires |idx| == |top|
    requires forall q :: 0 <= q < |idx| ==> idx[q] < |xf| && top[q] < k && indices[idx[q]][top[q]] == m
    requires forall q :: 0 <= q < |idx| ==>
      after[idx[q]] == AddRows(before[idx[q]], Scale(experts[m](xf[idx[q]]), weights[idx[q]][top[q]]))
    requires forall t :: 0 <= t < |xf| && t !in idx ==> after[t] == before[t]
    requires forall t, s :: 0 <= t < |xf| && 0 <= s < k && indices[t][s] == m ==> t in idx
    ensures Rectangular(after, dim)
    ensures forall t, j :: 0 <= t < |xf| && 0 <= j < dim ==>
      after[t][j] == SlotSumBelow(indices[t], weights[t], experts, xf[t], j, k, m + 1)
  {
    forall t | 0 <= t < |xf|
      ensures |after[t]| == dim
      ensures forall j :: 0 <= j < dim ==>
        after[t][j] == SlotSumBelow(indices[t], weights[t], experts, xf[t], j, k, m + 1)
    {
      if t in idx {
        var q :| 0 <= q < |idx| && idx[q] == t;
        RowAdded(indices[t], weights[t], experts, xf[t], dim, m, top[q], before[t], after[t]);
      } else {
        RowUntouched(indices[t], weights[t], experts, xf[t], dim, m, before[t]);
      }
    }
  }

  /** The rows hold, for every token, the slot sums over the experts below `m`. */
  ghost predicate Accumulated(rows: seq<Row>, xf: seq<Row>, dim: nat, indices: seq<seq<nat>>,
                              weights: seq<seq<real>>, k: nat, experts: seq<Expert>, m: nat)
    requires |indices| == |xf| && |weights| == |xf|
    requires Rectangular(indices, k) && Rectangular(weights, k)
  {
    |rows| == |xf| && Rectangular(rows, dim) &&
    forall t, j :: 0 <= t < |xf| && 0 <= j < dim ==>
      rows[t][j] == SlotSumBelow(indices[t], weights[t], experts, xf[t], j, k, m)
  }

  /** An expert with count zero adds nothing. */
  lemma SkipExpert(rows: seq<Row>, xf: seq<Row>, dim: nat, indices: seq<seq<nat>>,
                   weights: seq<seq<real>>, k: nat, experts: seq<Expert>, m: nat)
    requires |indices| == |xf| && |weights| == |xf|
    requires Rectangular(indices, k) && Rectangular(weights, k)
    requires forall t :: 0 <= t < |xf| ==> Distinct(indices[t])
    requires forall t, s :: 0 <= t < |xf| && 0 <= s < k ==> indices[t][s] != m
    requires Accumulated(rows, xf, dim, indices, weights, k, experts, m)
    ensures Accumulated(rows, xf, dim, indices, weights, k, experts, m + 1)
  {
    forall t, j | 0 <= t < |xf| && 0 <= j < dim
      ensures SlotSumBelow(indices[t], weights[t], experts, xf[t], j, k, m + 1) ==
              SlotSumBelow(indices[t], weights[t], experts, xf[t], j, k, m)
    {
      SlotSumBelowSkip(indices[t], weights[t], experts, xf[t], j, k, m);
    }
  }

  /** The zero rows hold the sums over no experts. */
  lemma AccumulatedNone(rows: seq<Row>, xf: seq<Row>, dim: nat, indices: seq<seq<nat>>,
                        weights: seq<seq<real>>, k: nat, experts: seq<Expert>)
    requires |indices| == |xf| && |weights| == |xf|
    requires Rectangular(indices, k) && Rectangular(weights, k)
    requires |rows| == |xf| && forall t :: 0 <= t < |xf| ==> rows[t] == Zeros(dim)
    ensures Accumulated(rows, xf, dim, indices, weights, k, experts, 0)
  {
    forall t, j | 0 <= t < |xf| && 0 <= j < dim
      ensures SlotSumBelow(indices[t], weights[t], experts, xf[t], j, k, 0) == 0.0
    {
      SlotSumBelowZero(indices[t], weights[t], experts, xf[t], j, k);
    }
  }

  /** Once every expert has been visited, the rows hold the full slot sums. */
  lemma AccumulatedAll(rows: seq<Row>, xf: seq<Row>, dim: nat, indices: seq<seq<nat>>,
                       weights: seq<seq<real>>, k: nat, experts: seq<Expert>)
    requires |indices| == |xf| && |weights| == |xf|
    requires Rectangular(indices, k) && Rectangular(weights, k)
    requires forall t, s :: 0 <= t < |xf| && 0 <= s < k ==> indices[t][s] < |experts|
    requires Accumulated(rows, xf, dim, indices, weights, k, experts, |experts|)
    ensures |rows| == |xf| && Rectangular(rows, dim)
    ensures forall t, j :: 0 <= t < |xf| && 0 <= j < dim ==>
      rows[t][j] == SlotSum(indices[t], weights[t], experts, xf[t], j, k)
  {
    forall t, j | 0 <= t < |xf| && 0 <= j < dim
      ensures rows[t][j] == SlotSum(indices[t], weights[t], experts, xf[t], j, k)
    {
      SlotSumBelowAll(indices[t], weights[t], experts, xf[t], j, k, |experts|);
    }
  }

  /** One visit of the expert loop for an expert with a nonzero count:
      `idx, top = torch.where(indices == m)` and `out[idx] += expert(x[idx]) * weights[idx, top, None]`. */
  method AddExpert(buffer: array<Row>, xf: seq<Row>, dim: nat, indices: seq<seq<nat>>,
                   weights: seq<seq<real>>, k: nat, experts: seq<Expert>, m: nat)
    requires Rectangular(xf, dim)
    requires |indices| == |xf| && |weights| == |xf|
    requires Rectangular(indices, k) && Rectangular(weights, k)
    requires forall t :: 0 <= t < |xf| ==> Distinct(indices[t])
    requires m < |experts| && KeepsWidth(experts[m], dim)
    requires Accumulated(buffer[..], xf, dim, indices, weights, k, experts, m)
    modifies buffer
    ensures Accumulated(buffer[..], xf, dim, indices, weights, k, experts, m + 1)
  {
    var pairs := Where(indices, m);
    var idx := Tokens(pairs);
    var top := Slots(pairs);
    WhereDispatch(indices, k, m);
    var vals := seq(|pairs|, q requires 0 <= q < |pairs| =>
      Scale(experts[m](xf[idx[q]]), weights[idx[q]][top[q]]));
    ghost var before := buffer[..];
    IndexAdd(buffer, idx, vals);
    IndexAddDistinct(before, idx, vals);
    ExpertStep(indices, weights, experts, xf, dim, k, m, idx, top, before, buffer[..]);
  }

  /** `for i in range(self.n_routed_experts)`: experts whose count is zero are skipped, the others
      add their weighted outputs in place; afterwards the rows hold the sums over all experts. */
  method VisitExperts(buffer: array<Row>, counts: seq<nat>, xf: seq<Row>, dim: nat, indices: seq<seq<nat>>,
                      weights: seq<seq<real>>, k: nat, experts: seq<Expert>)
    requires Rectangular(xf, dim)
    requires |indices| == |xf| && |weights| == |xf|
    requires Rectangular(indices, k) && Rectangular(weights, k)
    requires forall t :: 0 <= t < |xf| ==> Distinct(indices[t])
    requires forall i :: 0 <= i < |experts| ==> KeepsWidth(experts[i], dim)
    requires |counts| == |experts|
    requires forall i, t, s :: 0 <= i < |experts| && counts[i] == 0 && 0 <= t < |xf| && 0 <= s < k ==>
      indices[t][s] != i
    requires Accumulated(buffer[..], xf, dim, indices, weights, k, experts, 0)
    modifies buffer
    ensures Accumulated(buffer[..], xf, dim, indices, weights, k, experts, |experts|)
  {
    for i := 0 to |experts|
      invariant Accumulated(buffer[..], xf, dim, indices, weights, k, experts, i)
    {
      if counts[i] == 0 {
        SkipExpert(buffer[..], xf, dim, indices, weights, k, experts, i);
        continue;
      }
      AddExpert(buffer, xf, dim, indices, weights, k, experts, i);
    }
  }

  /** The expert loop of `MoELayer.forward`: starting from `torch.zeros_like(x)`, visit every
      expert in index order, skip it when its count is zero, otherwise add its weighted output into
      the rows of the tokens that selected it, in place. The result holds, for every token and
      coordinate, the sum over the token's slots of expert output times weight, although the loop
      adds the contributions in expert order rather than slot order. */
  method RoutedOutput(xf: seq<Row>, dim: nat, indices: seq<seq<nat>>, weights: seq<seq<real>>,
                      k: nat, experts: seq<Expert>) returns (routed: seq<Row>)
    requires Rectangular(xf, dim)
    requires |indices| == |xf| && |weights| == |xf|
    requires Rectangular(indices, k) && Rectangular(weights, k)
    requires forall t, s :: 0 <= t < |xf| && 0 <= s < k ==> indices[t][s] < |experts|
    requires forall t :: 0 <= t < |xf| ==> Distinct(indices[t])
    requires forall i :: 0 <= i < |experts| ==> KeepsWidth(experts[i], dim)
    ensures |routed| == |xf| && Rectangular(routed, dim)
    ensures forall t, j :: 0 <= t < |xf| && 0 <= j < dim ==>
      routed[t][j] == SlotSum(indices[t], weights[t], experts, xf[t], j, k)
  {
    var buffer := new Row[|xf|](_ => Zeros(dim));
    var counts := BinCount(Flatten(indices), |experts|);
    CountsSpec(indices, k, |experts|);
    AccumulatedNone(buffer[..], xf, dim, indices, weights, k, experts);
    VisitExperts(buffer, counts, xf, dim, indices, weights, k, experts);
    routed := buffer[..];
    AccumulatedAll(routed, xf, dim, indices, weights, k, experts);
  }

  /** `shared_expert_output + router_expert_output` is the combined output. */
  lemma CombineIsSum(xf: seq<Row>, dim: nat, indices: seq<seq<nat>>, weights: seq<seq<real>>,
                     experts: seq<Expert>, shared: Expert, sharedOut: seq<Row>, routed: seq<Row>, out: seq<Row>)
    requires Rectangular(xf, dim) && KeepsWidth(shared, dim)
    requires |indices| == |xf| && |weights| == |xf|
    requires forall t :: 0 <= t < |xf| ==> |weights[t]| == |indices[t]|
    requires |sharedOut| == |xf| && forall t :: 0 <= t < |xf| ==> sharedOut[t] == shared(xf[t])
    requires |routed| == |xf| && Rectangular(routed, dim)
    requires forall t, j :: 0 <= t < |xf| && 0 <= j < dim ==>
      routed[t][j] == SlotSum(indices[t], weights[t], experts, xf[t], j, |indices[t]|)
    requires |out| == |xf| && forall t :: 0 <= t < |xf| ==> out[t] == AddRows(sharedOut[t], routed[t])
    ensures out == Combine(xf, dim, indices, weights, experts, shared)
  {
    var c := Combine(xf, dim, indices, weights, experts, shared);
    forall t | 0 <= t < |xf| ensures out[t] == c[t] {
      assert |out[t]| == dim == |c[t]|;
    }
  }

  /** `MoELayer.forward`. Raises when `top_k` exceeds the number of experts, as `torch.topk` does;
      otherwise returns exactly `Output`: the shared expert's rows plus the expert loop's rows,
      viewed back as `[B, L, D]`. */
  method Forward(x: seq<seq<Row>>, seqLen: nat, dim: nat, scores: seq<Row>, bias: Option<Row>,
                 topK: nat, experts: seq<Expert>, shared: Expert)
    returns (r: Result<seq<seq<Row>>, Exception>)
    requires Tensor3(x, seqLen, dim)
    requires |scores| == |x| * seqLen && Rectangular(scores, |experts|)
    requires bias.Some? ==> |bias.value| == |experts|
    requires forall i :: 0 <= i < |experts| ==> KeepsWidth(experts[i], dim)
    requires KeepsWidth(shared, dim)
    ensures topK > |experts| ==> r == Failure(RuntimeError)
    ensures topK <= |experts| ==> r == Success(Output(x, seqLen, dim, scores, bias, topK, experts, shared))
  {
    FlattenRows(x, seqLen, dim);
    var xf := Flatten(x);
    var n := |xf|;
    if topK > |experts| {
      return Failure(RuntimeError);
    }
    var indices := Route(scores, bias, topK, |experts|);
    var weights := Gather(scores, indices);
    var sharedOut := seq(n, t requires 0 <= t < n => shared(xf[t]));
    var routed := RoutedOutput(xf, dim, indices, weights, topK, experts);
    var out := seq(n, t requires 0 <= t < n => AddRows(sharedOut[t], routed[t]));
    CombineIsSum(xf, dim, indices, weights, experts, shared, sharedOut, routed, out);
    r := Success(Unflatten(out, |x|, seqLen));
  }
}
