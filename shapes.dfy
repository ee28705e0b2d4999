/** Tensor-shape helpers shared by the model files. A rank-3 tensor `[B, L, D]` is a sequence of B
    sequences of L rows; `view(-1, D)` is `Flatten` and `view(shape)` back is `Unflatten`. */
module Shapes {
  import opened Common

  /** One row of a tensor along its last dimension. */
  type Row = seq<real>

  /** Elementwise `a + b` of two rows of equal width. */
  function AddRows(a: Row, b: Row): (r: Row)
    requires |a| == |b|
    ensures |r| == |a| && forall j :: 0 <= j < |a| ==> r[j] == a[j] + b[j]
  {
    seq(|a|, j requires 0 <= j < |a| => a[j] + b[j])
  }

  /** Every element of `x` has length `w`. */
  ghost predicate Rectangular<T>(x: seq<seq<T>>, w: nat)
  {
    forall b :: 0 <= b < |x| ==> |x[b]| == w
  }

  /** Concatenation of the rows of `x`, in order (row-major `view(-1, ...)` / `flatten()`). */
  function Flatten<T>(x: seq<seq<T>>): seq<T>
  {
    if x == [] then [] else Flatten(x[..|x| - 1]) + x[|x| - 1]
  }

  lemma {:induction false} FlattenLength<T>(x: seq<seq<T>>, w: nat)
    requires Rectangular(x, w)
    ensures |Flatten(x)| == |x| * w
  {
    if x != [] {
      FlattenLength(x[..|x| - 1], w);
      assert |x| * w == (|x| - 1) * w + w;
    }
  }

  /** Element `l` of row `b` sits at position `b * w + l` of the flattened sequence. */
  lemma {:induction false} FlattenIndex<T>(x: seq<seq<T>>, w: nat, b: nat, l: nat)
    requires Rectangular(x, w)
    requires b < |x| && l < w
    ensures b * w + l < |Flatten(x)|
    ensures Flatten(x)[b * w + l] == x[b][l]
  {
    var init := x[..|x| - 1];
    FlattenLength(init, w);
    FlattenLength(x, w);
    assert |init| * w + w == |x| * w;
    if b < |x| - 1 {
      FlattenIndex(init, w, b, l);
      assert b * w + l < |init| * w by {
        assert (b + 1) * w <= |init| * w by { MulMono(b + 1, |init|, w); }
      }
    } else {
      assert b * w == |init| * w;
    }
  }

  /** Every element of the flattened sequence comes from some row. */
  lemma {:induction false} FlattenMember<T>(x: seq<seq<T>>, b: nat, l: nat)
    requires b < |x| && l < |x[b]|
    ensures x[b][l] in Flatten(x)
  {
    if b < |x| - 1 {
      FlattenMember(x[..|x| - 1], b, l);
    }
  }

  lemma MulMono(a: nat, b: nat, w: nat)
    requires a <= b
    ensures a * w <= b * w
  {
  }

  /** Cuts `rows` into `b` consecutive groups of `w` (row-major `view(b, w, ...)`). */
  function Unflatten<T>(rows: seq<T>, b: nat, w: nat): (r: seq<seq<T>>)
    requires |rows| == b * w
    ensures |r| == b && Rectangular(r, w)
  {
    if b == 0 then []
    else
      assert |rows| == (b - 1) * w + w;
      Unflatten(rows[..(b - 1) * w], b - 1, w) + [rows[(b - 1) * w..]]
  }

  /** Reshaping a flattened tensor back to its shape gives the tensor back. */
  lemma {:induction false} UnflattenFlatten<T>(x: seq<seq<T>>, w: nat)
    requires Rectangular(x, w)
    ensures |Flatten(x)| == |x| * w
    ensures Unflatten(Flatten(x), |x|, w) == x
  {
    FlattenLength(x, w);
    if x != [] {
      var init := x[..|x| - 1];
      FlattenLength(init, w);
      assert |x| * w == (|x| - 1) * w + w;
      assert Flatten(x)[..(|x| - 1) * w] == Flatten(init);
      assert Flatten(x)[(|x| - 1) * w..] == x[|x| - 1];
      UnflattenFlatten(init, w);
    }
  }

  /** Flattening a reshaped sequence gives the sequence back. */
  lemma {:induction false} FlattenUnflatten<T>(rows: seq<T>, b: nat, w: nat)
    requires |rows| == b * w
    ensures Flatten(Unflatten(rows, b, w)) == rows
  {
    if b > 0 {
      assert |rows| == (b - 1) * w + w;
      var u := Unflatten(rows, b, w);
      assert u[..b - 1] == Unflatten(rows[..(b - 1) * w], b - 1, w);
      FlattenUnflatten(rows[..(b - 1) * w], b - 1, w);
      assert rows == rows[..(b - 1) * w] + rows[(b - 1) * w..];
    }
  }

  /** Row `b * w + l` of the flat sequence is element `l` of group `b` after reshaping. */
  lemma UnflattenIndex<T>(rows: seq<T>, b: nat, w: nat, i: nat, l: nat)
    requires |rows| == b * w && i < b && l < w
    ensures i * w + l < |rows|
    ensures Unflatten(rows, b, w)[i][l] == rows[i * w + l]
  {
    FlattenUnflatten(rows, b, w);
    FlattenIndex(Unflatten(rows, b, w), w, i, l);
  }

  /** `torch.full((n, m), v)`. */
  function Full<T>(n: nat, m: nat, v: T): seq<seq<T>>
  {
    seq(n, _ => seq(m, _ => v))
  }

  /** `torch.triu(a, diagonal)`: keeps the entries with `j - i >= diagonal` and sets the others to `zero`. */
  function Triu<T>(a: seq<seq<T>>, diagonal: int, zero: T): seq<seq<T>>
  {
    seq(|a|, i requires 0 <= i < |a| =>
      seq(|a[i]|, j requires 0 <= j < |a[i]| => if j - i >= diagonal then a[i][j] else zero))
  }

  /** The number of elements of a tensor of the given shape. */
  function Product(shape: seq<nat>): nat
  {
    if shape == [] then 1 else Product(shape[..|shape| - 1]) * shape[|shape| - 1]
  }

  /** The attention constructors' `assert dim % n_heads == 0` followed by `d_k = dim // n_heads`:
      a zero head count raises ZeroDivisionError (from `%`), an uneven split fails the assertion,
      and otherwise the head width times the head count is the model width. */
  function HeadDim(dim: nat, nHeads: nat): (r: Result<nat, Exception>)
    ensures nHeads == 0 <==> r == Failure(ZeroDivisionError)
    ensures r.Success? <==> nHeads > 0 && dim % nHeads == 0
    ensures r.Failure? && nHeads > 0 ==> r.error == AssertionError
    ensures r.Success? ==> r.value * nHeads == dim
  {
    if nHeads == 0 then Failure(ZeroDivisionError)
    else if dim % nHeads != 0 then Failure(AssertionError)
    else Success(dim / nHeads)
  }

  /** Floor division brackets its dividend: `(b // s) * s <= b < (b // s) * s + s`. */
  lemma DivBounds(b: nat, s: nat)
    requires s > 0
    ensures (b / s) * s <= b < (b / s) * s + s
  {
    assert b == (b / s) * s + b % s;
  }
}
