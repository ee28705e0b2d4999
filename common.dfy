/** Values and Python behaviours shared by every part of the model: optional values, results that
    carry the exception the Python code would raise, and Python's slicing and indexing rules. */
module Common {

  datatype Option<T> = None | Some(value: T)

  datatype Result<T, E> = Success(value: T) | Failure(error: E)

  /** The Python exception classes the modelled code can raise. */
  datatype Exception =
    | AssertionError   // a failed `assert`
    | ZeroDivisionError
    | RuntimeError     // a tensor shape or size mismatch reported by the tensor library
    | IndexError
    | KeyError
    | TypeError
    | ValueError       // for instance `range(a, b, 0)`

  function Min(a: int, b: int): int { if a <= b then a else b }

  function Max(a: int, b: int): int { if a <= b then b else a }

  /** Python's `s[start:]`: a negative start counts from the end, and both kinds are clipped. */
  function SliceFrom<T>(s: seq<T>, start: int): (r: seq<T>)
    ensures start >= 0 ==> r == s[Min(start, |s|)..]
    ensures start < 0 ==> r == s[Max(|s| + start, 0)..]
  {
    if start >= 0 then s[Min(start, |s|)..] else s[Max(|s| + start, 0)..]
  }

  /** Python's `s[lo:hi]` for non-negative bounds: both bounds are clipped to the sequence, and a
      lower bound past the upper one gives the empty slice. */
  function Slice<T>(s: seq<T>, lo: nat, hi: nat): (r: seq<T>)
    ensures lo <= hi <= |s| ==> r == s[lo..hi]
    ensures |r| == Max(Min(hi, |s|) - Min(lo, |s|), 0)
  {
    var a := Min(lo, |s|);
    var b := Min(hi, |s|);
    if a <= b then s[a..b] else []
  }

  /** Python's `s[i]`: a negative index counts from the end; anything else raises IndexError. */
  function PyIndex<T>(s: seq<T>, i: int): (r: Result<T, Exception>)
    ensures r.Success? <==> -|s| <= i < |s|
    ensures 0 <= i < |s| ==> r == Success(s[i])
    ensures -|s| <= i < 0 ==> r == Success(s[|s| + i])
    ensures r.Failure? ==> r.error == IndexError
  {
    if 0 <= i < |s| then Success(s[i])
    else if -|s| <= i < 0 then Success(s[|s| + i])
    else Failure(IndexError)
  }
}
