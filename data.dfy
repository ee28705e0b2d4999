/** The dataset construction of `utils/data.py`: flattening parsed JSON items into strings, cutting a
    token list into fixed-length `(input, label)` windows with a stride, the in-memory `PoemDataset`
    that stores those windows for a list of strings, and the streaming dataset that yields the
    windows of each line's `content`. Reading files, JSON parsing and the tokenizer are left out:
    items arrive parsed, and the tokenizer is a function from a string to token ids. */
module Data {
  import opened Common
  import opened Shapes

  /** A parsed JSON value as `process_data` and the streaming dataset distinguish it: an object,
      an array of strings, or anything else. */
  datatype JsonItem = Dict(fields: map<string, string>) | List(elems: seq<string>) | Other

  /** `tokenizer.encode`, with the `allowed_special` set its call site passes. */
  type Encoder = string -> seq<nat>

  // ---------------------------------------------------------------------------------------------
  // process_data

  /** The strings one item contributes: its `content` for an object (KeyError when absent), all
      of its elements for an array, nothing for anything else. */
  function ItemStrings(item: JsonItem): Result<seq<string>, Exception>
  {
    match item
    case Dict(fields) => if "content" in fields then Success([fields["content"]]) else Failure(KeyError)
    case List(elems) => Success(elems)
    case Other => Success([])
  }

  /** The list `process_data` returns, or the error of the first object without `content`. */
  function Processed(data: seq<JsonItem>): Result<seq<string>, Exception>
  {
    if data == [] then Success([])
    else
      match Processed(data[..|data| - 1])
      case Failure(e) => Failure(e)
      case Success(prev) =>
        match ItemStrings(data[|data| - 1])
        case Failure(e) => Failure(e)
        case Success(s) => Success(prev + s)
  }

  lemma {:induction false} ProcessedStaysFailed(data: seq<JsonItem>, n: nat)
    requires n <= |data| && Processed(data[..n]).Failure?
    ensures Processed(data) == Processed(data[..n])
  {
    if n < |data| {
      assert data[..|data| - 1][..n] == data[..n];
      ProcessedStaysFailed(data[..|data| - 1], n);
    } else {
      assert data[..n] == data;
    }
  }

  /** `process_data` (the length report it prints is left out). */
  method ProcessData(data: seq<JsonItem>) returns (r: Result<seq<string>, Exception>)
    ensures r == Processed(data)
  {
    var stringData: seq<string> := [];
    for n := 0 to |data|
      invariant Processed(data[..n]) == Success(stringData)
    {
      assert data[..n + 1][..n] == data[..n] && data[..n + 1][n] == data[n];
      assert Processed(data[..n + 1]) ==
        match ItemStrings(data[n])
        case Failure(e) => Failure(e)
        case Success(strs) => Success(stringData + strs);
      match data[n]
      case Dict(fields) =>
        if "content" !in fields {
          ProcessedStaysFailed(data, n + 1);
          return Failure(KeyError);
        }
        stringData := stringData + [fields["content"]];
      case List(elems) =>
        stringData := stringData + elems;
      case Other =>
        assert stringData + [] == stringData;
    }
    assert data[..|data|] == data;
    return Success(stringData);
  }

  /** `process_data` fails exactly when some object lacks `content`, and then with KeyError. */
  lemma {:induction false} ProcessedFails(data: seq<JsonItem>)
    ensures Processed(data).Failure? <==>
      exists p :: 0 <= p < |data| && data[p].Dict? && "content" !in data[p].fields
    ensures Processed(data).Failure? ==> Processed(data).error == KeyError
  {
    if data != [] {
      var init := data[..|data| - 1];
      ProcessedFails(init);
      if exists p :: 0 <= p < |init| && init[p].Dict? && "content" !in init[p].fields {
        var p :| 0 <= p < |init| && init[p].Dict? && "content" !in init[p].fields;
        assert data[p] == init[p];
      }
      if exists p :: 0 <= p < |data| && data[p].Dict? && "content" !in data[p].fields {
        var p :| 0 <= p < |data| && data[p].Dict? && "content" !in data[p].fields;
        if p < |init| {
          assert init[p] == data[p];
        }
      }
    }
  }

  /** `process_data` works item by item: on the concatenation of two lists it returns the
      concatenation of the two results, or the first error. */
  lemma {:induction false} ProcessedConcat(a: seq<JsonItem>, b: seq<JsonItem>)
    ensures Processed(a + b) ==
      match Processed(a)
      case Failure(e) => Failure(e)
      case Success(sa) =>
        match Processed(b)
        case Failure(e) => Failure(e)
        case Success(sb) => Success(sa + sb)
  {
    if b == [] {
      assert a + b == a;
      if Processed(a).Success? {
        assert Processed(a).value + [] == Processed(a).value;
      }
    } else {
      var init := b[..|b| - 1];
      ProcessedConcat(a, init);
      assert (a + b)[..|a + b| - 1] == a + init;
      if Processed(a).Success? && Processed(init).Success? && ItemStrings(b[|b| - 1]).Success? {
        assert Processed(a).value + Processed(init).value + ItemStrings(b[|b| - 1]).value ==
               Processed(a).value + (Processed(init).value + ItemStrings(b[|b| - 1]).value);
      }
    }
  }

  /** One item on its own contributes exactly its strings. */
  lemma ProcessedSingle(item: JsonItem)
    ensures Processed([item]) == ItemStrings(item)
  {
    assert [item][..0] == [];
    if ItemStrings(item).Success? {
      assert [] + ItemStrings(item).value == ItemStrings(item).value;
    }
  }

  // ---------------------------------------------------------------------------------------------
  // Windows

  /** One training example: `input_ids`, `attention_mask` and `labels`. */
  datatype Example = Example(inputIds: seq<nat>, attentionMask: seq<bool>, labels: seq<nat>)

  /** `len(range(0, n - window_size, stride))` for a positive stride. */
  function NumWindows(n: nat, w: nat, stride: nat): nat
    requires stride > 0
  {
    if n <= w then 0 else (n - w - 1) / stride + 1
  }

  /** The window starts are exactly the multiples of `stride` strictly below `n - window_size`. */
  lemma NumWindowsSpec(n: nat, w: nat, stride: nat, k: nat)
    requires stride > 0
    ensures k < NumWindows(n, w, stride) <==> k * stride < n - w
  {
    if n > w {
      var b := n - w - 1;
      var q := b / stride;
      DivBounds(b, stride);
      if k <= q {
        MulMono(k, q, stride);
      } else {
        MulMono(q + 1, k, stride);
        MulSucc(q, stride);
      }
    } else {
      MulMono(0, k, stride);
    }
  }

  lemma MulSucc(q: nat, s: nat)
    ensures (q + 1) * s == q * s + s
  {
  }

  /** The example that starts at `start`: `tokens[start:start+w]`, `tokens[start+1:start+w+1]`, and
      one `True` per input id. */
  function WindowAt(tokens: seq<nat>, start: nat, w: nat): Example
  {
    var inputIds := Slice(tokens, start, start + w);
    Example(inputIds, seq(|inputIds|, _ => true), Slice(tokens, start + 1, start + w + 1))
  }

  /** The examples `sliding_window` yields, in order, for a positive stride. */
  function Windows(tokens: seq<nat>, w: nat, stride: nat): seq<Example>
    requires stride > 0
  {
    seq(NumWindows(|tokens|, w, stride), k requires 0 <= k < NumWindows(|tokens|, w, stride) =>
      WindowAt(tokens, k * stride, w))
  }

  /** Window `k` starts at `k * stride`, inside the tokens with room for one more token after it;
      its inputs and labels are both `w` long, the labels are the inputs shifted by one token, and
      the attention mask marks every input. There are no windows when the tokens are not longer
      than the window. */
  lemma WindowsSpec(tokens: seq<nat>, w: nat, stride: nat, k: nat)
    requires stride > 0 && k < |Windows(tokens, w, stride)|
    ensures k * stride + w + 1 <= |tokens|
    ensures var e := Windows(tokens, w, stride)[k];
      e.inputIds == tokens[k * stride..k * stride + w] &&
      e.labels == tokens[k * stride + 1..k * stride + w + 1] &&
      |e.inputIds| == w && |e.labels| == w &&
      (forall j :: 0 <= j < w ==> e.labels[j] == tokens[k * stride + j + 1]) &&
      (forall j :: 0 <= j < w - 1 ==> e.labels[j] == e.inputIds[j + 1]) &&
      |e.attentionMask| == w && (forall j :: 0 <= j < w ==> e.attentionMask[j])
  {
    NumWindowsSpec(|tokens|, w, stride, k);
  }

  lemma NoWindowsWhenShort(tokens: seq<nat>, w: nat, stride: nat)
    requires stride > 0
    ensures |Windows(tokens, w, stride)| == 0 <==> |tokens| <= w
  {
    if |tokens| > w {
      NumWindowsSpec(|tokens|, w, stride, 0);
    }
  }

  /** A start the loop reaches below `len(tokens) - window_size` is the start of the next window. */
  lemma WindowStep(tokens: seq<nat>, w: nat, stride: nat, k: nat)
    requires stride > 0 && k * stride < |tokens| - w
    ensures k < |Windows(tokens, w, stride)|
    ensures Windows(tokens, w, stride)[k] == WindowAt(tokens, k * stride, w)
  {
    NumWindowsSpec(|tokens|, w, stride, k);
  }

  /** The loop stops after the last window. */
  lemma WindowStop(tokens: seq<nat>, w: nat, stride: nat, k: nat)
    requires stride > 0 && k * stride >= |tokens| - w && k <= |Windows(tokens, w, stride)|
    ensures k == |Windows(tokens, w, stride)|
  {
    NumWindowsSpec(|tokens|, w, stride, k);
  }

  /** `sliding_window`: `range` rejects a zero step before anything is yielded; otherwise the
      generator yields `Windows`. The loop visits the starts `0, stride, 2 * stride, ...` below
      `len(tokens) - window_size`. */
  method SlidingWindow(text: string, encode: Encoder, w: nat, stride: nat) returns (r: Result<seq<Example>, Exception>)
    ensures stride == 0 ==> r == Failure(ValueError)
    ensures stride > 0 ==> r == Success(Windows(encode(text), w, stride))
  {
    if stride == 0 {
      return Failure(ValueError);
    }
    var tokens := encode(text);
    var examples: seq<Example> := [];
    var start := 0;
    while start < |tokens| - w
      invariant start == |examples| * stride
      invariant |examples| <= NumWindows(|tokens|, w, stride)
      invariant examples == Windows(tokens, w, stride)[..|examples|]
      decreases |tokens| - w - start
    {
      WindowStep(tokens, w, stride, |examples|);
      var inputIds := Slice(tokens, start, start + w);
      var labels := Slice(tokens, start + 1, start + w + 1);
      var attentionMask := seq(|inputIds|, _ => true);
      MulSucc(|examples|, stride);
      examples := examples + [Example(inputIds, attentionMask, labels)];
      start := start + stride;
    }
    WindowStop(tokens, w, stride, |examples|);
    assert examples == Windows(tokens, w, stride);
    return Success(examples);
  }

  // ---------------------------------------------------------------------------------------------
  // PoemDataset

  function Inputs(examples: seq<Example>): (r: seq<seq<nat>>)
    ensures |r| == |examples| && forall k :: 0 <= k < |r| ==> r[k] == examples[k].inputIds
  {
    seq(|examples|, k requires 0 <= k < |examples| => examples[k].inputIds)
  }

  function Labels(examples: seq<Example>): (r: seq<seq<nat>>)
    ensures |r| == |examples| && forall k :: 0 <= k < |r| ==> r[k] == examples[k].labels
  {
    seq(|examples|, k requires 0 <= k < |examples| => examples[k].labels)
  }

  lemma InputsLabelsSnoc(examples: seq<Example>, e: Example)
    ensures Inputs(examples + [e]) == Inputs(examples) + [e.inputIds]
    ensures Labels(examples + [e]) == Labels(examples) + [e.labels]
  {
  }

  lemma InputsLabelsConcat(a: seq<Example>, b: seq<Example>)
    ensures Inputs(a + b) == Inputs(a) + Inputs(b)
    ensures Labels(a + b) == Labels(a) + Labels(b)
  {
  }

  /** The windows of every string, in item order, each string cut as `sliding_window` cuts it. */
  function AllWindows(strData: seq<string>, encode: Encoder, w: nat, stride: nat): seq<Example>
    requires stride > 0 || strData == []
  {
    if strData == [] then []
    else
      AllWindows(strData[..|strData| - 1], encode, w, stride) +
      Windows(encode(strData[|strData| - 1]), w, stride)
  }

  class PoemDataset {
    var inputIds: seq<seq<nat>>
    var targetIds: seq<seq<nat>>

    /** Every stored pair is a window: inputs and targets align, and each target is its input
        shifted by one token. */
    ghost predicate Valid()
      reads this
    {
      |inputIds| == |targetIds| &&
      forall k :: 0 <= k < |inputIds| ==>
        |inputIds[k]| == |targetIds[k]| &&
        forall j :: 0 <= j < |inputIds[k]| - 1 ==> targetIds[k][j] == inputIds[k][j + 1]
    }

    /** `PoemDataset.__init__` once `range` accepts the stride (a zero stride only passes when
        there is no string to cut). */
    constructor (strData: seq<string>, encode: Encoder, maxLength: nat, stride: nat)
      requires stride > 0 || strData == []
      ensures inputIds == Inputs(AllWindows(strData, encode, maxLength, stride))
      ensures targetIds == Labels(AllWindows(strData, encode, maxLength, stride))
      ensures Valid()
    {
      inputIds := [];
      targetIds := [];
      new;
      for n := 0 to |strData|
        invariant inputIds == Inputs(AllWindows(strData[..n], encode, maxLength, stride))
        invariant targetIds == Labels(AllWindows(strData[..n], encode, maxLength, stride))
      {
        assert strData[..n + 1][..n] == strData[..n] && strData[..n + 1][n] == strData[n];
        var tokenIds := encode(strData[n]);
        InputsLabelsConcat(AllWindows(strData[..n], encode, maxLength, stride), Windows(tokenIds, maxLength, stride));
        AddWindows(tokenIds, maxLength, stride);
      }
      assert strData[..|strData|] == strData;
      AllWindowsShifted(strData, encode, maxLength, stride);
    }

    /** The inner loop of `__init__`: appends every window of one token list. */
    method AddWindows(tokenIds: seq<nat>, maxLength: nat, stride: nat)
      requires stride > 0
      modifies this
      ensures inputIds == old(inputIds) + Inputs(Windows(tokenIds, maxLength, stride))
      ensures targetIds == old(targetIds) + Labels(Windows(tokenIds, maxLength, stride))
    {
      ghost var windows := Windows(tokenIds, maxLength, stride);
      var i := 0;
      ghost var count := 0;
      while i < |tokenIds| - maxLength
        invariant i == count * stride && count <= |windows|
        invariant inputIds == old(inputIds) + Inputs(windows[..count])
        invariant targetIds == old(targetIds) + Labels(windows[..count])
        decreases |tokenIds| - maxLength - i
      {
        WindowStep(tokenIds, maxLength, stride, count);
        ghost var e := windows[count];
        assert e.inputIds == Slice(tokenIds, i, i + maxLength);
        assert e.labels == Slice(tokenIds, i + 1, i + maxLength + 1);
        assert windows[..count + 1] == windows[..count] + [e];
        InputsLabelsSnoc(windows[..count], e);
        inputIds := inputIds + [Slice(tokenIds, i, i + maxLength)];
        targetIds := targetIds + [Slice(tokenIds, i + 1, i + maxLength + 1)];
        MulSucc(count, stride);
        i := i + stride;
        count := count + 1;
      }
      WindowStop(tokenIds, maxLength, stride, count);
      assert windows[..count] == windows;
    }

    /** `__len__`. */
    function Len(): (n: nat)
      reads this
      ensures n == |inputIds|
    {
      |inputIds|
    }

    /** `__getitem__`: the pair at a Python index, negative indices counting from the end. */
    function GetItem(idx: int): (r: Result<(seq<nat>, seq<nat>), Exception>)
      reads this
      requires Valid()
      ensures r.Success? <==> -|inputIds| <= idx < |inputIds|
      ensures r.Failure? ==> r.error == IndexError
      ensures 0 <= idx < |inputIds| ==> r == Success((inputIds[idx], targetIds[idx]))
      ensures -|inputIds| <= idx < 0 ==>
        r == Success((inputIds[|inputIds| + idx], targetIds[|inputIds| + idx]))
    {
      match PyIndex(inputIds, idx)
      case Failure(e) => Failure(e)
      case Success(input) => Success((input, PyIndex(targetIds, idx).value))
    }
  }

  /** The dataset of a list of strings, or the ValueError `range` raises for a zero stride. */
  method NewPoemDataset(strData: seq<string>, encode: Encoder, maxLength: nat, stride: nat)
    returns (r: Result<PoemDataset, Exception>)
    ensures stride == 0 && strData != [] ==> r == Failure(ValueError)
    ensures r.Success? ==>
      fresh(r.value) && r.value.Valid() &&
      r.value.inputIds == Inputs(AllWindows(strData, encode, maxLength, stride)) &&
      r.value.targetIds == Labels(AllWindows(strData, encode, maxLength, stride))
    ensures stride > 0 || strData == [] ==> r.Success?
    ensures r.Success? && stride > 0 ==>
      r.value.Len() == WindowTotal(strData, encode, maxLength, stride)
  {
    if stride == 0 && strData != [] {
      return Failure(ValueError);
    }
    var d := new PoemDataset(strData, encode, maxLength, stride);
    if stride > 0 {
      AllWindowsCount(strData, encode, maxLength, stride);
    }
    return Success(d);
  }

  /** Inputs and labels are `w` long and the labels are the inputs shifted by one token. */
  ghost predicate Shifted(e: Example, w: nat)
  {
    |e.inputIds| == w && |e.labels| == w &&
    forall j :: 0 <= j < w - 1 ==> e.labels[j] == e.inputIds[j + 1]
  }

  /** Every window of every string is shifted. */
  lemma {:induction false} AllWindowsShifted(strData: seq<string>, encode: Encoder, w: nat, stride: nat)
    requires stride > 0 || strData == []
    ensures forall k :: 0 <= k < |AllWindows(strData, encode, w, stride)| ==>
      Shifted(AllWindows(strData, encode, w, stride)[k], w)
  {
    if strData != [] {
      var init := strData[..|strData| - 1];
      AllWindowsShifted(init, encode, w, stride);
      var front := AllWindows(init, encode, w, stride);
      var tokens := encode(strData[|strData| - 1]);
      var back := Windows(tokens, w, stride);
      var ex := front + back;
      forall k | 0 <= k < |ex|
        ensures Shifted(ex[k], w)
      {
        if k < |front| {
          assert ex[k] == front[k];
        } else {
          assert ex[k] == back[k - |front|];
          WindowsSpec(tokens, w, stride, k - |front|);
        }
      }
    }
  }

  /** `len(dataset)` is the total number of windows of all strings. */
  lemma {:induction false} AllWindowsCount(strData: seq<string>, encode: Encoder, w: nat, stride: nat)
    requires stride > 0
    ensures |AllWindows(strData, encode, w, stride)| == WindowTotal(strData, encode, w, stride)
  {
    if strData != [] {
      AllWindowsCount(strData[..|strData| - 1], encode, w, stride);
    }
  }

  function WindowTotal(strData: seq<string>, encode: Encoder, w: nat, stride: nat): nat
    requires stride > 0
  {
    if strData == [] then 0
    else
      WindowTotal(strData[..|strData| - 1], encode, w, stride) +
      NumWindows(|encode(strData[|strData| - 1])|, w, stride)
  }

  // ---------------------------------------------------------------------------------------------
  // LLMIterableDataset

  /** What iterating the streaming dataset produces: the examples yielded, then the exception it
      stopped with, if any. */
  datatype Stream = Stream(items: seq<Example>, error: Option<Exception>)

  /** Iterating over the parsed lines: `json_obj['content']` needs an object (TypeError otherwise)
      holding `content` (KeyError otherwise); each content's windows are yielded in turn. */
  function StreamOf(lines: seq<JsonItem>, encode: Encoder, w: nat, stride: nat): Stream
  {
    if lines == [] then Stream([], None)
    else
      var prev := StreamOf(lines[..|lines| - 1], encode, w, stride);
      var obj := lines[|lines| - 1];
      if prev.error.Some? then prev
      else if !obj.Dict? then Stream(prev.items, Some(TypeError))
      else if "content" !in obj.fields then Stream(prev.items, Some(KeyError))
      else if stride == 0 then Stream(prev.items, Some(ValueError))
      else Stream(prev.items + Windows(encode(obj.fields["content"]), w, stride), None)
  }

  lemma {:induction false} StreamStaysFailed(lines: seq<JsonItem>, encode: Encoder, w: nat, stride: nat, n: nat)
    requires n <= |lines| && StreamOf(lines[..n], encode, w, stride).error.Some?
    ensures StreamOf(lines, encode, w, stride) == StreamOf(lines[..n], encode, w, stride)
  {
    if n < |lines| {
      assert lines[..|lines| - 1][..n] == lines[..n];
      StreamStaysFailed(lines[..|lines| - 1], encode, w, stride, n);
    } else {
      assert lines[..n] == lines;
    }
  }

  /** `LLMIterableDataset.__iter__` over already parsed lines. */
  method Iterate(lines: seq<JsonItem>, encode: Encoder, w: nat, stride: nat) returns (s: Stream)
    ensures s == StreamOf(lines, encode, w, stride)
  {
    var items: seq<Example> := [];
    for n := 0 to |lines|
      invariant StreamOf(lines[..n], encode, w, stride) == Stream(items, None)
    {
      assert lines[..n + 1][..n] == lines[..n];
      var obj := lines[n];
      if !obj.Dict? {
        StreamStaysFailed(lines, encode, w, stride, n + 1);
        return Stream(items, Some(TypeError));
      }
      if "content" !in obj.fields {
        StreamStaysFailed(lines, encode, w, stride, n + 1);
        return Stream(items, Some(KeyError));
      }
      var windows := SlidingWindow(obj.fields["content"], encode, w, stride);
      if windows.Failure? {
        StreamStaysFailed(lines, encode, w, stride, n + 1);
        return Stream(items, Some(windows.error));
      }
      items := items + windows.value;
    }
    assert lines[..|lines|] == lines;
    return Stream(items, None);
  }

  /** When every line is an object with `content`, the stride is positive, and the streaming
      encoder (which allows `<|endoftext|>`) and the in-memory dataset's encoder (tiktoken's
      defaults) give the same tokens for every line's content, the stream runs to the end and
      yields exactly the windows the in-memory dataset stores for the same contents, in the same
      order. */
  lemma {:induction false} StreamMatchesPoemDataset(lines: seq<JsonItem>, streamEncode: Encoder,
                                                    listEncode: Encoder, w: nat, stride: nat)
    requires stride > 0
    requires forall p :: 0 <= p < |lines| ==> lines[p].Dict? && "content" in lines[p].fields
    requires forall p :: 0 <= p < |lines| ==>
      streamEncode(lines[p].fields["content"]) == listEncode(lines[p].fields["content"])
    ensures StreamOf(lines, streamEncode, w, stride) ==
      Stream(AllWindows(Contents(lines), listEncode, w, stride), None)
  {
    if lines != [] {
      var init := lines[..|lines| - 1];
      StreamMatchesPoemDataset(init, streamEncode, listEncode, w, stride);
      assert Contents(lines)[..|lines| - 1] == Contents(init);
    }
  }

  /** The `content` of every line. */
  function Contents(lines: seq<JsonItem>): (r: seq<string>)
    requires forall p :: 0 <= p < |lines| ==> lines[p].Dict? && "content" in lines[p].fields
    ensures |r| == |lines| && forall p :: 0 <= p < |lines| ==> r[p] == lines[p].fields["content"]
  {
    seq(|lines|, p requires 0 <= p < |lines| => lines[p].fields["content"])
  }
}
