/** The baseline formatter: canonicalising a caller's baseline argument into a tuple aligned
    with the inputs, and materialising each baseline as a tensor against its input. */
module Baselines {
  import opened Errors
  import opened Tensors
  import Validation

  /** What a callable baseline is called with: nothing, or the caller's (unformatted) inputs. */
  datatype CallArgs = NoArgs | WithInputs(inputs: TensorOrTuple)

  /** The forms a baseline argument takes. */
  datatype BaselineArg =
    | NoBaseline                       // None
    | One(v: Value)                    // a bare tensor, a number, or any other non-tuple value
    | Many(vs: seq<Value>)             // a tuple
    | Fn(params: nat, call: CallArgs -> BaselineArg)  // a callable with its declared parameter count

  predicate IsTensorOrNumber(v: Value) { v.Num? || v.Ten? }

  /** `_zeros`: the integer 0 once per input. */
  function Zeros(inputs: seq<Tensor>): (r: seq<Value>)
    ensures |r| == |inputs|
    ensures forall i :: 0 <= i < |r| ==> r[i] == Num(0)
  {
    seq(|inputs|, _ => Num(0))
  }

  /** The element check of `_format_baseline` on an already-tupled baseline. */
  function CheckElements(vs: seq<Value>): (r: Result<seq<Value>>)
    ensures r.Ok? <==> forall i :: 0 <= i < |vs| ==> IsTensorOrNumber(vs[i])
    ensures r.Ok? ==> r.value == vs
    ensures r.Err? ==> r.error == NotTensorOrNumber
  {
    if forall i :: 0 <= i < |vs| ==> IsTensorOrNumber(vs[i]) then Ok(vs) else Err(NotTensorOrNumber)
  }

  /** `_format_baseline`. A callable that reaches it is wrapped like any other non-tuple value
      and then fails the element check. The length is not compared with the inputs here. */
  function FormatBaseline(baselines: BaselineArg, inputs: seq<Tensor>): (r: Result<seq<Value>>)
    ensures baselines.NoBaseline? ==> r.Ok? && |r.value| == |inputs|
                                      && forall i :: 0 <= i < |inputs| ==> r.value[i] == Num(0)
    ensures baselines.One? ==> (r.Ok? <==> IsTensorOrNumber(baselines.v))
    ensures baselines.One? && r.Ok? ==> r.value == [baselines.v]
    ensures baselines.Many? ==> (r.Ok? <==> forall i :: 0 <= i < |baselines.vs| ==> IsTensorOrNumber(baselines.vs[i]))
    ensures baselines.Many? && r.Ok? ==> r.value == baselines.vs
    ensures baselines.Fn? ==> r == Err(NotTensorOrNumber)
    ensures r.Ok? ==> forall i :: 0 <= i < |r.value| ==> IsTensorOrNumber(r.value[i])
  {
    match baselines
    case NoBaseline => Ok(Zeros(inputs))
    case One(v) => assert [v][0] == v; CheckElements([v])
    case Many(vs) => CheckElements(vs)
    case Fn(_, _) => Err(NotTensorOrNumber)
  }

  /** Formatting is idempotent: a formatted baseline, passed again as a tuple, is unchanged. */
  lemma FormatBaselineIdempotent(baselines: BaselineArg, inputs: seq<Tensor>)
    requires FormatBaseline(baselines, inputs).Ok?
    ensures FormatBaseline(Many(FormatBaseline(baselines, inputs).value), inputs)
            == FormatBaseline(baselines, inputs)
  {
  }

  /** `_format_input_baseline`: inputs become a tuple, then the baseline is formatted against it. */
  function FormatInputBaseline(inputs: TensorOrTuple, baselines: BaselineArg)
    : (r: Result<(seq<Tensor>, seq<Value>)>)
    ensures r.Ok? <==> FormatBaseline(baselines, FormatInput(inputs)).Ok?
    ensures r.Ok? ==> r.value.0 == FormatInput(inputs)
                      && r.value.1 == FormatBaseline(baselines, FormatInput(inputs)).value
  {
    var xs := FormatInput(inputs);
    match FormatBaseline(baselines, xs)
    case Err(e) => Err(e)
    case Ok(bs) => Ok((xs, bs))
  }

  /** Formatting an already formatted (tuple, tuple) pair a second time changes nothing. */
  lemma FormatInputBaselineIdempotent(inputs: TensorOrTuple, baselines: BaselineArg)
    requires FormatInputBaseline(inputs, baselines).Ok?
    ensures var p := FormatInputBaseline(inputs, baselines).value;
            FormatInputBaseline(Tup(p.0), Many(p.1)) == Ok(p)
  {
  }

  /** `_format_callable_baseline`: a callable is called with no argument when it declares no
      parameter, otherwise with the inputs as the caller passed them (not tupled); whatever it
      returns, like any non-callable baseline, is formatted against the tupled inputs. */
  function FormatCallableBaseline(baselines: BaselineArg, inputs: TensorOrTuple): (r: Result<seq<Value>>)
    ensures !baselines.Fn? ==> r == FormatBaseline(baselines, FormatInput(inputs))
    ensures baselines.Fn? && baselines.params == 0 ==>
              r == FormatBaseline(baselines.call(NoArgs), FormatInput(inputs))
    ensures baselines.Fn? && baselines.params > 0 ==>
              r == FormatBaseline(baselines.call(WithInputs(inputs)), FormatInput(inputs))
  {
    var produced := match baselines
      case Fn(params, call) => if params == 0 then call(NoArgs) else call(WithInputs(inputs))
      case _ => baselines;
    FormatBaseline(produced, FormatInput(inputs))
  }

  /** A callable returning None yields one integer zero per tupled input. */
  lemma CallableNoneGivesZeros(params: nat, call: CallArgs -> BaselineArg, inputs: TensorOrTuple)
    requires forall a :: call(a).NoBaseline?
    ensures var r := FormatCallableBaseline(Fn(params, call), inputs);
            r.Ok? && |r.value| == |FormatInput(inputs)|
            && forall i :: 0 <= i < |r.value| ==> r.value[i] == Num(0)
  {
  }

  // ---------------------------------------------------------------- materialisation

  /** `torch.full_like(input, v)`: the input's shape, every element `v`. */
  function Full(shape: seq<nat>, v: int): (t: Tensor)
    ensures t.shape == shape
    ensures forall i :: 0 <= i < |t.data| ==> t.data[i] == v
  {
    TensorData(shape, seq(Prod(shape), _ => v))
  }

  /** `n` copies of `data`, one after the other. */
  function Repeat(data: seq<int>, n: nat): (r: seq<int>)
    ensures |r| == n * |data|
  {
    if n == 0 then [] else Repeat(data, n - 1) + data
  }

  /** Row `k` of `n` copies of `data` is `data`. */
  lemma {:induction false} RepeatBlock(data: seq<int>, n: nat, k: nat)
    requires k < n
    ensures Block(Repeat(data, n), |data|, k) == data
  {
    var w := |data|;
    var prev := Repeat(data, n - 1);
    assert Repeat(data, n) == prev + data;
    assert |prev| == (n - 1) * w;
    RowBoundEnd(k, n, w);
    if k == n - 1 {
      assert Repeat(data, n)[k * w .. k * w + w] == data;
    } else {
      RepeatBlock(data, n - 1, k);
      RowBoundEnd(k, n - 1, w);
      assert Repeat(data, n)[k * w .. k * w + w] == prev[k * w .. k * w + w];
    }
  }

  lemma RowBoundEnd(k: nat, n: nat, w: nat)
    requires k < n
    ensures k * w + w <= n * w
  {
    assert k * w + w == (k + 1) * w;
  }

  /** `torch.cat([b] * n)` for a batch-1 tensor: `n` copies stacked along dimension 0. */
  function CatCopies(b: Tensor, n: nat): (r: Tensor)
    requires |b.shape| > 0 && b.shape[0] == 1
    ensures r.shape == [n] + b.shape[1..]
    ensures forall k :: 0 <= k < n ==> Block(r.data, |b.data|, k) == b.data
  {
    assert Prod(b.shape) == Prod(b.shape[1..]);
    assert Prod([n] + b.shape[1..]) == n * Prod(b.shape[1..]) by {
      assert ([n] + b.shape[1..])[1..] == b.shape[1..];
    }
    forall k | 0 <= k < n ensures Block(Repeat(b.data, n), |b.data|, k) == b.data {
      RepeatBlock(b.data, n, k);
    }
    TensorData([n] + b.shape[1..], Repeat(b.data, n))
  }

  /** The condition `input.shape[0] > baseline.shape[0] and baseline.shape[0] == 1` of
      `_tensorize_single_baseline`: a batch-1 tensor baseline facing a larger input batch. */
  predicate Broadcasts(b: Tensor, x: Tensor)
    requires |b.shape| > 0 && |x.shape| > 0
  {
    x.shape[0] > b.shape[0] && b.shape[0] == 1
  }

  /** `_tensorize_single_baseline`. Evaluating `input.shape[0]` and `baseline.shape[0]` raises
      for a 0-d input or baseline; the non-batch dimensions are not compared. */
  function TensorizeOne(b: Value, x: Tensor): (r: Result<Tensor>)
    ensures b.Num? ==> r.Ok? && r.value.shape == x.shape
                       && forall i :: 0 <= i < |r.value.data| ==> r.value.data[i] == b.n
    ensures b.Ten? ==> (r.Ok? <==> |x.shape| > 0 && |b.t.shape| > 0)
    ensures b.Ten? && r.Ok? && Broadcasts(b.t, x) ==>
              r.value.shape == [x.shape[0]] + b.t.shape[1..]
              && forall k :: 0 <= k < x.shape[0] ==> Block(r.value.data, |b.t.data|, k) == b.t.data
    ensures b.Ten? && r.Ok? && !Broadcasts(b.t, x) ==> r.value == b.t
    ensures b.Opaque? ==> r.Err?
  {
    match b
    case Num(v) => Ok(Full(x.shape, v))
    case Opaque => if |x.shape| == 0 then Err(IndexOutOfRange) else Err(NoShapeAttribute)
    case Ten(t) =>
      if |x.shape| == 0 || |t.shape| == 0 then Err(IndexOutOfRange)
      else if Broadcasts(t, x) then Ok(CatCopies(t, x.shape[0]))
      else Ok(t)
  }

  /** `_tensorize_baseline`: one tensor per (baseline, input) pair of `zip`, which stops at the
      shorter tuple; the first failing pair raises. */
  function TensorizeBaseline(inputs: seq<Tensor>, baselines: seq<Value>): (r: Result<seq<Tensor>>)
    ensures var n := if |inputs| < |baselines| then |inputs| else |baselines|;
            r.Ok? <==> forall i :: 0 <= i < n ==> TensorizeOne(baselines[i], inputs[i]).Ok?
    ensures var n := if |inputs| < |baselines| then |inputs| else |baselines|;
            r.Ok? ==> |r.value| == n
                      && forall i :: 0 <= i < n ==> r.value[i] == TensorizeOne(baselines[i], inputs[i]).value
  {
    if |inputs| == 0 || |baselines| == 0 then Ok([])
    else match TensorizeOne(baselines[0], inputs[0])
      case Err(e) => Err(e)
      case Ok(t) =>
        match TensorizeBaseline(inputs[1..], baselines[1..])
        case Err(e) => Err(e)
        case Ok(ts) => Ok([t] + ts)
  }

  /** An absent baseline, formatted and materialised, is a zero tensor of each input's shape. */
  lemma ZeroBaselineMaterialises(inputs: seq<Tensor>)
    ensures var r := TensorizeBaseline(inputs, FormatBaseline(NoBaseline, inputs).value);
            && r.Ok? && |r.value| == |inputs|
            && forall i :: 0 <= i < |inputs| ==>
                 r.value[i].shape == inputs[i].shape
                 && forall k :: 0 <= k < |r.value[i].data| ==> r.value[i].data[k] == 0
  {
  }

  /** A batch-1 baseline whose non-batch dimensions match an input of batch `n > 1` passes
      validation and is materialised with exactly the input's shape. */
  lemma BatchOneBaselineBroadcasts(x: Tensor, b: Tensor, nSteps: nat, approxMethod: string,
                                   supported: set<string>)
    requires |x.shape| > 0 && x.shape[0] > 1
    requires |b.shape| > 0 && b.shape[0] == 1 && b.shape[1..] == x.shape[1..]
    requires approxMethod in supported
    ensures Validation.ValidateInput([x], [Ten(b)], supported, nSteps, approxMethod).Pass?
    ensures TensorizeOne(Ten(b), x).Ok? && TensorizeOne(Ten(b), x).value.shape == x.shape
  {
  }

  /** Validation accepts a batch-1 baseline whatever its non-batch dimensions, and the repetition
      of `_tensorize_single_baseline` then keeps them: input shape (4, 3) with baseline shape (1, 5) materialises as (4, 5). */
  lemma BatchOneBaselineKeepsOwnDims()
    ensures var x: Tensor := Full([4, 3], 7);
            var b: Tensor := Full([1, 5], 0);
            && Validation.ValidateInput([x], [Ten(b)], {"riemann_trapezoid"}).Pass?
            && TensorizeOne(Ten(b), x).Ok?
            && TensorizeOne(Ten(b), x).value.shape == [4, 5] != x.shape
  {
  }
}
