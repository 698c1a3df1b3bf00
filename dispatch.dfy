/** Dispatch to a caller-supplied attribution function by its declared arity, and the
    finalisation of attributions into the caller's original shape. */
module Dispatch {
  import opened Errors
  import opened Tensors

  /** A custom attribution function, known by its declared parameter count. */
  datatype CustomFn = NotAFunction | Callable(params: nat)

  /** `_call_custom_attribution_func`: the argument list the function is called with, the
      leading `params` of (multipliers, inputs, baselines); any other arity is an error. */
  function CallCustomAttributionFunc(f: CustomFn, multipliers: seq<Tensor>, inputs: seq<Tensor>,
                                     baselines: seq<Tensor>): (r: Result<seq<seq<Tensor>>>)
    ensures r.Ok? <==> f.Callable? && 1 <= f.params <= 3
    ensures r.Ok? ==> r.value == [multipliers, inputs, baselines][..f.params]
    ensures f.NotAFunction? ==> r == Err(NotCallable)
    ensures f.Callable? && !(1 <= f.params <= 3) ==> r == Err(ArityMismatch(f.params))
  {
    match f
    case NotAFunction => Err(NotCallable)
    case Callable(params) =>
      if params == 1 then Ok([multipliers])
      else if params == 2 then Ok([multipliers, inputs])
      else if params == 3 then Ok([multipliers, inputs, baselines])
      else Err(ArityMismatch(params))
  }

  /** A two-parameter function is called as f(multipliers, inputs), ignoring the baselines. */
  lemma TwoParameterCall(m: Tensor, x: Tensor, b: Tensor)
    ensures CallCustomAttributionFunc(Callable(2), [m], [x], [b]) == Ok([[m], [x]])
  {
  }

  /** `_format_attributions`: the tuple itself for a tuple caller; for a single-tensor caller
      the one attribution, and an error if there is not exactly one. */
  function FormatAttributions(isInputsTuple: bool, attributions: seq<Tensor>): (r: Result<TensorOrTuple>)
    ensures r.Ok? <==> isInputsTuple || |attributions| == 1
    ensures r.Ok? && isInputsTuple ==> r.value == Tup(attributions)
    ensures r.Ok? && !isInputsTuple ==> r.value == Bare(attributions[0])
    ensures r.Err? ==> r.error == AttributionCountMismatch
  {
    if !isInputsTuple && |attributions| != 1 then Err(AttributionCountMismatch)
    else if isInputsTuple then Ok(Tup(attributions))
    else Ok(Bare(attributions[0]))
  }

  /** Formatting the caller's inputs into a tuple and finalising attributions of the same
      length restores the caller's form: a bare tensor for a bare tensor, a tuple for a tuple. */
  lemma FinaliseRestoresCallerForm(x: TensorOrTuple, attributions: seq<Tensor>)
    requires |attributions| == |FormatInput(x)|
    ensures FormatAttributions(IsTuple(x), attributions).Ok?
    ensures x.Bare? ==> FormatAttributions(IsTuple(x), attributions) == Ok(Bare(attributions[0]))
    ensures x.Tup? ==> FormatAttributions(IsTuple(x), attributions) == Ok(Tup(attributions))
  {
  }

  /** Round trip: finalising the formatted inputs themselves gives back what the caller passed. */
  lemma FormatThenFinalise(x: TensorOrTuple)
    ensures FormatAttributions(IsTuple(x), FormatInput(x)) == Ok(x)
  {
  }

  /** The result of `_compute_conv_delta_and_format_attrs`: the formatted attributions, with the
      convergence delta when it was asked for. */
  datatype Finalised = Plain(attributions: TensorOrTuple)
                     | WithDelta(attributions: TensorOrTuple, delta: Tensor)

  /** `_compute_conv_delta_and_format_attrs`. `convergenceDelta` stands for the algorithm's
      `compute_convergence_delta`, called with the unformatted attribution tuple. */
  function ComputeConvDeltaAndFormatAttrs<S, E, A, T>(
    convergenceDelta: (seq<Tensor>, S, E, A, T) -> Tensor,
    returnConvergenceDelta: bool, attributions: seq<Tensor>,
    startPoint: S, endPoint: E, additionalForwardArgs: A, target: T,
    isInputsTuple: bool := false): (r: Result<Finalised>)
    ensures r.Ok? <==> isInputsTuple || |attributions| == 1
    ensures r.Ok? ==> r.value.attributions == FormatAttributions(isInputsTuple, attributions).value
    ensures r.Ok? ==> (r.value.WithDelta? <==> returnConvergenceDelta)
    ensures r.Ok? && returnConvergenceDelta ==>
              r.value.delta == convergenceDelta(attributions, startPoint, endPoint, additionalForwardArgs, target)
  {
    if returnConvergenceDelta then
      var delta := convergenceDelta(attributions, startPoint, endPoint, additionalForwardArgs, target);
      match FormatAttributions(isInputsTuple, attributions)
      case Err(e) => Err(e)
      case Ok(a) => Ok(WithDelta(a, delta))
    else
      match FormatAttributions(isInputsTuple, attributions)
      case Err(e) => Err(e)
      case Ok(a) => Ok(Plain(a))
  }
}
