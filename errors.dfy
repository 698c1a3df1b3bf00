/** Failure kinds of the attribution input layer, and the result types that carry them.

    Every check of the Python module is an `assert` that raises at once; a few of its
    expressions can also raise Python's own errors (indexing a 0-dimensional shape,
    subscripting an int, reading `.shape` of a non-tensor). Each becomes one `Error`. */
module Errors {

  datatype Error =
    | InputBaselineCountMismatch   // inputs and baselines differ in length
    | BaselineShapeMismatch        // a tensor baseline breaks the per-position shape rule
    | NegativeSteps                // n_steps < 0
    | UnsupportedMethod            // approximation method not in the supported set
    | UnsupportedNoiseTunnelType   // noise tunnel type not in the supported list
    | TargetCountMismatch          // per-example targets do not match the number of samples
    | NotTensorOrNumber            // a baseline element is neither a tensor nor a number
    | AttributionCountMismatch     // a single-tensor caller would get several attributions
    | StrideCountMismatch          // strides are not a tuple with one entry per input
    | InvalidStride(index: nat)    // the stride of input `index` has the wrong form
    | WindowCountMismatch          // window shapes are not one per input
    | InvalidWindow(index: nat)    // the window shape of input `index` has the wrong form
    | NotCallable                  // the custom attribution function is not callable
    | ArityMismatch(params: nat)   // the custom attribution function takes 0 or more than 3 parameters
    | PerturbationsPerEval         // perturbations_per_eval != 1 with an aggregated output
    | PerExampleMask               // a feature mask with batch dimension != 1 with an aggregated output
    | TargetNotSingleElement       // a per-example output whose rows are not single elements
    | ReshapeSizeMismatch          // the flat tensor cannot be viewed in the requested shape
    | IndexOutOfRange              // Python IndexError (shape[0] of a 0-d tensor, x[0] of an empty tuple)
    | NotSubscriptable             // Python TypeError (indexing a value that is not a sequence)
    | IterationOverScalar          // Python TypeError (iterating over a 0-d tensor)
    | NoShapeAttribute             // Python AttributeError (`.shape` of a value that is not a tensor)

  datatype Option<+T> = None | Some(value: T)

  datatype Result<+T> = Ok(value: T) | Err(error: Error)

  /** The outcome of a check that returns nothing when it succeeds. */
  datatype Outcome = Pass | Fail(error: Error)

  /** Index of the first failing check of a sequence, as a `for` loop of asserts reaches it. */
  function FirstFailure(checks: seq<Outcome>): (r: Option<nat>)
    ensures r.None? <==> forall i :: 0 <= i < |checks| ==> checks[i].Pass?
    ensures r.Some? ==> r.value < |checks| && checks[r.value].Fail?
    ensures r.Some? ==> forall j :: 0 <= j < r.value ==> checks[j].Pass?
  {
    if |checks| == 0 then None
    else if checks[0].Fail? then Some(0)
    else match FirstFailure(checks[1..])
      case None => None
      case Some(k) => Some(k + 1)
  }

  /** Running a sequence of checks in order: the first failure is raised, otherwise all pass. */
  function RunAll(checks: seq<Outcome>): (r: Outcome)
    ensures r.Pass? <==> forall i :: 0 <= i < |checks| ==> checks[i].Pass?
    ensures r.Fail? ==> exists i :: 0 <= i < |checks| && checks[i] == r
                                    && forall j :: 0 <= j < i ==> checks[j].Pass?
  {
    match FirstFailure(checks)
    case None => Pass
    case Some(i) => checks[i]
  }
}
