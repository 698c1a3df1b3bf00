/** Shape/type validation of targets, inputs against baselines, and noise tunnel types. */
module Validation {
  import opened Errors
  import opened Tensors

  /** The kinds of value `target` can take. */
  datatype Target =
    | NoTarget                  // None
    | Index(i: int)             // a single output index
    | IndexTuple(indices: seq<int>)  // a tuple indexing one element of a multi-dimensional output
    | IndexList(count: nat)     // a Python list of per-example targets, of the given length
    | TargetTensor(t: Tensor)   // a tensor of targets

  /** A target is given per example when it is a list, or a tensor with more than one element. */
  predicate PerExampleTarget(target: Target)
  {
    target.IndexList? || (target.TargetTensor? && |target.t.data| > 1)
  }

  /** `len(target)` of a per-example target. */
  function TargetCount(target: Target): nat
    requires PerExampleTarget(target)
  {
    match target
    case IndexList(count) => count
    case TargetTensor(t) => if |t.shape| == 0 then 0 else t.shape[0]
  }

  /** `_validate_target`: a per-example target must have one entry per sample. */
  function ValidateTarget(numSamples: int, target: Target): (r: Outcome)
    ensures r.Pass? <==> !PerExampleTarget(target) || numSamples == TargetCount(target)
    ensures r.Fail? ==> r.error == TargetCountMismatch
  {
    match target
    case IndexList(count) => if numSamples == count then Pass else Fail(TargetCountMismatch)
    case TargetTensor(t) =>
      if |t.data| > 1 && numSamples != t.shape[0] then Fail(TargetCountMismatch) else Pass
    case _ => Pass
  }

  /** A tensor with more than one element has a batch dimension, and that is its length. */
  lemma TargetTensorHasBatch(t: Tensor)
    requires |t.data| > 1
    ensures |t.shape| > 0 && TargetCount(TargetTensor(t)) == t.shape[0]
  {
  }

  /** The baseline rule at one position.  With baselines drawn from a distribution, only the
      non-batch dimensions must agree; otherwise the shapes must be equal or the baseline's
      batch dimension must be 1.  A number is always accepted. */
  predicate BaselineFits(x: Tensor, b: Value, fromDistribution: bool)
  {
    match b
    case Num(_) => true
    case Ten(t) =>
      if fromDistribution then Tail(x.shape) == Tail(t.shape)
      else x.shape == t.shape || (|t.shape| > 0 && t.shape[0] == 1)
    case Opaque => false
  }

  /** The assertion at one position as Python evaluates it, including the IndexError that
      `baseline.shape[0]` raises for a 0-d baseline and the AttributeError of a non-tensor. */
  function CheckPosition(x: Tensor, b: Value, fromDistribution: bool): (r: Outcome)
    ensures r.Pass? <==> BaselineFits(x, b, fromDistribution)
    ensures b.Ten? && fromDistribution && r.Fail? ==> r.error == BaselineShapeMismatch
  {
    match b
    case Num(_) => Pass
    case Opaque => Fail(NoShapeAttribute)
    case Ten(t) =>
      if fromDistribution then
        if Tail(x.shape) == Tail(t.shape) then Pass else Fail(BaselineShapeMismatch)
      else if x.shape == t.shape then Pass
      else if |t.shape| == 0 then Fail(IndexOutOfRange)
      else if t.shape[0] == 1 then Pass
      else Fail(BaselineShapeMismatch)
  }

  /** `_validate_input`: lengths, then every position in order, then n_steps, then the method.
      The defaults are those of the source; the supported set comes before them. */
  function ValidateInput(inputs: seq<Tensor>, baselines: seq<Value>, supportedMethods: set<string>,
                         nSteps: int := 50, approxMethod: string := "riemann_trapezoid",
                         fromDistribution: bool := false): (r: Outcome)
    ensures r.Pass? <==>
              && |inputs| == |baselines|
              && (forall i :: 0 <= i < |inputs| ==> BaselineFits(inputs[i], baselines[i], fromDistribution))
              && nSteps >= 0
              && approxMethod in supportedMethods
    ensures |inputs| != |baselines| ==> r == Fail(InputBaselineCountMismatch)
    ensures |inputs| == |baselines| && nSteps < 0
            && (forall i :: 0 <= i < |inputs| ==> BaselineFits(inputs[i], baselines[i], fromDistribution))
            ==> r == Fail(NegativeSteps)
  {
    if |inputs| != |baselines| then Fail(InputBaselineCountMismatch)
    else
      var positions := seq(|inputs|, i requires 0 <= i < |inputs| =>
                             CheckPosition(inputs[i], baselines[i], fromDistribution));
      assert forall i :: 0 <= i < |inputs| ==>
               (positions[i].Pass? <==> BaselineFits(inputs[i], baselines[i], fromDistribution));
      var checks := RunAll(positions);
      if checks.Fail? then checks
      else if nSteps < 0 then Fail(NegativeSteps)
      else if approxMethod !in supportedMethods then Fail(UnsupportedMethod)
      else Pass
  }

  /** A baseline whose shape differs from its input and whose batch dimension is not 1 is
      rejected outside distribution mode. */
  lemma MismatchedBaselineRejected(inputs: seq<Tensor>, baselines: seq<Value>, nSteps: int,
                                   approxMethod: string, supportedMethods: set<string>, i: nat)
    requires |inputs| == |baselines| && i < |inputs|
    requires baselines[i].Ten? && baselines[i].t.shape != inputs[i].shape
    requires |baselines[i].t.shape| > 0 && baselines[i].t.shape[0] != 1
    ensures ValidateInput(inputs, baselines, supportedMethods, nSteps, approxMethod, false).Fail?
  {
  }

  /** `_validate_noise_tunnel_type`: the type must be one of the supported ones. */
  function ValidateNoiseTunnelType(ntType: string, supported: seq<string>): (r: Outcome)
    ensures r.Pass? <==> exists k :: 0 <= k < |supported| && supported[k] == ntType
    ensures r.Fail? ==> r.error == UnsupportedNoiseTunnelType
  {
    if ntType in supported then Pass else Fail(UnsupportedNoiseTunnelType)
  }
}
