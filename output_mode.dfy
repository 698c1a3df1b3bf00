/** Output-mode inference for perturbation-based attribution: from one trial evaluation,
    decide whether the model returns one value per batch (aggregate mode) or per example. */
module OutputMode {
  import opened Errors
  import opened Tensors

  /** The trial evaluation is aggregated: a number, a 0-d tensor, or, for a batch of more than
      one example, a tensor with a single element. */
  predicate IsAggregateEval(initialEval: Value, numExamples: int)
  {
    || initialEval.Num?
    || (initialEval.Ten? && (|initialEval.t.shape| == 0
                             || (numExamples > 1 && |initialEval.t.data| == 1)))
  }

  /** Every mask is shared by the batch. A tuple of masks: each has batch dimension 1.
      A bare mask tensor is iterated over its rows: each row must have leading dimension 1. */
  predicate MasksShared(featureMask: Option<TensorOrTuple>)
  {
    match featureMask
    case None => true
    case Some(Tup(masks)) => forall i :: 0 <= i < |masks| ==> |masks[i].shape| > 0 && masks[i].shape[0] == 1
    case Some(Bare(m)) => |m.shape| > 0 && (m.shape[0] == 0 || (|m.shape| > 1 && m.shape[1] == 1))
  }

  /** The first row of a per-example output holds exactly one element. */
  predicate SingleElementPerExample(initialEval: Value)
  {
    initialEval.Ten? && |initialEval.t.shape| > 0 && initialEval.t.shape[0] > 0
    && Prod(initialEval.t.shape[1..]) == 1
  }

  /** The assertion on one mask, including the IndexError of `shape[0]` on a 0-d mask. */
  function CheckMask(m: Tensor): (r: Outcome)
    ensures r.Pass? <==> |m.shape| > 0 && m.shape[0] == 1
  {
    if |m.shape| == 0 then Fail(IndexOutOfRange)
    else if m.shape[0] != 1 then Fail(PerExampleMask)
    else Pass
  }

  /** The `for single_mask in feature_mask` loop, in order. */
  function CheckMasks(featureMask: Option<TensorOrTuple>): (r: Outcome)
    ensures r.Pass? <==> MasksShared(featureMask)
  {
    match featureMask
    case None => Pass
    case Some(Tup(masks)) =>
      var checks := seq(|masks|, i requires 0 <= i < |masks| => CheckMask(masks[i]));
      assert forall i :: 0 <= i < |masks| ==>
               (checks[i].Pass? <==> |masks[i].shape| > 0 && masks[i].shape[0] == 1);
      RunAll(checks)
    case Some(Bare(m)) =>
      // iterating a tensor yields its rows, each of shape m.shape[1..]
      if |m.shape| == 0 then Fail(IterationOverScalar)
      else if m.shape[0] == 0 then Pass
      else if |m.shape| == 1 then Fail(IndexOutOfRange)
      else if m.shape[1] != 1 then Fail(PerExampleMask)
      else Pass
  }

  /** `_find_output_mode_and_verify`: the mode, and the constraints each mode puts on the caller. */
  function FindOutputMode(initialEval: Value, numExamples: int, perturbationsPerEval: int,
                          featureMask: Option<TensorOrTuple>): (r: Result<bool>)
    ensures r.Ok? ==> r.value == IsAggregateEval(initialEval, numExamples)
    ensures IsAggregateEval(initialEval, numExamples) ==>
              (r.Ok? <==> perturbationsPerEval == 1 && MasksShared(featureMask))
    ensures !IsAggregateEval(initialEval, numExamples) ==>
              (r.Ok? <==> SingleElementPerExample(initialEval))
    ensures IsAggregateEval(initialEval, numExamples) && perturbationsPerEval != 1 ==>
              r == Err(PerturbationsPerEval)
  {
    if IsAggregateEval(initialEval, numExamples) then
      if perturbationsPerEval != 1 then Err(PerturbationsPerEval)
      else match CheckMasks(featureMask)
        case Fail(e) => Err(e)
        case Pass => Ok(true)
    else
      match initialEval
      case Ten(t) =>
        // |t.shape| > 0 here, since a 0-d tensor is aggregated
        if t.shape[0] == 0 then Err(IndexOutOfRange)
        else if Prod(t.shape[1..]) != 1 then Err(TargetNotSingleElement)
        else Ok(false)
      case _ => Err(TargetNotSingleElement)
  }

  /** A bare number for a batch of 5, one perturbation per evaluation, no mask: aggregate mode. */
  lemma NumberIsAggregate()
    ensures FindOutputMode(Num(0), 5, 1, None) == Ok(true)
  {
  }

  /** The same with two perturbations per evaluation is a mode mismatch. */
  lemma NumberRejectsParallelPerturbations()
    ensures FindOutputMode(Num(0), 5, 2, None) == Err(PerturbationsPerEval)
  {
  }

  /** A one-element output is aggregate for a batch of several examples, but per-example (and
      accepted) for a batch of one. */
  lemma OneElementOutputDependsOnBatch(t: Tensor, masks: seq<Tensor>, ppe: int)
    requires t.shape == [1]
    ensures FindOutputMode(Ten(t), 1, ppe, Some(Tup(masks))) == Ok(false)
    ensures FindOutputMode(Ten(t), 3, 1, None) == Ok(true)
  {
  }

  /** A per-example output of shape (n, 2) does not identify a single element per example. */
  lemma TwoColumnsPerExampleRejected(t: Tensor, n: nat)
    requires t.shape == [n, 2] && n > 0
    ensures FindOutputMode(Ten(t), n, 1, None).Err?
  {
  }
}
