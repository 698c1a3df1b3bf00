/** The integration aggregator of path-integral attribution: a flat tensor holding one block
    per integration step, each block holding every example, summed over the steps. */
module Aggregation {
  import opened Errors
  import opened Tensors

  /** Reference: Σ_{s < steps} data[s * width + k], element k of the sum of the step blocks. */
  function StepSum(data: seq<int>, width: nat, k: nat, steps: nat): int
  {
    if steps == 0 then 0 else StepSum(data, width, k, steps - 1) + Get(data, (steps - 1) * width + k)
  }

  /** `torch.sum(..., dim=0)` of the flat data viewed as `steps` rows of `width` elements:
      the sum of the first `steps - 1` rows plus the last row. */
  function SumSteps(data: seq<int>, width: nat, steps: nat): (r: seq<int>)
    requires |data| == steps * width
    ensures |r| == width
  {
    if steps == 0 then seq(width, _ => 0)
    else
      var last := (steps - 1) * width;
      assert last + width == steps * width;
      var prev := SumSteps(data[..last], width, steps - 1);
      seq(width, k requires 0 <= k < width => prev[k] + data[last + k])
  }

  /** Step sums only read the first `steps` rows, so a longer sequence gives the same sum. */
  lemma {:induction false} StepSumPrefix(data: seq<int>, n: nat, width: nat, k: nat, steps: nat)
    requires k < width && steps <= n && n * width <= |data|
    ensures StepSum(data[..n * width], width, k, steps) == StepSum(data, width, k, steps)
  {
    if steps > 0 {
      StepSumPrefix(data, n, width, k, steps - 1);
      RowBound(steps - 1, n, width, k);
    }
  }

  /** Element `k` of the summed rows is the step sum of column `k`. */
  lemma {:induction false} SumStepsAt(data: seq<int>, width: nat, steps: nat, k: nat)
    requires |data| == steps * width && k < width
    ensures SumSteps(data, width, steps)[k] == StepSum(data, width, k, steps)
  {
    if steps > 0 {
      var last := (steps - 1) * width;
      assert last + width == steps * width;
      SumStepsAt(data[..last], width, steps - 1, k);
      StepSumPrefix(data, steps - 1, width, k, steps - 1);
    }
  }

  /** Element (e, j) of the summed rows, for rows of `examples` blocks of `size` elements. */
  lemma SumStepsElements(data: seq<int>, steps: nat, examples: nat, size: nat)
    requires |data| == steps * (examples * size)
    ensures forall e, j :: 0 <= e < examples && 0 <= j < size ==>
              At(SumSteps(data, examples * size, steps), size, e, j)
              == StepSum(data, examples * size, e * size + j, steps)
  {
    forall e, j | 0 <= e < examples && 0 <= j < size
      ensures At(SumSteps(data, examples * size, steps), size, e, j)
              == StepSum(data, examples * size, e * size + j, steps)
    {
      RowBound(e, examples, size, j);
      SumStepsAt(data, examples * size, steps, e * size + j);
    }
  }

  lemma ProdCons(n: nat, dims: seq<nat>)
    ensures Prod([n] + dims) == n * Prod(dims)
  {
    assert ([n] + dims)[1..] == dims;
  }

  lemma MulAssoc(a: nat, b: nat, c: nat)
    ensures a * b * c == a * (b * c)
  {
  }

  /** `_reshape_and_sum`: view the flat tensor as (num_steps, num_examples, *layer_size) and sum
      over the steps, giving shape (num_examples, *layer_size). Element (e, j) of the result,
      j a flat index into layer_size, is the sum over s of input[s*E*L + e*L + j] with
      L = prod(layer_size). The reshape fails unless the element counts agree. */
  function ReshapeAndSum(input: Tensor, numSteps: nat, numExamples: nat, layerSize: seq<nat>)
    : (r: Result<Tensor>)
    ensures r.Ok? <==> |input.data| == numSteps * numExamples * Prod(layerSize)
    ensures r.Err? ==> r.error == ReshapeSizeMismatch
    ensures r.Ok? ==> r.value.shape == [numExamples] + layerSize
    ensures r.Ok? ==> forall e, j :: 0 <= e < numExamples && 0 <= j < Prod(layerSize) ==>
              At(r.value.data, Prod(layerSize), e, j)
              == StepSum(input.data, numExamples * Prod(layerSize), e * Prod(layerSize) + j, numSteps)
  {
    if |input.data| != numSteps * numExamples * Prod(layerSize) then Err(ReshapeSizeMismatch)
    else
      MulAssoc(numSteps, numExamples, Prod(layerSize));
      ProdCons(numExamples, layerSize);
      SumStepsElements(input.data, numSteps, numExamples, Prod(layerSize));
      Ok(TensorData([numExamples] + layerSize, SumSteps(input.data, numExamples * Prod(layerSize), numSteps)))
  }

  /** Column `k` of the three rows of 1, 2, ..., 24 adds k + 1, k + 9 and k + 17. */
  lemma CountingStepSum(k: nat)
    requires k < 8
    ensures StepSum(seq(24, i => i + 1), 8, k, 3) == (k + 1) + (k + 9) + (k + 17)
  {
    var data := seq(24, i => i + 1);
    assert StepSum(data, 8, k, 1) == k + 1;
    assert StepSum(data, 8, k, 2) == (k + 1) + (k + 9);
  }

  /** Three steps of two examples with four features each: the result is [[a, b, c, d], [e, f, g, h]]
      where each entry adds the matching entry of the three step blocks. */
  lemma ThreeStepsTwoExamples()
    ensures var data := seq(24, i => i + 1);
            var r := ReshapeAndSum(TensorData([24], data), 3, 2, [4]);
            && r.Ok? && r.value.shape == [2, 4]
            && r.value.data == [1 + 9 + 17, 2 + 10 + 18, 3 + 11 + 19, 4 + 12 + 20,
                                5 + 13 + 21, 6 + 14 + 22, 7 + 15 + 23, 8 + 16 + 24]
  {
    var data := seq(24, i => i + 1);
    var r := ReshapeAndSum(TensorData([24], data), 3, 2, [4]);
    assert Prod([4]) == 4;
    assert |r.value.data| == 8;
    CountingStepSum(0);
    assert At(r.value.data, 4, 0, 0) == StepSum(data, 8, 0, 3);
    CountingStepSum(1);
    assert At(r.value.data, 4, 0, 1) == StepSum(data, 8, 1, 3);
    CountingStepSum(2);
    assert At(r.value.data, 4, 0, 2) == StepSum(data, 8, 2, 3);
    CountingStepSum(3);
    assert At(r.value.data, 4, 0, 3) == StepSum(data, 8, 3, 3);
    CountingStepSum(4);
    assert At(r.value.data, 4, 1, 0) == StepSum(data, 8, 4, 3);
    CountingStepSum(5);
    assert At(r.value.data, 4, 1, 1) == StepSum(data, 8, 5, 3);
    CountingStepSum(6);
    assert At(r.value.data, 4, 1, 2) == StepSum(data, 8, 6, 3);
    CountingStepSum(7);
    assert At(r.value.data, 4, 1, 3) == StepSum(data, 8, 7, 3);
  }
}
