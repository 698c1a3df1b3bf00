# Attribution input layer of Captum, modelled in Dafny

This project models `captum/attr/_utils/common.py`, the layer of the Captum attribution
library that canonicalises and validates what a caller hands to an attribution algorithm:
it turns baselines (absent, bare, tuple or callable) into tuples aligned with the inputs,
checks inputs against baselines, formats occlusion strides and sliding-window shapes,
materialises baselines as tensors, sums integrated gradients over the integration steps,
decides whether a model's output is aggregated per batch or given per example, dispatches
to a custom attribution function by its arity, and gives attributions back in the form the
caller passed (a bare tensor or a tuple), optionally with a convergence delta.

Every operation of the Python module is a pure function here. A tensor is its shape
(`seq<nat>`) and its elements in row-major order (`seq<int>`), with as many elements as the
shape says (`Tensors.Tensor`). A Python value that may be a tensor or a number is
`Tensors.Value` (`Num`, `Ten`, or `Opaque` for anything else). Each `assert` of the
source, and each Python exception its expressions can raise (indexing the shape of a 0-d
tensor, subscripting an int, reading `.shape` of a non-tensor), is a case of
`Errors.Error`, returned in a `Result` or an `Outcome`. Where a check is a `for` loop of
asserts, the model runs the per-element checks in order and reports the first failure
(`Errors.FirstFailure`, `Errors.RunAll`).

Modules: `Errors` and `Tensors` (shared types), `Validation` (targets, inputs against
baselines, noise tunnel types), `Baselines` (formatting and materialisation), `Occlusion`
(strides and window shapes), `Aggregation` (the step sum), `OutputMode` (aggregate vs
per-example), `Dispatch` (custom functions and finalisation).

Points where the code, which the model follows, is narrower or wider than the module's
docstrings and assertion messages suggest:

- `_format_baseline` does not compare the length of a tuple baseline with the inputs;
  only `_validate_input` does.
- A window shape whose first element is an int is wrapped into a 1-tuple whatever the
  number of inputs, so with several inputs it is then rejected for its count.
- `_tensorize_baseline` repeats a batch-1 baseline along dimension 0 without comparing its
  other dimensions, and `_validate_input` accepts such a baseline: an input of shape (4, 3)
  with a baseline of shape (1, 5) passes validation and materialises with shape (4, 5)
  (`Baselines.BatchOneBaselineKeepsOwnDims`).
- A tensor baseline facing a 0-d input, or a 0-d tensor baseline, makes `_tensorize_baseline`
  raise through `shape[0]`; a numeric baseline is filled to the input's shape first, so it
  never raises, even for a 0-d input.
- `_tensorize_baseline` zips, so it yields one tensor per pair of the shorter tuple.
- A feature mask given as a bare tensor is iterated over its rows, so the leading
  dimension that must be 1 is that of each row.

## Model

| member | source | states |
|---|---|---|
| Validation.ValidateTarget | captum/attr/_utils/common.py:22-31 | passes iff the target is not a list or a tensor of more than one element, or its length equals the number of samples |
| Validation.TargetTensorHasBatch | captum/attr/_utils/common.py:23-26 | a target tensor with more than one element has a first dimension, which is its length |
| Validation.CheckPosition | captum/attr/_utils/common.py:48-71 | the assertion at one position passes exactly when the baseline rule holds; in distribution mode a failure is a shape mismatch |
| Validation.ValidateInput | captum/attr/_utils/common.py:41-80 | passes iff the lengths agree, every position meets the baseline rule of its mode, n_steps >= 0 and the method is supported; a length mismatch is reported first, a negative step count after all positions |
| Validation.MismatchedBaselineRejected | captum/attr/_utils/common.py:60-71 | outside distribution mode a tensor baseline of another shape whose batch dimension is not 1 makes validation fail |
| Validation.ValidateNoiseTunnelType | captum/attr/_utils/common.py:83-89 | passes iff the type occurs in the supported list |
| Tensors.FormatInput | captum/attr/_utils/common.py:130 | a bare tensor becomes a 1-tuple and a tuple is kept (the imported `_format_input`, abstracted) |
| Baselines.Zeros | captum/attr/_utils/common.py:335-340 | one integer 0 per input |
| Baselines.CheckElements | captum/attr/_utils/common.py:101-109 | succeeds iff every element is a tensor or a number, and then returns the tuple unchanged |
| Baselines.FormatBaseline | captum/attr/_utils/common.py:95-109 | None gives one integer 0 per input; a non-tuple value gives a 1-tuple; a tuple is returned unchanged; it fails iff some element is neither a tensor nor a number (a callable included) |
| Baselines.FormatBaselineIdempotent | captum/attr/_utils/common.py:98-109 | formatting a formatted baseline again returns the same tuple |
| Baselines.FormatInputBaseline | captum/attr/_utils/common.py:127-132 | the inputs as a tuple, paired with the baseline formatted against that tuple |
| Baselines.FormatInputBaselineIdempotent | captum/attr/_utils/common.py:127-132 | formatting an already formatted (inputs, baselines) pair again is a no-op |
| Baselines.FormatCallableBaseline | captum/attr/_utils/common.py:177-186 | a callable declaring no parameter is called with nothing, otherwise with the unformatted inputs; its result, like a non-callable baseline, is formatted against the tupled inputs |
| Baselines.CallableNoneGivesZeros | captum/attr/_utils/common.py:181-186 | a callable that returns None yields one integer 0 per tupled input |
| Baselines.Full | captum/attr/_utils/common.py:347-348 | a tensor of the given shape whose every element is the number |
| Baselines.RepeatBlock | captum/attr/_utils/common.py:350 | row k of n stacked copies of a tensor's elements is those elements |
| Baselines.CatCopies | captum/attr/_utils/common.py:349-350 | n copies of a batch-1 tensor stacked along dimension 0 have shape [n] + its non-batch dimensions and each row equal to it |
| Baselines.TensorizeOne | captum/attr/_utils/common.py:346-351 | a number becomes a tensor of the input's shape filled with it; a tensor with batch 1 facing a larger input batch is repeated input.shape[0] times along dimension 0 (other dimensions kept); any other tensor is returned unchanged; a tensor baseline raises when it or the input is 0-d, and a non-tensor non-number raises; a number never fails |
| Baselines.TensorizeBaseline | captum/attr/_utils/common.py:353-362 | succeeds iff every zipped pair does; then one tensor per pair of the shorter tuple, each the materialisation of its pair |
| Baselines.ZeroBaselineMaterialises | captum/attr/_utils/common.py:335-362 | an absent baseline, formatted and materialised, is a zero tensor of each input's shape |
| Baselines.BatchOneBaselineBroadcasts | captum/attr/_utils/common.py:349-350 | a batch-1 baseline with the input's non-batch dimensions passes validation and materialises with the input's shape |
| Baselines.BatchOneBaselineKeepsOwnDims | captum/attr/_utils/common.py:349-351 | an input (4, 3) with a baseline (1, 5) passes validation and materialises with shape (4, 5), not the input's |
| Occlusion.StrideChecks | captum/attr/_utils/common.py:239-249 | the check at index i passes iff the stride is an int or a tuple of length rank - 1, and otherwise names index i |
| Occlusion.FormatStrides | captum/attr/_utils/common.py:232-251 | None gives stride 1 per input; with one input anything but a 1-tuple is wrapped; the result has one entry per input, each an int or a tuple of length rank - 1; otherwise it fails, naming the first bad index |
| Occlusion.WindowChecks | captum/attr/_utils/common.py:266-275 | the check at index i passes iff the window shape is a tuple of length rank - 1, and otherwise names index i |
| Occlusion.FormatWindows | captum/attr/_utils/common.py:260-276 | a shape whose first element is an int is wrapped into a 1-tuple; succeeds iff the result has one tuple of length rank - 1 per input; an int or an empty tuple raises; a failure names the first bad index |
| Occlusion.SingleWindowWrapped | captum/attr/_utils/common.py:260-269 | a single int-leading window shape for a single input is accepted iff it has rank - 1 entries, and becomes a 1-tuple |
| Occlusion.IntLeadingShapeWithSeveralInputs | captum/attr/_utils/common.py:260-265 | with several inputs an int-leading shape is still one window, and is rejected for its count |
| Aggregation.SumSteps | captum/attr/_utils/common.py:372-374 | the sum over dimension 0 of `steps` rows has one element per column |
| Aggregation.StepSumPrefix | captum/attr/_utils/common.py:372-374 | the sum over the first rows does not depend on what follows them |
| Aggregation.SumStepsAt | captum/attr/_utils/common.py:372-374 | column k of the summed rows is the sum over the steps s of data[s * width + k] |
| Aggregation.ReshapeAndSum | captum/attr/_utils/common.py:365-374 | succeeds iff numel == steps * examples * prod(layer_size); the result has shape (examples, *layer_size) and element (e, j) equal to the sum over s of input[s*E*L + e*L + j] |
| Aggregation.ThreeStepsTwoExamples | captum/attr/_utils/common.py:368-374 | for 3 steps, 2 examples and 4 features over 1..24 the result is the hand-computed sums 27, 30, ..., 48 |
| OutputMode.CheckMask | captum/attr/_utils/common.py:429-433 | one mask passes iff its batch dimension is 1 |
| OutputMode.CheckMasks | captum/attr/_utils/common.py:428-433 | the mask loop passes iff no mask is given or every mask (every row of a bare mask) has leading dimension 1 |
| OutputMode.FindOutputMode | captum/attr/_utils/common.py:417-439 | returns true iff the eval is a number, a 0-d tensor, or has one element with more than one example; in that mode it fails unless perturbations_per_eval == 1 and the masks are shared; otherwise it returns false and fails unless initial_eval[0] has exactly one element |
| OutputMode.NumberIsAggregate | captum/attr/_utils/common.py:417-427 | a bare number for 5 examples, 1 perturbation per eval and no mask gives aggregate mode |
| OutputMode.NumberRejectsParallelPerturbations | captum/attr/_utils/common.py:425-427 | the same with 2 perturbations per eval fails |
| OutputMode.OneElementOutputDependsOnBatch | captum/attr/_utils/common.py:417-438 | a one-element output is per-example and accepted for one example, aggregate for three |
| OutputMode.TwoColumnsPerExampleRejected | captum/attr/_utils/common.py:434-438 | a per-example output of shape (n, 2) fails |
| Dispatch.CallCustomAttributionFunc | captum/attr/_utils/common.py:383-400 | succeeds iff the function is callable with 1 to 3 declared parameters, and then passes the first that many of (multipliers, inputs, baselines); any other arity fails naming the count |
| Dispatch.TwoParameterCall | captum/attr/_utils/common.py:393-394 | a two-parameter function is called as f(multipliers, inputs) |
| Dispatch.FormatAttributions | captum/attr/_utils/common.py:218-223 | the tuple itself for a tuple caller; otherwise fails unless there is exactly one attribution, which is returned bare |
| Dispatch.FinaliseRestoresCallerForm | captum/attr/_utils/common.py:219-223 | attributions of one per formatted input are always accepted and come back in the caller's form |
| Dispatch.FormatThenFinalise | captum/attr/_utils/common.py:218-223 | finalising the formatted inputs gives back exactly what the caller passed |
| Dispatch.ComputeConvDeltaAndFormatAttrs | captum/attr/_utils/common.py:321-332 | the formatted attributions, paired with the delta of the unformatted attributions iff the delta is requested; fails exactly when formatting does |

## Left out

- Floating point: numbers and tensor elements are integers; float baselines and `full_like` dtype conversion are not modelled.
- `_format_input` is not part of this model; it is abstracted as "bare tensor to 1-tuple, tuple unchanged" (`Tensors.FormatInput`).
- `SUPPORTED_METHODS` (defined in `approximation_methods`, not part of this model) is a parameter set of strings.
- `inspect.signature` is replaced by a declared parameter count on the callable (`Baselines.BaselineArg.Fn`, `Dispatch.CustomFn`).
- What a callable baseline computes is a function parameter of the model; what a custom attribution function returns is not modelled: `Dispatch.CallCustomAttributionFunc` returns the argument list it is called with.
- `compute_convergence_delta` is a function parameter; its own failures are not modelled.
- Values of other Python types are one `Opaque` value (a list is not distinguished from any other non-tuple), and lists given for strides or window shapes are not modelled.
- `torch.reshape` with a `-1` wildcard is not modelled: `num_steps`, `num_examples` and the entries of `layer_size` are natural numbers in `Aggregation.ReshapeAndSum`.
- The tuple-type assertions of `_format_attributions` and `_tensorize_baseline` cannot fail in the model: attributions, inputs and baselines are always sequences there.
- `supported_methods` is an extra parameter of `Validation.ValidateInput`, placed before the source's defaulted parameters (`n_steps = 50`, `method = "riemann_trapezoid"`, `draw_baseline_from_distrib = False`), which keep their defaults; `is_inputs_tuple` keeps its default `False`.
- The `typing.overload` stubs and the assertion messages carry no behaviour beyond which call fails; errors carry a kind and, for strides and windows, the offending index.
