/** Formatting of the per-input geometry of occlusion-style perturbation: strides and
    sliding-window shapes. */
module Occlusion {
  import opened Errors
  import opened Tensors

  /** A geometry argument as Python sees it: an int, a tuple of such values, or anything else. */
  datatype Param = PInt(i: int) | PTuple(items: seq<Param>) | POther

  /** The stride of one input: an int, or a tuple with one entry per non-batch dimension. */
  predicate StrideFits(s: Param, x: Tensor)
  {
    s.PInt? || (s.PTuple? && |s.items| == |x.shape| - 1)
  }

  /** The window shape of one input: a tuple with one entry per non-batch dimension. */
  predicate WindowFits(w: Param, x: Tensor)
  {
    w.PTuple? && |w.items| == |x.shape| - 1
  }

  /** The per-index stride assertions of the `for` loop, in order. */
  function StrideChecks(entries: seq<Param>, inputs: seq<Tensor>): (r: seq<Outcome>)
    requires |entries| == |inputs|
    ensures |r| == |inputs|
    ensures forall i :: 0 <= i < |r| ==>
              r[i] == if StrideFits(entries[i], inputs[i]) then Pass else Fail(InvalidStride(i))
  {
    seq(|inputs|, i requires 0 <= i < |inputs| =>
          if StrideFits(entries[i], inputs[i]) then Pass else Fail(InvalidStride(i)))
  }

  /** The strides after the two rebindings: None becomes one 1 per input, and with a single
      input anything but a 1-tuple is wrapped into one. */
  function NormalisedStrides(strides: Option<Param>, inputCount: nat): Param
  {
    var s := if strides.None? then PTuple(seq(inputCount, _ => PInt(1))) else strides.value;
    if inputCount == 1 && !(s.PTuple? && |s.items| == 1) then PTuple([s]) else s
  }

  /** `_format_and_verify_strides`. */
  function FormatStrides(strides: Option<Param>, inputs: seq<Tensor>): (r: Result<seq<Param>>)
    ensures r.Ok? ==> |r.value| == |inputs|
                      && forall i :: 0 <= i < |inputs| ==> StrideFits(r.value[i], inputs[i])
    ensures strides.None? ==> r.Ok? && forall i :: 0 <= i < |inputs| ==> r.value[i] == PInt(1)
    ensures |inputs| == 1 && strides.Some? && !(strides.value.PTuple? && |strides.value.items| == 1) ==>
              (r.Ok? <==> StrideFits(strides.value, inputs[0]))
              && (r.Ok? ==> r.value == [strides.value])
    ensures strides.Some? && strides.value.PTuple? && (|inputs| != 1 || |strides.value.items| == 1) ==>
              (r.Ok? <==> |strides.value.items| == |inputs|
                          && forall i :: 0 <= i < |inputs| ==> StrideFits(strides.value.items[i], inputs[i]))
              && (r.Ok? ==> r.value == strides.value.items)
    ensures strides.Some? && !strides.value.PTuple? && |inputs| != 1 ==> r == Err(StrideCountMismatch)
    ensures r.Err? && r.error.InvalidStride? ==>
              var s := NormalisedStrides(strides, |inputs|);
              var i := r.error.index;
              s.PTuple? && |s.items| == |inputs| && i < |inputs| && !StrideFits(s.items[i], inputs[i])
              && forall j :: 0 <= j < i ==> StrideFits(s.items[j], inputs[j])
  {
    var s := NormalisedStrides(strides, |inputs|);
    if !(s.PTuple? && |s.items| == |inputs|) then Err(StrideCountMismatch)
    else
      var checks := StrideChecks(s.items, inputs);
      match FirstFailure(checks)
      case Some(i) => Err(InvalidStride(i))
      case None => Ok(s.items)
  }

  /** The window shapes after the rebinding: a tuple whose first element is an int is one shape,
      wrapped into a 1-tuple (whatever the number of inputs). */
  function NormalisedWindows(items: seq<Param>): seq<Param>
    requires |items| > 0
  {
    if items[0].PInt? then [PTuple(items)] else items
  }

  /** The per-index window assertions of the `for` loop, in order. */
  function WindowChecks(entries: seq<Param>, inputs: seq<Tensor>): (r: seq<Outcome>)
    requires |entries| == |inputs|
    ensures |r| == |inputs|
    ensures forall i :: 0 <= i < |r| ==>
              r[i] == if WindowFits(entries[i], inputs[i]) then Pass else Fail(InvalidWindow(i))
  {
    seq(|inputs|, i requires 0 <= i < |inputs| =>
          if WindowFits(entries[i], inputs[i]) then Pass else Fail(InvalidWindow(i)))
  }

  /** `_format_and_verify_sliding_window_shapes`. Indexing `[0]` raises for an int or another
      non-sequence TypeError, and for an empty tuple IndexError. */
  function FormatWindows(shapes: Param, inputs: seq<Tensor>): (r: Result<seq<Param>>)
    ensures r.Ok? <==> shapes.PTuple? && |shapes.items| > 0
                       && var ws := NormalisedWindows(shapes.items);
                          |ws| == |inputs| && forall i :: 0 <= i < |inputs| ==> WindowFits(ws[i], inputs[i])
    ensures r.Ok? ==> r.value == NormalisedWindows(shapes.items)
                      && |r.value| == |inputs|
                      && forall i :: 0 <= i < |inputs| ==> WindowFits(r.value[i], inputs[i])
    ensures !shapes.PTuple? ==> r == Err(NotSubscriptable)
    ensures shapes == PTuple([]) ==> r == Err(IndexOutOfRange)
    ensures r.Err? && r.error.InvalidWindow? ==>
              var ws := NormalisedWindows(shapes.items);
              var i := r.error.index;
              |ws| == |inputs| && i < |inputs| && !WindowFits(ws[i], inputs[i])
              && forall j :: 0 <= j < i ==> WindowFits(ws[j], inputs[j])
  {
    match shapes
    case PInt(_) => Err(NotSubscriptable)
    case POther => Err(NotSubscriptable)
    case PTuple(items) =>
      if |items| == 0 then Err(IndexOutOfRange)
      else
        var ws := NormalisedWindows(items);
        if |ws| != |inputs| then Err(WindowCountMismatch)
        else
          var checks := WindowChecks(ws, inputs);
          match FirstFailure(checks)
          case Some(i) => Err(InvalidWindow(i))
          case None => Ok(ws)
  }

  /** A single window shape (a tuple of ints) for a single input is wrapped into a 1-tuple, and
      accepted exactly when it has one entry per non-batch dimension of that input. */
  lemma SingleWindowWrapped(dims: seq<Param>, x: Tensor)
    requires |dims| > 0 && dims[0].PInt?
    ensures FormatWindows(PTuple(dims), [x]).Ok? <==> |dims| == |x.shape| - 1
    ensures FormatWindows(PTuple(dims), [x]).Ok? ==> FormatWindows(PTuple(dims), [x]).value == [PTuple(dims)]
  {
  }

  /** With several inputs, a shape whose first element is an int is still taken as a single
      window and so rejected for having too few entries. */
  lemma IntLeadingShapeWithSeveralInputs(dims: seq<Param>, inputs: seq<Tensor>)
    requires |dims| > 0 && dims[0].PInt? && |inputs| > 1
    ensures FormatWindows(PTuple(dims), inputs) == Err(WindowCountMismatch)
  {
  }
}
