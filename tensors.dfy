/** Tensors as the attribution layer sees them: a shape and, where values matter,
    the elements in row-major order. */
module Tensors {

  /** Number of elements of a tensor of the given shape (1 for a 0-dimensional tensor). */
  function Prod(shape: seq<nat>): nat
  {
    if |shape| == 0 then 1 else shape[0] * Prod(shape[1..])
  }

  datatype TensorData = TensorData(shape: seq<nat>, data: seq<int>)

  /** A tensor holds exactly as many elements as its shape says. */
  type Tensor = t: TensorData | |t.data| == Prod(t.shape) witness TensorData([], [0])

  /** Python's `shape[1:]`: the non-batch dimensions (empty for a 0-d shape). */
  function Tail(shape: seq<nat>): (r: seq<nat>)
    ensures |shape| > 0 ==> shape == [shape[0]] + r
    ensures |shape| == 0 ==> r == []
  {
    if |shape| == 0 then [] else shape[1..]
  }

  /** A Python value that may stand where a tensor or a number is expected. */
  datatype Value =
    | Num(n: int)        // an int or a float (floats are not modelled apart from ints)
    | Ten(t: Tensor)     // a torch.Tensor
    | Opaque             // any other value

  /** The caller-facing form: a bare tensor or a tuple of tensors. */
  datatype TensorOrTuple = Bare(t: Tensor) | Tup(ts: seq<Tensor>)

  predicate IsTuple(x: TensorOrTuple) { x.Tup? }

  /** The shared `_format_input` primitive: a bare tensor becomes a 1-tuple, a tuple is kept. */
  function FormatInput(x: TensorOrTuple): (r: seq<Tensor>)
    ensures x.Bare? ==> r == [x.t]
    ensures x.Tup? ==> r == x.ts
  {
    match x
    case Bare(t) => [t]
    case Tup(ts) => ts
  }

  /** Element `i` of a flat sequence, 0 outside it. */
  function Get(data: seq<int>, i: int): int
  {
    if 0 <= i < |data| then data[i] else 0
  }

  /** Element `(e, j)` of a flat sequence viewed as rows of `width` elements. */
  function At(data: seq<int>, width: nat, e: nat, j: nat): int
  {
    Get(data, e * width + j)
  }

  /** Row `k` of a flat sequence viewed as rows of `width` elements (empty past the end). */
  function Block(data: seq<int>, width: nat, k: nat): (r: seq<int>)
  {
    if k * width + width <= |data| then data[k * width .. k * width + width] else []
  }

  /** `s * w + k` lies inside the first `n` rows when `s < n` and `k < w`. */
  lemma RowBound(s: nat, n: nat, w: nat, k: nat)
    requires s < n && k < w
    ensures s * w + k < n * w
  {
    assert (s + 1) * w == s * w + w;
  }
}
