/** Chains of reshapes and transposes: zero-copy views and materialised copies against
    the same operations on plain lists of values. */
module ViewChains {
  import opened RealSums
  import opened Shapes
  import opened Layouts

  datatype Option<+T> = None | Some(value: T)

  datatype ViewOp = ReshapeTo(dims: seq<int>) | Transpose

  /** A tensor as its view together with the contents of its storage. */
  datatype Strided = Strided(view: View, data: seq<real>)

  /** A tensor as its shape and its values in row-major order. */
  datatype Listed = Listed(dims: seq<int>, values: seq<real>)

  /** The row-major transpose of a `rows` by `cols` value list. */
  function TransposeList(rows: int, cols: int, values: seq<real>): (r: seq<real>)
    requires rows > 0 && cols > 0
    ensures |r| == |values|
  {
    seq(|values|, j requires 0 <= j && rows > 0 => At(values, j % rows * cols + j / rows))
  }

  /** One view operation on the strided representation.  Reshape shares the storage of a
      contiguous tensor and otherwise copies the logical elements; transpose swaps. */
  ghost function ApplyStrided(op: ViewOp, t: Strided): Option<Strided>
    requires t.view.WellFormed()
  {
    match op
    case ReshapeTo(dims) =>
      if !ValidDims(dims) || Numel(dims) != Numel(t.view.dims) then None
      else if Contiguous(t.view) then
        Some(Strided(View(dims, CanonicalStrides(dims), t.view.offset), t.data))
      else Some(Strided(Canonical(dims), Read(t.view, t.data)))
    case Transpose =>
      if |t.view.dims| != 2 then None else Some(Strided(Swap(t.view), t.data))
  }

  ghost function ApplyListed(op: ViewOp, t: Listed): Option<Listed>
    requires Positive(t.dims)
  {
    match op
    case ReshapeTo(dims) =>
      if !ValidDims(dims) || Numel(dims) != Numel(t.dims) then None
      else Some(Listed(dims, t.values))
    case Transpose =>
      if |t.dims| != 2 then None
      else Some(Listed([t.dims[1], t.dims[0]], TransposeList(t.dims[0], t.dims[1], t.values)))
  }

  ghost predicate Materialised(t: Strided) {
    Regular(t.view) && t.view.WellFormed() && |t.data| == Numel(t.view.dims)
  }

  ghost function Listing(t: Strided): Listed
    requires t.view.WellFormed()
  {
    Listed(t.view.dims, Read(t.view, t.data))
  }

  /** Reading a transposed view transposes the values read. */
  lemma ReadSwap(v: View, data: seq<real>)
    requires Regular(v) && v.WellFormed() && |v.dims| == 2
    ensures Regular(Swap(v)) && Swap(v).WellFormed()
    ensures Read(Swap(v), data) == TransposeList(v.dims[0], v.dims[1], Read(v, data))
  {
    SwapRegular(v);
    RegularWellFormed(Swap(v));
    ReadLength(v, data);
    ReadLength(Swap(v), data);
    var rows, cols := v.dims[0], v.dims[1];
    NumelPair(rows, cols);
    assert v.dims == [rows, cols];
    forall j | 0 <= j < Numel(v.dims)
      ensures Read(Swap(v), data)[j] == TransposeList(rows, cols, Read(v, data))[j]
    {
      var r, c := j % rows, j / rows;
      DivBounds(j, cols, rows);
      FlatBounds(r, c, rows, cols);
      SwapSwapsCoordinates(v, r, c);
    }
  }

  /** One step: both representations accept the same operations and stay in agreement. */
  lemma StepRefines(op: ViewOp, t: Strided)
    requires Materialised(t)
    ensures ApplyStrided(op, t).Some? <==> ApplyListed(op, Listing(t)).Some?
    ensures ApplyStrided(op, t).Some? ==>
              var t' := ApplyStrided(op, t).value;
              Materialised(t') && Listing(t') == ApplyListed(op, Listing(t)).value
  {
    match op
    case ReshapeTo(dims) =>
      if ValidDims(dims) && Numel(dims) == Numel(t.view.dims) {
        CanonicalWellFormed(dims);
        ReadLength(t.view, t.data);
        if Contiguous(t.view) {
          RegularOffset(t.view);
          ReadContiguous(t.view, t.data);
          ReadContiguous(Canonical(dims), t.data);
        } else {
          ReadContiguous(Canonical(dims), Read(t.view, t.data));
        }
      }
    case Transpose =>
      if |t.view.dims| == 2 {
        ReadSwap(t.view, t.data);
        SwapRegular(t.view);
      }
  }

  lemma RegularOffset(v: View)
    requires Regular(v)
    ensures v.offset == 0
  {
  }

  ghost function RunStrided(ops: seq<ViewOp>, t: Strided): Option<Strided>
    requires Materialised(t)
    decreases |ops|
  {
    if |ops| == 0 then Some(t)
    else
      var next := ApplyStrided(ops[0], t);
      StepRefines(ops[0], t);
      if next.None? then None else RunStrided(ops[1..], next.value)
  }

  ghost function RunListed(ops: seq<ViewOp>, t: Listed): Option<Listed>
    requires Positive(t.dims)
    decreases |ops|
  {
    if |ops| == 0 then Some(t)
    else
      var next := ApplyListed(ops[0], t);
      ListedPositive(ops[0], t);
      if next.None? then None else RunListed(ops[1..], next.value)
  }

  lemma ListedPositive(op: ViewOp, t: Listed)
    requires Positive(t.dims)
    ensures ApplyListed(op, t).Some? ==> Positive(ApplyListed(op, t).value.dims)
  {
  }

  /** Any chain of view operations from a materialised tensor succeeds exactly when the
      list operations do, and then reads back exactly the list result. */
  lemma {:induction false} ChainRefinesLists(ops: seq<ViewOp>, t: Strided)
    requires Materialised(t)
    ensures RunStrided(ops, t).Some? <==> RunListed(ops, Listing(t)).Some?
    ensures RunStrided(ops, t).Some? ==>
              var t' := RunStrided(ops, t).value;
              Materialised(t') && Listing(t') == RunListed(ops, Listing(t)).value
    decreases |ops|
  {
    if |ops| != 0 {
      StepRefines(ops[0], t);
      if ApplyStrided(ops[0], t).Some? {
        ChainRefinesLists(ops[1..], ApplyStrided(ops[0], t).value);
      }
    }
  }

  lemma TransposedTwiceAt(rows: int, cols: int, values: seq<real>, j: int)
    requires rows > 0 && cols > 0 && |values| == rows * cols && 0 <= j < |values|
    ensures TransposeList(cols, rows, TransposeList(rows, cols, values))[j] == values[j]
  {
    var r, c := j / cols, j % cols;
    DivBounds(j, rows, cols);
    FlatBounds(c, r, cols, rows);
    DivMod(c, r, rows);
    assert cols * rows == rows * cols;
    assert At(TransposeList(rows, cols, values), c * rows + r) == values[r * cols + c];
  }

  /** Transposing twice is the identity on values. */
  lemma TransposeTwice(rows: int, cols: int, values: seq<real>)
    requires rows > 0 && cols > 0 && |values| == rows * cols
    ensures TransposeList(cols, rows, TransposeList(rows, cols, values)) == values
  {
    forall j | 0 <= j < |values|
      ensures TransposeList(cols, rows, TransposeList(rows, cols, values))[j] == values[j]
    {
      TransposedTwiceAt(rows, cols, values, j);
    }
  }
}
