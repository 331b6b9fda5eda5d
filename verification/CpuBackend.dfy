/** The tensor operations: shape checks, evaluation, view or copy, and recording. */
module CpuBackend {
  import opened Shapes
  import opened Layouts
  import opened ViewChains
  import opened Calculus
  import opened Operators
  import opened Worlds
  import opened Transitions
  import opened Heap
  import opened ForwardKernels

  /** `out` is a new tensor of shape `od` holding `op` of the operands' values, recorded as
      such if and only if an operand requires gradients; nothing else changed. */
  ghost predicate ResultOf(p: Primitives, w: World, w': World, out: nat, op: Op, parents: seq<nat>, od: seq<int>) {
    && WorldOk(p, w) && WorldOk(p, w')
    && out == |w.tensors| && |w'.tensors| == out + 1 && Extends(w, w')
    && (forall k :: 0 <= k < |parents| ==> parents[k] < out)
    && Typed(op, DimsOf(w, parents), od)
    && Sized(DimsOf(w, parents), ValuesOf(w, parents))
    && Dims(w', out) == od
    && Logical(w', out) == Eval(p, op, DimsOf(w, parents), od, ValuesOf(w, parents))
    && (if NeedsGrad(w, parents) then out in w'.metas && w'.metas[out] == NodeMeta(w, op, parents)
        else out !in w'.metas)
  }

  /** `out` is materialised: row-major, with storage, version and identity of its own. */
  ghost predicate OwnStorage(w: World, w': World, out: nat) {
    && out < |w'.tensors| && w'.tensors[out].view == Canonical(w'.tensors[out].view.dims)
    && w'.tensors[out].storage == |w.storages| && w'.tensors[out].counter == |w.versions|
  }

  ghost predicate SharesStorage(w': World, out: nat, source: nat) {
    out < |w'.tensors| && source < |w'.tensors|
    && w'.tensors[out].storage == w'.tensors[source].storage
    && w'.tensors[out].counter == w'.tensors[source].counter
  }

  lemma DimsValid(p: Primitives, w: World, i: nat)
    requires WorldOk(p, w) && i < |w.tensors|
    ensures TensorOk(w, w.tensors[i]) && ValidDims(Dims(w, i)) && Positive(Dims(w, i))
    ensures 1 <= |Logical(w, i)| == Numel(Dims(w, i)) <= MAX_F32
  {
    assert TensorOk(w, w.tensors[i]);
    NumelPositive(Dims(w, i));
  }

  lemma One(w: World, i: nat)
    requires TensorsOk(w) && i < |w.tensors|
    ensures TensorOk(w, w.tensors[i]) && DimsOf(w, [i]) == [Dims(w, i)] && ValuesOf(w, [i]) == [Logical(w, i)]
  {
  }

  lemma Two(w: World, i: nat, j: nat)
    requires TensorsOk(w) && i < |w.tensors| && j < |w.tensors|
    ensures TensorOk(w, w.tensors[i]) && TensorOk(w, w.tensors[j])
    ensures DimsOf(w, [i, j]) == [Dims(w, i), Dims(w, j)]
    ensures ValuesOf(w, [i, j]) == [Logical(w, i), Logical(w, j)]
  {
  }

  /** `values` is the result of `op`, of shape `od`, on the operands as they are in `w`. */
  ghost predicate Computes(p: Primitives, w: World, op: Op, parents: seq<nat>, od: seq<int>, values: seq<real>) {
    && TensorsOk(w) && (forall k :: 0 <= k < |parents| ==> parents[k] < |w.tensors|)
    && ValidDims(od) && Typed(op, DimsOf(w, parents), od)
    && Sized(DimsOf(w, parents), ValuesOf(w, parents))
    && values == Eval(p, op, DimsOf(w, parents), od, ValuesOf(w, parents))
  }

  /** Materialise a computed value as a new tensor and record it. */
  method Emit(h: TensorHeap, op: Op, parents: seq<nat>, od: seq<int>, values: seq<real>) returns (out: nat)
    requires h.Valid() && Computes(h.p, h.W(), op, parents, od, values)
    requires forall k :: 0 <= k < |parents| ==> parents[k] in h.held
    modifies h
    ensures h.Valid() && ResultOf(h.p, old(h.W()), h.W(), out, op, parents, od)
    ensures OwnStorage(old(h.W()), h.W(), out) && h.Produced(old(h.M()), true, out)
  {
    ReadyToAttach(h.p, h.W(), op, parents, od, values);
    out := h.NewTensor(od, values);
    h.AttachNode(out, op, parents);
  }

  /** Materialise the result of a unary operator on tensor `t`, of shape `d` and values `x`. */
  method EmitUnary(h: TensorHeap, op: Op, t: nat, od: seq<int>, values: seq<real>, ghost d: seq<int>, ghost x: seq<real>)
    returns (out: nat)
    requires h.Valid() && h.Holds(t) && d == Dims(h.W(), t) && TensorOk(h.W(), h.tensors[t]) && x == Logical(h.W(), t)
    requires ValidDims(od) && Typed(op, [d], od) && |x| == Numel(d) && values == Eval(h.p, op, [d], od, [x])
    modifies h
    ensures h.Valid() && ResultOf(h.p, old(h.W()), h.W(), out, op, [t], od)
    ensures OwnStorage(old(h.W()), h.W(), out) && h.Produced(old(h.M()), true, out)
  {
    UnaryComputes(h.p, h.W(), op, t, od, values);
    out := Emit(h, op, [t], od, values);
  }

  /** Materialise the result of a binary operator on tensors `l` and `r`. */
  method EmitBinary(h: TensorHeap, op: Op, l: nat, r: nat, od: seq<int>, values: seq<real>,
                    ghost d: seq<int>, ghost e: seq<int>, ghost x: seq<real>, ghost y: seq<real>) returns (out: nat)
    requires h.Valid() && h.Holds(l) && h.Holds(r) && d == Dims(h.W(), l) && e == Dims(h.W(), r)
    requires TensorOk(h.W(), h.tensors[l]) && TensorOk(h.W(), h.tensors[r])
    requires x == Logical(h.W(), l) && y == Logical(h.W(), r) && |x| == Numel(d) && |y| == Numel(e)
    requires ValidDims(od) && Typed(op, [d, e], od) && values == Eval(h.p, op, [d, e], od, [x, y])
    modifies h
    ensures h.Valid() && ResultOf(h.p, old(h.W()), h.W(), out, op, [l, r], od)
    ensures OwnStorage(old(h.W()), h.W(), out) && h.Produced(old(h.M()), true, out)
  {
    BinaryComputes(h.p, h.W(), op, l, r, od, values);
    out := Emit(h, op, [l, r], od, values);
  }

  lemma UnaryComputes(p: Primitives, w: World, op: Op, t: nat, od: seq<int>, values: seq<real>)
    requires TensorsOk(w) && t < |w.tensors| && TensorOk(w, w.tensors[t]) && ValidDims(od)
    requires Typed(op, [Dims(w, t)], od) && values == Eval(p, op, [Dims(w, t)], od, [Logical(w, t)])
    ensures Computes(p, w, op, [t], od, values)
  {
    One(w, t);
    ValuesOfSized(w, [t]);
  }

  lemma BinaryComputes(p: Primitives, w: World, op: Op, l: nat, r: nat, od: seq<int>, values: seq<real>)
    requires TensorsOk(w) && l < |w.tensors| && r < |w.tensors| && ValidDims(od)
    requires TensorOk(w, w.tensors[l]) && TensorOk(w, w.tensors[r]) && Typed(op, [Dims(w, l), Dims(w, r)], od)
    requires values == Eval(p, op, [Dims(w, l), Dims(w, r)], od, [Logical(w, l), Logical(w, r)])
    ensures Computes(p, w, op, [l, r], od, values)
  {
    Two(w, l, r);
    ValuesOfSized(w, [l, r]);
  }

  lemma AttachedResult(p: Primitives, w: World, w1: World, op: Op, parents: seq<nat>, od: seq<int>)
    requires WorldOk(p, w) && WorldOk(p, w1) && Extends(w, w1) && |w1.tensors| == |w.tensors| + 1
    requires forall k :: 0 <= k < |parents| ==> parents[k] < |w.tensors|
    requires WorldOk(p, Attach(w1, |w.tensors|, op, parents)) && |w.tensors| !in w1.metas
    requires Typed(op, DimsOf(w, parents), od) && Dims(w1, |w.tensors|) == od
    requires Sized(DimsOf(w, parents), ValuesOf(w, parents))
    requires Logical(w1, |w.tensors|) == Eval(p, op, DimsOf(w, parents), od, ValuesOf(w, parents))
    requires NodeMeta(w1, op, parents) == NodeMeta(w, op, parents)
    requires NeedsGrad(w1, parents) <==> NeedsGrad(w, parents)
    ensures ResultOf(p, w, Attach(w1, |w.tensors|, op, parents), |w.tensors|, op, parents, od)
  {
    AttachExtends(w, w1, |w.tensors|, op, parents);
    SameLogical(w1, |w.tensors|, op, parents);
  }

  lemma AttachExtends(w: World, w1: World, i: nat, op: Op, parents: seq<nat>)
    requires Extends(w, w1) && i == |w.tensors| < |w1.tensors| && TensorsOk(w1) && i !in w1.metas
    requires forall k :: 0 <= k < |parents| ==> parents[k] < |w1.tensors|
    ensures Extends(w, Attach(w1, i, op, parents))
    ensures if NeedsGrad(w1, parents) then i in Attach(w1, i, op, parents).metas
              && Attach(w1, i, op, parents).metas[i] == NodeMeta(w1, op, parents)
            else i !in Attach(w1, i, op, parents).metas
  {
  }

  lemma SameLogical(w1: World, i: nat, op: Op, parents: seq<nat>)
    requires TensorsOk(w1) && i < |w1.tensors|
    requires forall k :: 0 <= k < |parents| ==> parents[k] < |w1.tensors|
    ensures TensorsOk(Attach(w1, i, op, parents)) && Attach(w1, i, op, parents).tensors == w1.tensors
    ensures Logical(Attach(w1, i, op, parents), i) == Logical(w1, i)
  {
  }

  /** A freshly materialised result satisfies the conditions for recording it. */
  lemma ReadyToAttach(p: Primitives, w: World, op: Op, parents: seq<nat>, od: seq<int>, values: seq<real>)
    requires WorldOk(p, w) && Computes(p, w, op, parents, od, values)
    ensures |values| == Numel(od)
    ensures var w1, out := AddMaterialised(w, od, values), |w.tensors|;
            CanRecord(p, w1, out, op, parents)
            && ResultOf(p, w, Attach(w1, out, op, parents), out, op, parents, od)
            && OwnStorage(w, Attach(w1, out, op, parents), out)
  {
    var w1, out := AddMaterialised(w, od, values), |w.tensors|;
    EvalLength(p, op, DimsOf(w, parents), od, ValuesOf(w, parents));
    MaterialisedOk(p, w, od, values);
    OperandsExtended(p, w, w1, parents);
    AttachOk(p, w1, out, op, parents);
    AttachedResult(p, w, w1, op, parents, od);
  }

  lemma OperandsExtended(p: Primitives, w: World, w': World, parents: seq<nat>)
    requires WorldOk(p, w) && WorldOk(p, w') && Extends(w, w')
    requires forall k :: 0 <= k < |parents| ==> parents[k] < |w.tensors|
    ensures DimsOf(w', parents) == DimsOf(w, parents) && ValuesOf(w', parents) == ValuesOf(w, parents)
    ensures VersionsOf(w', parents) == VersionsOf(w, parents)
    ensures NeedsGrad(w', parents) <==> NeedsGrad(w, parents)
  {
    forall k | 0 <= k < |parents|
      ensures DimsOf(w', parents)[k] == DimsOf(w, parents)[k]
      ensures ValuesOf(w', parents)[k] == ValuesOf(w, parents)[k]
      ensures VersionsOf(w', parents)[k] == VersionsOf(w, parents)[k]
      ensures Worlds.RequiresGrad(w', parents[k]) <==> Worlds.RequiresGrad(w, parents[k])
    {
      ExtendsKeeps(w, w', parents[k]);
    }
  }

  /** Record a view of `source` as the result of `op`. */
  method EmitView(h: TensorHeap, op: Op, source: nat, v: View) returns (out: nat)
    requires h.Valid() && h.Holds(source)
    requires Regular(v) && v.WellFormed() && Numel(v.dims) == Numel(h.tensors[source].view.dims)
    requires Typed(op, [Dims(h.W(), source)], v.dims)
    requires h.tensors[source].storage < |h.storages|
    requires TensorOk(h.W(), h.tensors[source])
    requires Sized([Dims(h.W(), source)], [Logical(h.W(), source)])
    requires Read(v, h.storages[h.tensors[source].storage])
          == Eval(h.p, op, [Dims(h.W(), source)], v.dims, [Logical(h.W(), source)])
    modifies h
    ensures h.Valid() && ResultOf(h.p, old(h.W()), h.W(), out, op, [source], v.dims)
    ensures SharesStorage(h.W(), out, source) && h.Produced(old(h.M()), true, out)
  {
    ghost var w := h.W();
    One(w, source);
    ViewOk(h.p, w, v, source);
    out := h.NewView(v, source);
    OperandsExtended(h.p, w, h.W(), [source]);
    h.AttachNode(out, op, [source]);
    AttachedResult(h.p, w, AddView(w, v, source), op, [source], v.dims);
  }

  // ----- creation

  method FromData(h: TensorHeap, dims: seq<int>, data: seq<real>) returns (status: Status, out: nat)
    requires h.Valid()
    modifies h
    ensures h.Valid() && h.Produced(old(h.M()), status.Ok?, out)
    ensures status.Ok? <==> ValidDims(dims) && |data| == Numel(dims)
    ensures !status.Ok? ==> h.W() == old(h.W())
    ensures status.Ok? ==> h.W() == AddMaterialised(old(h.W()), dims, data) && out == |old(h.tensors)|
    ensures status.Ok? ==> h.liveBytes == old(h.liveBytes) + 4 * |data|
  {
    out := 0;
    var checked, shape := ValidateShape(dims);
    if !checked.Ok? {
      return checked, out;
    }
    if |data| != shape.numel {
      return Error(InternalError), out;
    }
    out := h.NewTensor(dims, data);
    status := Ok;
  }

  // ----- views

  /** A contiguous tensor is reshaped without copying; any other is materialised. */
  method ReshapeTo(h: TensorHeap, t: nat, dims: seq<int>) returns (status: Status, out: nat)
    requires h.Valid() && h.Holds(t)
    modifies h
    ensures h.Valid() && h.Produced(old(h.M()), status.Ok?, out)
    ensures status.Ok? <==> ValidDims(dims) && Numel(dims) == Numel(old(Dims(h.W(), t)))
    ensures !status.Ok? ==> h.W() == old(h.W()) && status == Error(InvalidShape)
    ensures status.Ok? ==> ResultOf(h.p, old(h.W()), h.W(), out, Reshape, [t], dims)
    ensures status.Ok? ==> if old(Contiguous(h.tensors[t].view)) then SharesStorage(h.W(), out, t)
                           else OwnStorage(old(h.W()), h.W(), out)
  {
    out := 0;
    var checked, shape := ValidateShape(dims);
    if !checked.Ok? {
      return checked, out;
    }
    ghost var w := h.W();
    DimsValid(h.p, w, t);
    One(w, t);
    if Numel(h.tensors[t].view.dims) != shape.numel {
      return Error(InvalidShape), out;
    }
    var contiguous := IsContiguous(h.tensors[t].view);
    if contiguous {
      var v := View(dims, shape.strides, h.tensors[t].view.offset);
      CanonicalWellFormed(dims);
      RegularOffset(h.tensors[t].view);
      ReadContiguous(h.tensors[t].view, h.storages[h.tensors[t].storage]);
      ReadContiguous(v, h.storages[h.tensors[t].storage]);
      out := EmitView(h, Reshape, t, v);
    } else {
      var values := h.LogicalValues(t);
      out := EmitUnary(h, Reshape, t, dims, values, h.tensors[t].view.dims, values);
    }
    status := Ok;
  }

  method TransposeTensor(h: TensorHeap, t: nat) returns (status: Status, out: nat)
    requires h.Valid() && h.Holds(t)
    modifies h
    ensures h.Valid() && h.Produced(old(h.M()), status.Ok?, out)
    ensures status.Ok? <==> |old(Dims(h.W(), t))| == 2
    ensures !status.Ok? ==> h.W() == old(h.W()) && status == Error(InvalidShape)
    ensures status.Ok? ==>
              ResultOf(h.p, old(h.W()), h.W(), out, Transpose2D, [t],
                       [old(Dims(h.W(), t))[1], old(Dims(h.W(), t))[0]])
              && SharesStorage(h.W(), out, t)
  {
    out := 0;
    ghost var w := h.W();
    DimsValid(h.p, w, t);
    var v := h.tensors[t].view;
    if |v.dims| != 2 {
      return Error(InvalidShape), out;
    }
    var swapped := View([v.dims[1], v.dims[0]], [v.strides[1], v.strides[0]], v.offset);
    ReadSwap(v, h.storages[h.tensors[t].storage]);
    SwapRegular(v);
    One(w, t);
    out := EmitView(h, Transpose2D, t, swapped);
    status := Ok;
  }

  // ----- arithmetic

  method AddTensors(h: TensorHeap, left: nat, right: nat) returns (status: Status, out: nat)
    requires h.Valid() && h.Holds(left) && h.Holds(right)
    modifies h
    ensures h.Valid() && h.Produced(old(h.M()), status.Ok?, out)
    ensures status.Ok? <==> old(Dims(h.W(), left)) == old(Dims(h.W(), right))
    ensures !status.Ok? ==> h.W() == old(h.W()) && status == Error(InvalidShape)
    ensures status.Ok? ==> ResultOf(h.p, old(h.W()), h.W(), out, Add, [left, right], old(Dims(h.W(), left)))
                           && OwnStorage(old(h.W()), h.W(), out)
  {
    out := 0;
    DimsValid(h.p, h.W(), left);
    DimsValid(h.p, h.W(), right);
    var dims := h.tensors[left].view.dims;
    if !SameShape(dims, h.tensors[right].view.dims) {
      return Error(InvalidShape), out;
    }
    var l := h.LogicalValues(left);
    var r := h.LogicalValues(right);
    var values := AddKernel(l, r);
    out := EmitBinary(h, Add, left, right, dims, values, dims, dims, l, r);
    status := Ok;
  }

  method MultiplyTensors(h: TensorHeap, left: nat, right: nat) returns (status: Status, out: nat)
    requires h.Valid() && h.Holds(left) && h.Holds(right)
    modifies h
    ensures h.Valid() && h.Produced(old(h.M()), status.Ok?, out)
    ensures status.Ok? <==> old(Dims(h.W(), left)) == old(Dims(h.W(), right))
    ensures !status.Ok? ==> h.W() == old(h.W()) && status == Error(InvalidShape)
    ensures status.Ok? ==> ResultOf(h.p, old(h.W()), h.W(), out, Multiply, [left, right], old(Dims(h.W(), left)))
                           && OwnStorage(old(h.W()), h.W(), out)
  {
    out := 0;
    DimsValid(h.p, h.W(), left);
    DimsValid(h.p, h.W(), right);
    var dims := h.tensors[left].view.dims;
    if !SameShape(dims, h.tensors[right].view.dims) {
      return Error(InvalidShape), out;
    }
    var l := h.LogicalValues(left);
    var r := h.LogicalValues(right);
    var values := MultiplyKernel(l, r);
    out := EmitBinary(h, Multiply, left, right, dims, values, dims, dims, l, r);
    status := Ok;
  }

  lemma ScalarValid()
    ensures ValidDims([]) && Numel([]) == 1
  {
  }

  method SumTensor(h: TensorHeap, t: nat) returns (out: nat)
    requires h.Valid() && h.Holds(t)
    modifies h
    ensures h.Valid() && h.Produced(old(h.M()), true, out)
    ensures ResultOf(h.p, old(h.W()), h.W(), out, SumAll, [t], []) && OwnStorage(old(h.W()), h.W(), out)
  {
    DimsValid(h.p, h.W(), t);
    var input := h.LogicalValues(t);
    var value := SumKernel(input);
    ScalarValid();
    out := EmitUnary(h, SumAll, t, [], [value], h.tensors[t].view.dims, input);
  }

  /** Matrix product; the result shape itself must be representable. */
  method MatmulTensors(h: TensorHeap, left: nat, right: nat) returns (status: Status, out: nat)
    requires h.Valid() && h.Holds(left) && h.Holds(right)
    modifies h
    ensures h.Valid() && h.Produced(old(h.M()), status.Ok?, out)
    ensures status.Ok? <==>
              var a, b := old(Dims(h.W(), left)), old(Dims(h.W(), right));
              |a| == 2 && |b| == 2 && a[1] == b[0] && ValidDims([a[0], b[1]])
    ensures !status.Ok? ==> h.W() == old(h.W()) && status == Error(InvalidShape)
    ensures status.Ok? ==>
              ResultOf(h.p, old(h.W()), h.W(), out, Matmul, [left, right],
                       [old(Dims(h.W(), left))[0], old(Dims(h.W(), right))[1]])
              && OwnStorage(old(h.W()), h.W(), out)
  {
    out := 0;
    DimsValid(h.p, h.W(), left);
    DimsValid(h.p, h.W(), right);
    var a, b := h.tensors[left].view.dims, h.tensors[right].view.dims;
    if |a| != 2 || |b| != 2 {
      return Error(InvalidShape), out;
    }
    if a[1] != b[0] {
      return Error(InvalidShape), out;
    }
    var od := [a[0], b[1]];
    var checked, shape := ValidateShape(od);
    if !checked.Ok? {
      return checked, out;
    }
    out := EmitMatmul(h, left, right, a, b, od);
    status := Ok;
  }

  method EmitMatmul(h: TensorHeap, left: nat, right: nat, a: seq<int>, b: seq<int>, od: seq<int>) returns (out: nat)
    requires h.Valid() && h.Holds(left) && h.Holds(right)
    requires a == Dims(h.W(), left) && b == Dims(h.W(), right) && |a| == 2 && |b| == 2 && a[1] == b[0]
    requires od == [a[0], b[1]] && ValidDims(od)
    modifies h
    ensures h.Valid() && h.Produced(old(h.M()), true, out)
    ensures ResultOf(h.p, old(h.W()), h.W(), out, Matmul, [left, right], od) && OwnStorage(old(h.W()), h.W(), out)
  {
    DimsValid(h.p, h.W(), left);
    DimsValid(h.p, h.W(), right);
    var l := h.LogicalValues(left);
    var r := h.LogicalValues(right);
    PairOf(a);
    PairOf(b);
    PairOf(od);
    var values := MatmulKernel(l, r, a[0], a[1], b[1]);
    out := EmitBinary(h, Matmul, left, right, od, values, a, b, l, r);
  }
}
