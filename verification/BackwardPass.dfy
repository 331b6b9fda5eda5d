/** The backward code of one node over the tensor heap: version validation, contributions
    to the operands, and accumulation in place. */
module BackwardPass {
  import opened RealSums
  import opened Shapes
  import opened Layouts
  import opened ViewChains
  import opened Calculus
  import opened Operators
  import opened Vjps
  import opened Graphs
  import opened Worlds
  import opened Transitions
  import opened Heap
  import opened ForwardKernels
  import opened BackwardKernels
  import opened Publication

  // ----- one operator

  /** The sizes of everything an operator touches are representable. */
  ghost predicate Representable(pd: seq<seq<int>>, od: seq<int>) {
    Numel(od) <= MAX_F32 && forall k :: 0 <= k < |pd| ==> Numel(pd[k]) <= MAX_F32
  }

  method MatmulVjp(v: seq<seq<real>>, grad: seq<real>, pd: seq<seq<int>>, ghost od: seq<int>, k: nat)
    returns (out: seq<real>)
    requires Typed(Matmul, pd, od) && Sized(pd, v) && |grad| == Numel(od) && k < |pd| && Representable(pd, od)
    ensures out == if k == 0 then MatmulLeft(grad, v[1], pd[0][0], pd[0][1], pd[1][1])
                   else MatmulRight(v[0], grad, pd[0][0], pd[0][1], pd[1][1])
  {
    PairOf(pd[0]);
    PairOf(pd[1]);
    PairOf(od);
    if k == 0 {
      out := MatmulLeftKernel(grad, v[1], pd[0][0], pd[0][1], pd[1][1]);
    } else {
      out := MatmulRightKernel(v[0], grad, pd[0][0], pd[0][1], pd[1][1]);
    }
  }

  method MseGradient(a: seq<real>, b: seq<real>, grad: seq<real>, k: nat) returns (out: seq<real>)
    requires |a| == |b|
    ensures out == MseVjp(a, b, grad, k)
  {
    var scale := MseScale(grad, |a|);
    if k == 0 {
      out := ScaledDifferenceKernel(scale, a, b);
    } else {
      out := ScaledDifferenceKernel(-scale, a, b);
    }
  }

  method CrossEntropyGradient(p: Primitives, z: seq<real>, t: seq<real>, batch: nat, classes: nat, grad: seq<real>,
                              k: nat) returns (out: seq<real>)
    requires classes > 0 && |z| == |t| == batch * classes <= MAX_F32
    ensures out == CrossEntropyVjp(p, z, t, batch, classes, grad, k)
  {
    var scale := CrossEntropyScale(grad, batch);
    if k == 0 {
      out := LogitsVjpKernel(p, z, t, scale, batch, classes);
    } else {
      out := TargetVjpKernel(p, z, t, scale, batch, classes);
    }
  }

  method StructuralVjp(op: Op, v: seq<seq<real>>, grad: seq<real>, pd: seq<seq<int>>, ghost od: seq<int>, k: nat,
                       ghost p: Primitives)
    returns (out: seq<real>)
    requires op.Transpose2D? || op.SumAll? || op.BiasAdd? || op.Multiply?
    requires Typed(op, pd, od) && Sized(pd, v) && |grad| == Numel(od) && k < |pd| && Representable(pd, od)
    ensures out == Vjp(p, op, pd, od, v, grad, k)
  {
    if op.Transpose2D? {
      PairOf(pd[0]);
      assert pd[0][1] * pd[0][0] == pd[0][0] * pd[0][1];
      out := TransposeKernel(grad, pd[0][1], pd[0][0]);
    } else if op.SumAll? {
      assert Numel([]) == 1;
      out := seq(|v[0]|, _ => grad[0]);
      assert out == seq(|v[0]|, _ => At(grad, 0));
    } else if op.BiasAdd? {
      if k == 0 {
        out := grad;
      } else {
        PairOf(pd[0]);
        out := BiasVjpKernel(grad, pd[0][0], pd[0][1]);
      }
    } else {
      out := MultiplyKernel(grad, if k == 0 then v[1] else v[0]);
    }
  }

  /** The contribution to operand `k`, by the operator's own loops. */
  method VjpKernel(p: Primitives, op: Op, v: seq<seq<real>>, grad: seq<real>, pd: seq<seq<int>>, ghost od: seq<int>, k: nat)
    returns (out: seq<real>)
    requires Typed(op, pd, od) && Sized(pd, v) && |grad| == Numel(od) && k < |pd| && Representable(pd, od)
    ensures out == Vjp(p, op, pd, od, v, grad, k)
  {
    match op
    case Identity => out := grad;
    case Reshape => out := grad;
    case Add => out := grad;
    case Unary(a) => out := ActivationVjpKernel(p, a, v[0], grad);
    case Matmul => out := MatmulVjp(v, grad, pd, od, k);
    case SwiGlu =>
      SwiGluRows(pd[0], od);
      out := SwiGluVjpKernel(p, v[0], grad, RowCount(pd[0]), Last(pd[0]), Last(pd[0]) / 2);
    case Mse => out := MseGradient(v[0], v[1], grad, k);
    case CrossEntropy =>
      PairOf(pd[0]);
      out := CrossEntropyGradient(p, v[0], v[1], pd[0][0], pd[0][1], grad, k);
    case Transpose2D => out := StructuralVjp(op, v, grad, pd, od, k, p);
    case SumAll => out := StructuralVjp(op, v, grad, pd, od, k, p);
    case BiasAdd => out := StructuralVjp(op, v, grad, pd, od, k, p);
    case Multiply => out := StructuralVjp(op, v, grad, pd, od, k, p);
  }

  // ----- gradient tensors

  /** Read an adjoint tensor in logical order. */
  method ReadDense(d: Dense, ghost dims: seq<int>) returns (values: seq<real>)
    requires DenseOk(d, dims)
    ensures values == Read(d.view, d.data) && |values| == Numel(dims)
  {
    RegularInBounds(d.view, |d.data|);
    var status, out := CopyToHost(d.view, d.data);
    values := out;
    ReadLength(d.view, d.data);
  }

  /** In-place accumulation into a gradient tensor.  It demands equal shapes and a
      contiguous full-extent destination; the sweep always meets both demands. */
  method AddInPlace(destination: Dense, source: Dense, ghost dims: seq<int>) returns (status: Status, out: Dense)
    requires destination.view.WellFormed() && Numel(destination.view.dims) <= MAX_F32 && DenseOk(source, dims)
    ensures status.Ok? <==> destination.view.dims == dims && Contiguous(destination.view)
                            && destination.view.offset == 0 && |destination.data| == Numel(dims)
    ensures !status.Ok? ==> out == destination
    ensures status.Ok? ==>
              out.view == destination.view && |out.data| == |destination.data| == |Read(source.view, source.data)|
              && out.data == VAdd(destination.data, Read(source.view, source.data))
  {
    out := destination;
    if !SameShape(destination.view.dims, source.view.dims) {
      return Error(InternalError), out;
    }
    var contiguous := IsContiguous(destination.view);
    if !contiguous || destination.view.offset != 0 {
      return Error(InvalidArgument), out;
    }
    if |destination.data| != Numel(destination.view.dims) {
      return Error(InvalidArgument), out;
    }
    var values := ReadDense(source, dims);
    var sum := AddKernel(destination.data, values);
    out := destination.(data := sum);
    status := Ok;
  }

  /** Accumulate a contribution: the first one is copied into canonical form. */
  method AccumulateDense(destination: Option<Dense>, contribution: Dense, dims: seq<int>)
    returns (status: Status, out: Dense)
    requires ValidDims(dims) && DenseOk(contribution, dims)
    requires destination.Some? ==> CanonicalDense(destination.value, dims)
    ensures status.Ok? && CanonicalDense(out, dims)
    ensures |Read(contribution.view, contribution.data)| == Numel(dims)
    ensures out == Plus(destination, dims, Read(contribution.view, contribution.data))
  {
    if destination.None? {
      var values := ReadDense(contribution, dims);
      return Ok, Dense(Canonical(dims), values);
    }
    CanonicalWellFormed(dims);
    status, out := AddInPlace(destination.value, contribution, dims);
  }

  lemma ConstantRead(v: View, x: real, n: nat)
    requires Regular(v) && v.WellFormed() && n == Numel(v.dims)
    ensures Read(v, seq(n, _ => x)) == seq(n, _ => x)
  {
    var data := seq(n, _ => x);
    ReadLength(v, data);
    forall i | 0 <= i < n ensures Read(v, data)[i] == x {
      LayoutBijection(v, i);
    }
  }

  // ----- one node

  /** The saved versions of a node against the current ones. */
  method ValidateSavedVersions(h: TensorHeap, i: nat) returns (status: Status)
    requires h.Valid() && i < |h.tensors|
    ensures status.Ok? <==> Fresh(h.W(), i)
    ensures i !in h.metas || h.metas[i].gradFn.None? ==> status.Ok?
    ensures i in h.metas && h.metas[i].gradFn.Some? ==>
              var n := h.metas[i].gradFn.value;
              |n.parents| == |n.versions|
              && (forall k :: 0 <= k < |n.parents| ==>
                    n.parents[k] < |h.tensors| && h.tensors[n.parents[k]].counter < |h.versions|)
              && (status.Ok? <==>
                    forall k :: 0 <= k < |n.parents| ==> h.versions[h.tensors[n.parents[k]].counter] == n.versions[k])
    ensures !status.Ok? ==> status == Error(InvalidArgument)
  {
    if i !in h.metas || h.metas[i].gradFn.None? {
      return Ok;
    }
    var n := h.metas[i].gradFn.value;
    assert |n.parents| == |n.versions| && forall k :: 0 <= k < |n.parents| ==> n.parents[k] < |h.tensors| by {
      assert MetaOk(h.p, h.W(), i, h.metas[i]);
    }
    var current := AllCurrent(h, n.parents, n.versions);
    status := if current then Ok else Error(InvalidArgument);
  }

  method AllCurrent(h: TensorHeap, parents: seq<nat>, versions: seq<nat>) returns (ok: bool)
    requires h.Valid() && |parents| == |versions|
    requires forall k :: 0 <= k < |parents| ==> parents[k] < |h.tensors|
    ensures forall k :: 0 <= k < |parents| ==> h.tensors[parents[k]].counter < |h.versions|
    ensures ok <==> forall k :: 0 <= k < |parents| ==> Version(h.W(), parents[k]) == versions[k]
  {
    forall k | 0 <= k < |parents| ensures h.tensors[parents[k]].counter < |h.versions| {
      assert TensorOk(h.W(), h.tensors[parents[k]]);
    }
    ok := true;
    for k := 0 to |parents|
      invariant ok <==> forall l :: 0 <= l < k ==> Version(h.W(), parents[l]) == versions[l]
    {
      var v := h.CurrentVersion(parents[k]);
      ok := ok && v == versions[k];
    }
  }

  /** The run-time shape and size checks of the operators' backward code.  They always pass
      for a recorded node whose upstream gradient has the node's shape. */
  method CheckNode(op: Op, pd: seq<seq<int>>, od: seq<int>, gradSize: nat) returns (ok: bool)
    ensures Typed(op, pd, od) && gradSize == Numel(od) ==> ok
  {
    if |pd| != Arity(op) {
      return false;
    }
    assert Numel([]) == 1;
    ok := match op
      case Identity => true
      case Reshape => gradSize == Numel(pd[0])
      case Transpose2D => |od| == 2
      case Add => true
      case Multiply => gradSize == Numel(pd[0]) && gradSize == Numel(pd[1])
      case SumAll => gradSize == 1
      case Matmul => |pd[0]| == 2 && |pd[1]| == 2 && |od| == 2
      case Unary(_) => gradSize == Numel(pd[0])
      case SwiGlu => |pd[0]| >= 1 && Last(pd[0]) > 0 && Last(pd[0]) % 2 == 0
      case Mse => gradSize == 1
      case CrossEntropy => gradSize == 1 && |pd[0]| == 2 && SameShape(pd[0], pd[1])
      case BiasAdd => |pd[0]| == 2 && |pd[1]| == 1 && pd[1][0] == pd[0][1];
    if ok && op.SwiGlu? {
      ok := gradSize == RowCount(pd[0]) * (Last(pd[0]) / 2);
      SwiGluSize(pd, od, gradSize);
    } else if ok && op.BiasAdd? {
      ok := gradSize == pd[0][0] * pd[0][1];
      if Typed(op, pd, od) {
        PairOf(pd[0]);
      }
    }
  }

  lemma SwiGluSize(pd: seq<seq<int>>, od: seq<int>, gradSize: nat)
    requires |pd| == 1
    ensures Typed(SwiGlu, pd, od) && gradSize == Numel(od) ==> gradSize == RowCount(pd[0]) * (Last(pd[0]) / 2)
  {
    if Typed(SwiGlu, pd, od) {
      SwiGluRows(pd[0], od);
    }
  }

  ghost predicate EntriesOk(w: World, list: seq<(nat, Dense)>) {
    forall l :: 0 <= l < |list| ==> list[l].0 < |w.tensors| && DenseOk(list[l].1, Dims(w, list[l].0))
  }

  ghost function Entries(w: World, list: seq<(nat, Dense)>): (r: seq<(nat, seq<real>)>)
    requires EntriesOk(w, list)
    ensures |r| == |list|
  {
    seq(|list|, l requires 0 <= l < |list| && EntriesOk(w, list) =>
      (list[l].0, Read(list[l].1.view, list[l].1.data)))
  }

  /** What the backward code of node `i` works with, as the recorded graph sees it. */
  ghost predicate NodeView(w: World, g: Graph, i: nat, op: Op, parents: seq<nat>, pd: seq<seq<int>>, v: seq<seq<real>>) {
    && GraphOk(g) && |g| == |w.tensors| && i < |g|
    && g[i].role == Computed(op, parents) && ParentsEarlier(g, i)
    && pd == OperandDims(g, i) && v == OperandValues(g, i)
    && Typed(op, pd, g[i].dims) && Sized(pd, v) && Representable(pd, g[i].dims)
    && (forall k :: 0 <= k < |parents| ==> parents[k] < i)
    && (forall k :: 0 <= k < |parents| ==>
          ValidDims(Dims(w, parents[k])) && Dims(w, parents[k]) == pd[k]
          && Regular(w.tensors[parents[k]].view) && w.tensors[parents[k]].view.WellFormed()
          && (RequiresGrad(w, parents[k]) <==> !g[parents[k]].role.Constant?))
  }

  lemma NodeViewOf(p: Primitives, w: World, i: nat)
    requires WorldOk(p, w) && i < |w.tensors| && RoleOf(w, i).Computed?
    ensures var n := w.metas[i].gradFn.value;
            (forall k :: 0 <= k < |n.parents| ==> n.parents[k] < |w.tensors|)
            && NodeView(w, Snapshot(w), i, n.op, n.parents, DimsOf(w, n.parents), ValuesOf(w, n.parents))
  {
    var n := w.metas[i].gradFn.value;
    NodeInGraph(p, w, i);
    assert TensorOk(w, w.tensors[i]);
    OperandTensors(w, n.parents);
    ValuesOfSized(w, n.parents);
  }

  lemma OperandTensors(w: World, ids: seq<nat>)
    requires TensorsOk(w) && forall k :: 0 <= k < |ids| ==> ids[k] < |w.tensors|
    ensures forall k :: 0 <= k < |ids| ==>
              ValidDims(Dims(w, ids[k])) && Regular(w.tensors[ids[k]].view) && w.tensors[ids[k]].view.WellFormed()
    ensures forall k :: 0 <= k < |ids| ==> Numel(DimsOf(w, ids)[k]) <= MAX_F32
  {
    forall k | 0 <= k < |ids| ensures TensorOk(w, w.tensors[ids[k]]) {
    }
  }

  lemma NodeInGraph(p: Primitives, w: World, i: nat)
    requires WorldOk(p, w) && i < |w.tensors| && RoleOf(w, i).Computed?
    ensures var g, n := Snapshot(w), w.metas[i].gradFn.value;
            GraphOk(g) && ParentsEarlier(g, i) && g[i].role == Computed(n.op, n.parents)
            && (forall k :: 0 <= k < |n.parents| ==> n.parents[k] < i)
            && (forall k :: 0 <= k < |n.parents| ==> (RequiresGrad(w, n.parents[k]) <==> !g[n.parents[k]].role.Constant?))
            && Typed(n.op, DimsOf(w, n.parents), g[i].dims)
            && OperandDims(g, i) == DimsOf(w, n.parents) && OperandValues(g, i) == ValuesOf(w, n.parents)
  {
    SnapshotOk(p, w);
    assert MetaOk(p, w, i, w.metas[i]);
    assert NodeOk(Snapshot(w), i);
  }

  /** The contribution to one operand; none if it does not require gradients.  The gradient
      of a sum keeps the operand's strides, every other one is canonical. */
  method ContributeTo(h: TensorHeap, ghost g: Graph, i: nat, op: Op, parents: seq<nat>, pd: seq<seq<int>>,
                      v: seq<seq<real>>, grad: seq<real>, k: nat) returns (list: seq<(nat, Dense)>)
    requires NodeView(h.W(), g, i, op, parents, pd, v) && k < |parents| && |grad| == Numel(g[i].dims)
    ensures EntriesOk(h.W(), list)
    ensures Entries(h.W(), list)
         == if g[parents[k]].role.Constant? then []
            else [(parents[k], Contribution(h.p, g, i, grad, k))]
  {
    var q := parents[k];
    var needed := h.RequiresGrad(q);
    if !needed {
      return [];
    }
    var values := VjpKernel(h.p, op, v, grad, pd, g[i].dims, k);
    var dims := h.tensors[q].view.dims;
    VjpLength(h.p, op, pd, g[i].dims, v, grad, k);
    var d: Dense;
    if op.SumAll? {
      d := Dense(h.tensors[q].view, values);
      ConstantRead(d.view, At(grad, 0), |values|);
    } else {
      d := Dense(Canonical(dims), values);
      CanonicalIsOk(d, dims);
    }
    list := [(q, d)];
  }

  /** All contributions of a node, in operand order.  Fails exactly when a saved version is
      stale; every other error branch is unreachable. */
  method ApplyNode(h: TensorHeap, ghost g: Graph, i: nat, upstream: Dense)
    returns (status: Status, list: seq<(nat, Dense)>)
    requires h.Valid() && i < |h.tensors| && RoleOf(h.W(), i).Computed? && g == Snapshot(h.W())
    requires DenseOk(upstream, Dims(h.W(), i))
    ensures status.Ok? <==> Fresh(h.W(), i)
    ensures !status.Ok? ==> status == Error(InvalidArgument)
    ensures GraphOk(g) && g[i].role.Computed?
    ensures |Read(upstream.view, upstream.data)| == Numel(g[i].dims)
    ensures status.Ok? ==>
              EntriesOk(h.W(), list)
              && Entries(h.W(), list)
                 == ContributionsTo(h.p, g, i, Read(upstream.view, upstream.data), |Operands(g, i)|)
  {
    list := [];
    NodeViewOf(h.p, h.W(), i);
    ReadLength(upstream.view, upstream.data);
    status := ValidateSavedVersions(h, i);
    if !status.Ok? {
      return;
    }
    var n := h.metas[i].gradFn.value;
    var grad := ReadDense(upstream, g[i].dims);
    var pd, v := OperandData(h, n.parents);
    var sane := CheckNode(n.op, pd, h.tensors[i].view.dims, |grad|);
    assert sane;
    list := Contribute(h, g, i, n.op, n.parents, pd, v, grad);
  }

  method OperandData(h: TensorHeap, parents: seq<nat>) returns (pd: seq<seq<int>>, v: seq<seq<real>>)
    requires h.Valid() && forall k :: 0 <= k < |parents| ==> parents[k] < |h.tensors|
    ensures pd == DimsOf(h.W(), parents) && v == ValuesOf(h.W(), parents)
  {
    pd, v := [], [];
    for k := 0 to |parents|
      invariant |pd| == |v| == k
      invariant forall l :: 0 <= l < k ==> pd[l] == DimsOf(h.W(), parents)[l] && v[l] == ValuesOf(h.W(), parents)[l]
    {
      var values := h.LogicalValues(parents[k]);
      pd, v := pd + [h.tensors[parents[k]].view.dims], v + [values];
    }
  }

  method Contribute(h: TensorHeap, ghost g: Graph, i: nat, op: Op, parents: seq<nat>, pd: seq<seq<int>>,
                    v: seq<seq<real>>, grad: seq<real>) returns (list: seq<(nat, Dense)>)
    requires NodeView(h.W(), g, i, op, parents, pd, v) && |grad| == Numel(g[i].dims)
    ensures EntriesOk(h.W(), list)
    ensures Entries(h.W(), list) == ContributionsTo(h.p, g, i, grad, |parents|)
  {
    list := [];
    for k := 0 to |parents|
      invariant EntriesOk(h.W(), list)
      invariant Entries(h.W(), list) == ContributionsTo(h.p, g, i, grad, k)
    {
      list := ContributeNext(h, g, i, op, parents, pd, v, grad, k, list);
    }
  }

  method ContributeNext(h: TensorHeap, ghost g: Graph, i: nat, op: Op, parents: seq<nat>, pd: seq<seq<int>>,
                        v: seq<seq<real>>, grad: seq<real>, k: nat, list: seq<(nat, Dense)>)
    returns (list': seq<(nat, Dense)>)
    requires NodeView(h.W(), g, i, op, parents, pd, v) && k < |parents| && |grad| == Numel(g[i].dims)
    requires EntriesOk(h.W(), list) && Entries(h.W(), list) == ContributionsTo(h.p, g, i, grad, k)
    ensures EntriesOk(h.W(), list')
    ensures Entries(h.W(), list') == ContributionsTo(h.p, g, i, grad, k + 1)
  {
    var one := ContributeTo(h, g, i, op, parents, pd, v, grad, k);
    ContributionsExtend(h.p, h.W(), g, i, grad, k, list, one);
    list' := list + one;
  }

  lemma ContributionsExtend(p: Primitives, w: World, g: Graph, i: nat, grad: seq<real>, k: nat,
                            list: seq<(nat, Dense)>, one: seq<(nat, Dense)>)
    requires GraphOk(g) && i < |g| && g[i].role.Computed? && k < |Operands(g, i)| && |grad| == Numel(g[i].dims)
    requires EntriesOk(w, list) && EntriesOk(w, one) && Operands(g, i)[k] < |g|
    requires Entries(w, list) == ContributionsTo(p, g, i, grad, k)
    requires Entries(w, one) == if g[Operands(g, i)[k]].role.Constant? then []
                                else [(Operands(g, i)[k], Contribution(p, g, i, grad, k))]
    ensures EntriesOk(w, list + one)
    ensures Entries(w, list + one) == ContributionsTo(p, g, i, grad, k + 1)
  {
    EntriesJoin(w, list, one);
  }

  lemma EntriesJoin(w: World, list: seq<(nat, Dense)>, one: seq<(nat, Dense)>)
    requires EntriesOk(w, list) && EntriesOk(w, one)
    ensures EntriesOk(w, list + one) && Entries(w, list + one) == Entries(w, list) + Entries(w, one)
  {
  }
}
