/** The tensor operations a caller can ask for, behind one entry point. */
module Operations {
  import opened RealSums
  import opened Shapes
  import opened Layouts
  import opened ViewChains
  import opened Calculus
  import opened Operators
  import opened Worlds
  import opened Transitions
  import opened Heap
  import opened Meanings
  import opened CpuBackend
  import opened TrainingBridge

  datatype Request =
    | ReshapeOf(dims: seq<int>)
    | TransposeOf
    | SumOf
    | ActivationOf(activation: Activation)
    | SwiGluOf
    | TransferOf
    | CloneOf
    | LeafOf(requiresGrad: bool)
    | GradientOf
    | AddOf
    | MultiplyOf
    | MatmulOf
    | MseOf
    | CrossEntropyOf
  {
    predicate Binary() {
      AddOf? || MultiplyOf? || MatmulOf? || MseOf? || CrossEntropyOf?
    }
  }

  /** Which requests are accepted on tensors `t` and `u`. */
  ghost predicate Allowed(w: World, r: Request, t: nat, u: nat)
    requires t < |w.tensors| && u < |w.tensors|
  {
    var d, e := Dims(w, t), Dims(w, u);
    match r
    case ReshapeOf(dims) => ValidDims(dims) && Numel(dims) == Numel(d)
    case TransposeOf => |d| == 2
    case SumOf => true
    case ActivationOf(a) => NeedsDirectAccess(a) ==> Contiguous(w.tensors[t].view)
    case SwiGluOf => |d| >= 1 && Last(d) % 2 == 0
    case TransferOf => true
    case CloneOf => true
    case LeafOf(_) => true
    case GradientOf => t in w.metas && w.metas[t].gradient.Some?
    case AddOf => d == e
    case MultiplyOf => d == e
    case MatmulOf => |d| == 2 && |e| == 2 && d[1] == e[0] && ValidDims([d[0], e[1]])
    case MseOf => d == e && Contiguous(w.tensors[t].view) && Contiguous(w.tensors[u].view)
    case CrossEntropyOf => d == e && |d| == 2 && Contiguous(w.tensors[t].view) && Contiguous(w.tensors[u].view)
  }

  /** What an accepted request leaves: a new tensor `out`, recorded as the result of its
      operator, or detached from any history. */
  ghost predicate Answered(p: Primitives, w: World, w': World, r: Request, t: nat, u: nat, out: nat)
    requires TensorsOk(w) && t < |w.tensors| && u < |w.tensors| && Allowed(w, r, t, u)
  {
    var d, e := Dims(w, t), Dims(w, u);
    match r
    case ReshapeOf(dims) => ResultOf(p, w, w', out, Reshape, [t], dims)
    case TransposeOf => ResultOf(p, w, w', out, Transpose2D, [t], [d[1], d[0]])
    case SumOf => ResultOf(p, w, w', out, SumAll, [t], [])
    case ActivationOf(a) => ResultOf(p, w, w', out, Unary(a), [t], d)
    case SwiGluOf => ResultOf(p, w, w', out, SwiGlu, [t], d[..|d| - 1] + [Last(d) / 2])
    case TransferOf => ResultOf(p, w, w', out, Identity, [t], d)
    case CloneOf => out == |w.tensors| && w' == Detached(w, t)
    case LeafOf(flag) =>
      out == |w.tensors| && w' == Detached(w, t).(metas := w.metas[out := Meta(flag, true, None, None)])
    case GradientOf => out == |w.tensors| && w' == AddMaterialised(w, d, w.metas[t].gradient.value.data)
    case AddOf => ResultOf(p, w, w', out, Add, [t, u], d)
    case MultiplyOf => ResultOf(p, w, w', out, Multiply, [t, u], d)
    case MatmulOf => ResultOf(p, w, w', out, Matmul, [t, u], [d[0], e[1]])
    case MseOf => ResultOf(p, w, w', out, Mse, [t, u], [])
    case CrossEntropyOf => ResultOf(p, w, w', out, CrossEntropy, [t, u], [])
  }

  function Detached(w: World, t: nat): World
    requires TensorsOk(w) && t < |w.tensors|
  {
    assert TensorOk(w, w.tensors[t]);
    AddMaterialised(w, Dims(w, t), Logical(w, t))
  }

  /** What a request means: the shape `od` and the elements `z` of the result, from the shape
      `d` and the elements `x` of its operand and, if it takes two, `e` and `y` of the other. */
  ghost predicate Meant(p: Primitives, r: Request, d: seq<int>, e: seq<int>, x: seq<real>, y: seq<real>,
                        od: seq<int>, z: seq<real>) {
    match r
    case ReshapeOf(dims) => od == dims && z == x
    case TransposeOf => |d| == 2 && od == [d[1], d[0]] && Transposed(x, d[0], d[1], z)
    case SumOf => od == [] && |z| == 1 && Adds(x, z[0])
    case ActivationOf(a) => od == d && |z| == |x| && forall k :: 0 <= k < |z| ==> Activated(p, a, At(x, k), z[k])
    case SwiGluOf => Computed(p, SwiGlu, d, x, x, od, z)
    case TransferOf => od == d && z == x
    case CloneOf => od == d && z == x
    case LeafOf(_) => od == d && z == x
    case GradientOf => od == d
    case AddOf => od == d == e && |z| == |x| == |y| && forall k :: 0 <= k < |z| ==> z[k] == x[k] + y[k]
    case MultiplyOf => od == d == e && |z| == |x| == |y| && forall k :: 0 <= k < |z| ==> z[k] == x[k] * y[k]
    case MatmulOf =>
      |d| == 2 && |e| == 2 && d[1] == e[0] >= 0 && od == [d[0], e[1]] && Multiplied(x, y, d[0], d[1], e[1], z)
    case MseOf => d == e && od == [] && |z| == 1 && MeanSquare(x, y, z[0])
    case CrossEntropyOf => d == e && Computed(p, CrossEntropy, d, x, y, od, z)
  }

  /** What a request leaves in the metadata of its result `out`: none, or a leaf, or a node
      that names exactly the operands. */
  ghost predicate Noted(w: World, w': World, r: Request, i: nat, j: nat, out: nat, z: seq<real>) {
    match r
    case ReshapeOf(_) => NodeAt(w, w', out, Reshape, [i])
    case TransposeOf => NodeAt(w, w', out, Transpose2D, [i])
    case SumOf => NodeAt(w, w', out, SumAll, [i])
    case ActivationOf(a) => NodeAt(w, w', out, Unary(a), [i])
    case SwiGluOf => NodeAt(w, w', out, SwiGlu, [i])
    case TransferOf => NodeAt(w, w', out, Identity, [i])
    case CloneOf => out !in w'.metas
    case LeafOf(flag) => out in w'.metas && w'.metas[out] == Meta(flag, true, None, None)
    case GradientOf =>
      out !in w'.metas && i in w.metas && w.metas[i].gradient.Some? && z == w.metas[i].gradient.value.data
    case AddOf => NodeAt(w, w', out, Add, [i, j])
    case MultiplyOf => NodeAt(w, w', out, Multiply, [i, j])
    case MatmulOf => NodeAt(w, w', out, Matmul, [i, j])
    case MseOf => NodeAt(w, w', out, Mse, [i, j])
    case CrossEntropyOf => NodeAt(w, w', out, CrossEntropy, [i, j])
  }

  /** The request has been fulfilled on tensor `i` and, if it takes two, tensor `j`. */
  ghost predicate Fulfilled(p: Primitives, w: World, w': World, r: Request, i: nat, j: nat, out: nat) {
    && i < |w.tensors| && j < |w.tensors| && out == |w.tensors| < |w'.tensors|
    && TensorOk(w, w.tensors[i]) && TensorOk(w, w.tensors[j]) && TensorOk(w', w'.tensors[out])
    && Meant(p, r, Dims(w, i), Dims(w, j), Logical(w, i), Logical(w, j), Dims(w', out), Logical(w', out))
    && Noted(w, w', r, i, j, out, Logical(w', out))
  }

  /** The result is recorded if and only if an operand requires gradients, and then as `op` of
      exactly these operands at their present versions. */
  ghost predicate NodeAt(w: World, w': World, out: nat, op: Op, parents: seq<nat>) {
    && (out in w'.metas <==> exists k :: 0 <= k < |parents| && parents[k] in w.metas && w.metas[parents[k]].requiresGrad)
    && (out in w'.metas ==>
          w'.metas[out].requiresGrad && w'.metas[out].gradFn.Some?
          && var n := w'.metas[out].gradFn.value;
             n.op == op && n.parents == parents && |n.versions| == |parents|
             && forall k :: 0 <= k < |parents| ==> VersionAt(w, parents[k], n.versions[k]))
  }

  ghost predicate VersionAt(w: World, q: nat, version: nat) {
    q < |w.tensors| && w.tensors[q].counter < |w.versions| && version == w.versions[w.tensors[q].counter]
  }

  lemma NodeRecorded(p: Primitives, w: World, w': World, out: nat, op: Op, parents: seq<nat>, od: seq<int>)
    requires ResultOf(p, w, w', out, op, parents, od)
    ensures NodeAt(w, w', out, op, parents)
  {
    forall k | 0 <= k < |parents| ensures VersionAt(w, parents[k], VersionsOf(w, parents)[k]) {
      assert TensorOk(w, w.tensors[parents[k]]);
    }
  }

  lemma UnaryMeaning(p: Primitives, w: World, w': World, op: Op, i: nat, od: seq<int>, out: nat)
    requires ResultOf(p, w, w', out, op, [i], od) && TensorsOk(w) && TensorsOk(w')
    ensures i < |w.tensors| && TensorOk(w, w.tensors[i]) && TensorOk(w', w'.tensors[out]) && Dims(w', out) == od
    ensures Computed(p, op, Dims(w, i), Logical(w, i), Logical(w, i), od, Logical(w', out)) && NodeAt(w, w', out, op, [i])
  {
    assert [i][0] == i;
    NodeRecorded(p, w, w', out, op, [i], od);
    One(w, i);
    EvalMeans(p, op, DimsOf(w, [i]), od, ValuesOf(w, [i]));
  }

  lemma BinaryMeaning(p: Primitives, w: World, w': World, op: Op, i: nat, j: nat, od: seq<int>, out: nat)
    requires ResultOf(p, w, w', out, op, [i, j], od) && TensorsOk(w) && TensorsOk(w')
    ensures i < |w.tensors| && j < |w.tensors| && TensorOk(w, w.tensors[i]) && TensorOk(w, w.tensors[j])
    ensures TensorOk(w', w'.tensors[out]) && Dims(w', out) == od
    ensures Computed(p, op, Dims(w, i), Logical(w, i), Logical(w, j), od, Logical(w', out)) && NodeAt(w, w', out, op, [i, j])
  {
    assert [i, j][0] == i && [i, j][1] == j;
    NodeRecorded(p, w, w', out, op, [i, j], od);
    Two(w, i, j);
    EvalMeans(p, op, DimsOf(w, [i, j]), od, ValuesOf(w, [i, j]));
  }

  /** The operator that answers a request. */
  function OpOf(r: Request): Op {
    match r
    case ReshapeOf(_) => Reshape
    case TransposeOf => Transpose2D
    case SumOf => SumAll
    case ActivationOf(a) => Unary(a)
    case SwiGluOf => SwiGlu
    case AddOf => Add
    case MultiplyOf => Multiply
    case MatmulOf => Matmul
    case MseOf => Mse
    case CrossEntropyOf => CrossEntropy
    case _ => Identity
  }

  lemma BinaryMeant(p: Primitives, r: Request, d: seq<int>, e: seq<int>, x: seq<real>, y: seq<real>, od: seq<int>, z: seq<real>)
    requires r.Binary() && Computed(p, OpOf(r), d, x, y, od, z) && |x| == Numel(d) && |y| == Numel(e)
    requires if r.MatmulOf? then |d| == 2 && |e| == 2 && d[1] == e[0] && od == [d[0], e[1]] else d == e
    ensures Meant(p, r, d, e, x, y, od, z)
  {
    if r.MultiplyOf? {
      forall k | 0 <= k < |z| ensures z[k] == x[k] * y[k] {
        assert z[k] == At(x, k) * At(y, k);
      }
    }
  }

  lemma UnaryMeant(p: Primitives, r: Request, d: seq<int>, e: seq<int>, x: seq<real>, y: seq<real>, od: seq<int>, z: seq<real>)
    requires !r.Binary() && !r.CloneOf? && !r.LeafOf? && !r.GradientOf? && Computed(p, OpOf(r), d, x, x, od, z)
    requires r.ReshapeOf? ==> od == r.dims
    ensures Meant(p, r, d, e, x, y, od, z)
  {
  }

  lemma OperatorNoted(w: World, w': World, r: Request, i: nat, j: nat, out: nat, z: seq<real>)
    requires !r.CloneOf? && !r.LeafOf? && !r.GradientOf?
    requires NodeAt(w, w', out, OpOf(r), if r.Binary() then [i, j] else [i])
    ensures Noted(w, w', r, i, j, out, z)
  {
  }

  /** The shape of an operator's result. */
  function ShapeOf(r: Request, d: seq<int>, e: seq<int>): seq<int>
    requires r.TransposeOf? ==> |d| == 2
    requires r.MatmulOf? ==> |d| == 2 && |e| == 2
    requires r.SwiGluOf? ==> |d| > 0
  {
    match r
    case ReshapeOf(dims) => dims
    case TransposeOf => [d[1], d[0]]
    case SumOf => []
    case SwiGluOf => d[..|d| - 1] + [Last(d) / 2]
    case MatmulOf => [d[0], e[1]]
    case MseOf => []
    case CrossEntropyOf => []
    case _ => d
  }

  /** Answered requests are fulfilled. */
  lemma AnsweredIsFulfilled(p: Primitives, w: World, w': World, r: Request, t: nat, u: nat, out: nat)
    requires WorldOk(p, w) && WorldOk(p, w') && t < |w.tensors| && u < |w.tensors| && Allowed(w, r, t, u)
    requires Answered(p, w, w', r, t, u, out)
    ensures Fulfilled(p, w, w', r, t, u, out)
  {
    assert TensorOk(w, w.tensors[t]) && TensorOk(w, w.tensors[u]);
    if r.Binary() {
      BinaryFulfilled(p, w, w', r, t, u, out);
    } else if r.CloneOf? || r.LeafOf? || r.GradientOf? {
      CopyFulfilled(p, w, w', r, t, u, out);
    } else {
      UnaryFulfilled(p, w, w', r, t, u, out);
    }
  }

  lemma BinaryFulfilled(p: Primitives, w: World, w': World, r: Request, t: nat, u: nat, out: nat)
    requires WorldOk(p, w) && WorldOk(p, w') && t < |w.tensors| && u < |w.tensors| && Allowed(w, r, t, u)
    requires Answered(p, w, w', r, t, u, out) && r.Binary()
    ensures Fulfilled(p, w, w', r, t, u, out)
  {
    var d, e := Dims(w, t), Dims(w, u);
    var od := ShapeOf(r, d, e);
    BinaryMeaning(p, w, w', OpOf(r), t, u, od, out);
    BinaryMeant(p, r, d, e, Logical(w, t), Logical(w, u), od, Logical(w', out));
    OperatorNoted(w, w', r, t, u, out, Logical(w', out));
  }

  lemma UnaryFulfilled(p: Primitives, w: World, w': World, r: Request, t: nat, u: nat, out: nat)
    requires WorldOk(p, w) && WorldOk(p, w') && t < |w.tensors| && u < |w.tensors| && Allowed(w, r, t, u)
    requires Answered(p, w, w', r, t, u, out) && !r.Binary() && !r.CloneOf? && !r.LeafOf? && !r.GradientOf?
    ensures Fulfilled(p, w, w', r, t, u, out)
  {
    var d := Dims(w, t);
    var od := ShapeOf(r, d, Dims(w, u));
    UnaryMeaning(p, w, w', OpOf(r), t, od, out);
    UnaryMeant(p, r, d, Dims(w, u), Logical(w, t), Logical(w, u), od, Logical(w', out));
    OperatorNoted(w, w', r, t, u, out, Logical(w', out));
  }

  lemma CopyFulfilled(p: Primitives, w: World, w': World, r: Request, t: nat, u: nat, out: nat)
    requires WorldOk(p, w) && WorldOk(p, w') && t < |w.tensors| && u < |w.tensors| && Allowed(w, r, t, u)
    requires Answered(p, w, w', r, t, u, out) && (r.CloneOf? || r.LeafOf? || r.GradientOf?)
    ensures Fulfilled(p, w, w', r, t, u, out)
  {
    var d := Dims(w, t);
    assert TensorOk(w, w.tensors[t]) && TensorOk(w, w.tensors[u]) && TensorOk(w', w'.tensors[out]);
    if r.GradientOf? {
      assert MetaOk(p, w, t, w.metas[t]);
      MaterialisedOk(p, w, d, w.metas[t].gradient.value.data);
    } else {
      MaterialisedOk(p, w, d, Logical(w, t));
    }
  }

  /** Perform a request; a unary one ignores its second operand. */
  method Evaluate(h: TensorHeap, r: Request, t: nat, u: nat) returns (status: Status, out: nat)
    requires h.Valid() && h.Holds(t) && h.Holds(u)
    modifies h
    ensures h.Valid() && h.Produced(old(h.M()), status.Ok?, out) && old(h.tensors) <= h.tensors
    ensures status.Ok? <==> Allowed(old(h.W()), r, t, u)
    ensures status.Ok? ==> out == |old(h.tensors)| && Answered(h.p, old(h.W()), h.W(), r, t, u, out)
    ensures status.Ok? ==> Fulfilled(h.p, old(h.W()), h.W(), r, t, u, out)
    ensures !status.Ok? ==> h.W() == old(h.W())
  {
    ghost var w := h.W();
    if r.Binary() {
      status, out := EvaluateBinary(h, r, t, u);
    } else {
      status, out := EvaluateUnary(h, r, t, u);
    }
    if status.Ok? {
      AnsweredIsFulfilled(h.p, w, h.W(), r, t, u, out);
    }
  }

  method EvaluateUnary(h: TensorHeap, r: Request, t: nat, ghost u: nat) returns (status: Status, out: nat)
    requires h.Valid() && h.Holds(t) && h.Holds(u) && !r.Binary()
    modifies h
    ensures h.Valid() && h.Produced(old(h.M()), status.Ok?, out) && old(h.tensors) <= h.tensors
    ensures status.Ok? <==> Allowed(old(h.W()), r, t, u)
    ensures status.Ok? ==> out == |old(h.tensors)| && Answered(h.p, old(h.W()), h.W(), r, t, u, out)
    ensures !status.Ok? ==> h.W() == old(h.W())
  {
    status := Ok;
    match r
    case ReshapeOf(dims) => status, out := CpuBackend.ReshapeTo(h, t, dims);
    case TransposeOf => status, out := TransposeTensor(h, t);
    case SumOf => out := SumTensor(h, t);
    case ActivationOf(a) => status, out := ActivateTensor(h, t, a);
    case SwiGluOf => status, out := SwiGluTensor(h, t);
    case TransferOf => out := Transfer(h, t);
    case CloneOf => out := CloneDetached(h, t);
    case LeafOf(flag) => out := WithRequiresGrad(h, t, flag);
    case GradientOf => status, out := GradientSnapshot(h, t);
  }

  method EvaluateBinary(h: TensorHeap, r: Request, a: nat, b: nat) returns (status: Status, out: nat)
    requires h.Valid() && h.Holds(a) && h.Holds(b) && r.Binary()
    modifies h
    ensures h.Valid() && h.Produced(old(h.M()), status.Ok?, out) && old(h.tensors) <= h.tensors
    ensures status.Ok? <==> Allowed(old(h.W()), r, a, b)
    ensures status.Ok? ==> out == |old(h.tensors)| && Answered(h.p, old(h.W()), h.W(), r, a, b, out)
    ensures !status.Ok? ==> h.W() == old(h.W())
  {
    match r
    case AddOf => status, out := AddTensors(h, a, b);
    case MultiplyOf => status, out := MultiplyTensors(h, a, b);
    case MatmulOf => status, out := MatmulTensors(h, a, b);
    case MseOf => status, out := MseLoss(h, a, b);
    case CrossEntropyOf => status, out := CrossEntropyLoss(h, a, b);
  }
}
