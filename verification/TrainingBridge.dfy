/** Activations, losses, the linear module's forward pass, and gradient control. */
module TrainingBridge {
  import opened RealSums
  import opened Shapes
  import opened Layouts
  import opened ViewChains
  import opened Calculus
  import opened Operators
  import opened Worlds
  import opened Transitions
  import opened Heap
  import opened ForwardKernels
  import opened CpuBackend

  /** ReLU, sigmoid and tanh read storage directly and so demand a contiguous input; GELU
      and SiLU read logical values. */
  predicate NeedsDirectAccess(a: Activation) {
    a.Relu? || a.Sigmoid? || a.Tanh?
  }

  method ActivateTensor(h: TensorHeap, t: nat, a: Activation) returns (status: Status, out: nat)
    requires h.Valid() && h.Holds(t)
    modifies h
    ensures h.Valid() && h.Produced(old(h.M()), status.Ok?, out)
    ensures a.Gelu? || a.Silu? ==> status.Ok?
    ensures a.Relu? || a.Sigmoid? || a.Tanh? ==> (status.Ok? <==> old(Contiguous(h.tensors[t].view)))
    ensures status.Ok? <==> (NeedsDirectAccess(a) ==> old(Contiguous(h.tensors[t].view)))
    ensures !status.Ok? ==> h.W() == old(h.W()) && status == Error(InvalidArgument)
    ensures status.Ok? ==> ResultOf(h.p, old(h.W()), h.W(), out, Unary(a), [t], old(Dims(h.W(), t)))
                           && OwnStorage(old(h.W()), h.W(), out)
  {
    out := 0;
    DimsValid(h.p, h.W(), t);
    if NeedsDirectAccess(a) {
      var direct := h.HasDirectAccess(t);
      if !direct {
        return Error(InvalidArgument), out;
      }
    }
    var input := h.LogicalValues(t);
    var values := UnaryKernel(h.p, a, input);
    out := EmitUnary(h, Unary(a), t, h.tensors[t].view.dims, values, h.tensors[t].view.dims, input);
    status := Ok;
  }

  lemma HalvedValid(d: seq<int>)
    requires ValidDims(d) && |d| >= 1 && Last(d) % 2 == 0
    ensures ValidDims(d[..|d| - 1] + [Last(d) / 2])
  {
    var od := d[..|d| - 1] + [Last(d) / 2];
    SwiGluRows(d, od);
    var rows, half := RowCount(d), Last(d) / 2;
    assert rows * Last(d) == rows * half + rows * half;
    MulMonotone(0, rows, half);
  }

  method SwiGluTensor(h: TensorHeap, t: nat) returns (status: Status, out: nat)
    requires h.Valid() && h.Holds(t)
    modifies h
    ensures h.Valid() && h.Produced(old(h.M()), status.Ok?, out)
    ensures status.Ok? <==> |old(Dims(h.W(), t))| >= 1 && Last(old(Dims(h.W(), t))) % 2 == 0
    ensures !status.Ok? ==> h.W() == old(h.W()) && status == Error(InvalidShape)
    ensures status.Ok? ==>
              var d := old(Dims(h.W(), t));
              ResultOf(h.p, old(h.W()), h.W(), out, SwiGlu, [t], d[..|d| - 1] + [Last(d) / 2])
              && OwnStorage(old(h.W()), h.W(), out)
  {
    out := 0;
    DimsValid(h.p, h.W(), t);
    var d := h.tensors[t].view.dims;
    if |d| == 0 {
      return Error(InvalidShape), out;
    }
    var width := d[|d| - 1];
    if width <= 0 || width % 2 != 0 {
      return Error(InvalidShape), out;
    }
    var od := HalvedShape(d);
    out := EmitSwiGlu(h, t, d, od);
    status := Ok;
  }

  /** The shape of the result; it is always valid. */
  method HalvedShape(d: seq<int>) returns (od: seq<int>)
    requires ValidDims(d) && |d| >= 1 && Last(d) % 2 == 0
    ensures od == d[..|d| - 1] + [Last(d) / 2] && ValidDims(od)
  {
    var half := d[|d| - 1] / 2;
    od := d[..|d| - 1] + [half];
    HalvedValid(d);
    var checked, shape := ValidateShape(od);
  }

  method EmitSwiGlu(h: TensorHeap, t: nat, d: seq<int>, od: seq<int>) returns (out: nat)
    requires h.Valid() && h.Holds(t) && d == Dims(h.W(), t) && |d| >= 1 && Last(d) % 2 == 0
    requires od == d[..|d| - 1] + [Last(d) / 2] && ValidDims(od)
    modifies h
    ensures h.Valid() && h.Produced(old(h.M()), true, out)
    ensures ResultOf(h.p, old(h.W()), h.W(), out, SwiGlu, [t], od) && OwnStorage(old(h.W()), h.W(), out)
  {
    DimsValid(h.p, h.W(), t);
    var width := d[|d| - 1];
    var input := h.LogicalValues(t);
    SwiGluRows(d, od);
    var values := SwiGluKernel(h.p, input, Numel(d) / width, width, width / 2);
    out := EmitUnary(h, SwiGlu, t, od, values, d, input);
  }

  /** Both operands must be contiguous for the losses and the bias addition. */
  method DirectPair(h: TensorHeap, a: nat, b: nat) returns (ok: bool)
    requires h.Valid() && a < |h.tensors| && b < |h.tensors|
    ensures ok <==> Contiguous(h.tensors[a].view) && Contiguous(h.tensors[b].view)
  {
    var x := h.HasDirectAccess(a);
    var y := h.HasDirectAccess(b);
    ok := x && y;
  }

  method MseLoss(h: TensorHeap, prediction: nat, target: nat) returns (status: Status, out: nat)
    requires h.Valid() && h.Holds(prediction) && h.Holds(target)
    modifies h
    ensures h.Valid() && h.Produced(old(h.M()), status.Ok?, out)
    ensures status.Ok? <==> old(Dims(h.W(), prediction)) == old(Dims(h.W(), target))
                            && old(Contiguous(h.tensors[prediction].view)) && old(Contiguous(h.tensors[target].view))
    ensures !status.Ok? ==> h.W() == old(h.W())
    ensures status.Ok? ==> ResultOf(h.p, old(h.W()), h.W(), out, Mse, [prediction, target], [])
  {
    out := 0;
    DimsValid(h.p, h.W(), prediction);
    DimsValid(h.p, h.W(), target);
    if !SameShape(h.tensors[prediction].view.dims, h.tensors[target].view.dims) {
      return Error(InvalidShape), out;
    }
    var direct := DirectPair(h, prediction, target);
    if !direct {
      return Error(InvalidArgument), out;
    }
    var a := h.LogicalValues(prediction);
    var b := h.LogicalValues(target);
    var value := MseKernel(a, b);
    ScalarValid();
    out := EmitBinary(h, Mse, prediction, target, [], [value], h.tensors[prediction].view.dims,
                      h.tensors[target].view.dims, a, b);
    status := Ok;
  }

  method CrossEntropyLoss(h: TensorHeap, logits: nat, target: nat) returns (status: Status, out: nat)
    requires h.Valid() && h.Holds(logits) && h.Holds(target)
    modifies h
    ensures h.Valid() && h.Produced(old(h.M()), status.Ok?, out)
    ensures status.Ok? <==> old(Dims(h.W(), logits)) == old(Dims(h.W(), target))
                            && |old(Dims(h.W(), logits))| == 2
                            && old(Contiguous(h.tensors[logits].view)) && old(Contiguous(h.tensors[target].view))
    ensures !status.Ok? ==> h.W() == old(h.W())
    ensures status.Ok? ==> ResultOf(h.p, old(h.W()), h.W(), out, CrossEntropy, [logits, target], [])
  {
    out := 0;
    DimsValid(h.p, h.W(), logits);
    DimsValid(h.p, h.W(), target);
    var d := h.tensors[logits].view.dims;
    if !SameShape(d, h.tensors[target].view.dims) {
      return Error(InvalidShape), out;
    }
    if |d| != 2 {
      return Error(InvalidShape), out;
    }
    var direct := DirectPair(h, logits, target);
    if !direct {
      return Error(InvalidArgument), out;
    }
    out := EmitCrossEntropy(h, logits, target);
    status := Ok;
  }

  method EmitCrossEntropy(h: TensorHeap, logits: nat, target: nat) returns (out: nat)
    requires h.Valid() && h.Holds(logits) && h.Holds(target)
    requires Dims(h.W(), logits) == Dims(h.W(), target) && |Dims(h.W(), logits)| == 2
    modifies h
    ensures h.Valid() && h.Produced(old(h.M()), true, out)
    ensures ResultOf(h.p, old(h.W()), h.W(), out, CrossEntropy, [logits, target], [])
  {
    DimsValid(h.p, h.W(), logits);
    DimsValid(h.p, h.W(), target);
    var d := h.tensors[logits].view.dims;
    var z := h.LogicalValues(logits);
    var t := h.LogicalValues(target);
    var values := CrossEntropyScalar(h.p, d, z, t);
    ScalarValid();
    out := EmitBinary(h, CrossEntropy, logits, target, [], values, d, d, z, t);
  }

  method CrossEntropyScalar(p: Primitives, d: seq<int>, z: seq<real>, t: seq<real>) returns (values: seq<real>)
    requires |d| == 2 && ValidDims(d) && |z| == |t| == Numel(d)
    ensures Typed(CrossEntropy, [d, d], []) && values == Eval(p, CrossEntropy, [d, d], [], [z, t])
  {
    PairOf(d);
    var value := CrossEntropyKernel(p, z, t, d[0], d[1]);
    values := [value];
  }

  method AddBias(h: TensorHeap, matrix: nat, bias: nat) returns (status: Status, out: nat)
    requires h.Valid() && h.Holds(matrix) && h.Holds(bias)
    modifies h
    ensures h.Valid() && h.Produced(old(h.M()), status.Ok?, out)
    ensures status.Ok? <==>
              var m, b := old(Dims(h.W(), matrix)), old(Dims(h.W(), bias));
              |m| == 2 && |b| == 1 && b[0] == m[1]
              && old(Contiguous(h.tensors[matrix].view)) && old(Contiguous(h.tensors[bias].view))
    ensures !status.Ok? ==> h.W() == old(h.W())
    ensures status.Ok? ==> ResultOf(h.p, old(h.W()), h.W(), out, BiasAdd, [matrix, bias], old(Dims(h.W(), matrix)))
                           && OwnStorage(old(h.W()), h.W(), out)
  {
    out := 0;
    DimsValid(h.p, h.W(), matrix);
    DimsValid(h.p, h.W(), bias);
    var m, b := h.tensors[matrix].view.dims, h.tensors[bias].view.dims;
    if |m| != 2 || |b| != 1 {
      return Error(InternalError), out;
    }
    if b[0] != m[1] {
      return Error(InternalError), out;
    }
    var direct := DirectPair(h, matrix, bias);
    if !direct {
      return Error(InvalidArgument), out;
    }
    out := EmitBias(h, matrix, bias, m, b);
    status := Ok;
  }

  method EmitBias(h: TensorHeap, matrix: nat, bias: nat, m: seq<int>, b: seq<int>) returns (out: nat)
    requires h.Valid() && h.Holds(matrix) && h.Holds(bias) && m == Dims(h.W(), matrix) && b == Dims(h.W(), bias)
    requires |m| == 2 && |b| == 1 && b[0] == m[1] && ValidDims(m) && ValidDims(b)
    modifies h
    ensures h.Valid() && h.Produced(old(h.M()), true, out)
    ensures ResultOf(h.p, old(h.W()), h.W(), out, BiasAdd, [matrix, bias], m) && OwnStorage(old(h.W()), h.W(), out)
  {
    var x := h.LogicalValues(matrix);
    var y := h.LogicalValues(bias);
    PairOf(m);
    assert b == [b[0]];
    NumelSingle(b[0]);
    var values := BiasKernel(x, y, m[0], m[1]);
    out := EmitBinary(h, BiasAdd, matrix, bias, m, values, m, b, x, y);
  }

  // ----- the linear module

  /** What a linear module computes: input times weight, plus bias if there is one. */
  function Affine(x: seq<real>, y: seq<real>, bias: Option<seq<real>>, m: nat, k: nat, n: nat): seq<real> {
    if bias.None? then MatmulValues(x, y, m, k, n) else BiasValues(MatmulValues(x, y, m, k, n), bias.value, n)
  }

  /** The parameters of a linear module: a matrix, and a contiguous bias of its width. */
  ghost predicate ParametersOk(w: World, weight: nat, bias: Option<nat>) {
    && weight < |w.tensors| && |Dims(w, weight)| == 2
    && (bias.Some? ==> bias.value < |w.tensors| && Dims(w, bias.value) == [Dims(w, weight)[1]]
                       && Contiguous(w.tensors[bias.value].view))
  }

  function ValuesAt(w: World, t: Option<nat>): Option<seq<real>>
    requires TensorsOk(w) && (t.Some? ==> t.value < |w.tensors|)
  {
    if t.Some? then assert TensorOk(w, w.tensors[t.value]); Some(Logical(w, t.value)) else None
  }

  /** The results of a linear module's forward pass: a recorded product and, with a bias, a
      recorded bias addition to it; both are new tensors and nothing else changed. */
  ghost predicate LinearResult(p: Primitives, w: World, mid: World, w': World, input: nat, weight: nat, bias: Option<nat>,
                               linear: nat, out: nat) {
    && input < |w.tensors| && weight < |w.tensors| && |Dims(w, input)| == 2 && |Dims(w, weight)| == 2
    && ResultOf(p, w, mid, linear, Matmul, [input, weight], [Dims(w, input)[0], Dims(w, weight)[1]])
    && OwnStorage(w, mid, linear)
    && match bias
       case None => w' == mid && out == linear
       case Some(b) => b < |w.tensors| && ResultOf(p, mid, w', out, BiasAdd, [linear, b], Dims(mid, linear))
  }

  method LinearForward(h: TensorHeap, input: nat, weight: nat, bias: Option<nat>)
    returns (status: Status, out: nat, ghost linear: nat, ghost mid: World)
    requires h.Valid() && h.Holds(input) && ParametersOk(h.W(), weight, bias)
    requires weight in h.held && (bias.Some? ==> bias.value in h.held)
    modifies h
    ensures h.Valid() && h.Produced(old(h.M()), status.Ok?, out)
    ensures status.Ok? <==>
              var x, y := old(Dims(h.W(), input)), old(Dims(h.W(), weight));
              |x| == 2 && x[1] == y[0] && ValidDims([x[0], y[1]])
    ensures !status.Ok? ==> h.W() == old(h.W()) && status == Error(InvalidShape)
    ensures status.Ok? ==> LinearResult(h.p, old(h.W()), mid, h.W(), input, weight, bias, linear, out)
  {
    out, linear, mid := 0, 0, h.W();
    ghost var w, held := h.W(), h.held;
    var d := h.tensors[input].view.dims;
    if |d| != 2 {
      return Error(InvalidShape), out, linear, mid;
    }
    if d[1] != h.tensors[weight].view.dims[0] {
      return Error(InvalidShape), out, linear, mid;
    }
    var product;
    status, product := MatmulTensors(h, input, weight);
    if !status.Ok? {
      return;
    }
    linear, mid := product, h.W();
    if bias.None? {
      out := product;
      return;
    }
    out := AddModuleBias(h, w, input, weight, bias.value, product, held);
  }

  /** Add the bias to the product and release the product, which its node keeps alive if
      the addition was recorded. */
  method AddModuleBias(h: TensorHeap, ghost w: World, ghost input: nat, ghost weight: nat, bias: nat, product: nat,
                       ghost rest: multiset<nat>) returns (out: nat)
    requires h.held == rest + multiset{product}
    requires h.Valid() && h.Holds(product) && bias in h.held
    requires input < |w.tensors| && ParametersOk(w, weight, Some(bias)) && |Dims(w, input)| == 2
    requires ResultOf(h.p, w, h.W(), product, Matmul, [input, weight], [Dims(w, input)[0], Dims(w, weight)[1]])
    requires OwnStorage(w, h.W(), product)
    modifies h
    ensures h.Valid() && old(h.history) <= h.history && h.held == rest + multiset{out}
    ensures ResultOf(h.p, old(h.W()), h.W(), out, BiasAdd, [product, bias], old(Dims(h.W(), product)))
  {
    ProductValues(h.p, w, h.W(), product, input, weight);
    BiasKept(h.p, w, h.W(), bias);
    var status;
    status, out := AddBias(h, product, bias);
    h.Release(product, rest + multiset{out});
  }

  /** What the forward pass computes: input times weight, plus the bias on every row.  Every
      tensor there was is untouched. */
  lemma LinearMeaning(p: Primitives, w: World, mid: World, w': World, input: nat, weight: nat, bias: Option<nat>,
                      linear: nat, out: nat)
    requires LinearResult(p, w, mid, w', input, weight, bias, linear, out)
    ensures TensorOk(w, w.tensors[input]) && TensorOk(w, w.tensors[weight]) && out < |w'.tensors|
    ensures TensorOk(w', w'.tensors[out]) && (bias.Some? ==> TensorOk(w, w.tensors[bias.value]))
    ensures Extends(w, w')
    ensures var x, y := Dims(w, input), Dims(w, weight);
            x[0] > 0 && x[1] > 0 && y[1] > 0 && Dims(w', out) == [x[0], y[1]]
            && Logical(w', out)
               == Affine(Logical(w, input), Logical(w, weight), ValuesAt(w, bias), x[0], x[1], y[1])
  {
    LinearExtends(p, w, mid, w', input, weight, bias, linear, out);
    ProductValues(p, w, mid, linear, input, weight);
    if bias.Some? {
      BiasKept(p, w, mid, bias.value);
      SumValues(p, mid, w', out, linear, bias.value);
    }
  }

  lemma LinearExtends(p: Primitives, w: World, mid: World, w': World, input: nat, weight: nat, bias: Option<nat>,
                      linear: nat, out: nat)
    requires LinearResult(p, w, mid, w', input, weight, bias, linear, out)
    ensures Extends(w, w')
  {
    if bias.Some? {
      ExtendsTransitive(w, mid, w');
    }
  }

  lemma ProductValues(p: Primitives, w: World, w': World, out: nat, a: nat, b: nat)
    requires a < |w.tensors| && b < |w.tensors| && |Dims(w, a)| == 2 && |Dims(w, b)| == 2
    requires ResultOf(p, w, w', out, Matmul, [a, b], [Dims(w, a)[0], Dims(w, b)[1]]) && OwnStorage(w, w', out)
    ensures TensorOk(w, w.tensors[a]) && TensorOk(w, w.tensors[b]) && TensorOk(w', w'.tensors[out])
    ensures Dims(w, a)[0] > 0 && Dims(w, a)[1] > 0 && Dims(w, b)[1] > 0
    ensures Contiguous(w'.tensors[out].view) && Dims(w', out) == [Dims(w, a)[0], Dims(w, b)[1]]
    ensures Logical(w', out) == MatmulValues(Logical(w, a), Logical(w, b), Dims(w, a)[0], Dims(w, a)[1], Dims(w, b)[1])
  {
    Two(w, a, b);
    DimsValid(p, w, a);
    DimsValid(p, w, b);
    DimsValid(p, w', out);
  }

  lemma BiasKept(p: Primitives, w: World, w': World, bias: nat)
    requires WorldOk(p, w) && WorldOk(p, w') && Extends(w, w') && bias < |w.tensors|
    ensures TensorOk(w, w.tensors[bias]) && TensorOk(w', w'.tensors[bias]) && w'.tensors[bias] == w.tensors[bias]
    ensures Logical(w', bias) == Logical(w, bias)
  {
    ExtendsKeeps(w, w', bias);
    assert TensorOk(w, w.tensors[bias]) && TensorOk(w', w'.tensors[bias]);
  }

  lemma SumValues(p: Primitives, w: World, w': World, out: nat, matrix: nat, bias: nat)
    requires matrix < |w.tensors| && bias < |w.tensors| && |Dims(w, matrix)| == 2
    requires ResultOf(p, w, w', out, BiasAdd, [matrix, bias], Dims(w, matrix))
    ensures TensorOk(w, w.tensors[matrix]) && TensorOk(w, w.tensors[bias]) && TensorOk(w', w'.tensors[out])
    ensures Dims(w, matrix)[1] >= 0 && Dims(w', out) == Dims(w, matrix)
    ensures Logical(w', out) == BiasValues(Logical(w, matrix), Logical(w, bias), Dims(w, matrix)[1])
  {
    Two(w, matrix, bias);
    DimsValid(p, w, matrix);
    DimsValid(p, w', out);
  }

  // ----- copies, gradient flags and gradients

  /** A detached copy: new storage, version and identity, equal values, no history. */
  method CloneDetached(h: TensorHeap, t: nat) returns (out: nat)
    requires h.Valid() && h.Holds(t)
    modifies h
    ensures h.Valid() && TensorOk(old(h.W()), old(h.tensors)[t])
    ensures h.Produced(old(h.M()), true, out)
    ensures h.W() == AddMaterialised(old(h.W()), old(Dims(h.W(), t)), Logical(old(h.W()), t))
    ensures out == |old(h.tensors)| && out !in h.metas
  {
    DimsValid(h.p, h.W(), t);
    var values := h.LogicalValues(t);
    out := h.NewTensor(h.tensors[t].view.dims, values);
  }

  /** Moving to the same device copies and records the identity. */
  method Transfer(h: TensorHeap, t: nat) returns (out: nat)
    requires h.Valid() && h.Holds(t)
    modifies h
    ensures h.Valid() && ResultOf(h.p, old(h.W()), h.W(), out, Identity, [t], old(Dims(h.W(), t)))
    ensures h.Produced(old(h.M()), true, out)
    ensures OwnStorage(old(h.W()), h.W(), out)
  {
    DimsValid(h.p, h.W(), t);
    var values := h.LogicalValues(t);
    out := EmitUnary(h, Identity, t, h.tensors[t].view.dims, values, h.tensors[t].view.dims, values);
  }

  /** A detached copy that is a leaf with the given flag. */
  method WithRequiresGrad(h: TensorHeap, t: nat, requiresGrad: bool) returns (out: nat)
    requires h.Valid() && h.Holds(t)
    modifies h
    ensures h.Valid() && out == |old(h.tensors)| && TensorOk(old(h.W()), old(h.tensors)[t])
    ensures h.Produced(old(h.M()), true, out)
    ensures h.W() == AddMaterialised(old(h.W()), old(Dims(h.W(), t)), Logical(old(h.W()), t)).(
                       metas := old(h.metas)[out := Meta(requiresGrad, true, None, None)])
  {
    out := CloneDetached(h, t);
    h.HeldIsAlive(out);
    h.SetMeta(out, Meta(requiresGrad, true, None, None));
  }

  /** Freeze or unfreeze a leaf.  Results of recorded operations are refused; freezing
      drops the gradient; a tensor without metadata becomes a leaf only when unfrozen. */
  method SetRequiresGrad(h: TensorHeap, t: nat, requiresGrad: bool) returns (status: Status)
    requires h.Valid() && h.Holds(t)
    modifies h`metas, h`liveBytes, h`history
    ensures h.Valid()
    ensures h.Continues(old(h.M()))
    ensures status.Ok? <==> !RoleOf(old(h.W()), t).Computed?
    ensures !status.Ok? ==> h.W() == old(h.W()) && status == Error(InvalidArgument)
    ensures forall i :: i != t ==> (i in h.metas <==> i in old(h.metas))
    ensures forall i :: i != t && i in h.metas ==> h.metas[i] == old(h.metas)[i]
    ensures status.Ok? ==> (Worlds.RequiresGrad(h.W(), t) <==> requiresGrad)
    ensures status.Ok? && t in h.metas ==>
              h.metas[t].isLeaf &&
              h.metas[t].gradient == if requiresGrad && t in old(h.metas) then old(h.metas)[t].gradient else None
  {
    h.HeldIsAlive(t);
    if t !in h.metas {
      if requiresGrad {
        h.SetMeta(t, Meta(true, true, None, None));
      }
      return Ok;
    }
    var meta := h.metas[t];
    assert MetaOk(h.p, h.W(), t, meta);
    if !meta.isLeaf {
      return Error(InvalidArgument);
    }
    h.SetMeta(t, meta.(requiresGrad := requiresGrad, gradient := if requiresGrad then meta.gradient else None));
    status := Ok;
  }

  /** A copy of the published gradient, as a tensor of its own. */
  method GradientSnapshot(h: TensorHeap, t: nat) returns (status: Status, out: nat)
    requires h.Valid() && h.Holds(t)
    modifies h
    ensures h.Valid() && h.Produced(old(h.M()), status.Ok?, out)
    ensures status.Ok? <==> t in old(h.metas) && old(h.metas)[t].gradient.Some?
    ensures !status.Ok? ==> h.W() == old(h.W()) && status == Error(InvalidArgument)
    ensures status.Ok? ==>
              h.W() == AddMaterialised(old(h.W()), old(Dims(h.W(), t)), old(h.metas)[t].gradient.value.data)
              && out == |old(h.tensors)|
  {
    out := 0;
    if t !in h.metas || h.metas[t].gradient.None? {
      return Error(InvalidArgument), out;
    }
    DimsValid(h.p, h.W(), t);
    assert MetaOk(h.p, h.W(), t, h.metas[t]);
    var d := h.metas[t].gradient.value;
    var values := CanonicalValues(d, h.tensors[t].view.dims);
    out := h.NewTensor(d.view.dims, values);
    status := Ok;
  }

  method CanonicalValues(d: Dense, ghost dims: seq<int>) returns (values: seq<real>)
    requires ValidDims(dims) && CanonicalDense(d, dims)
    ensures values == d.data && d.view.dims == dims
  {
    CanonicalWellFormed(dims);
    RegularInBounds(d.view, |d.data|);
    ReadContiguous(d.view, d.data);
    var copied, out := CopyToHost(d.view, d.data);
    values := out;
  }
}
