/** An overwritten intermediate result: a run that passes the version check and whose
    gradient is not the derivative of the program from its leaves. */
module OverwrittenResults {
  import opened RealSums
  import opened Shapes
  import opened Layouts
  import opened ViewChains
  import opened Calculus
  import opened Operators
  import opened Duals
  import opened Graphs
  import opened Worlds
  import opened Transitions
  import opened Runs
  import opened Programs
  import opened Backward

  function Scalar(value: real, role: Role): Node {
    Node([], [value], role)
  }

  /** x = 3, z = x * x, then z overwritten with 100, then y = z * z. */
  function OverwrittenGraph(): Graph {
    [Scalar(3.0, Leaf), Scalar(100.0, Computed(Multiply, [0, 0])), Scalar(10000.0, Computed(Multiply, [1, 1]))]
  }

  function OverwrittenWorld(): World {
    var z, y := GradNode(Multiply, [0, 0], [0, 0]), GradNode(Multiply, [1, 1], [1, 1]);
    World([[3.0], [100.0], [10000.0]], [0, 1, 0],
          [Tensor(Canonical([]), 0, 0), Tensor(Canonical([]), 1, 1), Tensor(Canonical([]), 2, 2)],
          map[0 := Meta(true, true, None, None), 1 := Meta(true, false, None, Some(z)), 2 := Meta(true, false, None, Some(y))],
          map[1 := Record([[3.0], [3.0]]), 2 := Record([[100.0], [100.0]])])
  }

  /** Scalars, each with storage and version counter of its own. */
  ghost predicate Scalars(w: World) {
    && |w.storages| == |w.versions| == |w.tensors|
    && forall i :: 0 <= i < |w.tensors| ==> w.tensors[i] == Tensor(Canonical([]), i, i) && |w.storages[i]| == 1
  }

  lemma ScalarTensors(w: World)
    requires Scalars(w)
    ensures TensorsOk(w) && Lineages(w)
    ensures forall i :: 0 <= i < |w.tensors| ==>
              TensorOk(w, w.tensors[i]) && Dims(w, i) == [] && Logical(w, i) == w.storages[i]
  {
    CanonicalWellFormed([]);
    forall i | 0 <= i < |w.tensors| ensures TensorOk(w, w.tensors[i]) && Logical(w, i) == w.storages[i] {
      ReadContiguous(Canonical([]), w.storages[i]);
    }
  }

  lemma ScalarProduct(p: Primitives, x: real)
    ensures Numel([]) == 1 && Typed(Multiply, [[], []], []) && Sized([[], []], [[x], [x]])
    ensures Eval(p, Multiply, [[], []], [], [[x], [x]]) == [Times(x, x)]
  {
  }

  lemma OverwrittenSnapshot(w: World)
    requires w == OverwrittenWorld() && TensorsOk(w)
    requires forall i :: 0 <= i < 3 ==> TensorOk(w, w.tensors[i]) && Dims(w, i) == [] && Logical(w, i) == w.storages[i]
    ensures Snapshot(w) == OverwrittenGraph()
  {
    SnapshotAt(w, 0, Leaf);
    SnapshotAt(w, 1, Computed(Multiply, [0, 0]));
    SnapshotAt(w, 2, Computed(Multiply, [1, 1]));
    ThreeNodes(Snapshot(w), OverwrittenGraph());
  }

  lemma ThreeNodes(g: Graph, g': Graph)
    requires |g| == |g'| == 3 && g[0] == g'[0] && g[1] == g'[1] && g[2] == g'[2]
    ensures g == g'
  {
    assert forall i :: 0 <= i < 3 ==> g[i] == g'[i];
  }

  lemma SnapshotAt(w: World, i: nat, role: Role)
    requires TensorsOk(w) && i < |w.tensors| && RoleOf(w, i) == role
    requires TensorOk(w, w.tensors[i]) && Dims(w, i) == [] && |Logical(w, i)| == 1
    ensures Snapshot(w)[i] == Scalar(Logical(w, i)[0], role)
  {
  }

  lemma OverwrittenFresh(w: World)
    requires w == OverwrittenWorld() && TensorsOk(w)
    ensures Fresh(w, 0) && Fresh(w, 1) && Fresh(w, 2)
  {
  }

  // ----- the run that leads there

  function LeafMark(): Meta {
    Meta(true, true, None, None)
  }

  /** Create x, make it a leaf, multiply it by itself, overwrite the product, and multiply
      that by itself. */
  function OverwrittenRun(): seq<Change> {
    [Added([], [3.0]), Marked(0, LeafMark()), Added([], [9.0]), Recorded(1, Multiply, [0, 0]), Written(1, [100.0]),
     Added([], [10000.0]), Recorded(2, Multiply, [1, 1])]
  }

  /** Add a scalar to scalars. */
  lemma ScalarAdded(p: Primitives, cs: seq<Change>, w: World, x: real) returns (w': World)
    requires Reached(p, cs, w) && Scalars(w)
    ensures w' == AddMaterialised(w, [], [x]) && Reached(p, cs + [Added([], [x])], w') && Scalars(w')
  {
    assert ValidDims([]) && Numel([]) == 1;
    w' := AddMaterialised(w, [], [x]);
    ReachedNext(p, cs, w, Added([], [x]));
  }

  /** Record the newest scalar as the square of scalar `q`. */
  lemma SquareRecorded(p: Primitives, cs: seq<Change>, w: World, i: nat, q: nat, x: real) returns (w': World)
    requires Reached(p, cs, w) && Scalars(w) && q < i < |w.tensors| && i !in w.metas && w.versions[i] == 0
    requires w.storages[q] == [x] && w.storages[i] == [Times(x, x)] && RequiresGrad(w, q)
    ensures Reached(p, cs + [Recorded(i, Multiply, [q, q])], w') && Scalars(w')
    ensures var n := GradNode(Multiply, [q, q], [w.versions[q], w.versions[q]]);
            w' == w.(metas := w.metas[i := Meta(true, false, None, Some(n))],
                     records := w.records[i := Record([[x], [x]])])
  {
    ScalarTensors(w);
    ScalarProduct(p, x);
    var parents := [q, q];
    assert DimsOf(w, parents) == [[], []] && ValuesOf(w, parents) == [[x], [x]];
    assert VersionsOf(w, parents) == [w.versions[q], w.versions[q]];
    assert RequiresGrad(w, parents[0]);
    assert CanRecord(p, w, i, Multiply, parents);
    w' := Attach(w, i, Multiply, parents);
    ReachedNext(p, cs, w, Recorded(i, Multiply, parents));
  }

  lemma ScalarMarked(p: Primitives, cs: seq<Change>, w: World, i: nat) returns (w': World)
    requires Reached(p, cs, w) && Scalars(w) && i < |w.tensors| && i !in w.metas
    ensures w' == w.(metas := w.metas[i := LeafMark()]) && Reached(p, cs + [Marked(i, LeafMark())], w') && Scalars(w')
  {
    ScalarTensors(w);
    assert MetaOk(p, w, i, LeafMark());
    w' := w.(metas := w.metas[i := LeafMark()]);
    ReachedNext(p, cs, w, Marked(i, LeafMark()));
  }

  lemma ScalarWritten(p: Primitives, cs: seq<Change>, w: World, i: nat, x: real) returns (w': World)
    requires Reached(p, cs, w) && Scalars(w) && i < |w.tensors|
    ensures w' == w.(storages := w.storages[i := [x]], versions := w.versions[i := w.versions[i] + 1])
    ensures Reached(p, cs + [Written(i, [x])], w') && Scalars(w')
  {
    ScalarTensors(w);
    w' := Write(w, i, [x]);
    ReachedNext(p, cs, w, Written(i, [x]));
  }

  /** The run is possible, and leads to the overwritten state. */
  lemma OverwrittenReached(p: Primitives)
    ensures Reached(p, OverwrittenRun(), OverwrittenWorld())
  {
    var cs, w := FirstHalf(p);
    SecondHalf(p, cs, w);
    assert cs + [Written(1, [100.0]), Added([], [10000.0]), Recorded(2, Multiply, [1, 1])] == OverwrittenRun();
  }

  lemma FirstHalf(p: Primitives) returns (cs: seq<Change>, w: World)
    ensures cs == [Added([], [3.0]), Marked(0, LeafMark()), Added([], [9.0]), Recorded(1, Multiply, [0, 0])]
    ensures Reached(p, cs, w) && Scalars(w) && w.storages == [[3.0], [9.0]] && w.versions == [0, 0]
    ensures w.metas == map[0 := LeafMark(), 1 := Meta(true, false, None, Some(GradNode(Multiply, [0, 0], [0, 0])))]
    ensures w.records == map[1 := Record([[3.0], [3.0]])]
  {
    var w0 := World([], [], [], map[], map[]);
    var w1 := ScalarAdded(p, [], w0, 3.0);
    var w2 := ScalarMarked(p, [Added([], [3.0])], w1, 0);
    cs := [Added([], [3.0]), Marked(0, LeafMark())];
    w := ProductRecorded(p, cs, w2);
    cs := cs + [Added([], [9.0]), Recorded(1, Multiply, [0, 0])];
  }

  lemma SecondHalf(p: Primitives, cs: seq<Change>, w: World)
    requires Reached(p, cs, w) && Scalars(w) && w.storages == [[3.0], [9.0]] && w.versions == [0, 0]
    requires w.metas == map[0 := LeafMark(), 1 := Meta(true, false, None, Some(GradNode(Multiply, [0, 0], [0, 0])))]
    requires w.records == map[1 := Record([[3.0], [3.0]])]
    ensures Reached(p, cs + [Written(1, [100.0]), Added([], [10000.0]), Recorded(2, Multiply, [1, 1])], OverwrittenWorld())
  {
    var w1 := ScalarWritten(p, cs, w, 1, 100.0);
    var w2 := ScalarAdded(p, cs + [Written(1, [100.0])], w1, 10000.0);
    var cs2 := cs + [Written(1, [100.0])] + [Added([], [10000.0])];
    var w3 := SquareRecorded(p, cs2, w2, 2, 1, 100.0);
    ThreeChanges(cs, Written(1, [100.0]), Added([], [10000.0]), Recorded(2, Multiply, [1, 1]));
    OverwrittenFields(w3);
  }

  lemma ThreeChanges(cs: seq<Change>, a: Change, b: Change, c: Change)
    ensures cs + [a] + [b] + [c] == cs + [a, b, c]
  {
  }

  lemma OverwrittenFields(w: World)
    requires Scalars(w) && w.storages == [[3.0], [100.0], [10000.0]] && w.versions == [0, 1, 0]
    requires w.metas == map[0 := LeafMark(), 1 := Meta(true, false, None, Some(GradNode(Multiply, [0, 0], [0, 0])))]
                           [2 := Meta(true, false, None, Some(GradNode(Multiply, [1, 1], [1, 1])))]
    requires w.records == map[1 := Record([[3.0], [3.0]])][2 := Record([[100.0], [100.0]])]
    ensures w == OverwrittenWorld()
  {
    assert w.tensors == OverwrittenWorld().tensors;
    assert w.metas == OverwrittenWorld().metas && w.records == OverwrittenWorld().records;
  }

  lemma ProductRecorded(p: Primitives, cs: seq<Change>, w: World) returns (w': World)
    requires Reached(p, cs, w) && Scalars(w) && w.storages == [[3.0]] && w.versions == [0] && w.metas == map[0 := LeafMark()]
    ensures Reached(p, cs + [Added([], [9.0]), Recorded(1, Multiply, [0, 0])], w') && Scalars(w')
    ensures w'.storages == [[3.0], [9.0]] && w'.versions == [0, 0]
    ensures w'.metas == w.metas[1 := Meta(true, false, None, Some(GradNode(Multiply, [0, 0], [0, 0])))]
    ensures w'.records == w.records[1 := Record([[3.0], [3.0]])]
  {
    var w1 := ScalarAdded(p, cs, w, 9.0);
    w' := SquareRecorded(p, cs + [Added([], [9.0])], w1, 1, 0, 3.0);
    assert cs + [Added([], [9.0])] + [Recorded(1, Multiply, [0, 0])] == cs + [Added([], [9.0]), Recorded(1, Multiply, [0, 0])];
  }

  lemma OverwrittenOk(p: Primitives)
    ensures Reached(p, OverwrittenRun(), OverwrittenWorld()) && WorldOk(p, OverwrittenWorld())
    ensures Snapshot(OverwrittenWorld()) == OverwrittenGraph()
    ensures forall i :: 0 <= i < 3 ==> Fresh(OverwrittenWorld(), i)
  {
    OverwrittenReached(p);
    OverwrittenScalars(OverwrittenWorld());
    OverwrittenSnapshot(OverwrittenWorld());
    OverwrittenFresh(OverwrittenWorld());
  }

  lemma OverwrittenScalars(w: World)
    requires w == OverwrittenWorld()
    ensures Scalars(w) && TensorsOk(w)
    ensures forall i :: 0 <= i < 3 ==> TensorOk(w, w.tensors[i]) && Dims(w, i) == [] && Logical(w, i) == w.storages[i]
  {
    ScalarTensors(w);
  }

  // ----- its gradient

  ghost predicate IsSquare(g: Graph, seed: seq<seq<real>>, i: nat, q: nat) {
    && GraphOk(g) && SeedOk(g, seed) && q < i < |g| && g[i].role == Computed(Multiply, [q, q])
    && g[i].dims == [] && g[q].dims == [] && Numel([]) == 1
  }

  lemma SquareTangent(p: Primitives, g: Graph, seed: seq<seq<real>>, i: nat, q: nat)
    requires IsSquare(g, seed, i, q)
    ensures Tan(p, g, seed, i)[0] == 2.0 * Times(At(g[q].vals, 0), Tan(p, g, seed, q)[0])
  {
    assert NodeOk(g, i) && NodeOk(g, q);
    OperandTangent(p, g, seed, i, 0);
    OperandTangent(p, g, seed, i, 1);
    var x := OperandTensors(p, g, seed, i);
    assert OperandDims(g, i) == [[], []];
    assert Tan(p, g, seed, i) == Jvp(p, Multiply, [[], []], [], x);
    assert Tan(p, g, seed, i)[0] == DMul(DAt(x[0], 0), DAt(x[1], 0)).d;
  }

  lemma SquareDual(p: Primitives, z: DTensor)
    requires Numel([]) == 1 && |z.v| == |z.d| == 1 && Typed(Multiply, [[], []], [])
    ensures var y := DualTensor(p, Multiply, [[], []], [], [z, z]);
            y.v[0] == Times(z.v[0], z.v[0]) && y.d[0] == 2.0 * Times(z.v[0], z.d[0])
  {
    var x := [z, z];
    assert DualTensor(p, Multiply, [[], []], [], x).v[0] == DMul(DAt(x[0], 0), DAt(x[1], 0)).v;
    assert DualTensor(p, Multiply, [[], []], [], x).d[0] == DMul(DAt(x[0], 0), DAt(x[1], 0)).d;
  }

  lemma SquareProgram(p: Primitives, g: Graph, seed: seq<seq<real>>, i: nat, q: nat)
    requires IsSquare(g, seed, i, q)
    ensures var z, y := Program(p, g, seed, q), Program(p, g, seed, i);
            y.v[0] == Times(z.v[0], z.v[0]) && y.d[0] == 2.0 * Times(z.v[0], z.d[0])
  {
    assert NodeOk(g, i) && NodeOk(g, q);
    var z := Program(p, g, seed, q);
    assert ProgramOperands(p, g, seed, i) == [z, z];
    assert OperandDims(g, i) == [[], []];
    assert Program(p, g, seed, i) == DualTensor(p, Multiply, [[], []], [], [z, z]);
    SquareDual(p, z);
  }

  lemma OverwrittenGraphOk()
    ensures GraphOk(OverwrittenGraph()) && Numel([]) == 1 && SeedOk(OverwrittenGraph(), [[1.0], [0.0], [0.0]])
  {
    var g := OverwrittenGraph();
    assert OperandDims(g, 1) == [[], []] && OperandDims(g, 2) == [[], []];
    assert NodeOk(g, 0) && NodeOk(g, 1) && NodeOk(g, 2);
  }

  /** The version check guards operands, not results: overwriting an intermediate result
      before it is used again leaves every saved version current, and the gradient in the
      state a run leads to is then not the derivative of the program from its leaves (1200 against 108 here). */
  lemma OverwrittenResultMisleads(p: Primitives)
    ensures Reached(p, OverwrittenRun(), OverwrittenWorld())
    ensures WorldOk(p, OverwrittenWorld()) && GraphOk(OverwrittenGraph())
    ensures Snapshot(OverwrittenWorld()) == OverwrittenGraph() && SeedOk(OverwrittenGraph(), [[1.0], [0.0], [0.0]])
    ensures AllDependenciesFresh(OverwrittenWorld(), OverwrittenGraph(), 2)
    ensures Tan(p, OverwrittenGraph(), [[1.0], [0.0], [0.0]], 2)[0] == 1200.0
    ensures Program(p, OverwrittenGraph(), [[1.0], [0.0], [0.0]], 2).d[0] == 108.0
  {
    OverwrittenOk(p);
    OverwrittenGraphOk();
    TwoSquares(p, OverwrittenGraph(), [[1.0], [0.0], [0.0]]);
  }

  /** Two squarings in a row, from x = 3 over a stored 100. */
  lemma TwoSquares(p: Primitives, g: Graph, seed: seq<seq<real>>)
    requires IsSquare(g, seed, 1, 0) && IsSquare(g, seed, 2, 1)
    requires g[0].role.Leaf? && seed[0] == [1.0] && g[0].vals == [3.0] && g[1].vals == [100.0]
    ensures Tan(p, g, seed, 2)[0] == 1200.0 && Program(p, g, seed, 2).d[0] == 108.0
  {
    SquareTangent(p, g, seed, 1, 0);
    SquareTangent(p, g, seed, 2, 1);
    SquareProgram(p, g, seed, 1, 0);
    SquareProgram(p, g, seed, 2, 1);
  }
}
