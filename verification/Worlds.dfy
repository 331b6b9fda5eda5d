/** The tensor heap as a value: storages, version counters, tensors that alias them, and
    autograd metadata.  An index stands for a shared pointer: two tensors with the same
    storage index share storage, two with the same counter index share version and
    identity. */
module Worlds {
  import opened Shapes
  import opened Layouts
  import opened ViewChains
  import opened Calculus
  import opened Operators
  import opened Graphs

  /** A tensor with storage of its own, such as an accumulated gradient. */
  datatype Dense = Dense(view: View, data: seq<real>)

  datatype GradNode = GradNode(op: Op, parents: seq<nat>, versions: seq<nat>)

  datatype Meta = Meta(requiresGrad: bool, isLeaf: bool, gradient: Option<Dense>, gradFn: Option<GradNode>)

  /** A tensor: its view, and the storage and version counter it shares with its aliases. */
  datatype Tensor = Tensor(view: View, storage: nat, counter: nat)

  /** What was true when a node was recorded: the operand values it read. */
  datatype Record = Record(operands: seq<seq<real>>)

  datatype World = World(
    storages: seq<seq<real>>,
    versions: seq<nat>,
    tensors: seq<Tensor>,
    metas: map<nat, Meta>,
    records: map<nat, Record>)

  // ----- tensors

  ghost predicate TensorOk(w: World, t: Tensor) {
    && t.storage < |w.storages|
    && t.counter < |w.versions|
    && Regular(t.view)
    && t.view.WellFormed()
    && |w.storages[t.storage]| == Numel(t.view.dims)
  }

  ghost predicate TensorsOk(w: World) {
    forall i :: 0 <= i < |w.tensors| ==> TensorOk(w, w.tensors[i])
  }

  /** Storage and version counter are shared together: distinct identity means distinct
      storage. */
  ghost predicate Lineages(w: World) {
    forall i, j :: 0 <= i < |w.tensors| && 0 <= j < |w.tensors| ==>
      (w.tensors[i].storage == w.tensors[j].storage <==> w.tensors[i].counter == w.tensors[j].counter)
  }

  /** The logical values of a tensor. */
  function Logical(w: World, i: nat): (r: seq<real>)
    requires i < |w.tensors| && TensorOk(w, w.tensors[i])
    ensures |r| == Numel(w.tensors[i].view.dims)
  {
    ReadLength(w.tensors[i].view, w.storages[w.tensors[i].storage]);
    Read(w.tensors[i].view, w.storages[w.tensors[i].storage])
  }

  function Version(w: World, i: nat): nat
    requires i < |w.tensors| && w.tensors[i].counter < |w.versions|
  {
    w.versions[w.tensors[i].counter]
  }

  function Dims(w: World, i: nat): seq<int>
    requires i < |w.tensors|
  {
    w.tensors[i].view.dims
  }

  // ----- autograd metadata

  predicate RequiresGrad(w: World, i: nat) {
    i in w.metas && w.metas[i].requiresGrad
  }

  function RoleOf(w: World, i: nat): Role {
    if i !in w.metas then Constant
    else if w.metas[i].gradFn.Some? then Computed(w.metas[i].gradFn.value.op, w.metas[i].gradFn.value.parents)
    else if w.metas[i].requiresGrad then Leaf
    else Constant
  }

  /** The operands recorded for a tensor; none for leaves and constants. */
  function RecordedParents(metas: map<nat, Meta>, i: nat): seq<nat> {
    if i in metas && metas[i].gradFn.Some? then metas[i].gradFn.value.parents else []
  }

  ghost predicate CanonicalDense(d: Dense, dims: seq<int>) {
    d.view == Canonical(dims) && |d.data| == Numel(dims)
  }

  function DimsOf(w: World, ids: seq<nat>): (d: seq<seq<int>>)
    requires forall k :: 0 <= k < |ids| ==> ids[k] < |w.tensors|
    ensures |d| == |ids|
  {
    seq(|ids|, k requires 0 <= k < |ids| && ids[k] < |w.tensors| => Dims(w, ids[k]))
  }

  function ValuesOf(w: World, ids: seq<nat>): (v: seq<seq<real>>)
    requires TensorsOk(w) && forall k :: 0 <= k < |ids| ==> ids[k] < |w.tensors|
    ensures |v| == |ids|
  {
    seq(|ids|, k requires 0 <= k < |ids| && ids[k] < |w.tensors| && TensorsOk(w) => Logical(w, ids[k]))
  }

  /** A recorded node: operands are older tensors of the right shapes. */
  ghost predicate NodeShaped(w: World, i: nat, n: GradNode)
    requires i < |w.tensors|
  {
    && |n.parents| == |n.versions|
    && (forall k :: 0 <= k < |n.parents| ==> n.parents[k] < i)
    && Typed(n.op, DimsOf(w, n.parents), Dims(w, i))
  }

  /** Every saved operand whose version has not moved still holds the value it had when the
      node was recorded; versions only grow. */
  ghost predicate OperandsKept(w: World, i: nat, n: GradNode)
    requires TensorsOk(w) && i < |w.tensors| && NodeShaped(w, i, n)
  {
    && i in w.records && |w.records[i].operands| == |n.parents|
    && forall k :: 0 <= k < |n.parents| ==>
         n.versions[k] <= Version(w, n.parents[k]) &&
         (Version(w, n.parents[k]) == n.versions[k] ==>
            Logical(w, n.parents[k]) == w.records[i].operands[k])
  }

  /** The version a result had when it was recorded: that of its operand if it is a view of
      it, and zero if it was materialised. */
  function RecordedVersion(w: World, i: nat, n: GradNode): nat
    requires i < |w.tensors| && |n.versions| == |n.parents|
    requires forall k :: 0 <= k < |n.parents| ==> n.parents[k] < |w.tensors|
  {
    if |n.parents| > 0 && w.tensors[n.parents[0]].counter == w.tensors[i].counter then n.versions[0] else 0
  }

  /** A result whose version has not moved still holds what its operator computed. */
  ghost predicate ResultKept(p: Primitives, w: World, i: nat, n: GradNode)
    requires TensorsOk(w) && i < |w.tensors| && NodeShaped(w, i, n) && OperandsKept(w, i, n)
  {
    && RecordedVersion(w, i, n) <= Version(w, i)
    && (Version(w, i) == RecordedVersion(w, i, n) ==>
          Sized(DimsOf(w, n.parents), w.records[i].operands) &&
          Logical(w, i) == Eval(p, n.op, DimsOf(w, n.parents), Dims(w, i), w.records[i].operands))
  }

  ghost predicate MetaOk(p: Primitives, w: World, i: nat, m: Meta)
    requires TensorsOk(w)
  {
    && i < |w.tensors|
    && (m.isLeaf <==> m.gradFn.None?)
    && (m.gradFn.Some? ==> m.requiresGrad)
    && (m.gradient.Some? ==> m.isLeaf && m.requiresGrad && CanonicalDense(m.gradient.value, Dims(w, i)))
    && (m.gradFn.Some? ==>
          NodeShaped(w, i, m.gradFn.value) && OperandsKept(w, i, m.gradFn.value) &&
          ResultKept(p, w, i, m.gradFn.value))
  }

  ghost predicate MetasOk(p: Primitives, w: World)
    requires TensorsOk(w)
  {
    forall i :: i in w.metas ==> MetaOk(p, w, i, w.metas[i])
  }

  ghost predicate WorldOk(p: Primitives, w: World) {
    TensorsOk(w) && Lineages(w) && MetasOk(p, w)
  }

  // ----- the recorded graph

  /** The graph the backward pass sees: requires-grad flags and values as they are now. */
  function Snapshot(w: World): (g: Graph)
    requires TensorsOk(w)
    ensures |g| == |w.tensors|
  {
    seq(|w.tensors|, i requires 0 <= i < |w.tensors| && TensorsOk(w) =>
      Node(Dims(w, i), Logical(w, i), RoleOf(w, i)))
  }

  lemma SnapshotOk(p: Primitives, w: World)
    requires WorldOk(p, w)
    ensures GraphOk(Snapshot(w))
    ensures forall i :: 0 <= i < |w.tensors| ==> (RequiresGrad(w, i) <==> !Snapshot(w)[i].role.Constant?)
  {
    var g := Snapshot(w);
    forall i | 0 <= i < |g| ensures NodeOk(g, i) {
      assert TensorOk(w, w.tensors[i]);
      if g[i].role.Computed? {
        assert MetaOk(p, w, i, w.metas[i]);
        assert OperandDims(g, i) == DimsOf(w, g[i].role.parents);
      }
    }
  }

  /** All saved operand versions of node `i` are current. */
  ghost predicate Fresh(w: World, i: nat)
    requires i < |w.tensors| && TensorsOk(w)
  {
    i in w.metas && w.metas[i].gradFn.Some? ==>
      var n := w.metas[i].gradFn.value;
      |n.parents| == |n.versions| &&
      forall k :: 0 <= k < |n.parents| ==>
        n.parents[k] < |w.tensors| && Version(w, n.parents[k]) == n.versions[k]
  }

  /** Differentiation happens at the values the forward pass read: for a node that passes
      the version check, the operand values now are those of the recording. */
  lemma FreshMeansUnchanged(p: Primitives, w: World, i: nat)
    requires WorldOk(p, w) && i < |w.tensors| && Fresh(w, i) && RoleOf(w, i).Computed?
    ensures GraphOk(Snapshot(w)) && ParentsEarlier(Snapshot(w), i)
    ensures i in w.records && OperandValues(Snapshot(w), i) == w.records[i].operands
  {
    SnapshotOk(p, w);
    assert MetaOk(p, w, i, w.metas[i]);
    assert NodeOk(Snapshot(w), i);
    var n := w.metas[i].gradFn.value;
    assert Operands(Snapshot(w), i) == n.parents;
    forall k | 0 <= k < |n.parents|
      ensures OperandValues(Snapshot(w), i)[k] == w.records[i].operands[k]
    {
      assert Version(w, n.parents[k]) == n.versions[k];
    }
  }
}
