/** How the tensor heap changes, and why each kind of change keeps its invariant: adding a
    tensor, recording a node, writing storage together with its version, and changing
    metadata. */
module Transitions {
  import opened Shapes
  import opened Layouts
  import opened ViewChains
  import opened Calculus
  import opened Operators
  import opened Worlds

  // ----- adding tensors

  /** A new tensor with storage, version counter and identity of its own. */
  function AddMaterialised(w: World, dims: seq<int>, values: seq<real>): World {
    w.(storages := w.storages + [values], versions := w.versions + [0],
       tensors := w.tensors + [Tensor(Canonical(dims), |w.storages|, |w.versions|)])
  }

  /** A new tensor sharing storage, version and identity with `source`. */
  function AddView(w: World, v: View, source: nat): World
    requires source < |w.tensors|
  {
    w.(tensors := w.tensors + [Tensor(v, w.tensors[source].storage, w.tensors[source].counter)])
  }

  /** Existing tensors, their values, versions and metadata are untouched. */
  ghost predicate Extends(w: World, w': World) {
    && w.storages <= w'.storages && w.versions <= w'.versions && w.tensors <= w'.tensors
    && (forall i :: 0 <= i < |w.tensors| ==> (i in w.metas <==> i in w'.metas))
    && (forall i :: i in w.metas && i in w'.metas && i < |w.tensors| ==> w.metas[i] == w'.metas[i])
    && (forall i :: i in w.records && i < |w.tensors| ==> i in w'.records && w'.records[i] == w.records[i])
  }

  lemma SameDims(w: World, w': World, ids: seq<nat>)
    requires w'.tensors == w.tensors && forall k :: 0 <= k < |ids| ==> ids[k] < |w.tensors|
    ensures DimsOf(w', ids) == DimsOf(w, ids)
  {
  }

  lemma ExtendsTransitive(w: World, w1: World, w2: World)
    requires Extends(w, w1) && Extends(w1, w2)
    ensures Extends(w, w2)
  {
    assert forall i :: i in w.metas && i < |w.tensors| ==> i in w1.metas && w1.metas[i] == w.metas[i];
  }

  lemma ExtendsKeeps(w: World, w': World, i: nat)
    requires Extends(w, w') && i < |w.tensors| && TensorsOk(w) && TensorsOk(w')
    ensures Logical(w', i) == Logical(w, i) && Version(w', i) == Version(w, i) && Dims(w', i) == Dims(w, i)
  {
    assert TensorOk(w, w.tensors[i]);
    assert w'.tensors[i] == w.tensors[i];
    assert w'.storages[w.tensors[i].storage] == w.storages[w.tensors[i].storage];
  }

  lemma ExtendedMeta(p: Primitives, w: World, w': World, i: nat, m: Meta)
    requires TensorsOk(w) && TensorsOk(w') && Extends(w, w') && MetaOk(p, w, i, m)
    ensures MetaOk(p, w', i, m)
  {
    ExtendsKeeps(w, w', i);
    if m.gradFn.Some? {
      var n := m.gradFn.value;
      forall k | 0 <= k < |n.parents|
        ensures Dims(w', n.parents[k]) == Dims(w, n.parents[k])
        ensures Logical(w', n.parents[k]) == Logical(w, n.parents[k])
        ensures Version(w', n.parents[k]) == Version(w, n.parents[k])
      {
        ExtendsKeeps(w, w', n.parents[k]);
      }
      assert DimsOf(w', n.parents) == DimsOf(w, n.parents);
      assert OperandsKept(w', i, n);
    }
  }

  lemma MetasAreOfTensors(p: Primitives, w: World)
    requires WorldOk(p, w)
    ensures forall i :: i in w.metas ==> i < |w.tensors|
  {
    forall i | i in w.metas ensures i < |w.tensors| {
      assert MetaOk(p, w, i, w.metas[i]);
    }
  }

  lemma MaterialisedOk(p: Primitives, w: World, dims: seq<int>, values: seq<real>)
    requires WorldOk(p, w) && ValidDims(dims) && |values| == Numel(dims)
    ensures var w' := AddMaterialised(w, dims, values);
            WorldOk(p, w') && Extends(w, w') && |w.tensors| !in w'.metas
            && Dims(w', |w.tensors|) == dims && Logical(w', |w.tensors|) == values
            && Version(w', |w.tensors|) == 0
  {
    var w' := AddMaterialised(w, dims, values);
    CanonicalWellFormed(dims);
    forall i | 0 <= i < |w'.tensors| ensures TensorOk(w', w'.tensors[i]) {
      if i < |w.tensors| {
        assert TensorOk(w, w.tensors[i]);
      }
    }
    assert Lineages(w') by {
      forall i | 0 <= i < |w.tensors|
        ensures w'.tensors[i].storage < |w.storages| && w'.tensors[i].counter < |w.versions|
      {
        assert TensorOk(w, w.tensors[i]);
      }
    }
    MetasAreOfTensors(p, w);
    forall i | i in w'.metas ensures MetaOk(p, w', i, w'.metas[i]) {
      assert MetaOk(p, w, i, w.metas[i]);
      ExtendedMeta(p, w, w', i, w.metas[i]);
    }
    ReadContiguous(Canonical(dims), values);
  }

  lemma ViewOk(p: Primitives, w: World, v: View, source: nat)
    requires WorldOk(p, w) && source < |w.tensors|
    requires Regular(v) && v.WellFormed() && Numel(v.dims) == Numel(Dims(w, source))
    ensures var w' := AddView(w, v, source);
            WorldOk(p, w') && Extends(w, w') && |w.tensors| !in w'.metas
            && Dims(w', |w.tensors|) == v.dims
            && Logical(w', |w.tensors|) == Read(v, w.storages[w.tensors[source].storage])
            && Version(w', |w.tensors|) == Version(w, source)
  {
    var w' := AddView(w, v, source);
    assert TensorOk(w, w.tensors[source]);
    forall i | 0 <= i < |w'.tensors| ensures TensorOk(w', w'.tensors[i]) {
      if i < |w.tensors| {
        assert TensorOk(w, w.tensors[i]);
      }
    }
    MetasAreOfTensors(p, w);
    forall i | i in w'.metas ensures MetaOk(p, w', i, w'.metas[i]) {
      assert MetaOk(p, w, i, w.metas[i]);
      ExtendedMeta(p, w, w', i, w.metas[i]);
    }
  }

  // ----- recording

  predicate NeedsGrad(w: World, parents: seq<nat>) {
    exists k :: 0 <= k < |parents| && RequiresGrad(w, parents[k])
  }

  function VersionsOf(w: World, ids: seq<nat>): (v: seq<nat>)
    requires TensorsOk(w) && forall k :: 0 <= k < |ids| ==> ids[k] < |w.tensors|
    ensures |v| == |ids|
  {
    seq(|ids|, k requires 0 <= k < |ids| && ids[k] < |w.tensors| && TensorsOk(w) =>
      assert TensorOk(w, w.tensors[ids[k]]); Version(w, ids[k]))
  }

  /** Metadata of a recorded result: a node holding the operands and their versions now. */
  function NodeMeta(w: World, op: Op, parents: seq<nat>): Meta
    requires TensorsOk(w) && forall k :: 0 <= k < |parents| ==> parents[k] < |w.tensors|
  {
    Meta(true, false, None, Some(GradNode(op, parents, VersionsOf(w, parents))))
  }

  /** Record tensor `i` as the result of `op`, if any operand requires gradients. */
  function Attach(w: World, i: nat, op: Op, parents: seq<nat>): World
    requires TensorsOk(w) && i < |w.tensors| && forall k :: 0 <= k < |parents| ==> parents[k] < |w.tensors|
  {
    if !NeedsGrad(w, parents) then w
    else
      assert TensorOk(w, w.tensors[i]);
      w.(metas := w.metas[i := NodeMeta(w, op, parents)],
         records := w.records[i := Record(ValuesOf(w, parents))])
  }

  /** A result as it comes out of an operation: no metadata yet, operands older, the value
      of the operator on them, and either a view of its first operand or never written. */
  ghost predicate CanRecord(p: Primitives, w: World, i: nat, op: Op, parents: seq<nat>) {
    && TensorsOk(w) && i < |w.tensors| && i !in w.metas
    && (forall k :: 0 <= k < |parents| ==> parents[k] < i)
    && Typed(op, DimsOf(w, parents), Dims(w, i))
    && Sized(DimsOf(w, parents), ValuesOf(w, parents))
    && TensorOk(w, w.tensors[i]) && Logical(w, i) == Eval(p, op, DimsOf(w, parents), Dims(w, i), ValuesOf(w, parents))
    && Newborn(w, i, parents)
  }

  ghost predicate Newborn(w: World, i: nat, parents: seq<nat>)
    requires i < |w.tensors| && w.tensors[i].counter < |w.versions|
    requires forall k :: 0 <= k < |parents| ==> parents[k] < |w.tensors|
  {
    Version(w, i) == 0 || (|parents| > 0 && w.tensors[parents[0]].counter == w.tensors[i].counter)
  }

  /** A new record holds the present operands, at their present versions. */
  lemma RecordKept(p: Primitives, w: World, i: nat, op: Op, parents: seq<nat>)
    requires WorldOk(p, w) && CanRecord(p, w, i, op, parents) && NeedsGrad(w, parents)
    ensures var w', n := Attach(w, i, op, parents), NodeMeta(w, op, parents).gradFn.value;
            TensorsOk(w') && NodeShaped(w', i, n) && OperandsKept(w', i, n)
  {
    var w' := Attach(w, i, op, parents);
    SameDims(w, w', parents);
    forall k | 0 <= k < |parents|
      ensures VersionsOf(w, parents)[k] == Version(w', parents[k])
      ensures Logical(w', parents[k]) == w'.records[i].operands[k]
    {
      OperandKept(w, i, op, parents, k);
    }
  }

  lemma OperandKept(w: World, i: nat, op: Op, parents: seq<nat>, k: nat)
    requires TensorsOk(w) && i < |w.tensors| && NeedsGrad(w, parents) && k < |parents|
    requires forall k :: 0 <= k < |parents| ==> parents[k] < |w.tensors|
    ensures TensorsOk(Attach(w, i, op, parents))
    ensures VersionsOf(w, parents)[k] == Version(Attach(w, i, op, parents), parents[k])
    ensures Logical(Attach(w, i, op, parents), parents[k]) == Attach(w, i, op, parents).records[i].operands[k]
  {
    assert TensorOk(w, w.tensors[parents[k]]);
  }

  /** The version of a new record, read off the tensors, is the one its result has. */
  lemma RecordedNow(w: World, i: nat, op: Op, parents: seq<nat>)
    requires TensorsOk(w) && i < |w.tensors| && TensorOk(w, w.tensors[i])
    requires forall k :: 0 <= k < |parents| ==> parents[k] < |w.tensors|
    requires Newborn(w, i, parents)
    ensures RecordedVersion(w, i, NodeMeta(w, op, parents).gradFn.value) == Version(w, i)
  {
    if |parents| > 0 {
      assert TensorOk(w, w.tensors[parents[0]]);
    }
  }

  lemma NewNodeOk(p: Primitives, w: World, i: nat, op: Op, parents: seq<nat>)
    requires WorldOk(p, w) && CanRecord(p, w, i, op, parents) && NeedsGrad(w, parents)
    ensures TensorsOk(Attach(w, i, op, parents)) && MetaOk(p, Attach(w, i, op, parents), i, NodeMeta(w, op, parents))
  {
    var w' := Attach(w, i, op, parents);
    RecordKept(p, w, i, op, parents);
    RecordedNow(w, i, op, parents);
    SameDims(w, w', parents);
    assert ValuesOf(w, parents) == w'.records[i].operands;
  }

  lemma AttachOk(p: Primitives, w: World, i: nat, op: Op, parents: seq<nat>)
    requires WorldOk(p, w) && CanRecord(p, w, i, op, parents)
    ensures WorldOk(p, Attach(w, i, op, parents))
  {
    var w' := Attach(w, i, op, parents);
    if NeedsGrad(w, parents) {
      NewNodeOk(p, w, i, op, parents);
      forall j | j in w'.metas ensures MetaOk(p, w', j, w'.metas[j]) {
        if j != i {
          OldMetaKept(p, w, i, op, parents, j);
        }
      }
    }
  }

  lemma OldMetaKept(p: Primitives, w: World, i: nat, op: Op, parents: seq<nat>, j: nat)
    requires WorldOk(p, w) && CanRecord(p, w, i, op, parents) && j != i && j in w.metas
    ensures TensorsOk(Attach(w, i, op, parents)) && MetaOk(p, Attach(w, i, op, parents), j, w.metas[j])
  {
    assert MetaOk(p, w, j, w.metas[j]);
    SameHeapMeta(p, w, Attach(w, i, op, parents), j, w.metas[j]);
  }

  lemma SameHeapMeta(p: Primitives, w: World, w': World, i: nat, m: Meta)
    requires TensorsOk(w) && TensorsOk(w') && MetaOk(p, w, i, m)
    requires w'.storages == w.storages && w'.versions == w.versions && w'.tensors == w.tensors
    requires i in w.records ==> i in w'.records && w'.records[i] == w.records[i]
    ensures MetaOk(p, w', i, m)
  {
    if m.gradFn.Some? {
      var n := m.gradFn.value;
      SameDims(w, w', n.parents);
      assert OperandsKept(w', i, n);
    }
  }

  lemma ValuesOfSized(w: World, ids: seq<nat>)
    requires TensorsOk(w) && forall k :: 0 <= k < |ids| ==> ids[k] < |w.tensors|
    ensures Sized(DimsOf(w, ids), ValuesOf(w, ids))
  {
  }

  // ----- writing storage

  /** Replace the contents of a tensor's storage and move the version of its lineage. */
  function Write(w: World, i: nat, data: seq<real>): World
    requires i < |w.tensors| && TensorOk(w, w.tensors[i])
  {
    var t := w.tensors[i];
    w.(storages := w.storages[t.storage := data],
       versions := w.versions[t.counter := w.versions[t.counter] + 1])
  }

  /** A write reaches exactly the aliases of the tensor, and moves exactly their version. */
  lemma WriteReaches(p: Primitives, w: World, i: nat, data: seq<real>, j: nat)
    requires WorldOk(p, w) && i < |w.tensors| && j < |w.tensors|
    requires |data| == |w.storages[w.tensors[i].storage]|
    ensures TensorsOk(Write(w, i, data)) && Dims(Write(w, i, data), j) == Dims(w, j)
    ensures if w.tensors[j].counter == w.tensors[i].counter
            then Version(Write(w, i, data), j) == Version(w, j) + 1
            else Version(Write(w, i, data), j) == Version(w, j) && Logical(Write(w, i, data), j) == Logical(w, j)
  {
    var w' := Write(w, i, data);
    forall k | 0 <= k < |w'.tensors| ensures TensorOk(w', w'.tensors[k]) {
      assert TensorOk(w, w.tensors[k]);
    }
    assert TensorOk(w, w.tensors[j]);
  }

  lemma WrittenMeta(p: Primitives, w: World, i: nat, data: seq<real>, j: nat, m: Meta)
    requires WorldOk(p, w) && i < |w.tensors| && |data| == |w.storages[w.tensors[i].storage]|
    requires MetaOk(p, w, j, m)
    ensures TensorsOk(Write(w, i, data)) && MetaOk(p, Write(w, i, data), j, m)
  {
    var w' := Write(w, i, data);
    WriteReaches(p, w, i, data, j);
    if m.gradFn.Some? {
      var n := m.gradFn.value;
      forall k | 0 <= k < |n.parents|
        ensures Dims(w', n.parents[k]) == Dims(w, n.parents[k])
        ensures n.versions[k] <= Version(w', n.parents[k])
        ensures Version(w', n.parents[k]) == n.versions[k] ==>
                  Logical(w', n.parents[k]) == w.records[j].operands[k]
      {
        WriteReaches(p, w, i, data, n.parents[k]);
      }
      assert DimsOf(w', n.parents) == DimsOf(w, n.parents);
      assert OperandsKept(w', j, n);
    }
  }

  /** Because every write moves the version all aliases share, it invalidates exactly the
      records that saved one of them, and the invariant survives. */
  lemma WriteOk(p: Primitives, w: World, i: nat, data: seq<real>)
    requires WorldOk(p, w) && i < |w.tensors| && |data| == |w.storages[w.tensors[i].storage]|
    ensures WorldOk(p, Write(w, i, data))
  {
    WriteReaches(p, w, i, data, i);
    forall j | j in w.metas ensures MetaOk(p, Write(w, i, data), j, w.metas[j]) {
      WrittenMeta(p, w, i, data, j, w.metas[j]);
    }
  }

  // ----- metadata

  lemma MetaChangeOk(p: Primitives, w: World, metas: map<nat, Meta>)
    requires WorldOk(p, w)
    requires forall i :: i in metas ==> MetaOk(p, w, i, metas[i])
    ensures WorldOk(p, w.(metas := metas))
  {
    var w' := w.(metas := metas);
    forall i | i in metas ensures MetaOk(p, w', i, metas[i]) {
      SameHeapMeta(p, w, w', i, metas[i]);
    }
  }

  /** Drop the gradient of a tensor. */
  function Cleared(metas: map<nat, Meta>, i: nat): map<nat, Meta> {
    if i in metas then metas[i := metas[i].(gradient := None)] else metas
  }

  lemma ClearedOk(p: Primitives, w: World, i: nat)
    requires WorldOk(p, w)
    ensures WorldOk(p, w.(metas := Cleared(w.metas, i)))
  {
    forall j | j in Cleared(w.metas, i) ensures MetaOk(p, w, j, Cleared(w.metas, i)[j]) {
      assert MetaOk(p, w, j, w.metas[j]);
    }
    MetaChangeOk(p, w, Cleared(w.metas, i));
  }
}
