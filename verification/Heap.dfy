/** The mutable tensor heap: the objects behind the engine's shared pointers. */
module Heap {
  import opened Shapes
  import opened Layouts
  import opened ViewChains
  import opened Calculus
  import opened Operators
  import opened Worlds
  import opened Transitions
  import opened Runs
  import opened Memory

  /** What a caller keeps track of: the history so far and the references it holds. */
  datatype Marks = Marks(history: seq<Change>, held: multiset<nat>) {
    function Then(c: Change): Marks {
      Marks(history + [c], held)
    }

    function Holding(i: nat): Marks {
      Marks(history, held + multiset{i})
    }

    function Without(i: nat): Marks {
      Marks(history, held - multiset{i})
    }
  }

  /** The reference counts are exact and the heap is where its history leads.  Only the
      heap's own methods look inside: the guard keeps this out of all other proofs. */
  ghost predicate Books(p: Primitives, w: World, l: Ledger, m: Marks) {
    match m
    case Marks(history, held) => forall k {:trigger Open(k)} :: Open(k) ==> LedgerOk(w, l, held) && Reached(p, history, w)
  }

  ghost predicate Open(k: int) {
    true
  }

  lemma OpenBooks(p: Primitives, w: World, l: Ledger, m: Marks)
    requires Books(p, w, l, m)
    ensures LedgerOk(w, l, m.held) && Reached(p, m.history, w)
  {
    assert Open(0);
  }

  lemma AddedBooks(p: Primitives, w: World, l: Ledger, m: Marks, dims: seq<int>, values: seq<real>)
    requires WorldOk(p, w) && Books(p, w, l, m) && ValidDims(dims) && |values| == Numel(dims)
    ensures WorldOk(p, AddMaterialised(w, dims, values))
    ensures Extends(w, AddMaterialised(w, dims, values)) && |w.tensors| !in w.metas
    ensures Books(p, AddMaterialised(w, dims, values), TensorAdded(l, |values|),
                  m.Then(Added(dims, values)).Holding(|w.tensors|))
  {
    OpenBooks(p, w, l, m);
    MaterialisedOk(p, w, dims, values);
    WorldOwnersOlder(p, w);
    AddedLedger(w, l, m.held, dims, values);
    ReachedNext(p, m.history, w, Added(dims, values));
  }

  lemma ViewedBooks(p: Primitives, w: World, l: Ledger, m: Marks, v: View, source: nat)
    requires WorldOk(p, w) && Books(p, w, l, m) && source in m.held && source < |w.tensors|
    requires Regular(v) && v.WellFormed() && Numel(v.dims) == Numel(Dims(w, source))
    ensures w.tensors[source].storage < |l.shares| && WorldOk(p, AddView(w, v, source))
    ensures Extends(w, AddView(w, v, source)) && |w.tensors| !in w.metas
    ensures Books(p, AddView(w, v, source), ViewAdded(w, l, source), m.Then(Viewed(v, source)).Holding(|w.tensors|))
  {
    OpenBooks(p, w, l, m);
    ViewOk(p, w, v, source);
    assert TensorOk(w, w.tensors[source]);
    WorldOwnersOlder(p, w);
    ViewedLedger(w, l, m.held, v, source);
    ReachedNext(p, m.history, w, Viewed(v, source));
  }

  /** The ledger after a recording: a node refers to its operands. */
  function LedgerRecorded(w: World, l: Ledger, parents: seq<nat>): Ledger {
    if NeedsGrad(w, parents) then l.(counts := Referenced(l.counts, parents)) else l
  }

  lemma RecordedBooks(p: Primitives, w: World, l: Ledger, m: Marks, i: nat, op: Op, parents: seq<nat>)
    requires WorldOk(p, w) && Books(p, w, l, m) && CanRecord(p, w, i, op, parents)
    requires i in m.held && forall k :: 0 <= k < |parents| ==> parents[k] in m.held
    ensures WorldOk(p, Attach(w, i, op, parents))
    ensures Books(p, Attach(w, i, op, parents), LedgerRecorded(w, l, parents), m.Then(Recorded(i, op, parents)))
    ensures forall k :: 0 <= k < |parents| ==> parents[k] < |l.counts|
  {
    OpenBooks(p, w, l, m);
    AttachOk(p, w, i, op, parents);
    ReachedNext(p, m.history, w, Recorded(i, op, parents));
    if NeedsGrad(w, parents) {
      AttachedLedger(w, l, m.held, i, op, parents);
    }
  }

  lemma MarkedBooks(p: Primitives, w: World, l: Ledger, m: Marks, i: nat, meta: Meta)
    requires WorldOk(p, w) && Books(p, w, l, m) && MetaOk(p, w, i, meta) && Alive(l.counts, i)
    requires meta.gradFn == if i in w.metas then w.metas[i].gradFn else None
    ensures WorldOk(p, w.(metas := w.metas[i := meta]))
    ensures Books(p, w.(metas := w.metas[i := meta]), Remarked(w, l, i, meta), m.Then(Marked(i, meta)))
  {
    OpenBooks(p, w, l, m);
    MetasStillOk(p, w, i, meta);
    MarkedLedger(w, l, m.held, i, meta);
    ReachedNext(p, m.history, w, Marked(i, meta));
  }

  lemma MetasStillOk(p: Primitives, w: World, i: nat, meta: Meta)
    requires WorldOk(p, w) && MetaOk(p, w, i, meta)
    ensures WorldOk(p, w.(metas := w.metas[i := meta]))
  {
    var metas' := w.metas[i := meta];
    forall j | j in metas' ensures MetaOk(p, w, j, metas'[j]) {
      assert j != i ==> metas'[j] == w.metas[j];
    }
    MetaChangeOk(p, w, metas');
  }

  lemma WrittenBooks(p: Primitives, w: World, l: Ledger, m: Marks, i: nat, data: seq<real>)
    requires WorldOk(p, w) && Books(p, w, l, m) && i < |w.tensors| && TensorOk(w, w.tensors[i])
    requires |data| == |w.storages[w.tensors[i].storage]|
    ensures WorldOk(p, Write(w, i, data))
    ensures Books(p, Write(w, i, data), l, m.Then(Written(i, data)))
  {
    OpenBooks(p, w, l, m);
    WriteOk(p, w, i, data);
    WrittenLedger(w, l, m.held, i, data);
    ReachedNext(p, m.history, w, Written(i, data));
  }

  lemma HeldBooks(p: Primitives, w: World, l: Ledger, m: Marks, i: nat)
    requires Books(p, w, l, m) && i in m.held && i < |l.counts|
    ensures Books(p, w, OneMore(l, i), m.Holding(i))
  {
    OpenBooks(p, w, l, m);
    HeldLedger(w, l, m.held, i);
  }

  lemma DroppedBooks(p: Primitives, w: World, l: Ledger, m: Marks, i: nat)
    requires Books(p, w, l, m) && i in m.held && i < |l.counts| && l.counts[i] > 1
    ensures Books(p, w, OneLess(l, i), m.Without(i))
  {
    OpenBooks(p, w, l, m);
    DroppedLedger(w, l, m.held, i);
  }

  lemma DestroyedBooks(p: Primitives, w: World, l: Ledger, m: Marks, i: nat)
    requires WorldOk(p, w) && Books(p, w, l, m) && i in m.held && i < |l.counts| && l.counts[i] == 1
    ensures |l.shares| == |w.storages| && i < |w.tensors| && w.tensors[i].storage < |l.shares|
    ensures l.shares[w.tensors[i].storage] > 0
    ensures forall q: nat :: q in RecordedParents(w.metas, i) ==> q < i
    ensures Books(p, w, Destroyed(w, l, i), m.(held := m.held - multiset{i} + multiset(RecordedParents(w.metas, i))))
  {
    OpenBooks(p, w, l, m);
    WorldOwnersOlder(p, w);
    DestroyedLedger(w, l, m.held, i);
  }

  class TensorHeap {
    const p: Primitives
    var storages: seq<seq<real>>
    var versions: seq<nat>
    var tensors: seq<Tensor>
    var metas: map<nat, Meta>
    var counts: seq<nat>
    var shares: seq<nat>
    var liveBytes: int
    ghost var records: map<nat, Record>
    ghost var history: seq<Change>
    ghost var held: multiset<nat>

    ghost function W(): World
      reads this
    {
      World(storages, versions, tensors, metas, records)
    }

    ghost function L(): Ledger
      reads this
    {
      Ledger(counts, shares, liveBytes)
    }

    /** The heap is where its history leads, and its reference counts are exact: `held` are
        the references from outside. */
    ghost predicate Valid()
      reads this
    {
      WorldOk(p, W()) && Books(p, W(), L(), M())
    }

    constructor (p: Primitives)
      ensures Valid() && this.p == p && tensors == [] && storages == []
      ensures history == [] && held == multiset{} && liveBytes == 0
    {
      this.p := p;
      storages, versions, tensors, metas, records := [], [], [], map[], map[];
      counts, shares, liveBytes := [], [], 0;
      history, held := [], multiset{};
    }

    ghost function M(): Marks
      reads this
    {
      Marks(history, held)
    }

    /** The caller holds a reference to tensor `i`. */
    ghost predicate Holds(i: nat)
      reads this
    {
      i < |tensors| && i in held
    }

    /** The history has only grown, and the references are the same. */
    ghost predicate Continues(before: Marks)
      reads this
    {
      before.history <= history && held == before.held
    }

    /** The history has only grown; on success there is one more reference, to the result. */
    ghost predicate Produced(before: Marks, ok: bool, out: nat)
      reads this
    {
      before.history <= history && held == if ok then before.held + multiset{out} else before.held
    }

    /** A tensor that is referenced from outside is alive. */
    lemma HeldIsAlive(i: nat)
      requires Valid() && i in held
      ensures i < |tensors| && Alive(counts, i)
    {
      OpenBooks(p, W(), L(), M());
    }

    /** A tensor with storage, version counter and identity of its own. */
    method NewTensor(dims: seq<int>, values: seq<real>) returns (out: nat)
      requires Valid() && ValidDims(dims) && |values| == Numel(dims)
      modifies this
      ensures Valid() && W() == AddMaterialised(old(W()), dims, values)
      ensures out == |old(tensors)|
      ensures Extends(old(W()), W()) && out !in metas
      ensures held == old(held) + multiset{out} && history == old(history) + [Added(dims, values)]
      ensures liveBytes == old(liveBytes) + 4 * |values|
    {
      AddedBooks(p, W(), L(), M(), dims, values);
      ghost var m := M().Then(Added(dims, values)).Holding(|tensors|);
      out := Materialise(dims, values);
      held, history := m.held, m.history;
      assert M() == m;
    }

    method Materialise(dims: seq<int>, values: seq<real>) returns (out: nat)
      modifies `storages, `versions, `tensors, `counts, `shares, `liveBytes
      ensures W() == AddMaterialised(old(W()), dims, values) && out == |old(tensors)|
      ensures L() == TensorAdded(old(L()), |values|)
    {
      out := |tensors|;
      tensors := tensors + [Tensor(Canonical(dims), |storages|, |versions|)];
      storages := storages + [values];
      versions := versions + [0];
      counts, shares := counts + [1], shares + [1];
      liveBytes := liveBytes + 4 * |values|;
    }

    /** A tensor sharing storage, version counter and identity with `source`. */
    method NewView(v: View, source: nat) returns (out: nat)
      requires Valid() && source in held && source < |tensors|
      requires Regular(v) && v.WellFormed() && Numel(v.dims) == Numel(tensors[source].view.dims)
      modifies this
      ensures Valid() && W() == AddView(old(W()), v, source)
      ensures out == |old(tensors)|
      ensures Extends(old(W()), W()) && out !in metas
      ensures held == old(held) + multiset{out} && history == old(history) + [Viewed(v, source)]
      ensures liveBytes == old(liveBytes)
    {
      ViewedBooks(p, W(), L(), M(), v, source);
      ghost var m := M().Then(Viewed(v, source)).Holding(|tensors|);
      out := Share(v, source);
      held, history := m.held, m.history;
      assert M() == m;
    }

    method Share(v: View, source: nat) returns (out: nat)
      requires source < |tensors| && tensors[source].storage < |shares|
      modifies `tensors, `counts, `shares
      ensures W() == AddView(old(W()), v, source) && out == |old(tensors)|
      ensures L() == ViewAdded(old(W()), old(L()), source)
    {
      var s := tensors[source].storage;
      out := |tensors|;
      tensors := tensors + [Tensor(v, s, tensors[source].counter)];
      counts, shares := counts + [1], shares[s := shares[s] + 1];
    }

    method RequiresGrad(i: nat) returns (b: bool)
      ensures b == Worlds.RequiresGrad(W(), i)
    {
      b := i in metas && metas[i].requiresGrad;
    }

    method CurrentVersion(i: nat) returns (v: nat)
      requires TensorsOk(W()) && i < |tensors|
      ensures tensors[i].counter < |versions| && v == Version(W(), i)
    {
      assert TensorOk(W(), tensors[i]);
      v := versions[tensors[i].counter];
    }

    /** The logical values of a tensor, through the strided copy-out. */
    method LogicalValues(i: nat) returns (values: seq<real>)
      requires Valid() && i < |tensors|
      ensures TensorOk(W(), tensors[i]) && values == Logical(W(), i)
    {
      assert TensorOk(W(), tensors[i]);
      var t := tensors[i];
      RegularInBounds(t.view, |storages[t.storage]|);
      var status, out := CopyToHost(t.view, storages[t.storage]);
      values := out;
    }

    /** Direct access to storage is granted to contiguous tensors only. */
    method HasDirectAccess(i: nat) returns (b: bool)
      requires Valid() && i < |tensors|
      ensures b <==> Contiguous(tensors[i].view)
      ensures b ==> TensorOk(W(), tensors[i]) && storages[tensors[i].storage] == Logical(W(), i)
    {
      assert TensorOk(W(), tensors[i]);
      var t := tensors[i];
      b := IsContiguous(t.view);
      b := b && t.view.offset == 0 && |storages[t.storage]| == Numel(t.view.dims);
      if b {
        ReadContiguous(t.view, storages[t.storage]);
      }
    }

    method AnyRequiresGrad(ids: seq<nat>) returns (b: bool)
      ensures b <==> NeedsGrad(W(), ids)
    {
      b := false;
      for k := 0 to |ids|
        invariant b <==> exists l :: 0 <= l < k && Worlds.RequiresGrad(W(), ids[l])
      {
        var one := RequiresGrad(ids[k]);
        b := b || one;
      }
    }

    method SavedVersions(ids: seq<nat>) returns (saved: seq<nat>)
      requires TensorsOk(W()) && forall k :: 0 <= k < |ids| ==> ids[k] < |tensors|
      ensures saved == VersionsOf(W(), ids)
    {
      saved := [];
      for k := 0 to |ids|
        invariant |saved| == k && forall l :: 0 <= l < k ==> saved[l] == VersionsOf(W(), ids)[l]
      {
        var v := CurrentVersion(ids[k]);
        saved := saved + [v];
      }
    }

    /** Record tensor `i` as the result of `op`, unless no operand requires gradients. */
    method AttachNode(i: nat, op: Op, parents: seq<nat>)
      requires Valid() && CanRecord(p, W(), i, op, parents)
      requires i in held && forall k :: 0 <= k < |parents| ==> parents[k] in held
      modifies `metas, `records, `counts, `history
      ensures Valid() && W() == Attach(old(W()), i, op, parents)
      ensures history == old(history) + [Recorded(i, op, parents)]
    {
      RecordedBooks(p, W(), L(), M(), i, op, parents);
      ghost var m := M().Then(Recorded(i, op, parents));
      var needsGrad := AnyRequiresGrad(parents);
      if needsGrad {
        Record(i, op, parents);
      }
      history := m.history;
      assert M() == m;
    }

    method Record(i: nat, op: Op, parents: seq<nat>)
      requires TensorsOk(W()) && i < |tensors| && NeedsGrad(W(), parents)
      requires forall k :: 0 <= k < |parents| ==> parents[k] < |tensors| && parents[k] < |counts|
      modifies `metas, `records, `counts
      ensures W() == Attach(old(W()), i, op, parents) && L() == LedgerRecorded(old(W()), old(L()), parents)
    {
      var saved := SavedVersions(parents);
      ghost var next := Attach(W(), i, op, parents);
      Refer(parents);
      records := next.records;
      metas := metas[i := Meta(true, false, None, Some(GradNode(op, parents, saved)))];
      assert metas == next.metas;
    }

    /** One more reference to each of a node's operands. */
    method Refer(parents: seq<nat>)
      requires forall k :: 0 <= k < |parents| ==> parents[k] < |counts|
      modifies `counts
      ensures counts == Referenced(old(counts), parents)
    {
      ghost var before := counts;
      assert Referenced(before, []) == before;
      for k := 0 to |parents|
        invariant counts == Referenced(before, parents[..k])
      {
        ReferencedNext(before, parents, k);
        counts := counts[parents[k] := counts[parents[k]] + 1];
      }
      assert parents[..|parents|] == parents;
    }

    /** Change the metadata of a live tensor; its node, if it was recorded, stays.  A new
        gradient is new storage, and the storage of a replaced one is destroyed. */
    method SetMeta(i: nat, m: Meta)
      requires Valid() && MetaOk(p, W(), i, m) && Alive(counts, i)
      requires m.gradFn == if i in metas then metas[i].gradFn else None
      modifies `metas, `liveBytes, `history
      ensures Valid() && W() == old(W()).(metas := old(metas)[i := m])
      ensures history == old(history) + [Marked(i, m)]
      ensures liveBytes == old(liveBytes) + (if m.gradient.Some? then 4 * |m.gradient.value.data| else 0)
              - (if i in old(metas) && old(metas)[i].gradient.Some? then 4 * |old(metas)[i].gradient.value.data| else 0)
    {
      MarkedBooks(p, W(), L(), M(), i, m);
      ghost var marks := M().Then(Marked(i, m));
      ReplaceMeta(i, m);
      history := marks.history;
      assert M() == marks;
    }

    method ReplaceMeta(i: nat, m: Meta)
      modifies `metas, `liveBytes
      ensures W() == old(W()).(metas := old(metas)[i := m])
      ensures L() == Remarked(old(W()), old(L()), i, m)
    {
      var before := GradientSize(metas, i);
      metas := metas[i := m];
      liveBytes := liveBytes - before + GradientSize(metas, i);
    }

    /** Replace the contents of a tensor's storage.  The heap is not valid again until the
        version of the tensor has moved. */
    method StoreValues(i: nat, data: seq<real>)
      requires Valid() && i < |tensors| && TensorOk(W(), tensors[i])
      requires |data| == |storages[tensors[i].storage]|
      modifies `storages
      ensures W() == old(W()).(storages := old(storages)[tensors[i].storage := data])
    {
      storages := storages[tensors[i].storage := data];
    }

    /** Move the version that all aliases of a tensor share, after its contents were replaced. */
    method IncrementVersion(i: nat, ghost w: World)
      requires WorldOk(p, w) && Books(p, w, L(), M())
      requires i < |tensors| && i < |w.tensors| && TensorOk(w, w.tensors[i])
      requires tensors[i].storage < |storages| && |storages[tensors[i].storage]| == |w.storages[w.tensors[i].storage]|
      requires W() == w.(storages := w.storages[w.tensors[i].storage := storages[tensors[i].storage]])
      modifies `versions, `history
      ensures Valid() && W() == Write(w, i, storages[tensors[i].storage])
      ensures history == old(history) + [Written(i, storages[tensors[i].storage])]
    {
      ghost var data := storages[tensors[i].storage];
      WrittenBooks(p, w, L(), M(), i, data);
      ghost var m := M().Then(Written(i, data));
      var t := tensors[i];
      versions := versions[t.counter := versions[t.counter] + 1];
      history := m.history;
      assert W() == Write(w, i, data) && M() == m;
    }

    /** Drop the gradient of a live tensor, and its storage with it. */
    method ClearGradient(i: nat)
      requires Valid() && Alive(counts, i)
      modifies `metas, `liveBytes, `history
      ensures Valid() && W() == old(W()).(metas := Cleared(old(metas), i))
      ensures old(history) <= history
    {
      if i in metas {
        ghost var m := metas[i].(gradient := None);
        ClearedOk(p, W(), i);
        assert MetaOk(p, W(), i, metas[i]);
        assert MetaOk(p, W(), i, m);
        SetMeta(i, metas[i].(gradient := None));
      }
    }

    // ----- holding and releasing

    /** Take one more reference to a tensor that is held. */
    method Hold(i: nat)
      requires Valid() && i in held
      modifies `counts, `held
      ensures Valid() && W() == old(W()) && held == old(held) + multiset{i}
    {
      HeldIsAlive(i);
      HeldBooks(p, W(), L(), M(), i);
      ghost var l, m := OneMore(L(), i), M().Holding(i);
      counts, held := counts[i := counts[i] + 1], m.held;
      assert L() == l && M() == m;
    }

    /** Drop one reference from outside.  With the last reference the tensor is destroyed:
        its storage goes with the storage's last tensor, its gradient goes, and its
        references to operands are dropped in turn; operands are older, so this ends. */
    method Drop(i: nat)
      requires Valid() && i in held
      modifies `counts, `shares, `liveBytes, `held
      ensures Valid() && W() == old(W()) && held == old(held) - multiset{i}
      decreases i, 1
    {
      HeldIsAlive(i);
      if counts[i] > 1 {
        DropOne(i);
        return;
      }
      var parents := RecordedParents(metas, i);
      DestroyedBooks(p, W(), L(), M(), i);
      assert forall k :: 0 <= k < |parents| ==> parents[k] in parents;
      ghost var rest := held - multiset{i};
      Destroy(i);
      DropOperands(i, parents, rest);
    }

    method DropOne(i: nat)
      requires Valid() && i in held && i < |counts| && counts[i] > 1
      modifies `counts, `held
      ensures Valid() && W() == old(W()) && held == old(held) - multiset{i}
    {
      DroppedBooks(p, W(), L(), M(), i);
      ghost var l, m := OneLess(L(), i), M().Without(i);
      counts, held := counts[i := counts[i] - 1], m.held;
      assert L() == l && M() == m;
    }

    /** Drop a reference on top of others. */
    method Release(i: nat, ghost rest: multiset<nat>)
      requires Valid() && held == rest + multiset{i}
      modifies `counts, `shares, `liveBytes, `held
      ensures Valid() && W() == old(W()) && held == rest
      decreases i, 2
    {
      Drop(i);
    }

    /** Drop the references a destroyed tensor held. */
    method DropOperands(i: nat, parents: seq<nat>, ghost rest: multiset<nat>)
      requires Valid() && held == rest + multiset(parents) && forall k :: 0 <= k < |parents| ==> parents[k] < i
      modifies `counts, `shares, `liveBytes, `held
      ensures Valid() && W() == old(W()) && held == rest
      decreases i, 0
    {
      for k := 0 to |parents|
        invariant Valid() && held == rest + multiset(parents[k..])
      {
        SuffixReferences(parents, k, rest);
        Release(parents[k], rest + multiset(parents[k + 1..]));
      }
    }

    /** Destroy a tensor with a single reference: its storage loses a user and is freed with
        the last one, its gradient is freed, and its own references are left to be dropped. */
    method Destroy(i: nat)
      requires Valid() && i in held && i < |counts| && counts[i] == 1
      modifies `counts, `shares, `liveBytes, `held
      ensures Valid() && held == old(held) - multiset{i} + multiset(RecordedParents(metas, i))
    {
      DestroyedBooks(p, W(), L(), M(), i);
      Free(i);
      held := held - multiset{i} + multiset(RecordedParents(metas, i));
    }

    method Free(i: nat)
      requires i < |tensors| && i < |counts| && tensors[i].storage < |shares| == |storages|
      requires shares[tensors[i].storage] > 0
      modifies `counts, `shares, `liveBytes
      ensures L() == Destroyed(W(), old(L()), i)
    {
      counts := counts[i := 0];
      var s := tensors[i].storage;
      shares := shares[s := shares[s] - 1];
      if shares[s] == 0 {
        liveBytes := liveBytes - 4 * |storages[s]|;
      }
      liveBytes := liveBytes - GradientSize(metas, i);
    }
  }

  lemma SuffixReferences(parents: seq<nat>, k: nat, rest: multiset<nat>)
    requires k < |parents|
    ensures rest + multiset(parents[k..]) == rest + multiset(parents[k + 1..]) + multiset{parents[k]}
  {
    assert parents[k..] == [parents[k]] + parents[k + 1..];
  }

  lemma ReferencedNext(counts: seq<nat>, parents: seq<nat>, k: nat)
    requires k < |parents| && parents[k] < |counts|
    ensures var now := Referenced(counts, parents[..k]);
            Referenced(counts, parents[..k + 1]) == now[parents[k] := now[parents[k]] + 1]
  {
    assert parents[..k + 1] == parents[..k] + [parents[k]];
  }
}
