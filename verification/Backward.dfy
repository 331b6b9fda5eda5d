/** Running the backward pass: all-or-nothing validation, then the sweep. */
module Backward {
  import opened Shapes
  import opened Layouts
  import opened ViewChains
  import opened Calculus
  import opened Graphs
  import opened GraphFacts
  import opened Worlds
  import opened Heap
  import opened TopologyBuilder
  import opened Memory
  import Ownership
  import opened Publication
  import opened BackwardPass

  // ----- accumulating contributions

  method AccumulateOne(ghost w: World, ghost g: Graph, ghost root: nat, grads: map<nat, Dense>, q: nat, d: Dense, dims: seq<int>)
    returns (grads': map<nat, Dense>)
    requires GradientsOk(w, root, grads) && q < |w.tensors| == |g| && q != root
    requires dims == Dims(w, q) && ValidDims(dims) && DenseOk(d, dims)
    requires AdjointsOk(g, Abstract(w, root, grads)) && g[q].dims == dims
    ensures GradientsOk(w, root, grads')
    ensures |Read(d.view, d.data)| == Numel(dims)
    ensures Abstract(w, root, grads') == Accumulate(g, Abstract(w, root, grads), q, Read(d.view, d.data))
  {
    var status, sum := AccumulateDense(if q in grads then Some(grads[q]) else None, d, dims);
    grads' := grads[q := sum];
    AbstractUpdate(w, root, grads, q, sum, dims);
    if q in grads {
      AbstractAt(w, root, grads, q, dims);
    }
  }

  lemma AbstractAt(w: World, root: nat, grads: map<nat, Dense>, q: nat, dims: seq<int>)
    requires GradientsOk(w, root, grads) && q in grads && q != root
    requires q < |w.tensors| && dims == Dims(w, q) && ValidDims(dims)
    ensures Abstract(w, root, grads)[q] == grads[q].data
  {
    CanonicalIsOk(grads[q], dims);
  }

  lemma AbstractUpdate(w: World, root: nat, grads: map<nat, Dense>, q: nat, d: Dense, dims: seq<int>)
    requires GradientsOk(w, root, grads) && q < |w.tensors| && dims == Dims(w, q) && ValidDims(dims)
    requires CanonicalDense(d, dims)
    ensures GradientsOk(w, root, grads[q := d])
    ensures Abstract(w, root, grads[q := d]) == Abstract(w, root, grads)[q := d.data]
  {
    CanonicalIsOk(d, dims);
    UpdateOk(w, root, grads, q, d);
    UpdateIs(w, root, grads, q, d);
  }

  lemma UpdateOk(w: World, root: nat, grads: map<nat, Dense>, q: nat, d: Dense)
    requires GradientsOk(w, root, grads) && q < |w.tensors|
    requires DenseOk(d, Dims(w, q)) && CanonicalDense(d, Dims(w, q))
    ensures GradientsOk(w, root, grads[q := d])
  {
  }

  lemma UpdateIs(w: World, root: nat, grads: map<nat, Dense>, q: nat, d: Dense)
    requires GradientsOk(w, root, grads) && GradientsOk(w, root, grads[q := d])
    requires d.view.WellFormed() && Read(d.view, d.data) == d.data
    ensures Abstract(w, root, grads[q := d]) == Abstract(w, root, grads)[q := d.data]
  {
    var before, after := Abstract(w, root, grads), Abstract(w, root, grads[q := d]);
    forall t | t in after ensures after[t] == before[q := d.data][t] {
      AbstractGet(w, root, grads[q := d], t);
      if t != q {
        AbstractGet(w, root, grads, t);
      }
    }
    SameMap(after, before[q := d.data]);
  }

  lemma AbstractGet(w: World, root: nat, grads: map<nat, Dense>, t: nat)
    requires GradientsOk(w, root, grads) && t in grads
    ensures grads[t].view.WellFormed() && Abstract(w, root, grads)[t] == Read(grads[t].view, grads[t].data)
  {
  }

  lemma SameMap(a: AdjointMap, b: AdjointMap)
    requires a.Keys == b.Keys && forall t :: t in a ==> a[t] == b[t]
    ensures a == b
  {
  }

  ghost predicate SameShapes(w: World, g: Graph) {
    |g| == |w.tensors| && forall i :: 0 <= i < |g| ==> g[i].dims == Dims(w, i) && ValidDims(g[i].dims)
  }

  lemma AbstractOk(w: World, g: Graph, root: nat, grads: map<nat, Dense>)
    requires GradientsOk(w, root, grads) && SameShapes(w, g)
    ensures AdjointsOk(g, Abstract(w, root, grads))
  {
    forall t | t in grads ensures |Abstract(w, root, grads)[t]| == Numel(g[t].dims) {
      ReadLength(grads[t].view, grads[t].data);
    }
  }

  method AccumulateAll(h: TensorHeap, ghost g: Graph, ghost root: nat, grads: map<nat, Dense>, list: seq<(nat, Dense)>)
    returns (grads': map<nat, Dense>)
    requires SameShapes(h.W(), g) && GradientsOk(h.W(), root, grads) && EntriesOk(h.W(), list)
    requires forall l :: 0 <= l < |list| ==> list[l].0 != root
    requires forall l :: 0 <= l < |list| ==> |Entries(h.W(), list)[l].1| == Numel(g[list[l].0].dims)
    ensures GradientsOk(h.W(), root, grads')
    ensures AdjointsOk(g, Abstract(h.W(), root, grads))
    ensures Abstract(h.W(), root, grads') == DeliverList(g, Abstract(h.W(), root, grads), Entries(h.W(), list))
  {
    ghost var w := h.W();
    AbstractOk(w, g, root, grads);
    ghost var entries := Entries(w, list);
    grads' := grads;
    assert entries[..0] == [];
    for l := 0 to |list|
      invariant GradientsOk(w, root, grads')
      invariant Abstract(w, root, grads') == DeliverList(g, Abstract(w, root, grads), entries[..l])
    {
      DeliverNext(g, Abstract(w, root, grads), entries, l);
      assert entries[l] == (list[l].0, Read(list[l].1.view, list[l].1.data));
      grads' := AccumulateOne(w, g, root, grads', list[l].0, list[l].1, h.tensors[list[l].0].view.dims);
    }
    assert entries[..|list|] == entries;
  }

  lemma DeliverNext(g: Graph, adj: AdjointMap, entries: seq<(nat, seq<real>)>, l: nat)
    requires AdjointsOk(g, adj) && l < |entries|
    requires forall l :: 0 <= l < |entries| ==> entries[l].0 < |g| && |entries[l].1| == Numel(g[entries[l].0].dims)
    ensures DeliverList(g, adj, entries[..l + 1])
         == Accumulate(g, DeliverList(g, adj, entries[..l]), entries[l].0, entries[l].1)
  {
    assert entries[..l + 1][..l] == entries[..l];
  }

  // ----- gradients do not change what the pass sees

  /** The pass sees the same recorded graph and the same nodes as fresh. */
  ghost predicate SeenAlike(w: World, w': World)
    requires TensorsOk(w) && TensorsOk(w')
  {
    && |w'.tensors| == |w.tensors| && Snapshot(w') == Snapshot(w)
    && forall i :: 0 <= i < |w.tensors| ==> (Fresh(w', i) <==> Fresh(w, i))
  }

  lemma GradientUnseen(w: World, t: nat, gradient: Option<Dense>)
    requires TensorsOk(w) && t in w.metas
    ensures SeenAlike(w, w.(metas := w.metas[t := w.metas[t].(gradient := gradient)]))
  {
    var w' := w.(metas := w.metas[t := w.metas[t].(gradient := gradient)]);
    forall i | 0 <= i < |w.tensors| ensures RoleOf(w', i) == RoleOf(w, i) && (Fresh(w', i) <==> Fresh(w, i)) {
      SameNode(w, t, gradient, i);
    }
    assert Snapshot(w') == Snapshot(w);
  }

  lemma SameNode(w: World, t: nat, gradient: Option<Dense>, i: nat)
    requires TensorsOk(w) && t in w.metas && i < |w.tensors|
    ensures var w' := w.(metas := w.metas[t := w.metas[t].(gradient := gradient)]);
            RoleOf(w', i) == RoleOf(w, i) && (Fresh(w', i) <==> Fresh(w, i))
  {
  }

  lemma LeafMeta(p: Primitives, w: World, t: nat)
    requires WorldOk(p, w) && t < |w.tensors| && RoleOf(w, t).Leaf?
    ensures t in w.metas && w.metas[t].isLeaf && w.metas[t].requiresGrad
    ensures w.metas[t].gradient.Some? ==> CanonicalDense(w.metas[t].gradient.value, Dims(w, t))
    ensures ValidDims(Dims(w, t))
  {
    assert MetaOk(p, w, t, w.metas[t]);
    assert TensorOk(w, w.tensors[t]);
  }

  /** Add an adjoint to a leaf's gradient. */
  method AccumulateLeaf(h: TensorHeap, t: nat, upstream: Dense)
    requires h.Valid() && Alive(h.counts, t) && t < |h.tensors| && RoleOf(h.W(), t).Leaf? && DenseOk(upstream, Dims(h.W(), t))
    modifies h`metas, h`liveBytes, h`history
    ensures old(h.history) <= h.history
    ensures h.Valid() && t in old(h.metas)
    ensures |Read(upstream.view, upstream.data)| == Numel(Dims(h.W(), t))
    ensures old(h.metas)[t].gradient.Some? ==> |old(h.metas)[t].gradient.value.data| == Numel(Dims(h.W(), t))
    ensures h.metas == old(h.metas)[t := old(h.metas)[t].(gradient :=
              Some(Plus(old(h.metas)[t].gradient, Dims(h.W(), t), Read(upstream.view, upstream.data))))]
  {
    LeafMeta(h.p, h.W(), t);
    ReadLength(upstream.view, upstream.data);
    var meta := h.metas[t];
    var status, sum := AccumulateDense(meta.gradient, upstream, h.tensors[t].view.dims);
    assert MetaOk(h.p, h.W(), t, meta);
    h.SetMeta(t, meta.(gradient := Some(sum)));
  }

  // ----- one step of the sweep

  ghost predicate AllFresh(w: World, topo: seq<nat>)
    requires TensorsOk(w) && forall j :: 0 <= j < |topo| ==> topo[j] < |w.tensors|
  {
    forall j :: 0 <= j < |topo| ==> Fresh(w, topo[j])
  }

  /** Every listed tensor is alive and its saved versions are current. */
  ghost predicate Ready(h: TensorHeap, topo: seq<nat>)
    requires TensorsOk(h.W()) && forall j :: 0 <= j < |topo| ==> topo[j] < |h.tensors|
    reads h
  {
    AllFresh(h.W(), topo) && forall j :: 0 <= j < |topo| ==> Alive(h.counts, topo[j])
  }

  /** Deliver the contributions of `t`, if it was computed and has an adjoint. */
  method Propagate(h: TensorHeap, ghost g: Graph, root: nat, t: nat, grads: map<nat, Dense>) returns (grads': map<nat, Dense>)
    requires h.Valid() && t <= root < |h.tensors| && g == Snapshot(h.W()) && Fresh(h.W(), t)
    requires SameShapes(h.W(), g) && GradientsOk(h.W(), root, grads)
    ensures GraphOk(g) && GradientsOk(h.W(), root, grads') && AdjointsOk(g, Abstract(h.W(), root, grads))
    ensures Abstract(h.W(), root, grads') == Step(h.p, g, t, Abstract(h.W(), root, grads))
  {
    SnapshotOk(h.p, h.W());
    AbstractOk(h.W(), g, root, grads);
    ComputedAt(h.W(), g, t);
    StepCases(h.p, g, t, Abstract(h.W(), root, grads));
    if t !in grads || t !in h.metas || h.metas[t].gradFn.None? {
      return grads;
    }
    grads' := PropagateNode(h, g, root, t, grads);
  }

  lemma StepCases(p: Primitives, g: Graph, t: nat, adj: AdjointMap)
    requires GraphOk(g) && AdjointsOk(g, adj) && t < |g|
    ensures Step(p, g, t, adj) == if t in adj && g[t].role.Computed? then Deliver(p, g, t, adj[t], 0, adj) else adj
  {
  }

  lemma ComputedAt(w: World, g: Graph, t: nat)
    requires TensorsOk(w) && g == Snapshot(w) && t < |g|
    ensures g[t].role.Computed? <==> t in w.metas && w.metas[t].gradFn.Some?
  {
  }

  method PropagateNode(h: TensorHeap, ghost g: Graph, ghost root: nat, t: nat, grads: map<nat, Dense>)
    returns (grads': map<nat, Dense>)
    requires h.Valid() && t <= root < |h.tensors| && g == Snapshot(h.W()) && Fresh(h.W(), t) && RoleOf(h.W(), t).Computed?
    requires SameShapes(h.W(), g) && GradientsOk(h.W(), root, grads) && t in grads
    requires GraphOk(g) && g[t].role.Computed? && AdjointsOk(g, Abstract(h.W(), root, grads))
    ensures GradientsOk(h.W(), root, grads')
    ensures var adj := Abstract(h.W(), root, grads); Abstract(h.W(), root, grads') == Deliver(h.p, g, t, adj[t], 0, adj)
  {
    var status, list := ApplyNode(h, g, t, grads[t]);
    grads' := DeliverContributions(h, g, root, t, grads, list, Read(grads[t].view, grads[t].data));
  }

  method DeliverContributions(h: TensorHeap, ghost g: Graph, ghost root: nat, ghost t: nat, grads: map<nat, Dense>,
                              list: seq<(nat, Dense)>, ghost a: seq<real>) returns (grads': map<nat, Dense>)
    requires GraphOk(g) && t < |g| && t <= root && g[t].role.Computed? && |a| == Numel(g[t].dims)
    requires SameShapes(h.W(), g) && GradientsOk(h.W(), root, grads) && AdjointsOk(g, Abstract(h.W(), root, grads))
    requires EntriesOk(h.W(), list) && Entries(h.W(), list) == ContributionsTo(h.p, g, t, a, |Operands(g, t)|)
    ensures GradientsOk(h.W(), root, grads')
    ensures Abstract(h.W(), root, grads') == Deliver(h.p, g, t, a, 0, Abstract(h.W(), root, grads))
  {
    ListIsDownward(h.p, h.W(), g, t, a, list, root);
    grads' := AccumulateAll(h, g, root, grads, list);
    DeliverIsList(h.p, g, t, a, Abstract(h.W(), root, grads));
  }

  lemma ListIsDownward(p: Primitives, w: World, g: Graph, t: nat, a: seq<real>, list: seq<(nat, Dense)>, root: nat)
    requires GraphOk(g) && t < |g| && g[t].role.Computed? && |a| == Numel(g[t].dims) && t <= root
    requires EntriesOk(w, list) && Entries(w, list) == ContributionsTo(p, g, t, a, |Operands(g, t)|)
    ensures forall l :: 0 <= l < |list| ==> list[l].0 != root && list[l].0 < |g|
    ensures forall l :: 0 <= l < |list| ==> |Entries(w, list)[l].1| == Numel(g[list[l].0].dims)
  {
    var c := ContributionsTo(p, g, t, a, |Operands(g, t)|);
    forall l | 0 <= l < |list|
      ensures list[l].0 < t && |Entries(w, list)[l].1| == Numel(g[list[l].0].dims)
    {
      assert c[l].0 == list[l].0;
    }
  }

  /** Publish an adjoint if `t` is a leaf that requires gradients. */
  method PublishLeaf(h: TensorHeap, ghost g: Graph, t: nat, upstream: Dense)
    requires h.Valid() && Alive(h.counts, t) && t < |h.tensors| && g == Snapshot(h.W()) && DenseOk(upstream, Dims(h.W(), t))
    modifies h`metas, h`liveBytes, h`history
    ensures old(h.history) <= h.history
    ensures h.Valid() && |Read(upstream.view, upstream.data)| == Numel(g[t].dims)
    ensures SeenAlike(old(h.W()), h.W())
    ensures h.metas == if !g[t].role.Leaf? then old(h.metas)
                       else PublishedAt(g, old(h.metas), t, Read(upstream.view, upstream.data))
    ensures g[t].role.Leaf? ==> t in old(h.metas)
  {
    ReadLength(upstream.view, upstream.data);
    if t in h.metas {
      assert MetaOk(h.p, h.W(), t, h.metas[t]);
      if h.metas[t].requiresGrad && h.metas[t].isLeaf {
        ghost var w := h.W();
        AccumulateLeaf(h, t, upstream);
        GradientUnseen(w, t, h.metas[t].gradient);
      }
    }
  }

  ghost function PublishedAt(g: Graph, metas: map<nat, Meta>, t: nat, a: seq<real>): map<nat, Meta>
    requires t < |g|
  {
    if t in metas && (metas[t].gradient.Some? ==> |metas[t].gradient.value.data| == |a|)
    then metas[t := metas[t].(gradient := Some(Plus(metas[t].gradient, g[t].dims, a)))]
    else metas
  }

  lemma SameAdjoints(w: World, metas: map<nat, Meta>, root: nat, grads: map<nat, Dense>)
    requires GradientsOk(w, root, grads)
    ensures GradientsOk(w.(metas := metas), root, grads)
    ensures Abstract(w.(metas := metas), root, grads) == Abstract(w, root, grads)
  {
    forall t | t in grads ensures Dims(w.(metas := metas), t) == Dims(w, t) {
    }
  }

  /** Process one tensor: publish into it if it is a leaf, deliver its contributions if it
      was computed. */
  method Visit(h: TensorHeap, ghost g: Graph, root: nat, t: nat, grads: map<nat, Dense>) returns (grads': map<nat, Dense>)
    requires h.Valid() && t <= root < |h.tensors| && g == Snapshot(h.W()) && Fresh(h.W(), t) && Alive(h.counts, t)
    requires SameShapes(h.W(), g) && GradientsOk(h.W(), root, grads)
    modifies h`metas, h`liveBytes, h`history
    ensures old(h.history) <= h.history
    ensures h.Valid() && GraphOk(g)
    ensures SeenAlike(old(h.W()), h.W())
    ensures GradientsOk(old(h.W()), root, grads') && AdjointsOk(g, Abstract(old(h.W()), root, grads))
    ensures Abstract(old(h.W()), root, grads') == Step(h.p, g, t, Abstract(old(h.W()), root, grads))
    ensures h.metas == if t in grads && g[t].role.Leaf?
                       then PublishedAt(g, old(h.metas), t, Abstract(old(h.W()), root, grads)[t]) else old(h.metas)
  {
    ghost var w := h.W();
    if t in grads {
      PublishLeaf(h, g, t, grads[t]);
    }
    assert h.W() == w.(metas := h.metas);
    SameAdjoints(w, h.metas, root, grads);
    grads' := Propagate(h, g, root, t, grads);
    SameAdjoints(h.W(), w.metas, root, grads');
    assert w == h.W().(metas := w.metas);
  }

  // ----- the whole pass

  /** The state of the sweep when the tensors from position `pos` on are done. */
  ghost predicate Swept(p: Primitives, w0: World, metas: map<nat, Meta>, g: Graph, root: nat, topo: seq<nat>,
                        grads: map<nat, Dense>, final: AdjointMap, pos: nat)
    requires GraphOk(g) && AdjointsOk(g, final) && GradientsFit(g, w0.metas) && pos <= |topo|
    requires forall j :: 0 <= j < |topo| ==> topo[j] < |g|
  {
    && GradientsOk(w0, root, grads) && AdjointsOk(g, Abstract(w0, root, grads))
    && Sweep(p, g, topo[..pos], Abstract(w0, root, grads)) == final
    && Published(g, final, w0.metas, metas, topo[pos..])
  }

  lemma SweptStep(p: Primitives, w0: World, metas: map<nat, Meta>, metas': map<nat, Meta>, g: Graph, root: nat,
                  topo: seq<nat>, grads: map<nat, Dense>, grads': map<nat, Dense>, final: AdjointMap, pos: nat)
    requires GraphOk(g) && AdjointsOk(g, final) && GradientsFit(g, w0.metas) && pos < |topo| && Ordered(g, topo)
    requires Swept(p, w0, metas, g, root, topo, grads, final, pos + 1)
    requires GradientsOk(w0, root, grads')
    requires Abstract(w0, root, grads') == Step(p, g, topo[pos], Abstract(w0, root, grads))
    requires metas' == if topo[pos] in grads && g[topo[pos]].role.Leaf?
                       then PublishedAt(g, metas, topo[pos], Abstract(w0, root, grads)[topo[pos]]) else metas
    ensures Swept(p, w0, metas', g, root, topo, grads', final, pos)
  {
    LastOfSweep(p, g, topo, Abstract(w0, root, grads), final, pos);
    assert topo[pos..] == [topo[pos]] + topo[pos + 1..];
    PublishedStep(g, final, w0.metas, metas, metas', topo[pos], topo[pos + 1..]);
  }

  /** The last tensor still to be processed has its final adjoint. */
  lemma LastOfSweep(p: Primitives, g: Graph, topo: seq<nat>, adj: AdjointMap, final: AdjointMap, pos: nat)
    requires GraphOk(g) && AdjointsOk(g, adj) && pos < |topo| && Ordered(g, topo)
    requires Sweep(p, g, topo[..pos + 1], adj) == final
    ensures Sweep(p, g, topo[..pos], Step(p, g, topo[pos], adj)) == final
    ensures SameAt(final, adj, topo[pos]) && topo[pos] !in topo[pos + 1..]
  {
    var now := topo[..pos + 1];
    assert now[..pos] == topo[..pos] && now[pos] == topo[pos];
    OrderedPrefix(g, topo, pos + 1);
    AdjointFinal(p, g, now, adj);
  }

  lemma PublishedStep(g: Graph, final: AdjointMap, before: map<nat, Meta>, metas: map<nat, Meta>,
                      metas': map<nat, Meta>, t: nat, done: seq<nat>)
    requires AdjointsOk(g, final) && GradientsFit(g, before) && Published(g, final, before, metas, done)
    requires t < |g| && t !in done
    requires metas' == if t in final && g[t].role.Leaf? then PublishedAt(g, metas, t, final[t]) else metas
    ensures Published(g, final, before, metas', [t] + done)
  {
    forall i | i in before
      ensures metas'[i] == if i in [t] + done && i in final && g[i].role.Leaf?
                           then before[i].(gradient := Some(Plus(before[i].gradient, g[i].dims, final[i])))
                           else before[i]
    {
    }
  }

  method ValidateOne(h: TensorHeap, i: nat) returns (status: Status)
    requires h.Valid() && i < |h.tensors|
    ensures status.Ok? <==> Fresh(h.W(), i)
    ensures !status.Ok? ==> status == Error(InvalidArgument)
  {
    status := ValidateSavedVersions(h, i);
  }

  /** Validation of every saved version before anything is published. */
  method ValidateAll(h: TensorHeap, topo: seq<nat>) returns (status: Status)
    requires h.Valid() && forall j :: 0 <= j < |topo| ==> topo[j] < |h.tensors|
    ensures status.Ok? <==> AllFresh(h.W(), topo)
    ensures !status.Ok? ==> status == Error(InvalidArgument)
  {
    for j := 0 to |topo|
      invariant forall l :: 0 <= l < j ==> Fresh(h.W(), topo[l])
    {
      var one := ValidateOne(h, topo[j]);
      if !one.Ok? {
        return one;
      }
    }
    status := Ok;
  }

  lemma StartShapes(p: Primitives, w: World, g: Graph)
    requires WorldOk(p, w) && g == Snapshot(w)
    ensures SameShapes(w, g)
  {
    forall i | 0 <= i < |w.tensors| ensures TensorOk(w, w.tensors[i]) {
    }
  }

  lemma StartGradients(p: Primitives, w: World, g: Graph)
    requires WorldOk(p, w) && SameShapes(w, g)
    ensures GradientsFit(g, w.metas)
  {
    forall t | t in w.metas && w.metas[t].gradient.Some?
      ensures t < |g| && |w.metas[t].gradient.value.data| == Numel(g[t].dims)
    {
      assert MetaOk(p, w, t, w.metas[t]);
    }
  }

  /** The adjoint tensors before the sweep: the root's alone. */
  function Single(root: nat, seed: Dense): map<nat, Dense> {
    map[root := seed]
  }

  lemma SeedAdjoint(w: World, root: nat, seed: Dense)
    requires root < |w.tensors| && TensorOk(w, w.tensors[root]) && Numel(Dims(w, root)) == 1
    requires seed == Dense(w.tensors[root].view, [1.0])
    ensures GradientsOk(w, root, Single(root, seed))
    ensures Abstract(w, root, Single(root, seed)) == map[root := [1.0]]
  {
    assert seed.data == seq(1, _ => 1.0);
    ConstantRead(seed.view, 1.0, 1);
    SingleOk(w, root, seed);
    SingleAdjoint(w, root, seed, [1.0]);
  }

  lemma SingleOk(w: World, root: nat, seed: Dense)
    requires root < |w.tensors| && DenseOk(seed, Dims(w, root))
    ensures GradientsOk(w, root, Single(root, seed))
  {
    forall t | t in Single(root, seed) ensures t == root && Single(root, seed)[t] == seed {
    }
  }

  lemma SingleAdjoint(w: World, root: nat, seed: Dense, a: seq<real>)
    requires GradientsOk(w, root, Single(root, seed)) && seed.view.WellFormed() && Read(seed.view, seed.data) == a
    ensures Abstract(w, root, Single(root, seed)) == map[root := a]
  {
    AbstractGet(w, root, Single(root, seed), root);
    OneEntry(Abstract(w, root, Single(root, seed)), root, a);
  }

  lemma OneEntry(adj: AdjointMap, root: nat, a: seq<real>)
    requires adj.Keys == {root} && adj[root] == a
    ensures adj == map[root := a]
  {
  }

  lemma StartOfSweep(p: Primitives, w: World, g: Graph, root: nat, topo: seq<nat>, seed: Dense)
    requires GraphOk(g) && SameShapes(w, g) && GradientsFit(g, w.metas) && root < |g|
    requires TensorOk(w, w.tensors[root]) && Numel(Dims(w, root)) == 1
    requires forall j :: 0 <= j < |topo| ==> topo[j] < |g|
    requires seed == Dense(w.tensors[root].view, [1.0])
    ensures Swept(p, w, w.metas, g, root, topo, Single(root, seed), BackwardAdjoints(p, g, topo, root), |topo|)
  {
    SeedAdjoint(w, root, seed);
    SeedFits(g, root);
    assert topo[..|topo|] == topo;
    NothingPublished(g, BackwardAdjoints(p, g, topo, root), w.metas, topo[|topo|..]);
  }

  lemma SeedFits(g: Graph, root: nat)
    requires root < |g| && Numel(g[root].dims) == 1
    ensures AdjointsOk(g, map[root := [1.0]])
  {
  }

  lemma NothingPublished(g: Graph, adj: AdjointMap, metas: map<nat, Meta>, done: seq<nat>)
    requires AdjointsOk(g, adj) && GradientsFit(g, metas) && done == []
    ensures Published(g, adj, metas, metas, done)
  {
  }

  /** The reverse sweep over a validated topology. */
  method SweepBack(h: TensorHeap, ghost g: Graph, root: nat, topo: seq<nat>)
    requires h.Valid() && root < |h.tensors| && g == Snapshot(h.W()) && GraphOk(g)
    requires Topology(g, topo, root) && Ready(h, topo) && Numel(Dims(h.W(), root)) == 1
    requires forall j :: 0 <= j < |topo| ==> topo[j] <= root
    modifies h`metas, h`liveBytes, h`history
    ensures old(h.history) <= h.history
    ensures h.Valid() && GradientsFit(g, old(h.metas))
    ensures Published(g, BackwardAdjoints(h.p, g, topo, root), old(h.metas), h.metas, topo)
  {
    ghost var w0 := h.W();
    var seed := Dense(h.tensors[root].view, [1.0]);
    var start := Single(root, seed);
    StartShapes(h.p, w0, g);
    StartGradients(h.p, w0, g);
    assert TensorOk(w0, h.tensors[root]);
    StartOfSweep(h.p, w0, g, root, topo, seed);
    SweepFrom(h, g, w0, root, topo, start, BackwardAdjoints(h.p, g, topo, root));
  }

  method SweepFrom(h: TensorHeap, ghost g: Graph, ghost w0: World, root: nat, topo: seq<nat>,
                   start: map<nat, Dense>, ghost final: AdjointMap)
    requires h.Valid() && root < |h.tensors| && h.W() == w0 && g == Snapshot(w0)
    requires GraphOk(g) && AdjointsOk(g, final) && SameShapes(w0, g) && GradientsFit(g, w0.metas) && Ordered(g, topo)
    requires (forall j :: 0 <= j < |topo| ==> topo[j] <= root) && Ready(h, topo)
    requires Swept(h.p, w0, w0.metas, g, root, topo, start, final, |topo|)
    modifies h`metas, h`liveBytes, h`history
    ensures old(h.history) <= h.history
    ensures h.Valid() && Published(g, final, w0.metas, h.metas, topo)
  {
    var grads := start;
    var pos := |topo|;
    while pos > 0
      invariant 0 <= pos <= |topo|
      invariant h.Valid() && h.W() == w0.(metas := h.metas) && Snapshot(h.W()) == g
      invariant old(h.history) <= h.history
      invariant Ready(h, topo)
      invariant Swept(h.p, w0, h.metas, g, root, topo, grads, final, pos)
    {
      pos := pos - 1;
      grads := SweepOne(h, g, w0, root, topo, pos, grads, final);
    }
    assert topo[0..] == topo;
  }

  /** A changed gradient changes neither shapes nor pending adjoints. */
  lemma SweepView(w0: World, w: World, g: Graph, root: nat, grads: map<nat, Dense>)
    requires w == w0.(metas := w.metas) && SameShapes(w0, g) && GradientsOk(w0, root, grads)
    ensures SameShapes(w, g) && GradientsOk(w, root, grads)
    ensures Abstract(w, root, grads) == Abstract(w0, root, grads)
  {
    SameAdjoints(w0, w.metas, root, grads);
  }

  lemma StillReady(h: TensorHeap, w: World, topo: seq<nat>)
    requires TensorsOk(w) && TensorsOk(h.W()) && SeenAlike(w, h.W())
    requires forall j :: 0 <= j < |topo| ==> topo[j] < |w.tensors| && Alive(h.counts, topo[j])
    requires AllFresh(w, topo)
    ensures Ready(h, topo)
  {
  }

  method SweepOne(h: TensorHeap, ghost g: Graph, ghost w0: World, root: nat, topo: seq<nat>, pos: nat,
                  grads: map<nat, Dense>, ghost final: AdjointMap) returns (grads': map<nat, Dense>)
    requires h.Valid() && root < |h.tensors| && h.W() == w0.(metas := h.metas) && Snapshot(h.W()) == g
    requires GraphOk(g) && AdjointsOk(g, final) && GradientsFit(g, w0.metas) && Ordered(g, topo)
    requires pos < |topo| && (forall j :: 0 <= j < |topo| ==> topo[j] <= root) && Ready(h, topo)
    requires SameShapes(w0, g) && Swept(h.p, w0, h.metas, g, root, topo, grads, final, pos + 1)
    modifies h`metas, h`liveBytes, h`history
    ensures old(h.history) <= h.history
    ensures h.Valid() && h.W() == w0.(metas := h.metas) && Snapshot(h.W()) == g && Ready(h, topo)
    ensures Swept(h.p, w0, h.metas, g, root, topo, grads', final, pos)
  {
    ghost var w := h.W();
    SweepView(w0, w, g, root, grads);
    assert Fresh(w, topo[pos]) && Alive(h.counts, topo[pos]);
    grads' := Visit(h, g, root, topo[pos], grads);
    assert h.W() == w0.(metas := h.metas);
    StillReady(h, w, topo);
    SweptVisit(h.p, w0, w, h.metas, g, root, topo, grads, grads', final, pos);
  }

  /** A visit, seen from the world before the sweep. */
  lemma SweptVisit(p: Primitives, w0: World, w: World, metas': map<nat, Meta>, g: Graph, root: nat, topo: seq<nat>,
                   grads: map<nat, Dense>, grads': map<nat, Dense>, final: AdjointMap, pos: nat)
    requires GraphOk(g) && AdjointsOk(g, final) && GradientsFit(g, w0.metas) && pos < |topo| && Ordered(g, topo)
    requires w == w0.(metas := w.metas) && Swept(p, w0, w.metas, g, root, topo, grads, final, pos + 1)
    requires GradientsOk(w, root, grads) && AdjointsOk(g, Abstract(w, root, grads)) && GradientsOk(w, root, grads')
    requires Abstract(w, root, grads') == Step(p, g, topo[pos], Abstract(w, root, grads))
    requires metas' == if topo[pos] in grads && g[topo[pos]].role.Leaf?
                       then PublishedAt(g, w.metas, topo[pos], Abstract(w, root, grads)[topo[pos]]) else w.metas
    ensures Swept(p, w0, metas', g, root, topo, grads', final, pos)
  {
    SameAdjoints(w, w0.metas, root, grads);
    SameAdjoints(w, w0.metas, root, grads');
    assert w.(metas := w0.metas) == w0;
    SweptStep(p, w0, w.metas, metas', g, root, topo, grads, grads', final, pos);
  }

  ghost predicate AllDependenciesFresh(w: World, g: Graph, root: nat)
    requires TensorsOk(w) && GraphOk(g) && |g| == |w.tensors| && root < |g|
  {
    forall i :: 0 <= i < |g| && DependsOn(g, root, i) ==> Fresh(w, i)
  }

  lemma FreshTopology(w: World, g: Graph, root: nat, topo: seq<nat>)
    requires TensorsOk(w) && GraphOk(g) && |g| == |w.tensors| && root < |g| && Topology(g, topo, root)
    ensures AllFresh(w, topo) <==> AllDependenciesFresh(w, g, root)
  {
    TopologyIsDependence(g, topo, root);
    if AllFresh(w, topo) {
      forall i | 0 <= i < |g| && DependsOn(g, root, i) ensures Fresh(w, i) {
        var j :| 0 <= j < |topo| && topo[j] == i;
      }
    }
    if AllDependenciesFresh(w, g, root) {
      forall j | 0 <= j < |topo| ensures Fresh(w, topo[j]) {
        assert topo[j] in topo;
      }
    }
  }

  /** Everything a held root depends on is alive. */
  lemma ListedAlive(p: Primitives, w: World, g: Graph, l: Ledger, m: Marks, root: nat, topo: seq<nat>)
    requires WorldOk(p, w) && g == Snapshot(w) && GraphOk(g) && Books(p, w, l, m)
    requires root in m.held && root < |g| && Topology(g, topo, root)
    ensures forall j :: 0 <= j < |topo| ==> Alive(l.counts, topo[j])
  {
    TopologyIsDependence(g, topo, root);
    forall j | 0 <= j < |topo| ensures Alive(l.counts, topo[j]) {
      assert topo[j] in topo;
      Ownership.DependenceAlive(p, w, g, l, m, root, topo[j]);
    }
  }

  /** One backward pass from `root`.  It succeeds exactly for a one-element root that
      requires gradients and whose dependencies' saved versions are all current; then each
      leaf the root depends on gains its adjoint, once.  Otherwise nothing changes. */
  method BackwardFrom(h: TensorHeap, root: nat) returns (status: Status, topo: seq<nat>)
    requires h.Valid() && h.Holds(root)
    modifies h`metas, h`liveBytes, h`history
    ensures h.Continues(old(h.M()))
    ensures h.Valid() && GraphOk(Snapshot(old(h.W())))
    ensures status.Ok? <==> Numel(Dims(old(h.W()), root)) == 1 && RequiresGrad(old(h.W()), root)
                            && AllDependenciesFresh(old(h.W()), Snapshot(old(h.W())), root)
    ensures !status.Ok? ==> h.W() == old(h.W())
    ensures status.Error? ==> status.kind == if Numel(Dims(old(h.W()), root)) != 1 then InvalidShape else InvalidArgument
    ensures status.Ok? ==>
              var g := Snapshot(old(h.W()));
              Topology(g, topo, root) && GradientsFit(g, old(h.metas)) &&
              Published(g, BackwardAdjoints(h.p, g, topo, root), old(h.metas), h.metas, topo)
  {
    topo := [];
    ghost var g := Snapshot(h.W());
    SnapshotOk(h.p, h.W());
    if Numel(h.tensors[root].view.dims) != 1 {
      return Error(InvalidShape), topo;
    }
    var needed := h.RequiresGrad(root);
    if !needed {
      return Error(InvalidArgument), topo;
    }
    topo := TopologyOf(h, root);
    FreshTopology(h.W(), g, root, topo);
    status := ValidateAll(h, topo);
    if status.Ok? {
      ListedAlive(h.p, h.W(), g, h.L(), h.M(), root, topo);
      SweepBack(h, g, root, topo);
    }
  }
}
