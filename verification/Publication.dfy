/** What a backward pass leaves behind: adjoint tensors, contribution lists, and the leaf
    gradients it publishes. */
module Publication {
  import opened RealSums
  import opened Shapes
  import opened Layouts
  import opened ViewChains
  import opened Calculus
  import opened Graphs
  import opened GraphFacts
  import opened Worlds

  // ----- adjoint tensors

  /** A gradient tensor of a given shape, with full-extent storage of its own. */
  ghost predicate DenseOk(d: Dense, dims: seq<int>) {
    Regular(d.view) && d.view.WellFormed() && d.view.dims == dims && |d.data| == Numel(dims)
  }

  lemma CanonicalIsOk(d: Dense, dims: seq<int>)
    requires CanonicalDense(d, dims) && ValidDims(dims)
    ensures DenseOk(d, dims) && Read(d.view, d.data) == d.data
  {
    CanonicalWellFormed(dims);
    ReadContiguous(d.view, d.data);
  }

  /** The adjoint tensors of a sweep: canonical except possibly the root's seed, which keeps
      the root's strides. */
  ghost predicate GradientsOk(w: World, root: nat, grads: map<nat, Dense>) {
    forall t :: t in grads ==>
      t < |w.tensors| && DenseOk(grads[t], Dims(w, t)) && (t != root ==> CanonicalDense(grads[t], Dims(w, t)))
  }

  ghost function Abstract(w: World, root: nat, grads: map<nat, Dense>): (adj: AdjointMap)
    requires GradientsOk(w, root, grads)
    ensures adj.Keys == grads.Keys
  {
    map t | t in grads :: Read(grads[t].view, grads[t].data)
  }

  // ----- contribution lists

  /** The first `k` operands' contributions, leaving out operands without gradients. */
  function ContributionsTo(p: Primitives, g: Graph, i: nat, upstream: seq<real>, k: nat): (c: seq<(nat, seq<real>)>)
    requires GraphOk(g) && i < |g| && g[i].role.Computed? && k <= |Operands(g, i)|
    requires |upstream| == Numel(g[i].dims)
    ensures forall l :: 0 <= l < |c| ==> c[l].0 < i && |c[l].1| == Numel(g[c[l].0].dims)
  {
    if k == 0 then []
    else
      var q := Operands(g, i)[k - 1];
      var c := Contribution(p, g, i, upstream, k - 1);
      ContributionsTo(p, g, i, upstream, k - 1) + if g[q].role.Constant? then [] else [(q, c)]
  }

  /** Accumulate a list of contributions in order. */
  function DeliverList(g: Graph, adj: AdjointMap, list: seq<(nat, seq<real>)>): (r: AdjointMap)
    requires AdjointsOk(g, adj)
    requires forall l :: 0 <= l < |list| ==> list[l].0 < |g| && |list[l].1| == Numel(g[list[l].0].dims)
    ensures AdjointsOk(g, r)
  {
    if |list| == 0 then adj
    else
      var last := |list| - 1;
      Accumulate(g, DeliverList(g, adj, list[..last]), list[last].0, list[last].1)
  }

  lemma NextContribution(p: Primitives, g: Graph, i: nat, upstream: seq<real>, k: nat, adj: AdjointMap)
    requires GraphOk(g) && i < |g| && g[i].role.Computed? && k < |Operands(g, i)|
    requires |upstream| == Numel(g[i].dims) && AdjointsOk(g, adj)
    ensures var q, c := Operands(g, i)[k], Contribution(p, g, i, upstream, k);
            DeliverList(g, adj, ContributionsTo(p, g, i, upstream, k + 1))
            == if g[q].role.Constant? then DeliverList(g, adj, ContributionsTo(p, g, i, upstream, k))
               else Accumulate(g, DeliverList(g, adj, ContributionsTo(p, g, i, upstream, k)), q, c)
  {
    var list, next := ContributionsTo(p, g, i, upstream, k), ContributionsTo(p, g, i, upstream, k + 1);
    var q, c := Operands(g, i)[k], Contribution(p, g, i, upstream, k);
    if g[q].role.Constant? {
      assert next == list;
    } else {
      DeliverLast(g, adj, list, next, q, c);
    }
  }

  lemma DeliverLast(g: Graph, adj: AdjointMap, list: seq<(nat, seq<real>)>, next: seq<(nat, seq<real>)>, q: nat, c: seq<real>)
    requires AdjointsOk(g, adj) && next == list + [(q, c)]
    requires forall l :: 0 <= l < |next| ==> next[l].0 < |g| && |next[l].1| == Numel(g[next[l].0].dims)
    requires forall l :: 0 <= l < |list| ==> list[l].0 < |g| && |list[l].1| == Numel(g[list[l].0].dims)
    ensures q < |g| && |c| == Numel(g[q].dims)
    ensures DeliverList(g, adj, next) == Accumulate(g, DeliverList(g, adj, list), q, c)
  {
    assert next[|list|] == (q, c) && next[..|next| - 1] == list;
  }

  lemma DeliverUnfolds(p: Primitives, g: Graph, i: nat, upstream: seq<real>, k: nat, a: AdjointMap)
    requires GraphOk(g) && i < |g| && g[i].role.Computed? && k < |Operands(g, i)|
    requires |upstream| == Numel(g[i].dims) && AdjointsOk(g, a)
    ensures var q, c := Operands(g, i)[k], Contribution(p, g, i, upstream, k);
            Deliver(p, g, i, upstream, k, a)
            == Deliver(p, g, i, upstream, k + 1, if g[q].role.Constant? then a else Accumulate(g, a, q, c))
  {
  }

  lemma DeliverStep(p: Primitives, g: Graph, i: nat, upstream: seq<real>, k: nat, adj: AdjointMap)
    requires GraphOk(g) && i < |g| && g[i].role.Computed? && k < |Operands(g, i)|
    requires |upstream| == Numel(g[i].dims) && AdjointsOk(g, adj)
    ensures Deliver(p, g, i, upstream, k, DeliverList(g, adj, ContributionsTo(p, g, i, upstream, k)))
         == Deliver(p, g, i, upstream, k + 1, DeliverList(g, adj, ContributionsTo(p, g, i, upstream, k + 1)))
  {
    NextContribution(p, g, i, upstream, k, adj);
    DeliverUnfolds(p, g, i, upstream, k, DeliverList(g, adj, ContributionsTo(p, g, i, upstream, k)));
  }

  lemma {:induction false} DeliverFrom(p: Primitives, g: Graph, i: nat, upstream: seq<real>, k: nat, adj: AdjointMap,
                                       start: AdjointMap)
    requires GraphOk(g) && i < |g| && g[i].role.Computed? && k <= |Operands(g, i)|
    requires |upstream| == Numel(g[i].dims) && AdjointsOk(g, adj)
    requires start == Deliver(p, g, i, upstream, 0, adj)
    ensures start == Deliver(p, g, i, upstream, k, DeliverList(g, adj, ContributionsTo(p, g, i, upstream, k)))
  {
    if k != 0 {
      DeliverFrom(p, g, i, upstream, k - 1, adj, start);
      DeliverStep(p, g, i, upstream, k - 1, adj);
    }
  }

  /** Collecting contributions first and accumulating them afterwards is delivery. */
  lemma DeliverIsList(p: Primitives, g: Graph, i: nat, upstream: seq<real>, adj: AdjointMap)
    requires GraphOk(g) && i < |g| && g[i].role.Computed?
    requires |upstream| == Numel(g[i].dims) && AdjointsOk(g, adj)
    ensures Deliver(p, g, i, upstream, 0, adj)
         == DeliverList(g, adj, ContributionsTo(p, g, i, upstream, |Operands(g, i)|))
  {
    DeliverFrom(p, g, i, upstream, |Operands(g, i)|, adj, Deliver(p, g, i, upstream, 0, adj));
  }

  // ----- published gradients

  /** The accumulated gradient after adding `a`; the first one starts it. */
  function Plus(old_: Option<Dense>, dims: seq<int>, a: seq<real>): Dense
    requires old_.Some? ==> |old_.value.data| == |a|
  {
    Dense(Canonical(dims), if old_.Some? then VAdd(old_.value.data, a) else a)
  }

  ghost predicate GradientsFit(g: Graph, metas: map<nat, Meta>) {
    forall t :: t in metas && metas[t].gradient.Some? ==>
      t < |g| && |metas[t].gradient.value.data| == Numel(g[t].dims)
  }

  /** Exactly the leaves among `done` that have an adjoint gain it; everything else about
      every tensor's metadata is as before. */
  ghost predicate Published(g: Graph, adj: AdjointMap, before: map<nat, Meta>, after: map<nat, Meta>, done: seq<nat>)
    requires AdjointsOk(g, adj) && GradientsFit(g, before)
  {
    && after.Keys == before.Keys
    && forall t :: t in before ==>
         after[t] == if t in done && t in adj && g[t].role.Leaf?
                     then before[t].(gradient := Some(Plus(before[t].gradient, g[t].dims, adj[t])))
                     else before[t]
  }

  /** Leaf gradients paired with tangents; a missing gradient counts as zero. */
  ghost function GradientPairing(g: Graph, metas: map<nat, Meta>, seed: seq<seq<real>>, n: nat): real
    requires |seed| == |g| && n <= |g|
  {
    if n == 0 then 0.0
    else GradientPairing(g, metas, seed, n - 1) + PairingTerm(g, metas, seed[n - 1], n - 1)
  }

  lemma {:induction false} PublishedPairing(g: Graph, adj: AdjointMap, before: map<nat, Meta>, after: map<nat, Meta>,
                                            topo: seq<nat>, seed: seq<seq<real>>, n: nat)
    requires AdjointsOk(g, adj) && GradientsFit(g, before) && Published(g, adj, before, after, topo)
    requires |seed| == |g| && n <= |g|
    requires forall t :: t in adj ==> t in topo
    requires forall t :: 0 <= t < |g| && g[t].role.Leaf? ==> t in before
    ensures GradientPairing(g, after, seed, n)
         == GradientPairing(g, before, seed, n) + LeafPairing(g, seed, adj, n)
  {
    if n != 0 {
      PublishedPairing(g, adj, before, after, topo, seed, n - 1);
      PublishedTerm(g, adj, before, after, topo, seed[n - 1], n - 1);
    }
  }

  function PairingTerm(g: Graph, metas: map<nat, Meta>, seed: seq<real>, t: nat): real
    requires t < |g|
  {
    if g[t].role.Leaf? && t in metas && metas[t].gradient.Some? then Dot(metas[t].gradient.value.data, seed) else 0.0
  }

  lemma PublishedTerm(g: Graph, adj: AdjointMap, before: map<nat, Meta>, after: map<nat, Meta>, topo: seq<nat>,
                      seed: seq<real>, t: nat)
    requires AdjointsOk(g, adj) && GradientsFit(g, before) && Published(g, adj, before, after, topo) && t < |g|
    requires (t in adj ==> t in topo) && (g[t].role.Leaf? ==> t in before)
    ensures PairingTerm(g, after, seed, t)
         == PairingTerm(g, before, seed, t) + if t in adj && g[t].role.Leaf? then Dot(adj[t], seed) else 0.0
  {
    if g[t].role.Leaf? && t in adj && before[t].gradient.Some? {
      DotAdd(before[t].gradient.value.data, adj[t], seed);
    }
  }

  /** The effect of one successful backward pass, for every choice of leaf tangents: the
      pairing of the leaf gradients grows by exactly the forward-mode derivative of the
      root. */
  lemma BackwardAddsDerivative(p: Primitives, g: Graph, topo: seq<nat>, root: nat,
                               before: map<nat, Meta>, after: map<nat, Meta>, seed: seq<seq<real>>)
    requires GraphOk(g) && SeedOk(g, seed) && Lawful(p)
    requires Topology(g, topo, root) && Numel(g[root].dims) == 1
    requires forall j :: 0 <= j < |topo| ==> Differentiates(g, topo[j])
    requires GradientsFit(g, before)
    requires Published(g, BackwardAdjoints(p, g, topo, root), before, after, topo)
    requires forall t :: 0 <= t < |g| && g[t].role.Leaf? ==> t in before
    ensures GradientPairing(g, after, seed, |g|)
         == GradientPairing(g, before, seed, |g|) + Tan(p, g, seed, root)[0]
  {
    BackwardReaches(p, g, topo, root);
    ReverseEqualsForward(p, g, seed, topo, root);
    PublishedPairing(g, BackwardAdjoints(p, g, topo, root), before, after, topo, seed, |g|);
  }
}
