/** What a successful backward pass means: the gradients it adds are the derivative of the
    root, taken at the values the operators read when they were recorded. */
module Soundness {
  import opened RealSums
  import opened Shapes
  import opened Calculus
  import opened Duals
  import opened Graphs
  import opened GraphFacts
  import opened GraphGaps
  import opened Worlds
  import opened Runs
  import opened Heap
  import opened TopologyBuilder
  import opened Programs
  import opened Publication
  import opened Backward

  /** Cross-entropy targets are normalised throughout what the root depends on. */
  ghost predicate Normal(g: Graph, root: nat)
    requires GraphOk(g) && root < |g|
  {
    forall i :: 0 <= i < |g| && DependsOn(g, root, i) ==> Differentiates(g, i)
  }

  /** In direction `seed` the leaf gradients have gained the derivative of the root, less the
      gaps of the cross-entropy nodes it depends on. */
  ghost predicate Gains(p: Primitives, g: Graph, before: map<nat, Meta>, after: map<nat, Meta>, root: nat,
                        seed: seq<seq<real>>)
    requires GraphOk(g) && root < |g| && SeedOk(g, seed)
  {
    exists gap: real :: GainsBut(p, g, before, after, root, seed, gap)
  }

  ghost predicate GainsBut(p: Primitives, g: Graph, before: map<nat, Meta>, after: map<nat, Meta>, root: nat,
                           seed: seq<seq<real>>, gap: real)
    requires GraphOk(g) && root < |g| && SeedOk(g, seed)
  {
    && RootGap(p, g, seed, root, gap) && (Normal(g, root) ==> gap == 0.0)
    && GradientPairing(g, after, seed, |g|) == GradientPairing(g, before, seed, |g|) + At(Tan(p, g, seed, root), 0) - gap
  }

  /** A backward pass that reports success took every operand at the value it had when its
      node was recorded, and adds to the pairing of leaf gradients with any leaf tangents the
      derivative of the root, less the gaps of the cross-entropy nodes it depends on; there
      are none if all targets are normalised.  A pass that fails changes nothing. */
  method BackwardDifferentiates(h: TensorHeap, root: nat, ghost g: Graph, ghost seed: seq<seq<real>>)
    returns (status: Status, ghost gap: real)
    requires h.Valid() && h.Holds(root) && Lawful(h.p) && g == Snapshot(h.W())
    requires GraphOk(g) && SeedOk(g, seed)
    modifies h`metas, h`liveBytes, h`history
    ensures h.Valid() && h.Continues(old(h.M()))
    ensures !status.Ok? ==> h.W() == old(h.W())
    ensures status.Ok? ==> GainsBut(h.p, g, old(h.metas), h.metas, root, seed, gap)
    ensures status.Ok? ==> PassAsRecorded(h.p, old(h.history), g, root)
  {
    gap := 0.0;
    ghost var w, cs := h.W(), h.history;
    OpenBooks(h.p, w, h.L(), h.M());
    var topo;
    status, topo := BackwardFrom(h, root);
    if status.Ok? {
      gap := PassWithGap(h.p, w, g, root, topo, h.metas, seed);
      PassReadsRecorded(h.p, cs, w, g, root);
    }
  }

  /** The sum of the gaps of all nodes the root depends on, with their adjoints. */
  ghost predicate RootGap(p: Primitives, g: Graph, seed: seq<seq<real>>, root: nat, gap: real)
    requires GraphOk(g) && SeedOk(g, seed) && root < |g|
  {
    exists topo: seq<nat> ::
      Topology(g, topo, root) && Numel(g[root].dims) == 1
      && gap == ListedGap(p, g, seed, topo, BackwardAdjoints(p, g, topo, root))
  }

  lemma PassWithGap(p: Primitives, w: World, g: Graph, root: nat, topo: seq<nat>, after: map<nat, Meta>,
                    seed: seq<seq<real>>) returns (gap: real)
    requires WorldOk(p, w) && g == Snapshot(w) && root < |g| && Lawful(p)
    requires GraphOk(g) && SeedOk(g, seed) && Numel(g[root].dims) == 1
    requires Topology(g, topo, root) && GradientsFit(g, w.metas)
    requires Published(g, BackwardAdjoints(p, g, topo, root), w.metas, after, topo)
    ensures GainsBut(p, g, w.metas, after, root, seed, gap)
  {
    gap := ListedGap(p, g, seed, topo, BackwardAdjoints(p, g, topo, root));
    forall t | 0 <= t < |g| && g[t].role.Leaf? ensures t in w.metas {
    }
    AddsWithGap(p, g, topo, root, w.metas, after, seed);
    if Normal(g, root) {
      NoGap(p, g, topo, root, seed);
    }
  }

  /** A published pass gains in every direction. */
  lemma PassGains(p: Primitives, w: World, g: Graph, root: nat, topo: seq<nat>, after: map<nat, Meta>)
    requires WorldOk(p, w) && g == Snapshot(w) && root < |g| && Lawful(p) && GraphOk(g) && Numel(g[root].dims) == 1
    requires Topology(g, topo, root) && GradientsFit(g, w.metas)
    requires Published(g, BackwardAdjoints(p, g, topo, root), w.metas, after, topo)
    ensures forall seed: seq<seq<real>> :: SeedOk(g, seed) ==> Gains(p, g, w.metas, after, root, seed)
  {
    forall seed: seq<seq<real>> | SeedOk(g, seed) ensures Gains(p, g, w.metas, after, root, seed) {
      PassGainsIn(p, w, g, root, topo, after, seed);
    }
  }

  lemma PassGainsIn(p: Primitives, w: World, g: Graph, root: nat, topo: seq<nat>, after: map<nat, Meta>,
                    seed: seq<seq<real>>)
    requires WorldOk(p, w) && g == Snapshot(w) && root < |g| && Lawful(p) && GraphOk(g) && Numel(g[root].dims) == 1
    requires Topology(g, topo, root) && GradientsFit(g, w.metas) && SeedOk(g, seed)
    requires Published(g, BackwardAdjoints(p, g, topo, root), w.metas, after, topo)
    ensures Gains(p, g, w.metas, after, root, seed)
  {
    var gap := PassWithGap(p, w, g, root, topo, after, seed);
  }

  lemma AddsWithGap(p: Primitives, g: Graph, topo: seq<nat>, root: nat, before: map<nat, Meta>, after: map<nat, Meta>,
                    seed: seq<seq<real>>)
    requires GraphOk(g) && SeedOk(g, seed) && Lawful(p) && Topology(g, topo, root) && Numel(g[root].dims) == 1
    requires GradientsFit(g, before) && Published(g, BackwardAdjoints(p, g, topo, root), before, after, topo)
    requires forall t :: 0 <= t < |g| && g[t].role.Leaf? ==> t in before
    ensures GradientPairing(g, after, seed, |g|)
         == GradientPairing(g, before, seed, |g|) + At(Tan(p, g, seed, root), 0)
            - ListedGap(p, g, seed, topo, BackwardAdjoints(p, g, topo, root))
  {
    BackwardReaches(p, g, topo, root);
    ReverseWithGap(p, g, seed, topo, root);
    PublishedPairing(g, BackwardAdjoints(p, g, topo, root), before, after, topo, seed, |g|);
  }

  /** Normalised targets leave no gap. */
  lemma NoGap(p: Primitives, g: Graph, topo: seq<nat>, root: nat, seed: seq<seq<real>>)
    requires GraphOk(g) && SeedOk(g, seed) && Lawful(p) && Topology(g, topo, root) && Numel(g[root].dims) == 1
    requires root < |g| && Normal(g, root)
    ensures ListedGap(p, g, seed, topo, BackwardAdjoints(p, g, topo, root)) == 0.0
  {
    TopologyIsDependence(g, topo, root);
    forall j | 0 <= j < |topo| ensures Differentiates(g, topo[j]) {
      assert topo[j] in topo;
    }
    ReverseEqualsForward(p, g, seed, topo, root);
    ReverseWithGap(p, g, seed, topo, root);
  }

  /** Every operator the root depends on has, as operands, the values it was recorded with
      at some moment of the history. */
  ghost predicate PassAsRecorded(p: Primitives, cs: seq<Change>, g: Graph, root: nat)
    requires GraphOk(g) && root < |g|
  {
    forall i :: 0 <= i < |g| && DependsOn(g, root, i) && g[i].role.Computed? ==> ReadsAsRecorded(p, cs, g, i)
  }

  lemma PassReadsRecorded(p: Primitives, cs: seq<Change>, w: World, g: Graph, root: nat)
    requires Reached(p, cs, w) && WorldOk(p, w) && g == Snapshot(w) && GraphOk(g) && root < |g|
    requires AllDependenciesFresh(w, g, root)
    ensures PassAsRecorded(p, cs, g, root)
  {
    forall i | 0 <= i < |g| && DependsOn(g, root, i) && g[i].role.Computed? ensures ReadsAsRecorded(p, cs, g, i) {
      FreshReadsAsRecorded(p, cs, w, g, i);
    }
  }

  // ----- recorded values

  /** Every result the root depends on still has the version it was recorded with: that
      saved for its operand if it is a view of it, and zero otherwise. */
  ghost predicate ResultsUnmoved(w: World, g: Graph, root: nat)
    requires TensorsOk(w) && GraphOk(g) && |g| == |w.tensors| && root < |g|
  {
    forall i :: 0 <= i < |g| && DependsOn(g, root, i) && RoleOf(w, i).Computed? ==> Unmoved(w, i)
  }

  ghost predicate Unmoved(w: World, i: nat)
    requires TensorsOk(w) && i < |w.tensors| && RoleOf(w, i).Computed?
  {
    var n := w.metas[i].gradFn.value;
    && TensorOk(w, w.tensors[i]) && |n.versions| == |n.parents|
    && (forall k :: 0 <= k < |n.parents| ==> n.parents[k] < |w.tensors|)
    && Version(w, i) == RecordedVersion(w, i, n)
  }

  /** The version check together with unmoved results: every stored value is the one the
      recorded program computes from its leaves. */
  lemma UnmovedIsCoherent(p: Primitives, w: World, root: nat)
    requires WorldOk(p, w) && root < |w.tensors| && GraphOk(Snapshot(w))
    requires AllDependenciesFresh(w, Snapshot(w), root) && ResultsUnmoved(w, Snapshot(w), root)
    ensures Coherent(p, Snapshot(w), root)
  {
    var g := Snapshot(w);
    forall i | 0 <= i < |g| && DependsOn(g, root, i) && g[i].role.Computed? ensures HoldsResult(p, g, i) {
      HoldsRecorded(p, w, g, i);
    }
  }

  lemma HoldsRecorded(p: Primitives, w: World, g: Graph, i: nat)
    requires WorldOk(p, w) && g == Snapshot(w) && GraphOk(g) && i < |w.tensors| && RoleOf(w, i).Computed?
    requires Fresh(w, i) && Unmoved(w, i)
    ensures g[i].role.Computed? && HoldsResult(p, g, i)
  {
    FreshMeansUnchanged(p, w, i);
    assert MetaOk(p, w, i, w.metas[i]);
    assert OperandDims(g, i) == DimsOf(w, g[i].role.parents);
  }

  /** With unmoved results, forward mode is the derivative of the program re-evaluated on
      dual numbers from its leaves and constants. */
  lemma GradientOfProgram(p: Primitives, w: World, root: nat, seed: seq<seq<real>>)
    requires WorldOk(p, w) && root < |w.tensors| && GraphOk(Snapshot(w)) && SeedOk(Snapshot(w), seed) && Lawful(p)
    requires AllDependenciesFresh(w, Snapshot(w), root) && ResultsUnmoved(w, Snapshot(w), root)
    ensures Program(p, Snapshot(w), seed, root)
         == DTensor(Snapshot(w)[root].vals, Tan(p, Snapshot(w), seed, root))
  {
    UnmovedIsCoherent(p, w, root);
    TangentIsProgramDerivative(p, Snapshot(w), seed, root);
  }
}
