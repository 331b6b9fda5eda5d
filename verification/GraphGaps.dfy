/** Reverse mode against forward mode for any cross-entropy targets: the difference is the
    sum of the gaps of the cross-entropy nodes. */
module GraphGaps {
  import opened RealSums
  import opened Shapes
  import opened Calculus
  import opened Operators
  import opened Duals
  import opened Vjps
  import opened LossAdjoints
  import opened OperatorAdjoints
  import opened Graphs
  import opened GraphFacts

  /** How far the contributions of a node are from its derivative: nothing, except for
      cross-entropy, where it is the upstream scale times how far the target rows are from
      summing to one, weighted by the tangents of the log-denominators. */
  ghost function OperatorGap(p: Primitives, op: Op, pd: seq<seq<int>>, od: seq<int>, x: seq<DTensor>, g: seq<real>): real
    requires Typed(op, pd, od) && |x| == |pd|
  {
    if op.CrossEntropy? then
      Times(CrossEntropyScale(g, pd[0][0]), Sum(pd[0][0], Gap(p, x[0], x[1].v, pd[0][1])))
    else 0.0
  }

  ghost function NodeGap(p: Primitives, g: Graph, seed: seq<seq<real>>, i: nat, upstream: seq<real>): real
    requires GraphOk(g) && SeedOk(g, seed) && i < |g| && g[i].role.Computed?
  {
    assert NodeOk(g, i);
    OperatorGap(p, g[i].role.op, OperandDims(g, i), g[i].dims, OperandTensors(p, g, seed, i), upstream)
  }

  lemma OperatorWithGap(p: Primitives, op: Op, pd: seq<seq<int>>, od: seq<int>, x: seq<DTensor>, g: seq<real>)
    requires Typed(op, pd, od) && TangentsSized(pd, x) && |g| == Numel(od) && Lawful(p)
    ensures Dot(g, Jvp(p, op, pd, od, x)) == Pairing(p, op, pd, od, x, g) + OperatorGap(p, op, pd, od, x, g)
  {
    if op.CrossEntropy? {
      CrossEntropyCase(p, pd, od, x, g);
    } else {
      OperatorAdjoint(p, op, pd, od, x, g);
    }
  }

  lemma OwedWithGap(p: Primitives, g: Graph, seed: seq<seq<real>>, i: nat, upstream: seq<real>)
    requires GraphOk(g) && SeedOk(g, seed) && i < |g| && g[i].role.Computed? && Lawful(p)
    requires |upstream| == Numel(g[i].dims)
    ensures Dot(upstream, Tan(p, g, seed, i)) == Owed(p, g, seed, i, upstream, 0) + NodeGap(p, g, seed, i, upstream)
  {
    assert NodeOk(g, i);
    var op, pd, x := g[i].role.op, OperandDims(g, i), OperandTensors(p, g, seed, i);
    OperandsSized(p, g, seed, i);
    assert Tan(p, g, seed, i) == Jvp(p, op, pd, g[i].dims, x);
    assert Owed(p, g, seed, i, upstream, 0) == Pairing(p, op, pd, g[i].dims, x, upstream) by {
      OwedIsPairing(p, g, seed, i, upstream, op, pd, x);
    }
    assert NodeGap(p, g, seed, i, upstream) == OperatorGap(p, op, pd, g[i].dims, x, upstream);
    OperatorWithGap(p, op, pd, g[i].dims, x, upstream);
  }

  /** The gap of tensor `i` with the adjoint it has. */
  ghost function GapAt(p: Primitives, g: Graph, seed: seq<seq<real>>, adj: AdjointMap, i: nat): real
    requires GraphOk(g) && SeedOk(g, seed)
  {
    if i < |g| && i in adj && g[i].role.Computed? then NodeGap(p, g, seed, i, adj[i]) else 0.0
  }

  lemma StepWithGap(p: Primitives, g: Graph, seed: seq<seq<real>>, i: nat, adj: AdjointMap, live: set<nat>)
    requires GraphOk(g) && SeedOk(g, seed) && i < |g| && AdjointsOk(g, adj) && Lawful(p) && i in live
    requires forall k :: 0 <= k < |Operands(g, i)| ==> Operands(g, i)[k] in live - {i}
    ensures Mass(p, g, seed, adj, live, |g|)
         == Mass(p, g, seed, Step(p, g, i, adj), live - {i}, |g|) + GapAt(p, g, seed, adj, i)
  {
    MassRetire(p, g, seed, adj, live, |g|, i);
    if i in adj {
      if g[i].role.Computed? {
        OwedWithGap(p, g, seed, i, adj[i]);
        DeliverConserves(p, g, seed, i, adj[i], 0, adj, live - {i});
      } else if g[i].role.Constant? {
        DotZero(adj[i], |Tan(p, g, seed, i)|);
      }
    }
  }

  /** The gaps of the listed tensors, with given adjoints. */
  ghost function ListedGap(p: Primitives, g: Graph, seed: seq<seq<real>>, topo: seq<nat>, adj: AdjointMap): real
    requires GraphOk(g) && SeedOk(g, seed)
  {
    if |topo| == 0 then 0.0
    else ListedGap(p, g, seed, topo[..|topo| - 1], adj) + GapAt(p, g, seed, adj, topo[|topo| - 1])
  }

  /** The sweep loses exactly the gaps of the listed tensors with their final adjoints. */
  lemma {:induction false} SweepWithGap(p: Primitives, g: Graph, seed: seq<seq<real>>, topo: seq<nat>, adj: AdjointMap)
    requires GraphOk(g) && SeedOk(g, seed) && AdjointsOk(g, adj) && Ordered(g, topo) && Lawful(p)
    ensures var final := Sweep(p, g, topo, adj);
            Mass(p, g, seed, adj, ListedSet(topo), |g|)
            == Mass(p, g, seed, final, {}, |g|) + ListedGap(p, g, seed, topo, final)
  {
    if |topo| == 0 {
      assert ListedSet(topo) == {};
    } else {
      var last := |topo| - 1;
      var t, rest := topo[last], topo[..last];
      OrderedPrefix(g, topo, last);
      assert ListedSet(topo) - {t} == ListedSet(rest);
      StepWithGap(p, g, seed, t, adj, ListedSet(topo));
      SweepWithGap(p, g, seed, rest, Step(p, g, t, adj));
      AdjointFinal(p, g, topo, adj);
    }
  }

  /** Reverse mode and forward mode on every recorded graph, for any targets: the leaf
      gradients pair to the derivative of the root less the gaps of the cross-entropy nodes
      it depends on. */
  lemma ReverseWithGap(p: Primitives, g: Graph, seed: seq<seq<real>>, topo: seq<nat>, root: nat)
    requires GraphOk(g) && SeedOk(g, seed) && Lawful(p) && Topology(g, topo, root) && Numel(g[root].dims) == 1
    ensures var final := BackwardAdjoints(p, g, topo, root);
            LeafPairing(g, seed, final, |g|) == Tan(p, g, seed, root)[0] - ListedGap(p, g, seed, topo, final)
  {
    var adj: AdjointMap := map[root := [1.0]];
    assert topo[|topo| - 1] in ListedSet(topo);
    SweepWithGap(p, g, seed, topo, adj);
    MassOfRoot(p, g, seed, root, [1.0], ListedSet(topo), |g|);
    MassOfLeaves(p, g, seed, BackwardAdjoints(p, g, topo, root), |g|);
    UnitDot(Tan(p, g, seed, root));
  }
}
