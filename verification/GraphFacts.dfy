/** Which adjoints the reverse sweep produces, and when they are final. */
module GraphFacts {
  import opened Shapes
  import opened Calculus
  import opened Graphs

  // ----- adjoints are final when consumed

  ghost predicate SameAt(a: AdjointMap, b: AdjointMap, t: nat) {
    (t in a <==> t in b) && (t in a && t in b ==> a[t] == b[t])
  }

  lemma {:induction false} DeliverUntouched(p: Primitives, g: Graph, i: nat, upstream: seq<real>, k: nat,
                                            adj: AdjointMap, t: nat)
    requires GraphOk(g) && i < |g| && g[i].role.Computed? && k <= |Operands(g, i)|
    requires |upstream| == Numel(g[i].dims) && AdjointsOk(g, adj)
    requires t !in Operands(g, i)
    ensures SameAt(Deliver(p, g, i, upstream, k, adj), adj, t)
    decreases |Operands(g, i)| - k
  {
    if k < |Operands(g, i)| {
      var c, q := Contribution(p, g, i, upstream, k), Operands(g, i)[k];
      DeliverUntouched(p, g, i, upstream, k + 1,
                       if g[q].role.Constant? then adj else Accumulate(g, adj, q, c), t);
    }
  }

  lemma {:induction false} SweepUntouched(p: Primitives, g: Graph, topo: seq<nat>, adj: AdjointMap, t: nat)
    requires GraphOk(g) && AdjointsOk(g, adj) && forall j :: 0 <= j < |topo| ==> topo[j] < |g|
    requires forall j :: 0 <= j < |topo| ==> t !in Operands(g, topo[j])
    ensures SameAt(Sweep(p, g, topo, adj), adj, t)
  {
    if |topo| != 0 {
      var last := |topo| - 1;
      var i := topo[last];
      if i in adj && g[i].role.Computed? {
        DeliverUntouched(p, g, i, adj[i], 0, adj, t);
      }
      SweepUntouched(p, g, topo[..last], Step(p, g, i, adj), t);
    }
  }

  /** When the sweep reaches a tensor, all its consumers have been processed: its adjoint
      never changes again. */
  lemma AdjointFinal(p: Primitives, g: Graph, topo: seq<nat>, adj: AdjointMap)
    requires GraphOk(g) && AdjointsOk(g, adj) && Ordered(g, topo) && |topo| > 0
    ensures SameAt(Sweep(p, g, topo, adj), adj, topo[|topo| - 1])
  {
    var last := |topo| - 1;
    var t := topo[last];
    forall j | 0 <= j < |topo| ensures t !in Operands(g, topo[j]) {
      assert t !in topo[..j];
    }
    SweepUntouched(p, g, topo, adj, t);
  }

  // ----- every tensor that requires gradients is reached

  lemma {:induction false} DeliverReaches(p: Primitives, g: Graph, i: nat, upstream: seq<real>, k: nat,
                                          adj: AdjointMap, l: nat)
    requires GraphOk(g) && i < |g| && g[i].role.Computed? && k <= l < |Operands(g, i)|
    requires |upstream| == Numel(g[i].dims) && AdjointsOk(g, adj)
    requires Operands(g, i)[l] < |g| && !g[Operands(g, i)[l]].role.Constant?
    ensures Operands(g, i)[l] in Deliver(p, g, i, upstream, k, adj)
    decreases l - k
  {
    var c, q := Contribution(p, g, i, upstream, k), Operands(g, i)[k];
    var next := if g[q].role.Constant? then adj else Accumulate(g, adj, q, c);
    if k < l {
      DeliverReaches(p, g, i, upstream, k + 1, next, l);
    } else {
      assert q in next;
      assert next.Keys <= Deliver(p, g, i, upstream, k + 1, next).Keys;
    }
  }

  /** Every listed tensor that requires gradients has an adjoint or a later user. */
  ghost predicate Fed(g: Graph, topo: seq<nat>, adj: AdjointMap)
    requires forall j :: 0 <= j < |topo| ==> topo[j] < |g|
  {
    forall j :: 0 <= j < |topo| && !g[topo[j]].role.Constant? ==>
      topo[j] in adj || UsedLater(g, topo, j, |topo|)
  }

  lemma StepFeeds(p: Primitives, g: Graph, topo: seq<nat>, adj: AdjointMap)
    requires GraphOk(g) && AdjointsOk(g, adj) && |topo| > 0
    requires forall j :: 0 <= j < |topo| ==> topo[j] < |g|
    requires Fed(g, topo, adj)
    ensures var last := |topo| - 1;
            !g[topo[last]].role.Constant? ==> topo[last] in adj
    ensures Fed(g, topo[..|topo| - 1], Step(p, g, topo[|topo| - 1], adj))
  {
    var last := |topo| - 1;
    var i, rest := topo[last], topo[..last];
    var next := Step(p, g, i, adj);
    forall j | 0 <= j < last && !g[rest[j]].role.Constant?
      ensures rest[j] in next || UsedLater(g, rest, j, last)
    {
      if topo[j] !in adj {
        var l :| j < l < |topo| && topo[j] in Operands(g, topo[l]);
        if l == last {
          var k :| 0 <= k < |Operands(g, i)| && Operands(g, i)[k] == topo[j];
          DeliverReaches(p, g, i, adj[i], 0, adj, k);
        } else {
          assert rest[l] == topo[l];
        }
      }
    }
  }

  lemma {:induction false} SweepReaches(p: Primitives, g: Graph, topo: seq<nat>, adj: AdjointMap)
    requires GraphOk(g) && AdjointsOk(g, adj)
    requires forall j :: 0 <= j < |topo| ==> topo[j] < |g|
    requires Fed(g, topo, adj)
    ensures forall j :: 0 <= j < |topo| && !g[topo[j]].role.Constant? ==> topo[j] in Sweep(p, g, topo, adj)
  {
    if |topo| != 0 {
      var last := |topo| - 1;
      var rest, next := topo[..last], Step(p, g, topo[last], adj);
      StepFeeds(p, g, topo, adj);
      SweepReaches(p, g, rest, next);
      KeepsBoth(g, topo, next, Sweep(p, g, rest, next));
    }
  }

  lemma KeepsBoth(g: Graph, topo: seq<nat>, next: AdjointMap, r: AdjointMap)
    requires |topo| > 0 && forall j :: 0 <= j < |topo| ==> topo[j] < |g|
    requires next.Keys <= r.Keys
    requires var last := |topo| - 1; !g[topo[last]].role.Constant? ==> topo[last] in next
    requires var rest := topo[..|topo| - 1];
             forall j :: 0 <= j < |rest| && !g[rest[j]].role.Constant? ==> rest[j] in r
    ensures forall j :: 0 <= j < |topo| && !g[topo[j]].role.Constant? ==> topo[j] in r
  {
    forall j | 0 <= j < |topo| && !g[topo[j]].role.Constant? ensures topo[j] in r {
      if j < |topo| - 1 {
        assert topo[..|topo| - 1][j] == topo[j];
      }
    }
  }

  /** The backward pass gives an adjoint to exactly the tensors the root depends on that
      require gradients. */
  lemma BackwardReaches(p: Primitives, g: Graph, topo: seq<nat>, root: nat)
    requires GraphOk(g) && Topology(g, topo, root) && Numel(g[root].dims) == 1
    ensures forall i :: i in topo && !g[i].role.Constant? ==> i in BackwardAdjoints(p, g, topo, root)
    ensures forall i :: i in BackwardAdjoints(p, g, topo, root) ==> i in topo
    ensures forall i :: i in BackwardAdjoints(p, g, topo, root) && i != root ==> !g[i].role.Constant?
  {
    var adj: AdjointMap := map[root := [1.0]];
    assert Fed(g, topo, adj);
    SweepReaches(p, g, topo, adj);
    SweepStays(p, g, topo, adj, topo, root);
  }

  lemma {:induction false} DeliverStays(p: Primitives, g: Graph, i: nat, upstream: seq<real>, k: nat,
                                        adj: AdjointMap, all: seq<nat>, root: nat)
    requires GraphOk(g) && i < |g| && g[i].role.Computed? && k <= |Operands(g, i)|
    requires |upstream| == Numel(g[i].dims) && AdjointsOk(g, adj)
    requires forall k :: 0 <= k < |Operands(g, i)| ==> Operands(g, i)[k] in all
    requires forall t :: t in adj ==> t in all && (t != root ==> !g[t].role.Constant?)
    ensures forall t :: t in Deliver(p, g, i, upstream, k, adj) ==>
              t in all && (t != root ==> !g[t].role.Constant?)
    decreases |Operands(g, i)| - k
  {
    if k < |Operands(g, i)| {
      var c, q := Contribution(p, g, i, upstream, k), Operands(g, i)[k];
      DeliverStays(p, g, i, upstream, k + 1,
                   if g[q].role.Constant? then adj else Accumulate(g, adj, q, c), all, root);
    }
  }

  lemma {:induction false} SweepStays(p: Primitives, g: Graph, topo: seq<nat>, adj: AdjointMap,
                                      all: seq<nat>, root: nat)
    requires GraphOk(g) && AdjointsOk(g, adj) && Ordered(g, topo) && topo <= all
    requires forall t :: t in adj ==> t in all && (t != root ==> !g[t].role.Constant?)
    ensures forall t :: t in Sweep(p, g, topo, adj) ==> t in all && (t != root ==> !g[t].role.Constant?)
  {
    if |topo| != 0 {
      var last := |topo| - 1;
      var i := topo[last];
      OrderedPrefix(g, topo, last);
      if i in adj && g[i].role.Computed? {
        forall k | 0 <= k < |Operands(g, i)| ensures Operands(g, i)[k] in all {
          assert Operands(g, i)[k] in topo[..last];
        }
        DeliverStays(p, g, i, adj[i], 0, adj, all, root);
      }
      SweepStays(p, g, topo[..last], Step(p, g, i, adj), all, root);
    }
  }
}
