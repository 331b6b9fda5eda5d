/** Recorded computation graphs: forward-mode tangents, the reverse sweep, and their
    agreement.

    A graph lists tensors in creation order; a computed tensor's operands come earlier.
    Whether a tensor takes part in differentiation is a property of the graph as seen when
    the backward pass runs. */
module Graphs {
  import opened RealSums
  import opened Shapes
  import opened Calculus
  import opened Operators
  import opened Duals
  import opened Vjps
  import opened LossAdjoints
  import opened OperatorAdjoints

  /** A tensor that does not require gradients, a leaf that does, or a recorded result. */
  datatype Role = Constant | Leaf | Computed(op: Op, parents: seq<nat>)

  datatype Node = Node(dims: seq<int>, vals: seq<real>, role: Role)

  type Graph = seq<Node>

  ghost predicate ParentsEarlier(g: Graph, i: nat)
    requires i < |g|
  {
    g[i].role.Computed? ==> forall k :: 0 <= k < |g[i].role.parents| ==> g[i].role.parents[k] < i
  }

  function Operands(g: Graph, i: nat): (ps: seq<nat>)
    requires i < |g|
  {
    if g[i].role.Computed? then g[i].role.parents else []
  }

  function OperandDims(g: Graph, i: nat): (pd: seq<seq<int>>)
    requires i < |g| && ParentsEarlier(g, i)
    ensures |pd| == |Operands(g, i)|
  {
    seq(|Operands(g, i)|, k requires 0 <= k < |Operands(g, i)| && ParentsEarlier(g, i) =>
      g[Operands(g, i)[k]].dims)
  }

  function OperandValues(g: Graph, i: nat): (v: seq<seq<real>>)
    requires i < |g| && ParentsEarlier(g, i)
    ensures |v| == |Operands(g, i)|
  {
    seq(|Operands(g, i)|, k requires 0 <= k < |Operands(g, i)| && ParentsEarlier(g, i) =>
      g[Operands(g, i)[k]].vals)
  }

  ghost predicate NodeOk(g: Graph, i: nat)
    requires i < |g|
  {
    && Positive(g[i].dims)
    && |g[i].vals| == Numel(g[i].dims)
    && ParentsEarlier(g, i)
    && (g[i].role.Computed? ==> Typed(g[i].role.op, OperandDims(g, i), g[i].dims))
  }

  ghost predicate GraphOk(g: Graph) {
    forall i :: 0 <= i < |g| ==> NodeOk(g, i)
  }

  /** One tangent per tensor, of the tensor's size; only those of leaves matter. */
  ghost predicate SeedOk(g: Graph, seed: seq<seq<real>>) {
    |seed| == |g| && forall i :: 0 <= i < |g| ==> |seed[i]| == Numel(g[i].dims)
  }

  // ----- forward mode

  /** The forward-mode tangent of a tensor: seeds at leaves, zero at constants, and the
      Jacobian-vector product of each recorded operator at its operands' values. */
  function Tan(p: Primitives, g: Graph, seed: seq<seq<real>>, i: nat): (t: seq<real>)
    requires GraphOk(g) && SeedOk(g, seed) && i < |g|
    ensures |t| == Numel(g[i].dims)
    decreases i, 1
  {
    assert NodeOk(g, i);
    NumelPositive(g[i].dims);
    match g[i].role
    case Constant => Zeros(Numel(g[i].dims))
    case Leaf => seed[i]
    case Computed(op, parents) =>
      Jvp(p, op, OperandDims(g, i), g[i].dims, OperandTensors(p, g, seed, i))
  }

  /** The operands of a node with their values and tangents. */
  function OperandTensors(p: Primitives, g: Graph, seed: seq<seq<real>>, i: nat): (x: seq<DTensor>)
    requires GraphOk(g) && SeedOk(g, seed) && i < |g|
    ensures |x| == |Operands(g, i)|
    ensures forall k :: 0 <= k < |x| ==>
              Operands(g, i)[k] < i && x[k].v == g[Operands(g, i)[k]].vals
    decreases i, 0
  {
    assert NodeOk(g, i);
    seq(|Operands(g, i)|, k requires 0 <= k < |Operands(g, i)| && GraphOk(g) && SeedOk(g, seed) && ParentsEarlier(g, i) =>
      DTensor(g[Operands(g, i)[k]].vals, Tan(p, g, seed, Operands(g, i)[k])))
  }

  lemma OperandTangent(p: Primitives, g: Graph, seed: seq<seq<real>>, i: nat, k: nat)
    requires GraphOk(g) && SeedOk(g, seed) && i < |g| && k < |Operands(g, i)|
    ensures Operands(g, i)[k] < i
    ensures OperandTensors(p, g, seed, i)[k]
         == DTensor(g[Operands(g, i)[k]].vals, Tan(p, g, seed, Operands(g, i)[k]))
  {
    assert NodeOk(g, i);
  }

  lemma OperandsSized(p: Primitives, g: Graph, seed: seq<seq<real>>, i: nat)
    requires GraphOk(g) && SeedOk(g, seed) && i < |g|
    ensures ParentsEarlier(g, i)
    ensures TangentsSized(OperandDims(g, i), OperandTensors(p, g, seed, i))
    ensures Values(OperandTensors(p, g, seed, i)) == OperandValues(g, i)
    ensures Sized(OperandDims(g, i), OperandValues(g, i))
  {
    assert NodeOk(g, i);
    forall k | 0 <= k < |Operands(g, i)|
      ensures |OperandTensors(p, g, seed, i)[k].v| == Numel(OperandDims(g, i)[k])
      ensures |OperandTensors(p, g, seed, i)[k].d| == Numel(OperandDims(g, i)[k])
    {
      OperandTangent(p, g, seed, i, k);
      assert NodeOk(g, Operands(g, i)[k]);
    }
  }

  lemma ValuesSized(g: Graph, i: nat)
    requires GraphOk(g) && i < |g|
    ensures ParentsEarlier(g, i) && Sized(OperandDims(g, i), OperandValues(g, i))
  {
    assert NodeOk(g, i);
    forall k | 0 <= k < |Operands(g, i)|
      ensures |OperandValues(g, i)[k]| == Numel(OperandDims(g, i)[k])
    {
      assert NodeOk(g, Operands(g, i)[k]);
    }
  }

  // ----- the reverse sweep

  type AdjointMap = map<nat, seq<real>>

  ghost predicate AdjointsOk(g: Graph, adj: AdjointMap) {
    forall i :: i in adj ==> i < |g| && |adj[i]| == Numel(g[i].dims)
  }

  /** The contribution of node `i` to its operand number `k`. */
  function Contribution(p: Primitives, g: Graph, i: nat, upstream: seq<real>, k: nat): (c: seq<real>)
    requires GraphOk(g) && i < |g| && g[i].role.Computed? && k < |Operands(g, i)|
    requires |upstream| == Numel(g[i].dims)
    ensures Operands(g, i)[k] < i && |c| == Numel(g[Operands(g, i)[k]].dims)
  {
    assert NodeOk(g, i);
    ValuesSized(g, i);
    VjpLength(p, g[i].role.op, OperandDims(g, i), g[i].dims, OperandValues(g, i), upstream, k);
    Vjp(p, g[i].role.op, OperandDims(g, i), g[i].dims, OperandValues(g, i), upstream, k)
  }

  /** Add a contribution to a tensor's adjoint; the first contribution starts it. */
  function Accumulate(g: Graph, adj: AdjointMap, q: nat, c: seq<real>): (r: AdjointMap)
    requires AdjointsOk(g, adj) && q < |g| && |c| == Numel(g[q].dims)
    ensures AdjointsOk(g, r) && r.Keys == adj.Keys + {q}
  {
    adj[q := if q in adj then VAdd(adj[q], c) else c]
  }

  /** Deliver the contributions to operands `k`, `k+1`, ... that require gradients. */
  function Deliver(p: Primitives, g: Graph, i: nat, upstream: seq<real>, k: nat, adj: AdjointMap): (r: AdjointMap)
    requires GraphOk(g) && i < |g| && g[i].role.Computed? && k <= |Operands(g, i)|
    requires |upstream| == Numel(g[i].dims) && AdjointsOk(g, adj)
    ensures AdjointsOk(g, r) && adj.Keys <= r.Keys
    decreases |Operands(g, i)| - k
  {
    if k == |Operands(g, i)| then adj
    else
      var c := Contribution(p, g, i, upstream, k);
      var q := Operands(g, i)[k];
      Deliver(p, g, i, upstream, k + 1, if g[q].role.Constant? then adj else Accumulate(g, adj, q, c))
  }

  /** Process one tensor of the topological order. */
  function Step(p: Primitives, g: Graph, i: nat, adj: AdjointMap): (r: AdjointMap)
    requires GraphOk(g) && i < |g| && AdjointsOk(g, adj)
    ensures AdjointsOk(g, r) && adj.Keys <= r.Keys
  {
    if i in adj && g[i].role.Computed? then Deliver(p, g, i, adj[i], 0, adj) else adj
  }

  /** Process a topological order from its end. */
  function Sweep(p: Primitives, g: Graph, topo: seq<nat>, adj: AdjointMap): (r: AdjointMap)
    requires GraphOk(g) && AdjointsOk(g, adj) && forall j :: 0 <= j < |topo| ==> topo[j] < |g|
    ensures AdjointsOk(g, r) && adj.Keys <= r.Keys
  {
    if |topo| == 0 then adj
    else
      var last := |topo| - 1;
      Sweep(p, g, topo[..last], Step(p, g, topo[last], adj))
  }

  /** A list of tensors without repetition in which operands precede their users. */
  ghost predicate Ordered(g: Graph, topo: seq<nat>) {
    && (forall j :: 0 <= j < |topo| ==> topo[j] < |g|)
    && (forall j, l :: 0 <= j < l < |topo| ==> topo[j] != topo[l])
    && (forall j, k :: 0 <= j < |topo| && 0 <= k < |Operands(g, topo[j])| ==>
          Operands(g, topo[j])[k] in topo[..j])
  }

  /** Every listed tensor but the last is an operand of a later one. */
  ghost predicate Connected(g: Graph, topo: seq<nat>)
    requires forall j :: 0 <= j < |topo| ==> topo[j] < |g|
  {
    forall j :: 0 <= j < |topo| - 1 ==> UsedLater(g, topo, j, |topo|)
  }

  ghost predicate UsedLater(g: Graph, topo: seq<nat>, j: nat, end: nat)
    requires forall j :: 0 <= j < |topo| ==> topo[j] < |g|
    requires j < |topo| && end <= |topo|
  {
    exists l :: j < l < end && topo[j] in Operands(g, topo[l])
  }

  /** Exactly the tensors the root depends on, operands first and the root last. */
  ghost predicate Topology(g: Graph, topo: seq<nat>, root: nat) {
    Ordered(g, topo) && Connected(g, topo) && |topo| > 0 && topo[|topo| - 1] == root
  }

  lemma OrderedPrefix(g: Graph, topo: seq<nat>, n: nat)
    requires Ordered(g, topo) && n <= |topo|
    ensures Ordered(g, topo[..n])
  {
    forall j, k | 0 <= j < n && 0 <= k < |Operands(g, topo[..n][j])|
      ensures Operands(g, topo[..n][j])[k] in topo[..n][..j]
    {
      assert topo[..n][..j] == topo[..j];
    }
  }

  // ----- conservation

  ghost predicate Counted(g: Graph, adj: AdjointMap, live: set<nat>, i: nat) {
    i < |g| && i in adj && (i in live || g[i].role.Leaf?)
  }

  /** Adjoints paired with tangents, over the tensors still to be processed and all leaves. */
  ghost function Mass(p: Primitives, g: Graph, seed: seq<seq<real>>, adj: AdjointMap, live: set<nat>, n: nat): real
    requires GraphOk(g) && SeedOk(g, seed) && n <= |g|
  {
    if n == 0 then 0.0
    else Mass(p, g, seed, adj, live, n - 1) + MassTerm(g, adj, live, n - 1, Tan(p, g, seed, n - 1))
  }

  ghost function MassTerm(g: Graph, adj: AdjointMap, live: set<nat>, i: nat, tangent: seq<real>): real {
    if Counted(g, adj, live, i) then Dot(adj[i], tangent) else 0.0
  }

  /** Two adjoint maps that differ at `q` only differ in mass by the difference there. */
  lemma {:induction false} MassDiffers(p: Primitives, g: Graph, seed: seq<seq<real>>, a: AdjointMap, b: AdjointMap,
                                       live: set<nat>, n: nat, q: nat, delta: real)
    requires GraphOk(g) && SeedOk(g, seed) && n <= |g| && q < |g|
    requires forall i :: i != q ==> (i in a <==> i in b) && (i in a && i in b ==> a[i] == b[i])
    requires MassTerm(g, a, live, q, Tan(p, g, seed, q)) == MassTerm(g, b, live, q, Tan(p, g, seed, q)) + delta
    ensures Mass(p, g, seed, a, live, n) == Mass(p, g, seed, b, live, n) + if q < n then delta else 0.0
  {
    if n != 0 {
      MassDiffers(p, g, seed, a, b, live, n - 1, q, delta);
    }
  }

  lemma MassAccumulate(p: Primitives, g: Graph, seed: seq<seq<real>>, adj: AdjointMap,
                       live: set<nat>, q: nat, c: seq<real>)
    requires GraphOk(g) && SeedOk(g, seed) && AdjointsOk(g, adj)
    requires q < |g| && |c| == Numel(g[q].dims) && (q in live || g[q].role.Leaf?)
    ensures Mass(p, g, seed, Accumulate(g, adj, q, c), live, |g|)
         == Mass(p, g, seed, adj, live, |g|) + Dot(c, Tan(p, g, seed, q))
  {
    var t := Tan(p, g, seed, q);
    AccumulatedTerm(g, adj, live, q, c, t);
    MassDiffers(p, g, seed, Accumulate(g, adj, q, c), adj, live, |g|, q, Dot(c, t));
  }

  lemma AccumulatedTerm(g: Graph, adj: AdjointMap, live: set<nat>, q: nat, c: seq<real>, t: seq<real>)
    requires AdjointsOk(g, adj) && q < |g| && |c| == Numel(g[q].dims) && (q in live || g[q].role.Leaf?)
    ensures MassTerm(g, Accumulate(g, adj, q, c), live, q, t) == MassTerm(g, adj, live, q, t) + Dot(c, t)
  {
    if q in adj {
      DotAdd(adj[q], c, t);
    }
  }

  lemma {:induction false} MassRetire(p: Primitives, g: Graph, seed: seq<seq<real>>, adj: AdjointMap,
                                      live: set<nat>, n: nat, t: nat)
    requires GraphOk(g) && SeedOk(g, seed) && n <= |g| && t in live && t < |g|
    ensures Mass(p, g, seed, adj, live, n) == Mass(p, g, seed, adj, live - {t}, n)
              + if t < n && t in adj && !g[t].role.Leaf? then Dot(adj[t], Tan(p, g, seed, t)) else 0.0
  {
    if n != 0 {
      MassRetire(p, g, seed, adj, live, n - 1, t);
    }
  }

  /** What is still to be delivered by node `i`, from operand `k` on. */
  ghost function Owed(p: Primitives, g: Graph, seed: seq<seq<real>>, i: nat, upstream: seq<real>, k: nat): real
    requires GraphOk(g) && SeedOk(g, seed) && i < |g| && g[i].role.Computed? && k <= |Operands(g, i)|
    requires |upstream| == Numel(g[i].dims)
    decreases |Operands(g, i)| - k
  {
    if k == |Operands(g, i)| then 0.0
    else Dot(Contribution(p, g, i, upstream, k), Tan(p, g, seed, Operands(g, i)[k]))
         + Owed(p, g, seed, i, upstream, k + 1)
  }

  lemma {:induction false} DeliverConserves(p: Primitives, g: Graph, seed: seq<seq<real>>, i: nat,
                                            upstream: seq<real>, k: nat, adj: AdjointMap, live: set<nat>)
    requires GraphOk(g) && SeedOk(g, seed) && i < |g| && g[i].role.Computed? && k <= |Operands(g, i)|
    requires |upstream| == Numel(g[i].dims) && AdjointsOk(g, adj)
    requires forall k :: 0 <= k < |Operands(g, i)| ==> Operands(g, i)[k] in live
    ensures Mass(p, g, seed, Deliver(p, g, i, upstream, k, adj), live, |g|)
         == Mass(p, g, seed, adj, live, |g|) + Owed(p, g, seed, i, upstream, k)
    decreases |Operands(g, i)| - k
  {
    if k < |Operands(g, i)| {
      var c, q := Contribution(p, g, i, upstream, k), Operands(g, i)[k];
      if g[q].role.Constant? {
        DotZero(c, |Tan(p, g, seed, q)|);
        DeliverConserves(p, g, seed, i, upstream, k + 1, adj, live);
      } else {
        MassAccumulate(p, g, seed, adj, live, q, c);
        DeliverConserves(p, g, seed, i, upstream, k + 1, Accumulate(g, adj, q, c), live);
      }
    }
  }

  /** Cross-entropy targets are normalised wherever the logits are differentiated. */
  ghost predicate Differentiates(g: Graph, i: nat)
    requires GraphOk(g) && i < |g|
  {
    g[i].role.Computed? && g[i].role.op.CrossEntropy? && |Operands(g, i)| == 2 ==>
      assert NodeOk(g, i);
      var z, t := g[Operands(g, i)[0]], g[Operands(g, i)[1]];
      |z.dims| == 2 && z.dims[0] > 0 && z.dims[1] > 0 ==>
        z.role.Constant? || Normalised(t.vals, z.dims[0], z.dims[1])
  }

  lemma OwedIsPairing(p: Primitives, g: Graph, seed: seq<seq<real>>, i: nat, upstream: seq<real>,
                      op: Op, pd: seq<seq<int>>, x: seq<DTensor>)
    requires GraphOk(g) && SeedOk(g, seed) && i < |g| && g[i].role.Computed?
    requires |upstream| == Numel(g[i].dims) && ParentsEarlier(g, i)
    requires op == g[i].role.op && pd == OperandDims(g, i) && x == OperandTensors(p, g, seed, i)
    requires Typed(op, pd, g[i].dims) && TangentsSized(pd, x) && Values(x) == OperandValues(g, i)
    ensures Owed(p, g, seed, i, upstream, 0) == Pairing(p, op, pd, g[i].dims, x, upstream)
  {
    var n := |Operands(g, i)|;
    assert n == Arity(op);
    assert Owed(p, g, seed, i, upstream, n) == 0.0;
    OperandTangent(p, g, seed, i, 0);
    if n == 2 {
      OperandTangent(p, g, seed, i, 1);
      assert Owed(p, g, seed, i, upstream, 1) == Dot(Contribution(p, g, i, upstream, 1), x[1].d);
    }
  }

  lemma NodeDifferentiable(p: Primitives, g: Graph, seed: seq<seq<real>>, i: nat, x: seq<DTensor>)
    requires GraphOk(g) && SeedOk(g, seed) && i < |g| && g[i].role.Computed?
    requires Differentiates(g, i) && ParentsEarlier(g, i)
    requires x == OperandTensors(p, g, seed, i) && |x| == |OperandDims(g, i)| == Arity(g[i].role.op)
    ensures Differentiable(g[i].role.op, OperandDims(g, i), x)
  {
    if g[i].role.op.CrossEntropy? {
      OperandTangent(p, g, seed, i, 0);
      OperandTangent(p, g, seed, i, 1);
    }
  }

  /** What a node owes its operands is what it received. */
  lemma OwedIsReceived(p: Primitives, g: Graph, seed: seq<seq<real>>, i: nat, upstream: seq<real>)
    requires GraphOk(g) && SeedOk(g, seed) && i < |g| && g[i].role.Computed? && Lawful(p)
    requires |upstream| == Numel(g[i].dims) && Differentiates(g, i)
    ensures Owed(p, g, seed, i, upstream, 0) == Dot(upstream, Tan(p, g, seed, i))
  {
    assert NodeOk(g, i);
    var op, pd, x := g[i].role.op, OperandDims(g, i), OperandTensors(p, g, seed, i);
    OperandsSized(p, g, seed, i);
    NodeDifferentiable(p, g, seed, i, x);
    OperatorAdjoint(p, op, pd, g[i].dims, x, upstream);
    OwedIsPairing(p, g, seed, i, upstream, op, pd, x);
    assert Tan(p, g, seed, i) == Jvp(p, op, pd, g[i].dims, x);
  }

  lemma StepConserves(p: Primitives, g: Graph, seed: seq<seq<real>>, i: nat, adj: AdjointMap, live: set<nat>)
    requires GraphOk(g) && SeedOk(g, seed) && i < |g| && AdjointsOk(g, adj) && Lawful(p)
    requires i in live && Differentiates(g, i)
    requires forall k :: 0 <= k < |Operands(g, i)| ==> Operands(g, i)[k] in live - {i}
    ensures Mass(p, g, seed, Step(p, g, i, adj), live - {i}, |g|) == Mass(p, g, seed, adj, live, |g|)
  {
    MassRetire(p, g, seed, adj, live, |g|, i);
    if i in adj {
      if g[i].role.Computed? {
        OwedIsReceived(p, g, seed, i, adj[i]);
        DeliverConserves(p, g, seed, i, adj[i], 0, adj, live - {i});
      } else if g[i].role.Constant? {
        DotZero(adj[i], |Tan(p, g, seed, i)|);
      }
    }
  }

  ghost function ListedSet(topo: seq<nat>): set<nat> {
    set j | 0 <= j < |topo| :: topo[j]
  }

  /** The sweep moves adjoint mass towards the leaves without losing any. */
  lemma {:induction false} SweepConserves(p: Primitives, g: Graph, seed: seq<seq<real>>, topo: seq<nat>, adj: AdjointMap)
    requires GraphOk(g) && SeedOk(g, seed) && AdjointsOk(g, adj) && Ordered(g, topo) && Lawful(p)
    requires forall j :: 0 <= j < |topo| ==> Differentiates(g, topo[j])
    ensures Mass(p, g, seed, Sweep(p, g, topo, adj), {}, |g|)
         == Mass(p, g, seed, adj, ListedSet(topo), |g|)
  {
    if |topo| == 0 {
      assert ListedSet(topo) == {};
    } else {
      var last := |topo| - 1;
      var t, rest := topo[last], topo[..last];
      OrderedPrefix(g, topo, last);
      assert ListedSet(topo) - {t} == ListedSet(rest);
      StepConserves(p, g, seed, t, adj, ListedSet(topo));
      SweepConserves(p, g, seed, rest, Step(p, g, t, adj));
    }
  }

  /** Published leaf gradients paired with the leaf tangents. */
  ghost function LeafPairing(g: Graph, seed: seq<seq<real>>, adj: AdjointMap, n: nat): real
    requires |seed| == |g| && n <= |g|
  {
    if n == 0 then 0.0
    else LeafPairing(g, seed, adj, n - 1)
         + if n - 1 in adj && g[n - 1].role.Leaf? then Dot(adj[n - 1], seed[n - 1]) else 0.0
  }

  lemma {:induction false} MassOfLeaves(p: Primitives, g: Graph, seed: seq<seq<real>>, adj: AdjointMap, n: nat)
    requires GraphOk(g) && SeedOk(g, seed) && n <= |g|
    ensures Mass(p, g, seed, adj, {}, n) == LeafPairing(g, seed, adj, n)
  {
    if n != 0 {
      MassOfLeaves(p, g, seed, adj, n - 1);
    }
  }

  lemma {:induction false} MassOfRoot(p: Primitives, g: Graph, seed: seq<seq<real>>, root: nat,
                                      a: seq<real>, live: set<nat>, n: nat)
    requires GraphOk(g) && SeedOk(g, seed) && n <= |g| && root in live && root < |g|
    ensures Mass(p, g, seed, map[root := a], live, n)
         == if root < n then Dot(a, Tan(p, g, seed, root)) else 0.0
  {
    if n != 0 {
      MassOfRoot(p, g, seed, root, a, live, n - 1);
    }
  }

  /** The adjoints the backward pass computes for a scalar root. */
  function BackwardAdjoints(p: Primitives, g: Graph, topo: seq<nat>, root: nat): (r: AdjointMap)
    requires GraphOk(g) && root < |g| && Numel(g[root].dims) == 1
    requires forall j :: 0 <= j < |topo| ==> topo[j] < |g|
    ensures AdjointsOk(g, r)
  {
    Sweep(p, g, topo, map[root := [1.0]])
  }

  /** Reverse mode equals forward mode.  For every recorded graph, with shared
      subexpressions and repeated operands, and every choice of leaf tangents: pairing the
      leaf gradients of the sweep with the tangents gives the forward-mode derivative of
      the root. */
  lemma ReverseEqualsForward(p: Primitives, g: Graph, seed: seq<seq<real>>, topo: seq<nat>, root: nat)
    requires GraphOk(g) && SeedOk(g, seed) && Lawful(p)
    requires Topology(g, topo, root) && Numel(g[root].dims) == 1
    requires forall j :: 0 <= j < |topo| ==> Differentiates(g, topo[j])
    ensures LeafPairing(g, seed, BackwardAdjoints(p, g, topo, root), |g|) == Tan(p, g, seed, root)[0]
  {
    var adj: AdjointMap := map[root := [1.0]];
    var t := Tan(p, g, seed, root);
    assert topo[|topo| - 1] in ListedSet(topo);
    SweepConserves(p, g, seed, topo, adj);
    MassOfRoot(p, g, seed, root, [1.0], ListedSet(topo), |g|);
    MassOfLeaves(p, g, seed, BackwardAdjoints(p, g, topo, root), |g|);
    UnitDot(t);
  }

  lemma UnitDot(t: seq<real>)
    requires |t| == 1
    ensures Dot([1.0], t) == t[0]
  {
    assert Sum(0, Pairwise([1.0], t)) == 0.0;
    assert Pairwise([1.0], t)(0) == t[0];
  }
}
