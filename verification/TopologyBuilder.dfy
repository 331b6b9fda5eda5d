/** The depth-first topological order of the tensors a root depends on. */
module TopologyBuilder {
  import opened Calculus
  import opened Graphs
  import opened Worlds
  import opened Heap

  // ----- dependence

  /** `i` is the root or is reached from it through recorded operands. */
  ghost predicate DependsOn(g: Graph, root: nat, i: nat)
    requires GraphOk(g) && root < |g|
    decreases root
  {
    i == root || exists k :: 0 <= k < |Operands(g, root)| && DependsOnOperand(g, root, k, i)
  }

  ghost predicate DependsOnOperand(g: Graph, root: nat, k: nat, i: nat)
    requires GraphOk(g) && root < |g| && k < |Operands(g, root)|
    decreases root, 0
  {
    assert NodeOk(g, root);
    Operands(g, root)[k] < root && DependsOn(g, Operands(g, root)[k], i)
  }

  lemma {:induction false} DependsTransitive(g: Graph, root: nat, u: nat, k: nat)
    requires GraphOk(g) && root < |g| && u < |g| && DependsOn(g, root, u) && k < |Operands(g, u)|
    ensures DependsOn(g, root, Operands(g, u)[k])
    decreases root
  {
    assert NodeOk(g, root) && NodeOk(g, u);
    var q := Operands(g, u)[k];
    if u == root {
      assert DependsOn(g, q, q);
      assert DependsOnOperand(g, root, k, q);
    } else {
      var l :| 0 <= l < |Operands(g, root)| && DependsOnOperand(g, root, l, u);
      DependsTransitive(g, Operands(g, root)[l], u, k);
      assert DependsOnOperand(g, root, l, q);
    }
  }

  lemma {:induction false} DependsListed(g: Graph, topo: seq<nat>, r: nat, i: nat)
    requires GraphOk(g) && Ordered(g, topo) && r in topo && r < |g| && DependsOn(g, r, i)
    ensures i in topo
    decreases r
  {
    if i != r {
      var k :| 0 <= k < |Operands(g, r)| && DependsOnOperand(g, r, k, i);
      var j :| 0 <= j < |topo| && topo[j] == r;
      assert Operands(g, topo[j])[k] in topo[..j];
      DependsListed(g, topo, Operands(g, r)[k], i);
    }
  }

  lemma {:induction false} ListedDepends(g: Graph, topo: seq<nat>, root: nat, j: nat)
    requires GraphOk(g) && Topology(g, topo, root) && j < |topo|
    ensures root < |g| && DependsOn(g, root, topo[j])
    decreases |topo| - j
  {
    if j < |topo| - 1 {
      assert UsedLater(g, topo, j, |topo|);
      var l :| j < l < |topo| && topo[j] in Operands(g, topo[l]);
      ListedDepends(g, topo, root, l);
      var k :| 0 <= k < |Operands(g, topo[l])| && Operands(g, topo[l])[k] == topo[j];
      DependsTransitive(g, root, topo[l], k);
    }
  }

  /** A topology lists exactly the tensors the root depends on. */
  lemma TopologyIsDependence(g: Graph, topo: seq<nat>, root: nat)
    requires GraphOk(g) && Topology(g, topo, root)
    ensures root < |g| && forall i :: i in topo <==> DependsOn(g, root, i)
  {
    assert topo[|topo| - 1] in topo;
    forall i | i in topo ensures DependsOn(g, root, i) {
      var j :| 0 <= j < |topo| && topo[j] == i;
      ListedDepends(g, topo, root, j);
    }
    forall i | DependsOn(g, root, i) ensures i in topo {
      DependsListed(g, topo, root, i);
    }
  }

  // ----- the depth-first builder

  /** Elements listed from position `from` on are used later in the list or wait for a
      user among `waiting`. */
  ghost predicate Awaited(g: Graph, topo: seq<nat>, from: nat, waiting: seq<nat>)
    requires forall j :: 0 <= j < |topo| ==> topo[j] < |g|
  {
    forall j :: from <= j < |topo| ==> UsedLater(g, topo, j, |topo|) || topo[j] in waiting
  }

  lemma AwaitedGrows(g: Graph, topo: seq<nat>, topo': seq<nat>, from: nat, waiting: seq<nat>, q: nat)
    requires topo <= topo' && from <= |topo|
    requires forall j :: 0 <= j < |topo'| ==> topo'[j] < |g|
    requires Awaited(g, topo, from, waiting)
    requires Awaited(g, topo', |topo|, [q])
    ensures Awaited(g, topo', from, waiting + [q])
  {
    forall j | from <= j < |topo'|
      ensures UsedLater(g, topo', j, |topo'|) || topo'[j] in waiting + [q]
    {
      if j < |topo| {
        assert topo'[j] == topo[j];
        if UsedLater(g, topo, j, |topo|) {
          var l :| j < l < |topo| && topo[j] in Operands(g, topo[l]);
          assert topo'[l] == topo[l];
        }
      }
    }
  }

  /** Appending a tensor whose operands are all listed. */
  lemma PushOrdered(g: Graph, topo: seq<nat>, v: nat)
    requires Ordered(g, topo) && v < |g| && v !in topo
    requires forall k :: 0 <= k < |Operands(g, v)| ==> Operands(g, v)[k] in topo
    ensures Ordered(g, topo + [v])
  {
    var t := topo + [v];
    forall j, k | 0 <= j < |t| && 0 <= k < |Operands(g, t[j])|
      ensures Operands(g, t[j])[k] in t[..j]
    {
      if j < |topo| {
        assert t[j] == topo[j] && t[..j] == topo[..j];
        assert Operands(g, topo[j])[k] in topo[..j];
      } else {
        assert t[..j] == topo;
      }
    }
  }

  lemma PushAwaited(g: Graph, topo: seq<nat>, v: nat, from: nat)
    requires v < |g| && forall j :: 0 <= j < |topo| ==> topo[j] < |g|
    requires Awaited(g, topo, from, Operands(g, v))
    ensures Awaited(g, topo + [v], from, [v])
  {
    var t := topo + [v];
    forall j | from <= j < |t| ensures UsedLater(g, t, j, |t|) || t[j] in [v] {
      if j < |topo| {
        if UsedLater(g, topo, j, |topo|) {
          var l :| j < l < |topo| && topo[j] in Operands(g, topo[l]);
          assert t[l] == topo[l];
        } else {
          assert t[|topo|] == v;
        }
      }
    }
  }

  /** The graph has exactly the recorded operands, and operands are older than results. */
  ghost predicate Mirrors(g: Graph, metas: map<nat, Meta>) {
    forall i {:trigger Operands(g, i)} {:trigger RecordedParents(metas, i)} :: 0 <= i < |g| ==>
      Operands(g, i) == RecordedParents(metas, i) &&
      forall k :: 0 <= k < |RecordedParents(metas, i)| ==> RecordedParents(metas, i)[k] < i
  }

  /** A visited tensor is already listed or is still being expanded, and those are newer
      than `bound`. */
  ghost predicate InProgress(g: Graph, visited: set<nat>, topology: seq<nat>, bound: int) {
    && Ordered(g, topology)
    && (forall t :: t in topology ==> t in visited)
    && (forall t :: t in visited ==> t in topology || t > bound)
  }

  /** Visiting lists new tensors no newer than `bound`, and nothing else is visited. */
  ghost predicate Visits(visited: set<nat>, topology: seq<nat>, visited': set<nat>, topology': seq<nat>, bound: int) {
    && topology <= topology' && visited <= visited'
    && (forall t :: t in visited' ==> t in topology' || t in visited)
    && (forall j :: |topology| <= j < |topology'| ==> topology'[j] <= bound)
  }

  /** Depth-first post-order.  Creation order bounds the recursion: operands are older than
      their results. */
  method BuildTopology(metas: map<nat, Meta>, ghost g: Graph, value: nat, visited: set<nat>, topology: seq<nat>)
    returns (visited': set<nat>, topology': seq<nat>)
    requires Mirrors(g, metas) && value < |g|
    requires InProgress(g, visited, topology, value)
    ensures InProgress(g, visited', topology', value)
    ensures Visits(visited, topology, visited', topology', value)
    ensures value in topology'
    ensures value !in visited ==> |topology'| > 0 && topology'[|topology'| - 1] == value
    ensures Awaited(g, topology', |topology|, [value])
    decreases value, 1
  {
    if value in visited {
      return visited, topology;
    }
    var parents := RecordedParents(metas, value);
    assert parents == Operands(g, value);
    visited', topology' := Expand(metas, g, value, parents, visited + {value}, topology);
    NotYetListed(visited, topology, topology', value);
    PushOrdered(g, topology', value);
    PushAwaited(g, topology', value, |topology|);
    topology' := topology' + [value];
  }

  lemma NotYetListed(visited: set<nat>, topo: seq<nat>, topo': seq<nat>, value: nat)
    requires topo <= topo' && value !in visited && forall t :: t in topo ==> t in visited
    requires forall j :: |topo| <= j < |topo'| ==> topo'[j] <= value - 1
    ensures value !in topo'
  {
    forall j | 0 <= j < |topo'| ensures topo'[j] != value {
      if j < |topo| {
        assert topo'[j] == topo[j];
      }
    }
  }

  /** Visiting an older tensor leaves what was in progress in progress. */
  lemma VisitedMore(g: Graph, visited: set<nat>, topology: seq<nat>, visited': set<nat>, topology': seq<nat>,
                    q: int, bound: int)
    requires InProgress(g, visited, topology, bound) && q <= bound
    requires InProgress(g, visited', topology', q) && Visits(visited, topology, visited', topology', q)
    ensures InProgress(g, visited', topology', bound) && Visits(visited, topology, visited', topology', bound)
  {
    forall t | t in visited' ensures t in topology' || t > bound {
      if t in topology {
        var j :| 0 <= j < |topology| && topology[j] == t;
        assert topology'[j] == t;
      }
    }
  }

  lemma VisitsCompose(visited: set<nat>, topology: seq<nat>, visited': set<nat>, topology': seq<nat>,
                      v: set<nat>, t: seq<nat>, bound: int)
    requires Visits(visited, topology, visited', topology', bound) && Visits(visited', topology', v, t, bound)
    ensures Visits(visited, topology, v, t, bound)
    ensures forall x :: x in topology' ==> x in t
  {
    forall x | x in topology' ensures x in t {
      var j :| 0 <= j < |topology'| && topology'[j] == x;
      assert t[j] == x;
    }
    forall j | |topology| <= j < |t| ensures t[j] <= bound {
      assert j < |topology'| ==> t[j] == topology'[j];
    }
  }

  /** Visit the operands of `value` in turn. */
  method Expand(metas: map<nat, Meta>, ghost g: Graph, value: nat, parents: seq<nat>,
                visited: set<nat>, topology: seq<nat>)
    returns (visited': set<nat>, topology': seq<nat>)
    requires Mirrors(g, metas) && value < |g| && parents == RecordedParents(metas, value)
    requires InProgress(g, visited, topology, value - 1)
    ensures InProgress(g, visited', topology', value - 1)
    ensures Visits(visited, topology, visited', topology', value - 1)
    ensures forall l :: 0 <= l < |parents| ==> parents[l] in topology'
    ensures Awaited(g, topology', |topology|, parents)
    decreases value, 0
  {
    visited', topology' := visited, topology;
    assert Operands(g, value) == parents;
    for k := 0 to |parents|
      invariant InProgress(g, visited', topology', value - 1)
      invariant Visits(visited, topology, visited', topology', value - 1)
      invariant forall l :: 0 <= l < k ==> parents[l] in topology'
      invariant Awaited(g, topology', |topology|, parents[..k])
    {
      assert parents[k] < value;
      var v, t := BuildTopology(metas, g, parents[k], visited', topology');
      VisitedMore(g, visited', topology', v, t, parents[k], value - 1);
      VisitsCompose(visited, topology, visited', topology', v, t, value - 1);
      AwaitedGrows(g, topology', t, |topology|, parents[..k], parents[k]);
      assert parents[..k + 1] == parents[..k] + [parents[k]];
      visited', topology' := v, t;
    }
    assert parents[..|parents|] == parents;
  }

  /** The topological order of everything the root depends on. */
  method TopologyOf(h: TensorHeap, root: nat) returns (topology: seq<nat>)
    requires h.Valid() && root < |h.tensors|
    ensures Topology(Snapshot(h.W()), topology, root)
    ensures forall j :: 0 <= j < |topology| ==> topology[j] <= root
  {
    ghost var g := Snapshot(h.W());
    SnapshotMirrors(h.p, h.W());
    topology := TopologyFrom(h.metas, g, root);
  }

  method TopologyFrom(metas: map<nat, Meta>, ghost g: Graph, root: nat) returns (topology: seq<nat>)
    requires Mirrors(g, metas) && root < |g|
    ensures Topology(g, topology, root)
    ensures forall j :: 0 <= j < |topology| ==> topology[j] <= root
  {
    var visited;
    visited, topology := BuildTopology(metas, g, root, {}, []);
    forall j | 0 <= j < |topology| - 1 ensures UsedLater(g, topology, j, |topology|) {
      assert topology[j] != topology[|topology| - 1];
    }
  }

  lemma SnapshotMirrors(p: Primitives, w: World)
    requires WorldOk(p, w)
    ensures Mirrors(Snapshot(w), w.metas)
  {
    SnapshotOk(p, w);
    var g := Snapshot(w);
    forall i | 0 <= i < |g|
      ensures Operands(g, i) == RecordedParents(w.metas, i)
      ensures forall k :: 0 <= k < |RecordedParents(w.metas, i)| ==> RecordedParents(w.metas, i)[k] < i
    {
      assert NodeOk(g, i);
    }
  }
}
