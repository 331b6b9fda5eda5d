/** Shared ownership: handles own tensors, a tensor owns its storage and its metadata, and a
    recorded node owns its operands.  Counting references reclaims exactly what no handle
    reaches, because operands are older than results. */
module Ownership {
  import opened Calculus
  import opened Graphs
  import opened Worlds
  import opened Memory
  import opened Heap
  import opened TopologyBuilder

  // ----- counting and reaching

  /** Some reference to tensor `i` exists: a handle, or an operand reference of a live node. */
  ghost predicate Referenced(g: Graph, roots: set<nat>, alive: set<nat>, i: nat) {
    i in roots || exists j :: j in alive && j < |g| && i in Operands(g, j)
  }

  /** What reference counting maintains: a tensor is alive exactly while it is referenced. */
  ghost predicate Balanced(g: Graph, roots: set<nat>, alive: set<nat>) {
    (forall i :: i in alive ==> i < |g|) && forall i :: 0 <= i < |g| ==> (i in alive <==> Referenced(g, roots, alive, i))
  }

  ghost predicate Reaches(g: Graph, roots: set<nat>, i: nat)
    requires GraphOk(g)
  {
    exists r :: r in roots && r < |g| && DependsOn(g, r, i)
  }

  ghost function Reachable(g: Graph, roots: set<nat>): set<nat>
    requires GraphOk(g)
  {
    set i: nat | i < |g| && Reaches(g, roots, i)
  }

  lemma {:induction false} AliveBelow(g: Graph, roots: set<nat>, alive: set<nat>, j: nat, i: nat)
    requires GraphOk(g) && Balanced(g, roots, alive) && j < |g| && j in alive && DependsOn(g, j, i)
    ensures i in alive
    decreases j
  {
    if i != j {
      assert NodeOk(g, j);
      var k :| 0 <= k < |Operands(g, j)| && DependsOnOperand(g, j, k, i);
      var q := Operands(g, j)[k];
      assert Referenced(g, roots, alive, q);
      AliveBelow(g, roots, alive, q, i);
    }
  }

  lemma {:induction false} AliveIsReached(g: Graph, roots: set<nat>, alive: set<nat>, i: nat)
    requires GraphOk(g) && Balanced(g, roots, alive) && i in alive
    ensures i < |g| && Reaches(g, roots, i)
    decreases |g| - i
  {
    assert Referenced(g, roots, alive, i);
    if i in roots {
      assert DependsOn(g, i, i);
    } else {
      var j :| j in alive && j < |g| && i in Operands(g, j);
      assert NodeOk(g, j);
      AliveIsReached(g, roots, alive, j);
      ReachOperand(g, roots, j, i);
    }
  }

  lemma ReachOperand(g: Graph, roots: set<nat>, j: nat, i: nat)
    requires GraphOk(g) && j < |g| && Reaches(g, roots, j) && i in Operands(g, j)
    ensures Reaches(g, roots, i)
  {
    var r :| r in roots && r < |g| && DependsOn(g, r, j);
    var k :| 0 <= k < |Operands(g, j)| && Operands(g, j)[k] == i;
    DependsTransitive(g, r, j, k);
  }

  /** What has a user below a root is a root or is used by something reached. */
  lemma {:induction false} ReachedIsReferenced(g: Graph, roots: set<nat>, r: nat, i: nat)
    requires GraphOk(g) && r < |g| && Reaches(g, roots, r) && DependsOn(g, r, i) && i != r
    ensures Referenced(g, roots, Reachable(g, roots), i)
    decreases r
  {
    assert NodeOk(g, r);
    var k :| 0 <= k < |Operands(g, r)| && DependsOnOperand(g, r, k, i);
    var q := Operands(g, r)[k];
    if q == i {
      assert r in Reachable(g, roots) && i in Operands(g, r);
    } else {
      ReachOperand(g, roots, r, q);
      ReachedIsReferenced(g, roots, q, i);
    }
  }

  /** Reference counting keeps exactly what the handles reach alive: the recorded graph is
      acyclic, so no group of tensors can keep itself alive. */
  lemma CountingIsReaching(g: Graph, roots: set<nat>, alive: set<nat>)
    requires GraphOk(g) && forall r :: r in roots ==> r < |g|
    ensures Balanced(g, roots, alive) <==> alive == Reachable(g, roots)
  {
    var reached := Reachable(g, roots);
    if Balanced(g, roots, alive) {
      forall i | i in alive ensures i in reached {
        AliveIsReached(g, roots, alive, i);
      }
      forall i | i in reached ensures i in alive {
        var r :| r in roots && r < |g| && DependsOn(g, r, i);
        assert Referenced(g, roots, alive, r);
        AliveBelow(g, roots, alive, r, i);
      }
    }
    forall i | 0 <= i < |g| ensures i in reached <==> Referenced(g, roots, reached, i) {
      if i in reached && i !in roots {
        var r :| r in roots && r < |g| && DependsOn(g, r, i);
        assert DependsOn(g, r, r);
        ReachedIsReferenced(g, roots, r, i);
      }
      if Referenced(g, roots, reached, i) {
        if i in roots {
          assert DependsOn(g, i, i);
        } else {
          var j :| j in reached && j < |g| && i in Operands(g, j);
          ReachOperand(g, roots, j, i);
        }
      }
    }
  }

  // ----- the counts of a heap

  ghost function AliveSet(counts: seq<nat>): set<nat> {
    set i: nat | i < |counts| && counts[i] > 0
  }

  ghost function Roots(held: multiset<nat>): set<nat> {
    set i: nat | i in held
  }

  lemma {:induction false} UsersPositive(metas: map<nat, Meta>, counts: seq<nat>, q: nat, n: nat)
    requires n <= |counts|
    ensures Users(metas, counts, q, n) > 0 <==>
            exists j: nat :: j < n && counts[j] > 0 && q in RecordedParents(metas, j)
  {
    if n != 0 {
      UsersPositive(metas, counts, q, n - 1);
      assert multiset(RecordedParents(metas, n - 1))[q] > 0 <==> q in RecordedParents(metas, n - 1);
    }
  }

  /** Exact counts keep a tensor alive exactly while it is referenced. */
  lemma CountsBalance(p: Primitives, w: World, g: Graph, l: Ledger, held: multiset<nat>)
    requires WorldOk(p, w) && g == Snapshot(w) && LedgerOk(w, l, held)
    ensures Balanced(g, Roots(held), AliveSet(l.counts))
  {
    SnapshotMirrors(p, w);
    forall i | 0 <= i < |g| ensures i in AliveSet(l.counts) <==> Referenced(g, Roots(held), AliveSet(l.counts), i) {
      CountedIsReferenced(g, w.metas, l.counts, held, i);
    }
  }

  lemma CountedIsReferenced(g: Graph, metas: map<nat, Meta>, counts: seq<nat>, held: multiset<nat>, i: nat)
    requires Mirrors(g, metas) && |g| == |counts| && i < |counts|
    requires counts[i] == held[i] + Users(metas, counts, i, |counts|)
    ensures counts[i] > 0 <==> Referenced(g, Roots(held), AliveSet(counts), i)
  {
    UsersPositive(metas, counts, i, |counts|);
    if j: nat :| j < |counts| && counts[j] > 0 && i in RecordedParents(metas, j) {
      assert j in AliveSet(counts) && i in Operands(g, j);
    }
    if j :| j in AliveSet(counts) && j < |g| && i in Operands(g, j) {
      assert i in RecordedParents(metas, j);
    }
  }

  /** What a heap keeps alive is exactly what is reached from the references it is held by. */
  lemma AliveIsReachable(p: Primitives, w: World, g: Graph, l: Ledger, held: multiset<nat>)
    requires WorldOk(p, w) && g == Snapshot(w) && GraphOk(g) && LedgerOk(w, l, held)
    ensures AliveSet(l.counts) == Reachable(g, Roots(held))
  {
    CountsBalance(p, w, g, l, held);
    CountingIsReaching(g, Roots(held), AliveSet(l.counts));
  }

  // ----- live bytes

  /** The bytes of the storages in `used`, among the first `n`. */
  ghost function Bytes(storages: seq<seq<real>>, used: set<nat>, n: nat): nat
    requires n <= |storages|
  {
    if n == 0 then 0 else Bytes(storages, used, n - 1) + if n - 1 in used then 4 * |storages[n - 1]| else 0
  }

  /** The bytes of the gradients of the tensors in `alive`, among the first `n`. */
  ghost function GradientsOf(metas: map<nat, Meta>, alive: set<nat>, n: nat): nat {
    if n == 0 then 0 else GradientsOf(metas, alive, n - 1) + if n - 1 in alive then GradientSize(metas, n - 1) else 0
  }

  ghost function Used(w: World, alive: set<nat>): set<nat> {
    set i: nat | i in alive && i < |w.tensors| :: w.tensors[i].storage
  }

  /** Four bytes for each element of a storage in use and of each live gradient. */
  ghost function LiveBytes(w: World, alive: set<nat>): nat {
    Bytes(w.storages, Used(w, alive), |w.storages|) + GradientsOf(w.metas, alive, |w.tensors|)
  }

  lemma {:induction false} SharersPositive(w: World, counts: seq<nat>, s: nat, n: nat)
    requires n <= |counts| == |w.tensors|
    ensures Sharers(w.tensors, counts, s, n) > 0 <==>
            exists j: nat :: j < n && counts[j] > 0 && w.tensors[j].storage == s
  {
    if n != 0 {
      SharersPositive(w, counts, s, n - 1);
    }
  }

  lemma {:induction false} StorageBytesUsed(w: World, l: Ledger, n: nat)
    requires |l.counts| == |w.tensors| && n <= |l.shares| == |w.storages|
    requires forall s :: 0 <= s < |l.shares| ==> l.shares[s] == Sharers(w.tensors, l.counts, s, |l.counts|)
    ensures StorageBytes(w.storages, l.shares, n) == Bytes(w.storages, Used(w, AliveSet(l.counts)), n)
  {
    if n != 0 {
      StorageBytesUsed(w, l, n - 1);
      SharersPositive(w, l.counts, n - 1, |l.counts|);
      var alive := AliveSet(l.counts);
      if j: nat :| j < |l.counts| && l.counts[j] > 0 && w.tensors[j].storage == n - 1 {
        assert j in alive;
      }
    }
  }

  lemma {:induction false} GradientBytesAlive(metas: map<nat, Meta>, counts: seq<nat>, n: nat)
    requires n <= |counts|
    ensures GradientBytes(metas, counts, n) == GradientsOf(metas, AliveSet(counts), n)
  {
    if n != 0 {
      GradientBytesAlive(metas, counts, n - 1);
    }
  }

  /** The byte counter is four times the total length of the storages and gradients reached
      from the references the heap is held by. */
  lemma LiveBytesExact(p: Primitives, w: World, g: Graph, l: Ledger, held: multiset<nat>)
    requires WorldOk(p, w) && g == Snapshot(w) && GraphOk(g) && LedgerOk(w, l, held)
    ensures l.liveBytes == LiveBytes(w, Reachable(g, Roots(held)))
  {
    AliveIsReachable(p, w, g, l, held);
    StorageBytesUsed(w, l, |l.shares|);
    GradientBytesAlive(w.metas, l.counts, |l.counts|);
  }

  lemma {:induction false} NoBytes(storages: seq<seq<real>>, n: nat)
    requires n <= |storages|
    ensures Bytes(storages, {}, n) == 0
  {
    if n != 0 {
      NoBytes(storages, n - 1);
    }
  }

  lemma {:induction false} NoGradients(metas: map<nat, Meta>, n: nat)
    ensures GradientsOf(metas, {}, n) == 0
  {
    if n != 0 {
      NoGradients(metas, n - 1);
    }
  }

  /** When nothing is held from outside, the byte counter is zero. */
  lemma AllReclaimed(p: Primitives, w: World, l: Ledger)
    requires WorldOk(p, w) && LedgerOk(w, l, multiset{})
    ensures l.liveBytes == 0
  {
    SnapshotOk(p, w);
    var g := Snapshot(w);
    LiveBytesExact(p, w, g, l, multiset{});
    assert Reachable(g, Roots(multiset{})) == {};
    assert Used(w, {}) == {};
    NoBytes(w.storages, |w.storages|);
    NoGradients(w.metas, |w.tensors|);
  }

  /** Whatever a held tensor depends on is alive. */
  lemma DependenceAlive(p: Primitives, w: World, g: Graph, l: Ledger, m: Marks, root: nat, i: nat)
    requires WorldOk(p, w) && g == Snapshot(w) && GraphOk(g) && Books(p, w, l, m)
    requires root in m.held && root < |g| && i < |g| && DependsOn(g, root, i)
    ensures Alive(l.counts, i)
  {
    OpenBooks(p, w, l, m);
    AliveIsReachable(p, w, g, l, m.held);
    assert root in Roots(m.held);
    assert i in Reachable(g, Roots(m.held));
  }
}
