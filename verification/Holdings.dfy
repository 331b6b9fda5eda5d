/** Who holds what: handles hold tensors, modules and optimizers; modules and optimizers hold
    tensors; the optimizer of a module holds the module.  The counts of objects and the
    references into the tensor heap are exactly these. */
module Holdings {
  import opened Shapes
  import opened ViewChains
  import opened HandleRegistry

  /** A module or an optimizer, by what it holds; what it belongs to is older. */
  datatype Holding = Holding(tensors: seq<nat>, owner: Option<nat>)

  predicate IsObject(kind: HandleType) {
    kind.ModuleHandle? || kind.OptimizerHandle? || kind.ParameterOptimizer?
  }

  /** The live handles of tensor `i`. */
  ghost function TensorHandles(t: Table, i: nat): set<u64> {
    set x | x in t.entries && t.entries[x].kind.TensorHandle? && t.entries[x].item == i
  }

  /** The live handles of object `j`. */
  ghost function ObjectHandles(t: Table, j: nat): set<u64> {
    set x | x in t.entries && IsObject(t.entries[x].kind) && t.entries[x].item == j
  }

  /** Live objects below `n` that belong to object `j`. */
  ghost function Belonging(hs: seq<Holding>, counts: seq<nat>, j: nat, n: nat): nat
    requires n <= |hs| && n <= |counts|
  {
    if n == 0 then 0
    else Belonging(hs, counts, j, n - 1) + if counts[n - 1] > 0 && hs[n - 1].owner == Some(j) then 1 else 0
  }

  /** References to tensor `i` from live objects below `n`. */
  ghost function ObjectRefs(hs: seq<Holding>, counts: seq<nat>, i: nat, n: nat): nat
    requires n <= |hs| && n <= |counts|
  {
    if n == 0 then 0
    else ObjectRefs(hs, counts, i, n - 1) + if counts[n - 1] > 0 then multiset(hs[n - 1].tensors)[i] else 0
  }

  /** References that a call in progress holds: to tensors and to objects. */
  datatype Locals = Locals(tensors: multiset<nat>, objects: multiset<nat>)

  const NoLocals: Locals := Locals(multiset{}, multiset{})

  ghost predicate ObjectsCounted(t: Table, hs: seq<Holding>, counts: seq<nat>, locals: multiset<nat>) {
    && |counts| == |hs|
    && (forall k, j: nat :: 0 <= k < |hs| && hs[k].owner == Some(j) ==> j < k)
    && (forall x :: x in t.entries && IsObject(t.entries[x].kind) ==> t.entries[x].item < |hs|)
    && (forall j :: j in locals ==> j < |hs|)
    && forall j :: 0 <= j < |hs| ==>
         counts[j] == |ObjectHandles(t, j)| + Belonging(hs, counts, j, |hs|) + locals[j]
  }

  ghost predicate TensorsCounted(t: Table, hs: seq<Holding>, counts: seq<nat>, held: multiset<nat>, locals: multiset<nat>) {
    && |counts| == |hs|
    && forall i: nat :: held[i] == |TensorHandles(t, i)| + ObjectRefs(hs, counts, i, |hs|) + locals[i]
  }

  /** Every reference is accounted for: object counts, and the references into the heap. */
  ghost predicate HoldingsOk(t: Table, hs: seq<Holding>, counts: seq<nat>, held: multiset<nat>, l: Locals) {
    ObjectsCounted(t, hs, counts, l.objects) && TensorsCounted(t, hs, counts, held, l.tensors)
  }

  // ----- sums that do not change

  lemma {:induction false} BelongingSame(hs: seq<Holding>, hs': seq<Holding>, counts: seq<nat>, counts': seq<nat>, j: nat, n: nat)
    requires n <= |hs| && n <= |counts| && n <= |hs'| && n <= |counts'|
    requires forall k :: 0 <= k < n ==> (counts'[k] > 0 <==> counts[k] > 0) && hs'[k] == hs[k]
    ensures Belonging(hs', counts', j, n) == Belonging(hs, counts, j, n)
  {
    if n != 0 {
      BelongingSame(hs, hs', counts, counts', j, n - 1);
    }
  }

  lemma {:induction false} ObjectRefsSame(hs: seq<Holding>, hs': seq<Holding>, counts: seq<nat>, counts': seq<nat>,
                                          i: nat, n: nat)
    requires n <= |hs| && n <= |counts| && n <= |hs'| && n <= |counts'|
    requires forall k :: 0 <= k < n ==> (counts'[k] > 0 <==> counts[k] > 0) && hs'[k] == hs[k]
    ensures ObjectRefs(hs', counts', i, n) == ObjectRefs(hs, counts, i, n)
  {
    if n != 0 {
      ObjectRefsSame(hs, hs', counts, counts', i, n - 1);
    }
  }

  /** Nothing older belongs to a new object. */
  lemma {:induction false} NothingBelongs(hs: seq<Holding>, counts: seq<nat>, j: nat, n: nat)
    requires n <= |hs| && n <= |counts| && n <= j
    requires forall k, o: nat :: 0 <= k < |hs| && hs[k].owner == Some(o) ==> o < k
    ensures Belonging(hs, counts, j, n) == 0
  {
    if n != 0 {
      NothingBelongs(hs, counts, j, n - 1);
    }
  }

  // ----- handles come and go

  /** The table with a new entry. */
  function WithEntry(t: Table, x: u64, e: Entry): Table {
    t.(entries := t.entries[x := e])
  }

  lemma TensorHandlesIssued(t: Table, x: u64, e: Entry, i: nat)
    requires x !in t.entries
    ensures |TensorHandles(WithEntry(t, x, e), i)| == |TensorHandles(t, i)| + Bit(e.kind.TensorHandle? && e.item == i)
  {
    if e.kind.TensorHandle? && e.item == i {
      assert TensorHandles(WithEntry(t, x, e), i) == TensorHandles(t, i) + {x};
    } else {
      assert TensorHandles(WithEntry(t, x, e), i) == TensorHandles(t, i);
    }
  }

  lemma ObjectHandlesIssued(t: Table, x: u64, e: Entry, j: nat)
    requires x !in t.entries
    ensures |ObjectHandles(WithEntry(t, x, e), j)| == |ObjectHandles(t, j)| + Bit(IsObject(e.kind) && e.item == j)
  {
    if IsObject(e.kind) && e.item == j {
      assert ObjectHandles(WithEntry(t, x, e), j) == ObjectHandles(t, j) + {x};
    } else {
      assert ObjectHandles(WithEntry(t, x, e), j) == ObjectHandles(t, j);
    }
  }

  /** Only the entries matter. */
  lemma SameEntries(t: Table, t': Table, hs: seq<Holding>, counts: seq<nat>, held: multiset<nat>, l: Locals)
    requires HoldingsOk(t, hs, counts, held, l) && t'.entries == t.entries
    ensures HoldingsOk(t', hs, counts, held, l)
  {
    forall j | 0 <= j < |hs| ensures ObjectHandles(t', j) == ObjectHandles(t, j) {
    }
    forall i: nat ensures TensorHandles(t', i) == TensorHandles(t, i) {
    }
  }

  /** A new handle takes over the reference a call holds to a tensor. */
  lemma TensorIssued(t: Table, hs: seq<Holding>, counts: seq<nat>, held: multiset<nat>, l: Locals, x: u64, i: nat)
    requires HoldingsOk(t, hs, counts, held, l) && x !in t.entries && i in l.tensors
    ensures HoldingsOk(WithEntry(t, x, Entry(TensorHandle, 1, i)), hs, counts, held, l.(tensors := l.tensors - multiset{i}))
  {
    var e := Entry(TensorHandle, 1, i);
    forall j | 0 <= j < |hs| ensures |ObjectHandles(WithEntry(t, x, e), j)| == |ObjectHandles(t, j)| {
      ObjectHandlesIssued(t, x, e, j);
    }
    forall q: nat ensures |TensorHandles(WithEntry(t, x, e), q)| == |TensorHandles(t, q)| + Bit(q == i) {
      TensorHandlesIssued(t, x, e, q);
    }
  }

  /** A new handle takes over the reference a call holds to an object. */
  lemma ObjectIssued(t: Table, hs: seq<Holding>, counts: seq<nat>, held: multiset<nat>, l: Locals, x: u64,
                     kind: HandleType, j: nat)
    requires HoldingsOk(t, hs, counts, held, l) && x !in t.entries && j in l.objects && IsObject(kind)
    ensures HoldingsOk(WithEntry(t, x, Entry(kind, 1, j)), hs, counts, held, l.(objects := l.objects - multiset{j}))
  {
    var e := Entry(kind, 1, j);
    forall k | 0 <= k < |hs| ensures |ObjectHandles(WithEntry(t, x, e), k)| == |ObjectHandles(t, k)| + Bit(k == j) {
      ObjectHandlesIssued(t, x, e, k);
    }
    forall q: nat ensures |TensorHandles(WithEntry(t, x, e), q)| == |TensorHandles(t, q)| {
      TensorHandlesIssued(t, x, e, q);
    }
  }

  /** Changing only the count of an entry changes nothing held. */
  lemma Recounted(t: Table, hs: seq<Holding>, counts: seq<nat>, held: multiset<nat>, l: Locals, x: u64, refs: u64)
    requires HoldingsOk(t, hs, counts, held, l) && x in t.entries
    ensures HoldingsOk(WithRefs(t, x, refs), hs, counts, held, l)
  {
    var t' := WithRefs(t, x, refs);
    forall j | 0 <= j < |hs| ensures ObjectHandles(t', j) == ObjectHandles(t, j) {
    }
    forall i: nat ensures TensorHandles(t', i) == TensorHandles(t, i) {
    }
  }

  /** The table without an entry. */
  function Without(t: Table, x: u64): Table {
    t.(entries := t.entries - {x})
  }

  /** A handle that is gone leaves its reference to the call that released it. */
  lemma HandleGone(t: Table, hs: seq<Holding>, counts: seq<nat>, held: multiset<nat>, l: Locals, x: u64)
    requires HoldingsOk(t, hs, counts, held, l) && x in t.entries
    ensures var e := t.entries[x];
            HoldingsOk(Without(t, x), hs, counts, held,
                       if e.kind.TensorHandle? then l.(tensors := l.tensors + multiset{e.item})
                       else if IsObject(e.kind) then l.(objects := l.objects + multiset{e.item}) else l)
  {
    var t', e := Without(t, x), t.entries[x];
    assert WithEntry(t', x, e).entries == t.entries;
    forall j | 0 <= j < |hs| ensures |ObjectHandles(t, j)| == |ObjectHandles(t', j)| + Bit(IsObject(e.kind) && e.item == j) {
      ObjectHandlesIssued(t', x, e, j);
      assert ObjectHandles(WithEntry(t', x, e), j) == ObjectHandles(t, j);
    }
    forall i: nat ensures |TensorHandles(t, i)| == |TensorHandles(t', i)| + Bit(e.kind.TensorHandle? && e.item == i) {
      TensorHandlesIssued(t', x, e, i);
      assert TensorHandles(WithEntry(t', x, e), i) == TensorHandles(t, i);
    }
  }

  /** A live tensor handle holds its tensor. */
  lemma HandleHolds(t: Table, hs: seq<Holding>, counts: seq<nat>, held: multiset<nat>, l: Locals, x: u64)
    requires HoldingsOk(t, hs, counts, held, l) && x in t.entries && t.entries[x].kind.TensorHandle?
    ensures t.entries[x].item in held
  {
    var i := t.entries[x].item;
    assert x in TensorHandles(t, i);
    assert held[i] == |TensorHandles(t, i)| + ObjectRefs(hs, counts, i, |hs|) + l.tensors[i];
  }

  /** A live object handle keeps its object alive. */
  lemma HandleKeeps(t: Table, hs: seq<Holding>, counts: seq<nat>, held: multiset<nat>, l: Locals, x: u64)
    requires HoldingsOk(t, hs, counts, held, l) && x in t.entries && IsObject(t.entries[x].kind)
    ensures t.entries[x].item < |hs| == |counts| && counts[t.entries[x].item] > 0
  {
    assert x in ObjectHandles(t, t.entries[x].item);
  }

  /** A live object holds its tensors. */
  lemma {:induction false} ObjectHolds(hs: seq<Holding>, counts: seq<nat>, k: nat, n: nat, i: nat)
    requires k < n <= |hs| && n <= |counts| && counts[k] > 0 && i in hs[k].tensors
    ensures ObjectRefs(hs, counts, i, n) > 0
  {
    assert multiset(hs[k].tensors)[i] > 0;
    if k < n - 1 {
      ObjectHolds(hs, counts, k, n - 1, i);
    }
  }

  lemma LiveObjectHolds(t: Table, hs: seq<Holding>, counts: seq<nat>, held: multiset<nat>, l: Locals, k: nat)
    requires HoldingsOk(t, hs, counts, held, l) && k < |hs| && counts[k] > 0
    ensures forall i :: i in hs[k].tensors ==> i in held
  {
    forall i | i in hs[k].tensors ensures i in held {
      ObjectHolds(hs, counts, k, |hs|, i);
      assert held[i] == |TensorHandles(t, i)| + ObjectRefs(hs, counts, i, |hs|) + l.tensors[i];
    }
  }

  // ----- the heap's references change

  /** A call took more references to tensors. */
  lemma TensorsTaken(t: Table, hs: seq<Holding>, counts: seq<nat>, held: multiset<nat>, l: Locals, more: multiset<nat>)
    requires HoldingsOk(t, hs, counts, held, l)
    ensures HoldingsOk(t, hs, counts, held + more, l.(tensors := l.tensors + more))
  {
  }

  /** A call dropped references it held to tensors. */
  lemma TensorsDropped(t: Table, hs: seq<Holding>, counts: seq<nat>, held: multiset<nat>, l: Locals, fewer: multiset<nat>)
    requires HoldingsOk(t, hs, counts, held, l) && fewer <= l.tensors
    ensures HoldingsOk(t, hs, counts, held - fewer, l.(tensors := l.tensors - fewer))
  {
    forall i: nat ensures (held - fewer)[i] == |TensorHandles(t, i)| + ObjectRefs(hs, counts, i, |hs|) + (l.tensors - fewer)[i] {
      assert held[i] == |TensorHandles(t, i)| + ObjectRefs(hs, counts, i, |hs|) + l.tensors[i];
      assert fewer[i] <= l.tensors[i];
    }
  }

  // ----- objects come and go

  function OwnerRaised(counts: seq<nat>, owner: Option<nat>): (r: seq<nat>)
    requires owner.Some? ==> owner.value < |counts|
    ensures |r| == |counts|
  {
    if owner.None? then counts else counts[owner.value := counts[owner.value] + 1]
  }

  /** A new object takes over references a call holds to tensors, and one to its owner; the
      call holds the object. */
  lemma ObjectJoins(t: Table, hs: seq<Holding>, counts: seq<nat>, held: multiset<nat>, rest: Locals, h: Holding)
    requires HoldingsOk(t, hs, counts, held, Locals(rest.tensors + multiset(h.tensors), rest.objects))
    requires h.owner.Some? ==> h.owner.value < |counts| && counts[h.owner.value] > 0
    ensures HoldingsOk(t, hs + [h], OwnerRaised(counts, h.owner) + [1], held,
                       Locals(rest.tensors, rest.objects + multiset{|hs|}))
  {
    var hs', counts', n := hs + [h], OwnerRaised(counts, h.owner) + [1], |hs|;
    ObjectsJoin(t, hs, counts, rest.objects, h);
    forall i: nat ensures held[i] == |TensorHandles(t, i)| + ObjectRefs(hs', counts', i, n + 1) + rest.tensors[i] {
      ObjectRefsSame(hs, hs', counts, counts', i, n);
      assert held[i]
          == |TensorHandles(t, i)| + ObjectRefs(hs, counts, i, n) + (rest.tensors + multiset(h.tensors))[i];
    }
  }

  lemma ObjectsJoin(t: Table, hs: seq<Holding>, counts: seq<nat>, locals: multiset<nat>, h: Holding)
    requires ObjectsCounted(t, hs, counts, locals)
    requires h.owner.Some? ==> h.owner.value < |counts| && counts[h.owner.value] > 0
    ensures ObjectsCounted(t, hs + [h], OwnerRaised(counts, h.owner) + [1], locals + multiset{|hs|})
  {
    var hs', counts', n := hs + [h], OwnerRaised(counts, h.owner) + [1], |hs|;
    assert n !in locals;
    forall j | 0 <= j < n + 1
      ensures counts'[j] == |ObjectHandles(t, j)| + Belonging(hs', counts', j, n + 1) + (locals + multiset{n})[j]
    {
      BelongingSame(hs, hs', counts, counts', j, n);
      if j == n {
        NothingBelongs(hs, counts, n, n);
        assert ObjectHandles(t, n) == {};
      }
    }
  }

  /** One reference of several to an object is dropped. */
  lemma ObjectReleased(t: Table, hs: seq<Holding>, counts: seq<nat>, held: multiset<nat>, l: Locals, j: nat)
    requires HoldingsOk(t, hs, counts, held, l) && j in l.objects && j < |counts| && counts[j] > 1
    ensures HoldingsOk(t, hs, counts[j := counts[j] - 1], held, l.(objects := l.objects - multiset{j}))
  {
    var counts', n := counts[j := counts[j] - 1], |hs|;
    forall k | 0 <= k < n ensures Belonging(hs, counts', k, n) == Belonging(hs, counts, k, n) {
      BelongingSame(hs, hs, counts, counts', k, n);
    }
    forall i: nat ensures ObjectRefs(hs, counts', i, n) == ObjectRefs(hs, counts, i, n) {
      ObjectRefsSame(hs, hs, counts, counts', i, n);
    }
  }

  lemma {:induction false} BelongingGone(hs: seq<Holding>, counts: seq<nat>, j: nat, k: nat, n: nat)
    requires n <= |hs| && n <= |counts| && j < |hs| && j < |counts| && counts[j] > 0
    ensures Belonging(hs, counts[j := 0], k, n) + Bit(j < n && hs[j].owner == Some(k)) == Belonging(hs, counts, k, n)
  {
    if n != 0 {
      BelongingGone(hs, counts, j, k, n - 1);
    }
  }

  lemma {:induction false} ObjectRefsGone(hs: seq<Holding>, counts: seq<nat>, j: nat, i: nat, n: nat)
    requires n <= |hs| && n <= |counts| && j < |hs| && j < |counts| && counts[j] > 0
    ensures ObjectRefs(hs, counts[j := 0], i, n) + (if j < n then multiset(hs[j].tensors)[i] else 0)
         == ObjectRefs(hs, counts, i, n)
  {
    if n != 0 {
      ObjectRefsGone(hs, counts, j, i, n - 1);
    }
  }

  ghost function OwnerOf(h: Holding): multiset<nat> {
    if h.owner.Some? then multiset{h.owner.value} else multiset{}
  }

  /** The last reference to an object: what it held is left to be dropped. */
  lemma ObjectDies(t: Table, hs: seq<Holding>, counts: seq<nat>, held: multiset<nat>, l: Locals, j: nat)
    requires HoldingsOk(t, hs, counts, held, l) && j in l.objects && j < |counts| && counts[j] == 1
    ensures HoldingsOk(t, hs, counts[j := 0], held,
                       Locals(l.tensors + multiset(hs[j].tensors), l.objects - multiset{j} + OwnerOf(hs[j])))
  {
    var counts', n := counts[j := 0], |hs|;
    forall k | 0 <= k < n
      ensures counts'[k] == |ObjectHandles(t, k)| + Belonging(hs, counts', k, n) + (l.objects - multiset{j} + OwnerOf(hs[j]))[k]
    {
      BelongingGone(hs, counts, j, k, n);
    }
    forall i: nat
      ensures held[i] == |TensorHandles(t, i)| + ObjectRefs(hs, counts', i, n) + (l.tensors + multiset(hs[j].tensors))[i]
    {
      ObjectRefsGone(hs, counts, j, i, n);
      assert held[i] == |TensorHandles(t, i)| + ObjectRefs(hs, counts, i, n) + l.tensors[i];
    }
  }

  // ----- what the handles reach

  /** Object `k` is reached: by a handle, or by a reached object that belongs to it. */
  ghost predicate ObjectReached(t: Table, hs: seq<Holding>, k: nat)
    decreases |hs| - k
  {
    ObjectHandles(t, k) != {} || exists j :: k < j < |hs| && hs[j].owner == Some(k) && ObjectReached(t, hs, j)
  }

  /** Tensor `i` is held: by a handle of its own, or by a reached object. */
  ghost predicate TensorReached(t: Table, hs: seq<Holding>, i: nat) {
    TensorHandles(t, i) != {} || exists k :: 0 <= k < |hs| && ObjectReached(t, hs, k) && i in hs[k].tensors
  }

  lemma {:induction false} BelongingPositive(hs: seq<Holding>, counts: seq<nat>, k: nat, n: nat)
    requires n <= |hs| && n <= |counts|
    ensures Belonging(hs, counts, k, n) > 0 <==> exists j: nat :: j < n && counts[j] > 0 && hs[j].owner == Some(k)
  {
    if n != 0 {
      BelongingPositive(hs, counts, k, n - 1);
    }
  }

  lemma {:induction false} ObjectRefsPositive(hs: seq<Holding>, counts: seq<nat>, i: nat, n: nat)
    requires n <= |hs| && n <= |counts|
    ensures ObjectRefs(hs, counts, i, n) > 0 <==> exists j: nat :: j < n && counts[j] > 0 && i in hs[j].tensors
  {
    if n != 0 {
      ObjectRefsPositive(hs, counts, i, n - 1);
      assert multiset(hs[n - 1].tensors)[i] > 0 <==> i in hs[n - 1].tensors;
    }
  }

  /** Between calls, an object is alive exactly if the handles reach it. */
  lemma {:induction false} ObjectAliveIfReached(t: Table, hs: seq<Holding>, counts: seq<nat>, k: nat)
    requires ObjectsCounted(t, hs, counts, multiset{}) && k < |hs|
    ensures counts[k] > 0 <==> ObjectReached(t, hs, k)
    decreases |hs| - k
  {
    BelongingPositive(hs, counts, k, |hs|);
    assert |ObjectHandles(t, k)| > 0 <==> ObjectHandles(t, k) != {};
    forall j | k < j < |hs| ensures counts[j] > 0 <==> ObjectReached(t, hs, j) {
      ObjectAliveIfReached(t, hs, counts, j);
    }
  }

  /** Between calls, the heap is held exactly by what the handles reach. */
  lemma HeldIfReached(t: Table, hs: seq<Holding>, counts: seq<nat>, held: multiset<nat>, i: nat)
    requires HoldingsOk(t, hs, counts, held, NoLocals)
    ensures i in held <==> TensorReached(t, hs, i)
  {
    ObjectRefsPositive(hs, counts, i, |hs|);
    assert held[i] == |TensorHandles(t, i)| + ObjectRefs(hs, counts, i, |hs|);
    forall k | 0 <= k < |hs| ensures counts[k] > 0 <==> ObjectReached(t, hs, k) {
      ObjectAliveIfReached(t, hs, counts, k);
    }
  }

  /** An empty table reaches nothing. */
  lemma NothingReached(t: Table, hs: seq<Holding>, counts: seq<nat>, held: multiset<nat>)
    requires HoldingsOk(t, hs, counts, held, NoLocals) && t.entries == map[]
    ensures held == multiset{}
  {
    forall k | 0 <= k < |hs| ensures !ObjectReached(t, hs, k) {
      NoObjectReached(t, hs, k);
    }
    forall i: nat ensures i !in held {
      HeldIfReached(t, hs, counts, held, i);
    }
  }

  lemma {:induction false} NoObjectReached(t: Table, hs: seq<Holding>, k: nat)
    requires t.entries == map[] && k < |hs|
    ensures !ObjectReached(t, hs, k)
    decreases |hs| - k
  {
    forall j | k < j < |hs| ensures !ObjectReached(t, hs, j) {
      NoObjectReached(t, hs, j);
    }
  }
}
