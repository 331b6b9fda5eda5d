/** The engine as its callers see it: handles to tensors, modules and optimizers, and the
    calls on them.  Every call keeps all reference counts exact and the byte counter equal to
    what the handles reach. */
module Engine {
  import opened Shapes
  import opened Layouts
  import opened ViewChains
  import opened Calculus
  import opened Graphs
  import opened Publication
  import opened Worlds
  import opened Transitions
  import opened Runs
  import opened Heap
  import opened Ownership
  import opened HandleRegistry
  import opened Holdings
  import opened Operations
  import opened Meanings
  import opened ByteCodec
  import opened Checkpoints
  import opened LinearModules
  import opened OptimizerSteps
  import opened Optimizers
  import opened Assignment
  import opened Backward
  import opened Soundness
  import CpuBackend
  import TrainingBridge

  /** A module, or an optimizer and the module it belongs to, if any. */
  datatype Object = ModuleObject(m: LinearModule) | OptimizerObject(opt: Optimizer, owner: Option<nat>)

  /** What an object holds; the optimizer of a module holds the module. */
  function HoldingOf(x: Object): Holding {
    match x
    case ModuleObject(m) => Holding(m.Parameters(), None)
    case OptimizerObject(opt, owner) => Holding(if owner.Some? then [] else opt.parameters, owner)
  }

  ghost function HoldingsOf(objects: seq<Object>): (hs: seq<Holding>)
    ensures |hs| == |objects|
  {
    seq(|objects|, k requires 0 <= k < |objects| => HoldingOf(objects[k]))
  }

  /** Handles are nonzero and refer to objects of their type. */
  ghost predicate KindsOk(t: Table, objects: seq<Object>) {
    forall x :: x in t.entries ==> x != 0 && KindOk(t.entries[x], objects)
  }

  ghost predicate KindOk(e: Entry, objects: seq<Object>) {
    && (e.kind.ModuleHandle? ==> e.item < |objects| && objects[e.item].ModuleObject?)
    && (e.kind.OptimizerHandle? ==>
          e.item < |objects| && objects[e.item].OptimizerObject? && objects[e.item].owner.Some?)
    && (e.kind.ParameterOptimizer? ==>
          e.item < |objects| && objects[e.item].OptimizerObject? && objects[e.item].owner.None?)
  }

  /** The mutable parts besides the heap and the registry. */
  ghost function OptimizersOf(objects: seq<Object>): set<object> {
    set k | 0 <= k < |objects| && objects[k].OptimizerObject? :: objects[k].opt as object
  }

  /** An object's own invariant; an optimizer of a module steps the module's parameters. */
  ghost predicate ObjectOk(objects: seq<Object>, w: World, k: nat)
    reads OptimizersOf(objects)
  {
    && k < |objects|
    && match objects[k]
       case ModuleObject(m) => m.Valid(w)
       case OptimizerObject(opt, owner) =>
         opt in OptimizersOf(objects) && opt.Valid(w)
         && (owner.Some? ==> owner.value < k && objects[owner.value].ModuleObject?
                             && opt.parameters == objects[owner.value].m.Parameters())
  }

  ghost predicate ObjectsOk(objects: seq<Object>, w: World)
    reads OptimizersOf(objects)
  {
    forall k: nat :: k < |objects| ==> ObjectOk(objects, w, k)
  }

  /** Objects are undisturbed by whatever happens to the heap. */
  lemma ObjectsStay(objects: seq<Object>, w: World, w': World)
    requires ObjectsOk(objects, w) && w.tensors <= w'.tensors && TensorsOk(w')
    ensures ObjectsOk(objects, w')
  {
    forall k: nat | k < |objects| ensures ObjectOk(objects, w', k) {
      assert ObjectOk(objects, w, k);
      match objects[k]
      case ModuleObject(m) => m.StillValid(w, w');
      case OptimizerObject(opt, owner) => opt.StillValid(w, w');
    }
  }

  /** What a new object must satisfy. */
  ghost predicate Fits(objects: seq<Object>, x: Object, w: World)
    reads if x.OptimizerObject? then {x.opt} else {}
  {
    match x
    case ModuleObject(m) => m.Valid(w)
    case OptimizerObject(opt, owner) =>
      && opt.Valid(w)
      && (owner.Some? ==> owner.value < |objects| && objects[owner.value].ModuleObject?
                          && opt.parameters == objects[owner.value].m.Parameters())
  }

  lemma MoreObjects(objects: seq<Object>, x: Object, w: World)
    requires ObjectsOk(objects, w) && Fits(objects, x, w)
    ensures ObjectsOk(objects + [x], w)
  {
    var all := objects + [x];
    forall k: nat | k < |all| ensures ObjectOk(all, w, k) {
      if k < |objects| {
        assert ObjectOk(objects, w, k);
        assert all[k] == objects[k];
        if objects[k].OptimizerObject? {
          assert all[k].opt as object in OptimizersOf(all);
          if objects[k].owner.Some? {
            assert all[objects[k].owner.value] == objects[objects[k].owner.value];
          }
        }
      } else {
        assert all[k] == x;
        if x.OptimizerObject? {
          assert all[k].opt as object in OptimizersOf(all);
        }
      }
    }
  }

  // ----- what a call leaves in the registry

  /** A handle can still be issued. */
  predicate Room(t: Table) {
    t.next != 0 && t.next != MAX_U64 && t.next !in t.entries
  }

  /** A new handle names `item`; the handles there were are as they were. */
  predicate HandedOut(t: Table, t': Table, handle: u64, kind: HandleType, item: nat) {
    handle != 0 && handle !in t.entries && t'.entries == t.entries[handle := Entry(kind, 1, item)]
  }

  /** The outcome of asking for a handle. */
  predicate Granted(t: Table, t': Table, status: Status, handle: u64, kind: HandleType, item: nat) {
    && (status.Ok? <==> Room(t))
    && (status.Ok? ==> HandedOut(t, t', handle, kind, item))
    && (!status.Ok? ==> t'.entries == t.entries)
  }

  /** The handle of the second operand; a unary request has the first one again. */
  function Second(r: Request, a: u64, b: u64): u64 {
    if r.Binary() then b else a
  }

  /** The handles name tensors on which the request is allowed. */
  ghost predicate Answerable(t: Table, w: World, r: Request, a: u64, b: u64) {
    && IsTensor(t, a) && IsTensor(t, Second(r, a, b))
    && TensorOf(t, a) < |w.tensors| && TensorOf(t, Second(r, a, b)) < |w.tensors|
    && Allowed(w, r, TensorOf(t, a), TensorOf(t, Second(r, a, b)))
  }

  /** A backward pass from `root` succeeds. */
  ghost predicate Differentiable(w: World, root: nat) {
    && TensorsOk(w) && root < |w.tensors| && GraphOk(Snapshot(w))
    && Numel(Dims(w, root)) == 1 && RequiresGrad(w, root) && AllDependenciesFresh(w, Snapshot(w), root)
  }

  /** The leaves `root` depends on have gained their adjoints. */
  ghost predicate Differentiated(p: Primitives, w: World, metas: map<nat, Meta>, root: nat, topo: seq<nat>) {
    Differentiable(w, root) && Topology(Snapshot(w), topo, root) && GradientsFit(Snapshot(w), w.metas)
    && Published(Snapshot(w), BackwardAdjoints(p, Snapshot(w), topo, root), w.metas, metas, topo)
  }

  /** The parameters of a module hold the contents of a file, and their aliases know. */
  ghost predicate Loads(w: World, w': World, c: Coding, m: LinearModule, bytes: seq<byte>) {
    && TensorsOk(w) && Distinct(w, m.Parameters()) && Numel(WeightDims(m.config)) >= 0 && Numel(BiasDims(m.config)) >= 0
    && Committed(w, w', m.Parameters(), m.Staged(c, Loaded(bytes, m.config)))
  }

  /** Tensor `x` is a matrix of the width a module takes, and the result is representable. */
  ghost predicate Transformable(w: World, m: LinearModule, x: nat) {
    && x < |w.tensors| && m.weight < |w.tensors| && |Dims(w, x)| == 2 && |Dims(w, m.weight)| == 2
    && Dims(w, x)[1] == Dims(w, m.weight)[0] && ValidDims([Dims(w, x)[0], Dims(w, m.weight)[1]])
  }

  /** `out` is the input times the weight plus the bias, and what there was is untouched. */
  ghost predicate Transformed(w: World, w': World, m: LinearModule, x: nat, out: nat) {
    && Transformable(w, m, x) && TensorsOk(w) && TensorsOk(w') && Extends(w, w') && out < |w'.tensors|
    && TensorOk(w, w.tensors[x]) && TensorOk(w, w.tensors[m.weight]) && TensorOk(w', w'.tensors[out])
    && (m.bias.Some? ==> m.bias.value < |w.tensors|)
    && var d, e := Dims(w, x), Dims(w, m.weight);
       d[0] > 0 && d[1] > 0 && e[1] > 0 && Dims(w', out) == [d[0], e[1]]
       && Logical(w', out)
          == TrainingBridge.Affine(Logical(w, x), Logical(w, m.weight), TrainingBridge.ValuesAt(w, m.bias), d[0], d[1], e[1])
       && Linear(Logical(w, x), Logical(w, m.weight), TrainingBridge.ValuesAt(w, m.bias), d[0], d[1], e[1], Logical(w', out))
  }

  /** An optimizer can be created over what the handles name. */
  ghost predicate Optimizable(t: Table, w: World, handles: seq<u64>, o: Hyper) {
    && HyperOk(o) && HandlesOk(t, w) && AllTensors(t, handles) && NoRepeats(Named(t, handles))
    && |Trainable(w, Named(t, handles))| > 0
    && forall i :: i in Trainable(w, Named(t, handles)) ==> ParameterOk(w, i)
  }

  /** Object `k` is an optimizer over `parameters` that has not stepped. */
  ghost predicate StartsAt(objects: seq<Object>, k: nat, o: Hyper, parameters: seq<nat>)
    reads OptimizersOf(objects)
  {
    && k < |objects| && objects[k].OptimizerObject? && objects[k].opt as object in OptimizersOf(objects)
    && objects[k].opt.o == o && objects[k].opt.parameters == parameters && objects[k].opt.step == 0
  }

  /** A request has been fulfilled on the tensors that the handles name: on both for a sum, a
      product, a matrix product or a loss, on the first one otherwise. */
  ghost predicate Effected(p: Primitives, entries: map<u64, Entry>, w: World, w': World, r: Request, a: u64, b: u64,
                           out: nat) {
    && a in entries && entries[a].kind.TensorHandle?
    && if r.AddOf? || r.MultiplyOf? || r.MatmulOf? || r.MseOf? || r.CrossEntropyOf?
       then b in entries && entries[b].kind.TensorHandle?
            && Fulfilled(p, w, w', r, entries[a].item, entries[b].item, out)
       else Fulfilled(p, w, w', r, entries[a].item, entries[a].item, out)
  }

  /** A handle can be used at once, and names tensor `item`. */
  ghost predicate Usable(t: Table, handle: u64, item: nat) {
    handle in t.entries && t.entries[handle] == Entry(TensorHandle, 1, item) && Find(t, handle, TensorHandle).Ok?
  }

  lemma NewIsUsable(t: Table, t': Table, handle: u64, item: nat)
    requires HandedOut(t, t', handle, TensorHandle, item)
    ensures Usable(t', handle, item)
  {
  }

  /** How a request on handles ends: its result is there and has a handle that can be used at
      once, or no handle has changed. */
  ghost predicate Served(status: Status, p: Primitives, t: Table, t': Table, w: World, w': World, r: Request,
                         a: u64, b: u64, handle: u64) {
    match status
    case Ok =>
      && TensorsOk(w) && Answerable(t, w, r, a, b)
      && Answered(p, w, w', r, TensorOf(t, a), TensorOf(t, Second(r, a, b)), |w.tensors|)
      && Effected(p, t.entries, w, w', r, a, b, |w.tensors|)
      && HandedOut(t, t', handle, TensorHandle, |w.tensors|) && Usable(t', handle, |w.tensors|)
    case Error(_) => t'.entries == t.entries
  }

  /** The same for a request on tensors. */
  ghost predicate ServedTensors(status: Status, p: Primitives, t: Table, t': Table, w: World, w': World, r: Request,
                                x: nat, y: nat, handle: u64) {
    match status
    case Ok =>
      && TensorsOk(w) && x < |w.tensors| && y < |w.tensors| && Allowed(w, r, x, y)
      && Answered(p, w, w', r, x, y, |w.tensors|) && Fulfilled(p, w, w', r, x, y, |w.tensors|)
      && HandedOut(t, t', handle, TensorHandle, |w.tensors|) && Usable(t', handle, |w.tensors|)
    case Error(_) => t'.entries == t.entries
  }

  lemma ServedOn(status: Status, p: Primitives, t: Table, t': Table, w: World, w': World, r: Request,
                 a: u64, b: u64, handle: u64)
    requires IsTensor(t, a) && IsTensor(t, Second(r, a, b))
    requires ServedTensors(status, p, t, t', w, w', r, TensorOf(t, a), TensorOf(t, Second(r, a, b)), handle)
    ensures Served(status, p, t, t', w, w', r, a, b, handle)
  {
  }

  class System {
    const heap: TensorHeap
    const registry: Registry
    const coding: Coding
    var objects: seq<Object>
    var objectCounts: seq<nat>

    ghost predicate Apart()
      reads this`objects
    {
      heap !in OptimizersOf(objects) && registry !in OptimizersOf(objects)
    }

    /** The invariant while a call in progress holds some references of its own. */
    ghost predicate Ready(l: Locals)
      reads this, heap, registry, OptimizersOf(objects)
    {
      && Apart()
      && heap.Valid() && ObjectsOk(objects, heap.W()) && KindsOk(registry.T(), objects)
      && HoldingsOk(registry.T(), HoldingsOf(objects), objectCounts, heap.held, l)
    }

    ghost predicate Valid()
      reads this, heap, registry, OptimizersOf(objects)
    {
      Ready(NoLocals)
    }

    constructor (p: Primitives, coding: Coding)
      ensures Valid() && fresh(heap) && fresh(registry)
      ensures this.coding == coding && heap.p == p && heap.history == [] && objects == []
    {
      heap := new TensorHeap(p);
      registry := new Registry();
      this.coding := coding;
      objects, objectCounts := [], [];
      new;
      forall i: nat ensures |TensorHandles(registry.T(), i)| == 0 {
        assert TensorHandles(registry.T(), i) == {};
      }
    }

    // ----- what a call may do in between

    /** The call has taken more references to tensors. */
    lemma Grown(w: World, held: multiset<nat>, l: Locals, more: multiset<nat>)
      requires Apart() && heap.Valid() && ObjectsOk(objects, w) && KindsOk(registry.T(), objects)
      requires HoldingsOk(registry.T(), HoldingsOf(objects), objectCounts, held, l)
      requires w.tensors <= heap.tensors && heap.held == held + more
      ensures Ready(l.(tensors := l.tensors + more))
    {
      ObjectsStay(objects, w, heap.W());
      TensorsTaken(registry.T(), HoldingsOf(objects), objectCounts, held, l, more);
    }

    /** The call has dropped references it held. */
    lemma Lessened(w: World, held: multiset<nat>, l: Locals, fewer: multiset<nat>)
      requires Apart() && heap.Valid() && ObjectsOk(objects, w) && KindsOk(registry.T(), objects)
      requires HoldingsOk(registry.T(), HoldingsOf(objects), objectCounts, held, l)
      requires w.tensors <= heap.tensors && heap.held == held - fewer && fewer <= l.tensors
      ensures Ready(l.(tensors := l.tensors - fewer))
    {
      ObjectsStay(objects, w, heap.W());
      TensorsDropped(registry.T(), HoldingsOf(objects), objectCounts, held, l, fewer);
    }

    // ----- handles

    lemma LocalIsHeld(l: Locals, i: nat)
      requires Ready(l) && i in l.tensors
      ensures heap.Holds(i)
    {
      assert heap.held[i] > 0;
      heap.HeldIsAlive(i);
    }

    /** Drop a reference that the call holds to a tensor, on top of others. */
    method DropTensor(ghost rest: Locals, i: nat)
      requires Ready(Locals(rest.tensors + multiset{i}, rest.objects))
      modifies heap`counts, heap`shares, heap`liveBytes, heap`held
      ensures Ready(rest)
    {
      ghost var w, held, l := heap.W(), heap.held, Locals(rest.tensors + multiset{i}, rest.objects);
      LocalIsHeld(l, i);
      heap.Drop(i);
      assert ObjectsOk(objects, w);
      Lessened(w, held, l, multiset{i});
      assert l.tensors - multiset{i} == rest.tensors;
    }

    /** Hand a tensor that the call holds to a new handle, or drop it. */
    method RegisterTensor(out: nat) returns (status: Status, handle: u64)
      requires Ready(Locals(multiset{out}, multiset{}))
      modifies registry, heap`counts, heap`shares, heap`liveBytes, heap`held
      ensures Valid() && Granted(old(registry.T()), registry.T(), status, handle, TensorHandle, out)
      ensures status.Ok? ==> heap.liveBytes == old(heap.liveBytes)
    {
      status, handle := Issue(out);
      if !status.Ok? {
        assert multiset{out} == NoLocals.tensors + multiset{out};
        DropTensor(NoLocals, out);
      }
    }

    /** Finish a call that may have produced a result. */
    method Answer(computed: Status, out: nat) returns (status: Status, handle: u64)
      requires Ready(if computed.Ok? then Locals(multiset{out}, multiset{}) else NoLocals)
      modifies registry, heap`counts, heap`shares, heap`liveBytes, heap`held
      ensures Valid()
      ensures if computed.Ok? then Granted(old(registry.T()), registry.T(), status, handle, TensorHandle, out)
              else status == computed && registry.T() == old(registry.T())
      ensures status.Ok? ==> heap.liveBytes == old(heap.liveBytes)
    {
      status, handle := computed, 0;
      if computed.Ok? {
        status, handle := RegisterTensor(out);
      }
    }

    /** Ask the registry for a handle to a tensor; it takes over the call's reference. */
    method Issue(item: nat) returns (status: Status, handle: u64)
      requires Ready(Locals(multiset{item}, multiset{}))
      modifies registry
      ensures Ready(if status.Ok? then NoLocals else Locals(multiset{item}, multiset{}))
      ensures Granted(old(registry.T()), registry.T(), status, handle, TensorHandle, item)
    {
      ghost var t, w, l := registry.T(), heap.W(), Locals(multiset{item}, multiset{});
      status, handle := registry.InsertItem(TensorHandle, item);
      assert ObjectsOk(objects, w);
      Issued(t, l, Outcome(registry.T(), status, handle), item);
      assert l.(tensors := l.tensors - multiset{item}) == NoLocals;
    }

    lemma Issued(t: Table, l: Locals, r: Outcome, item: nat)
      requires r == Apply(t, Insert(TensorHandle, item)) && r.table == registry.T()
      requires Apart() && heap.Valid() && ObjectsOk(objects, heap.W()) && KindsOk(t, objects) && item in l.tensors
      requires HoldingsOk(t, HoldingsOf(objects), objectCounts, heap.held, l)
      ensures Ready(if r.status.Ok? then l.(tensors := l.tensors - multiset{item}) else l)
    {
      var hs := HoldingsOf(objects);
      if r.status.Ok? {
        TensorIssued(t, hs, objectCounts, heap.held, l, r.handle, item);
        SameEntries(WithEntry(t, r.handle, Entry(TensorHandle, 1, item)), r.table, hs, objectCounts, heap.held,
                    l.(tensors := l.tensors - multiset{item}));
      } else {
        SameEntries(t, r.table, hs, objectCounts, heap.held, l);
      }
    }

    /** The tensor a handle names; it is held by the handle. */
    method FindTensor(handle: u64) returns (status: Status, t: nat)
      requires Valid()
      ensures status.Ok? <==> IsTensor(registry.T(), handle)
      ensures status.Ok? <==> handle in registry.entries && registry.entries[handle].kind.TensorHandle?
      ensures status.Ok? ==> heap.Holds(t) && t == TensorOf(registry.T(), handle) == registry.entries[handle].item
    {
      t := 0;
      var found, item := registry.Lookup(handle, TensorHandle);
      status := found;
      if status.Ok? {
        t := item.value;
        HandleHolds(registry.T(), HoldingsOf(objects), objectCounts, heap.held, NoLocals, handle);
        heap.HeldIsAlive(t);
      }
    }

    /** The object a handle names; the handle keeps it alive. */
    method FindObject(handle: u64, kind: HandleType) returns (status: Status, j: nat)
      requires Valid() && IsObject(kind)
      ensures status == Find(registry.T(), handle, kind)
      ensures status.Ok? <==> handle in registry.entries && registry.entries[handle].kind == kind
      ensures status.Ok? ==> j == registry.entries[handle].item
      ensures status.Ok? ==> j < |objects| == |objectCounts| && objectCounts[j] > 0 && KindOk(Entry(kind, 1, j), objects)
    {
      j := 0;
      var found, item := registry.Lookup(handle, kind);
      status := found;
      if status.Ok? {
        j := item.value;
        HandleKeeps(registry.T(), HoldingsOf(objects), objectCounts, heap.held, NoLocals, handle);
        assert KindOk(registry.entries[handle], objects);
      }
    }

    // ----- objects

    /** Drop references that the call holds to tensors, on top of others. */
    method DropTensors(ghost rest: Locals, ts: seq<nat>)
      requires Ready(Locals(rest.tensors + multiset(ts), rest.objects))
      modifies heap`counts, heap`shares, heap`liveBytes, heap`held
      ensures Ready(rest)
    {
      var k := |ts|;
      assert ts[..k] == ts;
      while k > 0
        invariant 0 <= k <= |ts| && Ready(Locals(rest.tensors + multiset(ts[..k]), rest.objects))
      {
        k := k - 1;
        NextHeld(rest.tensors, ts, k);
        DropTensor(Locals(rest.tensors + multiset(ts[..k]), rest.objects), ts[k]);
      }
      assert rest.tensors + multiset(ts[..0]) == rest.tensors;
    }

    /** Drop a reference that the call holds to an object, on top of others.  With the last one
        the object is destroyed: its references to tensors and to the object it belongs to
        are dropped. */
    method DropObject(ghost rest: Locals, j: nat)
      requires Ready(Locals(rest.tensors, rest.objects + multiset{j}))
      modifies this`objectCounts, heap`counts, heap`shares, heap`liveBytes, heap`held
      ensures Ready(rest)
      decreases j
    {
      ghost var l := Locals(rest.tensors, rest.objects + multiset{j});
      assert j in l.objects && j < |objectCounts| == |objects|;
      if objectCounts[j] > 1 {
        LoseReference(rest, j);
        return;
      }
      var holding := HoldingOf(objects[j]);
      assert holding == HoldingsOf(objects)[j];
      DestroyObject(rest, j);
      DropTensors(Locals(rest.tensors, rest.objects + OwnerOf(holding)), holding.tensors);
      if holding.owner.Some? {
        DropObject(rest, holding.owner.value);
      } else {
        assert rest.objects + OwnerOf(holding) == rest.objects;
      }
    }

    method LoseReference(ghost rest: Locals, j: nat)
      requires Ready(Locals(rest.tensors, rest.objects + multiset{j})) && j < |objectCounts| && objectCounts[j] > 1
      modifies this`objectCounts
      ensures Ready(rest)
    {
      ghost var l := Locals(rest.tensors, rest.objects + multiset{j});
      ObjectReleased(registry.T(), HoldingsOf(objects), objectCounts, heap.held, l, j);
      assert l.objects - multiset{j} == rest.objects;
      objectCounts := objectCounts[j := objectCounts[j] - 1];
    }

    /** Destroy an object with a single reference; what it held is left to be dropped. */
    method DestroyObject(ghost rest: Locals, j: nat)
      requires Ready(Locals(rest.tensors, rest.objects + multiset{j})) && j < |objectCounts| && objectCounts[j] <= 1
      modifies this`objectCounts
      ensures j < |objects|
      ensures var h := HoldingOf(objects[j]);
              Ready(Locals(rest.tensors + multiset(h.tensors), rest.objects + OwnerOf(h)))
    {
      ghost var l := Locals(rest.tensors, rest.objects + multiset{j});
      assert l.objects[j] > 0;
      ObjectDies(registry.T(), HoldingsOf(objects), objectCounts, heap.held, l, j);
      assert l.objects - multiset{j} == rest.objects;
      objectCounts := objectCounts[j := 0];
    }

    /** Take one more reference to each of some tensors that are held. */
    method HoldAll(ghost l: Locals, ts: seq<nat>)
      requires Ready(l) && forall k :: 0 <= k < |ts| ==> ts[k] in heap.held
      modifies heap`counts, heap`held
      ensures Ready(l.(tensors := l.tensors + multiset(ts)))
      ensures forall i :: i in old(heap.held) ==> i in heap.held
    {
      assert ts[..0] == [];
      assert l.tensors + multiset(ts[..0]) == l.tensors;
      for k := 0 to |ts|
        invariant Ready(l.(tensors := l.tensors + multiset(ts[..k])))
        invariant forall i :: i in old(heap.held) ==> i in heap.held
      {
        ghost var w, held := heap.W(), heap.held;
        heap.Hold(ts[k]);
        assert ObjectsOk(objects, w);
        Grown(w, held, l.(tensors := l.tensors + multiset(ts[..k])), multiset{ts[k]});
        NextHeld(l.tensors, ts, k);
      }
      assert ts[..|ts|] == ts;
    }

    /** Add an object; it takes over the call's references to its tensors, takes one to the
        object it belongs to, and is held by the call. */
    method AddObject(x: Object, ghost rest: Locals)
      requires Ready(Locals(rest.tensors + multiset(HoldingOf(x).tensors), rest.objects)) && Fits(objects, x, heap.W())
      requires x.OptimizerObject? ==> x.opt as object != heap && x.opt as object != registry
      requires x.OptimizerObject? && x.owner.Some? ==> x.owner.value < |objectCounts| && objectCounts[x.owner.value] > 0
      modifies this
      ensures objects == old(objects) + [x]
      ensures Ready(Locals(rest.tensors, rest.objects + multiset{|old(objects)|}))
    {
      ghost var w := heap.W();
      MoreHoldings(registry.T(), objects, objectCounts, heap.held, rest, x);
      MoreObjects(objects, x, w);
      MoreKinds(registry.T(), objects, x);
      MoreApart(objects, x);
      objectCounts := OwnerRaised(objectCounts, HoldingOf(x).owner) + [1];
      objects := objects + [x];
    }

    /** Hand an object that the call holds to a new handle, or drop it. */
    method RegisterObject(kind: HandleType, j: nat) returns (status: Status, handle: u64)
      requires Ready(Locals(multiset{}, multiset{j})) && IsObject(kind) && KindOk(Entry(kind, 1, j), objects)
      modifies registry, this`objectCounts, heap`counts, heap`shares, heap`liveBytes, heap`held
      ensures Valid() && Granted(old(registry.T()), registry.T(), status, handle, kind, j)
    {
      status, handle := IssueObject(kind, j);
      if !status.Ok? {
        assert multiset{j} == NoLocals.objects + multiset{j};
        DropObject(NoLocals, j);
      }
    }

    method IssueObject(kind: HandleType, j: nat) returns (status: Status, handle: u64)
      requires Ready(Locals(multiset{}, multiset{j})) && IsObject(kind) && KindOk(Entry(kind, 1, j), objects)
      modifies registry
      ensures Ready(if status.Ok? then NoLocals else Locals(multiset{}, multiset{j}))
      ensures Granted(old(registry.T()), registry.T(), status, handle, kind, j)
    {
      ghost var t, w, l, hs := registry.T(), heap.W(), Locals(multiset{}, multiset{j}), HoldingsOf(objects);
      status, handle := registry.InsertItem(kind, j);
      assert ObjectsOk(objects, w);
      if status.Ok? {
        ObjectIssued(t, hs, objectCounts, heap.held, l, handle, kind, j);
        SameEntries(WithEntry(t, handle, Entry(kind, 1, j)), registry.T(), hs, objectCounts, heap.held,
                    l.(objects := l.objects - multiset{j}));
        assert l.(objects := l.objects - multiset{j}) == NoLocals;
      } else {
        SameEntries(t, registry.T(), hs, objectCounts, heap.held, l);
      }
    }

    // ----- calls on tensors

    /** What a heap operation that produced a result leaves to the call. */
    lemma Produced(w: World, m: Marks, ok: bool, out: nat)
      requires Apart() && heap.Valid() && ObjectsOk(objects, w) && KindsOk(registry.T(), objects)
      requires HoldingsOk(registry.T(), HoldingsOf(objects), objectCounts, m.held, NoLocals)
      requires w.tensors <= heap.tensors && heap.Produced(m, ok, out)
      ensures Ready(if ok then Locals(multiset{out}, multiset{}) else NoLocals)
    {
      if ok {
        Grown(w, m.held, NoLocals, multiset{out});
        assert NoLocals.tensors + multiset{out} == multiset{out};
      } else {
        Grown(w, m.held, NoLocals, multiset{});
        assert NoLocals.tensors + multiset{} == NoLocals.tensors;
        assert heap.held == m.held + multiset{};
      }
    }

    method CreateTensor(dims: seq<int>, data: seq<real>) returns (status: Status, handle: u64)
      requires Valid()
      modifies heap, registry
      ensures Valid() && old(heap.history) <= heap.history
      ensures status.Ok? <==> ValidDims(dims) && |data| == Numel(dims) && Room(old(registry.T()))
      ensures status.Ok? ==> heap.W() == AddMaterialised(old(heap.W()), dims, data)
                             && HandedOut(old(registry.T()), registry.T(), handle, TensorHandle, |old(heap.tensors)|)
      ensures status.Ok? ==> Usable(registry.T(), handle, |old(heap.tensors)|)
      ensures status.Ok? ==> heap.liveBytes == old(heap.liveBytes) + 4 * |data|
      ensures !status.Ok? ==> registry.entries == old(registry.entries)
    {
      ghost var w, m := heap.W(), heap.M();
      var out;
      status, out := CpuBackend.FromData(heap, dims, data);
      assert ObjectsOk(objects, w);
      Produced(w, m, status.Ok?, out);
      status, handle := Answer(status, out);
    }

    /** Ask for a tensor operation on one or two operands.  The result is a new tensor under a
        new handle; a request that is refused changes nothing. */
    method Compute(r: Request, a: u64, b: u64) returns (status: Status, handle: u64)
      requires Valid()
      modifies heap, registry
      ensures Valid() && old(heap.history) <= heap.history
      ensures status.Ok? <==> Answerable(old(registry.T()), old(heap.W()), r, a, b) && Room(old(registry.T()))
      ensures Served(status, heap.p, old(registry.T()), registry.T(), old(heap.W()), heap.W(), r, a, b, handle)
      ensures !Answerable(old(registry.T()), old(heap.W()), r, a, b) ==> heap.W() == old(heap.W())
    {
      handle := 0;
      var x, y;
      status, x, y := FindOperands(r, a, b);
      if status.Ok? {
        ghost var t, w := registry.T(), heap.W();
        status, handle := ComputeOn(r, x, y);
        ServedOn(status, heap.p, t, registry.T(), w, heap.W(), r, a, b, handle);
      }
    }

    method ComputeOn(r: Request, x: nat, y: nat) returns (status: Status, handle: u64)
      requires Valid() && heap.Holds(x) && heap.Holds(y)
      modifies heap, registry
      ensures Valid() && old(heap.history) <= heap.history
      ensures status.Ok? <==> Allowed(old(heap.W()), r, x, y) && Room(old(registry.T()))
      ensures ServedTensors(status, heap.p, old(registry.T()), registry.T(), old(heap.W()), heap.W(), r, x, y, handle)
      ensures !Allowed(old(heap.W()), r, x, y) ==> heap.W() == old(heap.W())
    {
      var out;
      ghost var t, w := registry.T(), heap.W();
      status, out := Evaluate(r, x, y);
      ghost var w' := heap.W();
      status, handle := Answer(status, out);
      assert heap.W() == w';
      if status.Ok? {
        NewIsUsable(t, registry.T(), handle, out);
      }
    }

    /** The tensors a request names; a unary request ignores its second handle. */
    method FindOperands(r: Request, a: u64, b: u64) returns (status: Status, x: nat, y: nat)
      requires Valid()
      ensures status.Ok? <==> IsTensor(registry.T(), a) && IsTensor(registry.T(), Second(r, a, b))
      ensures status.Ok? ==> heap.Holds(x) && x == TensorOf(registry.T(), a)
      ensures status.Ok? ==> heap.Holds(y) && y == TensorOf(registry.T(), Second(r, a, b))
    {
      status, x := FindTensor(a);
      y := x;
      if status.Ok? && r.Binary() {
        status, y := FindTensor(b);
      }
    }

    /** The operation itself; the call holds the result. */
    method Evaluate(r: Request, x: nat, y: nat) returns (status: Status, out: nat)
      requires Valid() && heap.Holds(x) && heap.Holds(y)
      modifies heap
      ensures Ready(if status.Ok? then Locals(multiset{out}, multiset{}) else NoLocals)
      ensures old(heap.history) <= heap.history && TensorsOk(old(heap.W()))
      ensures status.Ok? <==> Allowed(old(heap.W()), r, x, y)
      ensures status.Ok? ==> out == |old(heap.tensors)| && Answered(heap.p, old(heap.W()), heap.W(), r, x, y, out)
      ensures status.Ok? ==> Fulfilled(heap.p, old(heap.W()), heap.W(), r, x, y, out)
      ensures !status.Ok? ==> heap.W() == old(heap.W())
    {
      ghost var w, m := heap.W(), heap.M();
      status, out := Operations.Evaluate(heap, r, x, y);
      assert ObjectsOk(objects, w);
      Produced(w, m, status.Ok?, out);
    }

    /** A heap operation that took and dropped no references leaves the call as it was. */
    lemma Continued(w: World, m: Marks)
      requires Apart() && heap.Valid() && ObjectsOk(objects, w) && KindsOk(registry.T(), objects)
      requires HoldingsOk(registry.T(), HoldingsOf(objects), objectCounts, m.held, NoLocals)
      requires w.tensors == heap.tensors && heap.Continues(m)
      ensures Valid()
    {
      ObjectsStay(objects, w, heap.W());
    }

    /** A backward pass.  If it reports success, every operator the root depends on had, as
        operands, the values it was recorded with. */
    method RunBackward(a: u64) returns (status: Status, ghost root: nat, ghost topo: seq<nat>)
      requires Valid()
      modifies heap`metas, heap`liveBytes, heap`history
      ensures Valid() && old(heap.history) <= heap.history && GraphOk(Snapshot(old(heap.W())))
      ensures status.Ok? <==> IsTensor(registry.T(), a) && Differentiable(old(heap.W()), TensorOf(registry.T(), a))
      ensures !status.Ok? ==> heap.W() == old(heap.W())
      ensures status.Ok? ==> root == TensorOf(registry.T(), a) && root < |old(heap.tensors)|
                             && PassAsRecorded(heap.p, old(heap.history), Snapshot(old(heap.W())), root)
                             && Differentiated(heap.p, old(heap.W()), heap.metas, root, topo)
    {
      root, topo := 0, [];
      SnapshotOk(heap.p, heap.W());
      var x;
      status, x := FindTensor(a);
      if status.Ok? {
        root := x;
        status, topo := PassFrom(x);
      }
    }

    method PassFrom(x: nat) returns (status: Status, topo: seq<nat>)
      requires Valid() && heap.Holds(x)
      modifies heap`metas, heap`liveBytes, heap`history
      ensures Valid() && old(heap.history) <= heap.history && GraphOk(Snapshot(old(heap.W())))
      ensures status.Ok? <==> Differentiable(old(heap.W()), x)
      ensures !status.Ok? ==> heap.W() == old(heap.W())
      ensures status.Ok? ==> PassAsRecorded(heap.p, old(heap.history), Snapshot(old(heap.W())), x)
                             && Differentiated(heap.p, old(heap.W()), heap.metas, x, topo)
    {
      ghost var w, m := heap.W(), heap.M();
      OpenBooks(heap.p, w, heap.L(), m);
      status, topo := BackwardFrom(heap, x);
      assert ObjectsOk(objects, w);
      Continued(w, m);
      if status.Ok? {
        PassReadsRecorded(heap.p, m.history, w, Snapshot(w), x);
      }
    }

    /** Freeze or unfreeze a tensor that was not computed; no other metadata changes. */
    method SetRequires(a: u64, requiresGrad: bool) returns (status: Status)
      requires Valid()
      modifies heap`metas, heap`liveBytes, heap`history
      ensures Valid() && old(heap.history) <= heap.history
      ensures status.Ok? <==> IsTensor(registry.T(), a) && !RoleOf(old(heap.W()), TensorOf(registry.T(), a)).Computed?
      ensures !status.Ok? ==> heap.W() == old(heap.W())
      ensures status.Ok? ==> var t := TensorOf(registry.T(), a);
                             (Worlds.RequiresGrad(heap.W(), t) <==> requiresGrad)
                             && forall i :: i != t ==> (i in heap.metas <==> i in old(heap.metas))
                                                       && (i in heap.metas ==> heap.metas[i] == old(heap.metas)[i])
    {
      var x;
      status, x := FindTensor(a);
      if !status.Ok? {
        return;
      }
      ghost var w, m := heap.W(), heap.M();
      status := TrainingBridge.SetRequiresGrad(heap, x, requiresGrad);
      assert ObjectsOk(objects, w);
      Continued(w, m);
    }

    /** Every live tensor handle names a tensor that it holds. */
    lemma HandlesAreGood()
      requires Valid()
      ensures HandlesOk(registry.T(), heap.W()) && HandlesHold(registry.T(), heap.held)
    {
      forall x | x in registry.entries && registry.entries[x].kind.TensorHandle?
        ensures registry.entries[x].item in heap.held && registry.entries[x].item < |heap.tensors|
      {
        HandleHolds(registry.T(), HoldingsOf(objects), objectCounts, heap.held, NoLocals, x);
        heap.HeldIsAlive(registry.entries[x].item);
      }
    }

    /** A batch of assignments. */
    method Assign(ts: seq<u64>, ss: seq<u64>) returns (status: Status, ghost targets: seq<nat>, ghost sources: seq<nat>)
      requires Valid() && |ts| == |ss|
      modifies heap`storages, heap`versions, heap`metas, heap`liveBytes, heap`history
      ensures Valid() && old(heap.history) <= heap.history && HandlesOk(registry.T(), old(heap.W()))
      ensures status.Ok? <==>
                Acceptable(registry.T(), old(heap.W()), ts, ss) &&
                forall k :: 0 <= k < |ts| ==> Contiguous(old(heap.tensors)[TensorOf(registry.T(), ts[k])].view)
      ensures !status.Ok? ==> heap.W() == old(heap.W())
      ensures status.Ok? ==>
                Resolved(registry.T(), old(heap.W()), ts, ss, targets, sources) && heap.tensors == old(heap.tensors)
                && Assigned(old(heap.W()), heap.W(), targets, sources)
    {
      HandlesAreGood();
      ghost var w, m := heap.W(), heap.M();
      status, targets, sources := AssignMany(registry, heap, ts, ss);
      assert ObjectsOk(objects, w);
      Continued(w, m);
    }

    // ----- calls on modules

    /** The module a handle names. */
    ghost function ModuleOf(handle: u64): Option<LinearModule>
      reads this, registry
    {
      if Find(registry.T(), handle, ModuleHandle).Ok? && registry.entries[handle].item < |objects|
         && objects[registry.entries[handle].item].ModuleObject?
      then Some(objects[registry.entries[handle].item].m) else None
    }

    /** The module a handle names, and what it needs to be used. */
    method FindModule(handle: u64) returns (status: Status, j: nat)
      requires Valid()
      ensures status.Ok? <==> ModuleOf(handle).Some?
      ensures status.Ok? ==>
                j < |objects| == |objectCounts| && objectCounts[j] > 0 && objects[j].ModuleObject?
                && objects[j].m.Valid(heap.W()) && objects[j].m.Held(heap.held) && ModuleOf(handle) == Some(objects[j].m)
    {
      status, j := FindObject(handle, ModuleHandle);
      if status.Ok? {
        assert ObjectOk(objects, heap.W(), j);
        LiveObjectHolds(registry.T(), HoldingsOf(objects), objectCounts, heap.held, NoLocals, j);
        assert HoldingsOf(objects)[j].tensors == objects[j].m.Parameters();
      }
    }

    /** A new module under a new handle; its parameters are leaves with the given values. */
    method CreateModule(config: Config, weights: seq<real>, biases: seq<real>) returns (status: Status, handle: u64)
      requires Valid() && (ConfigOk(config) ==> |weights| == Numel(WeightDims(config)))
      requires ConfigOk(config) && config.useBias ==> |biases| == Numel(BiasDims(config))
      modifies this, heap, registry
      ensures Valid() && old(heap.history) <= heap.history && OptimizersOf(objects) == old(OptimizersOf(objects))
      ensures status.Ok? <==> ConfigOk(config) && Room(old(registry.T()))
      ensures status.Ok? ==>
                HandedOut(old(registry.T()), registry.T(), handle, ModuleHandle, |old(objects)|)
                && |objects| > |old(objects)| && objects[|old(objects)|].ModuleObject?
                && Starts(heap.W(), objects[|old(objects)|].m, config, weights, biases)
      ensures !status.Ok? ==> registry.entries == old(registry.entries)
    {
      handle := 0;
      var m;
      status, m := BuildModule(config, weights, biases);
      assert objects == old(objects);
      if m != null {
        status, handle := EnterModule(m);
      }
    }

    method EnterModule(m: LinearModule) returns (status: Status, handle: u64)
      requires Ready(Locals(multiset(m.Parameters()), multiset{})) && m.Valid(heap.W())
      modifies this, heap`counts, heap`shares, heap`liveBytes, heap`held, registry
      ensures Valid() && OptimizersOf(objects) == old(OptimizersOf(objects)) && objects == old(objects) + [ModuleObject(m)]
      ensures Granted(old(registry.T()), registry.T(), status, handle, ModuleHandle, |old(objects)|)
    {
      status, handle := Enter(ModuleObject(m));
    }

    /** A new module whose parameters the call holds. */
    method BuildModule(config: Config, weights: seq<real>, biases: seq<real>) returns (status: Status, m: LinearModule?)
      requires Valid() && (ConfigOk(config) ==> |weights| == Numel(WeightDims(config)))
      requires ConfigOk(config) && config.useBias ==> |biases| == Numel(BiasDims(config))
      modifies heap
      ensures old(heap.history) <= heap.history && (m == null ==> Valid())
      ensures m != null ==> Ready(Locals(multiset(m.Parameters()), multiset{})) && m.Valid(heap.W())
      ensures (m != null <==> ConfigOk(config)) && (status.Ok? <==> m != null)
      ensures m != null ==> Starts(heap.W(), m, config, weights, biases)
    {
      ghost var w, held := heap.W(), heap.held;
      status, m := LinearCreate(heap, config, weights, biases);
      assert ObjectsOk(objects, w);
      if m == null {
        Continued(w, Marks(heap.history, held));
      } else {
        Grown(w, held, NoLocals, multiset(m.Parameters()));
        assert NoLocals.tensors + multiset(m.Parameters()) == multiset(m.Parameters());
      }
    }

    /** Add an object whose tensors the call holds, and hand it to a new handle. */
    method Enter(x: Object) returns (status: Status, handle: u64)
      requires Ready(Locals(multiset(HoldingOf(x).tensors), multiset{})) && Fits(objects, x, heap.W())
      requires x.OptimizerObject? ==> x.opt as object != heap && x.opt as object != registry
      requires x.OptimizerObject? && x.owner.Some? ==> x.owner.value < |objectCounts| && objectCounts[x.owner.value] > 0
      modifies this, heap`counts, heap`shares, heap`liveBytes, heap`held, registry
      ensures Valid() && objects == old(objects) + [x]
      ensures Granted(old(registry.T()), registry.T(), status, handle, KindOf(x), |old(objects)|)
      ensures OptimizersOf(objects) == old(OptimizersOf(objects)) + if x.OptimizerObject? then {x.opt as object} else {}
    {
      var j := |objects|;
      KindOfNew(objects, x);
      MoreApart(objects, x);
      assert multiset{} + multiset(HoldingOf(x).tensors) == multiset(HoldingOf(x).tensors);
      AddObject(x, NoLocals);
      assert multiset{} + multiset{j} == multiset{j};
      status, handle := RegisterObject(KindOf(x), j);
    }

    /** Run a module on a tensor: a new tensor under a new handle. */
    method Forward(module_: u64, a: u64) returns (status: Status, handle: u64)
      requires Valid()
      modifies heap, registry
      ensures Valid() && old(heap.history) <= heap.history
      ensures status.Ok? <==>
                old(ModuleOf(module_)).Some? && IsTensor(old(registry.T()), a) && Room(old(registry.T()))
                && Transformable(old(heap.W()), old(ModuleOf(module_)).value, TensorOf(old(registry.T()), a))
      ensures status.Ok? ==>
                handle in registry.entries && registry.entries[handle].kind.TensorHandle?
                && HandedOut(old(registry.T()), registry.T(), handle, TensorHandle, registry.entries[handle].item)
                && Transformed(old(heap.W()), heap.W(), old(ModuleOf(module_)).value, TensorOf(old(registry.T()), a),
                               registry.entries[handle].item)
      ensures !status.Ok? ==> registry.entries == old(registry.entries)
    {
      handle := 0;
      var j, x;
      status, j := FindModule(module_);
      if !status.Ok? {
        return;
      }
      status, x := FindTensor(a);
      if status.Ok? {
        status, handle := ForwardOn(objects[j].m, x);
      }
    }

    method ForwardOn(m: LinearModule, x: nat) returns (status: Status, handle: u64)
      requires Valid() && heap.Holds(x) && m.Valid(heap.W()) && m.Held(heap.held)
      modifies heap, registry
      ensures Valid() && old(heap.history) <= heap.history
      ensures status.Ok? <==> Transformable(old(heap.W()), m, x) && Room(old(registry.T()))
      ensures status.Ok? ==>
                handle in registry.entries && registry.entries[handle].kind.TensorHandle?
                && HandedOut(old(registry.T()), registry.T(), handle, TensorHandle, registry.entries[handle].item)
                && Transformed(old(heap.W()), heap.W(), m, x, registry.entries[handle].item)
      ensures !status.Ok? ==> registry.entries == old(registry.entries)
    {
      var out;
      status, out := ForwardOf(m, x);
      ghost var w := heap.W();
      status, handle := Answer(status, out);
      assert heap.W() == w;
    }

    method ForwardOf(m: LinearModule, x: nat) returns (status: Status, out: nat)
      requires Valid() && heap.Holds(x) && m.Valid(heap.W()) && m.Held(heap.held)
      modifies heap
      ensures Ready(if status.Ok? then Locals(multiset{out}, multiset{}) else NoLocals)
      ensures old(heap.history) <= heap.history
      ensures status.Ok? <==> Transformable(old(heap.W()), m, x)
      ensures status.Ok? ==> Transformed(old(heap.W()), heap.W(), m, x, out)
    {
      ghost var w, marks := heap.W(), heap.M();
      ModuleParameters(m);
      ghost var linear, mid;
      status, out, linear, mid := TrainingBridge.LinearForward(heap, x, m.weight, m.bias);
      assert ObjectsOk(objects, w);
      if status.Ok? {
        TrainingBridge.LinearMeaning(heap.p, w, mid, heap.W(), x, m.weight, m.bias, linear, out);
        ForwardIsLinear(w, m, x);
      }
      Produced(w, marks, status.Ok?, out);
    }

    lemma ForwardIsLinear(w: World, m: LinearModule, x: nat)
      requires TensorsOk(w) && Transformable(w, m, x) && (m.bias.Some? ==> m.bias.value < |w.tensors|)
      requires TensorOk(w, w.tensors[x]) && TensorOk(w, w.tensors[m.weight]) && Dims(w, m.weight)[1] > 0
      requires Dims(w, x)[0] > 0 && Dims(w, x)[1] > 0
      ensures var d, e, b := Dims(w, x), Dims(w, m.weight), TrainingBridge.ValuesAt(w, m.bias);
              Linear(Logical(w, x), Logical(w, m.weight), b, d[0], d[1], e[1],
                     TrainingBridge.Affine(Logical(w, x), Logical(w, m.weight), b, d[0], d[1], e[1]))
    {
      var d, e := Dims(w, x), Dims(w, m.weight);
      LinearMeans(Logical(w, x), Logical(w, m.weight), TrainingBridge.ValuesAt(w, m.bias), d[0], d[1], e[1]);
    }

    lemma ModuleParameters(m: LinearModule)
      requires heap.Valid() && m.Valid(heap.W()) && m.Held(heap.held)
      ensures TrainingBridge.ParametersOk(heap.W(), m.weight, m.bias)
      ensures m.weight in heap.held && (m.bias.Some? ==> m.bias.value in heap.held)
    {
      CanonicalWellFormed(WeightDims(m.config));
      CanonicalWellFormed(BiasDims(m.config));
      assert m.Parameters()[0] in heap.held;
      assert m.bias.Some? ==> m.Parameters()[1] in heap.held;
    }

    /** A handle to a parameter of a module. */
    method ParameterAt(module_: u64, index: nat) returns (status: Status, handle: u64)
      requires Valid()
      modifies heap`counts, heap`shares, heap`liveBytes, heap`held, registry
      ensures Valid()
      ensures status.Ok? <==> old(ModuleOf(module_)).Some? && index < |old(ModuleOf(module_)).value.Parameters()|
                              && Room(old(registry.T()))
      ensures status.Ok? ==> HandedOut(old(registry.T()), registry.T(), handle, TensorHandle,
                                       old(ModuleOf(module_)).value.Parameters()[index])
      ensures status.Ok? && index == 0 ==> Usable(registry.T(), handle, old(ModuleOf(module_)).value.weight)
      ensures status.Ok? && index != 0 ==>
                index == 1 && old(ModuleOf(module_)).value.bias.Some?
                && Usable(registry.T(), handle, old(ModuleOf(module_)).value.bias.value)
      ensures !status.Ok? ==> registry.entries == old(registry.entries)
    {
      handle := 0;
      var j;
      status, j := FindModule(module_);
      if !status.Ok? {
        return;
      }
      var parameters := objects[j].m.Parameters();
      if index >= |parameters| {
        return Error(InvalidArgument), handle;
      }
      assert parameters[index] in heap.held;
      status, handle := HandleTo(parameters[index]);
    }

    /** A new handle to a tensor that is held. */
    method HandleTo(i: nat) returns (status: Status, handle: u64)
      requires Valid() && i in heap.held
      modifies heap`counts, heap`shares, heap`liveBytes, heap`held, registry
      ensures Valid() && Granted(old(registry.T()), registry.T(), status, handle, TensorHandle, i)
    {
      ghost var w, held := heap.W(), heap.held;
      heap.Hold(i);
      assert ObjectsOk(objects, w);
      Grown(w, held, NoLocals, multiset{i});
      assert NoLocals.tensors + multiset{i} == multiset{i};
      status, handle := RegisterTensor(i);
    }

    method SaveModule(module_: u64) returns (status: Status, bytes: seq<byte>)
      requires Valid()
      ensures status.Ok? <==> ModuleOf(module_).Some?
      ensures status.Ok? ==> var m := ModuleOf(module_).value;
                             m.Valid(heap.W()) && bytes == Checkpoints.Save(m.config, m.Contents(coding, heap.W()))
    {
      bytes := [];
      var j;
      status, j := FindModule(module_);
      if status.Ok? {
        status, bytes := objects[j].m.Save(heap, coding);
      }
    }

    method LoadModule(module_: u64, bytes: seq<byte>) returns (status: Status)
      requires Valid()
      modifies heap`storages, heap`versions, heap`metas, heap`liveBytes, heap`history
      ensures Valid() && old(heap.history) <= heap.history
      ensures status.Ok? <==> ModuleOf(module_).Some? && Accepted(bytes, ModuleOf(module_).value.config)
      ensures !status.Ok? ==> heap.W() == old(heap.W())
      ensures status.Ok? ==> Loads(old(heap.W()), heap.W(), coding, ModuleOf(module_).value, bytes)
    {
      var j;
      status, j := FindModule(module_);
      if status.Ok? {
        status := LoadInto(objects[j].m, bytes);
      }
    }

    method LoadInto(module_: LinearModule, bytes: seq<byte>) returns (status: Status)
      requires Valid() && module_.Valid(heap.W()) && module_.Held(heap.held)
      modifies heap`storages, heap`versions, heap`metas, heap`liveBytes, heap`history
      ensures Valid() && old(heap.history) <= heap.history
      ensures status.Ok? <==> Accepted(bytes, module_.config)
      ensures !status.Ok? ==> heap.W() == old(heap.W())
      ensures status.Ok? ==> Loads(old(heap.W()), heap.W(), coding, module_, bytes)
    {
      ghost var w, m := heap.W(), heap.M();
      status := module_.Load(heap, coding, bytes);
      assert ObjectsOk(objects, w);
      Continued(w, m);
    }

    // ----- calls on optimizers

    /** The optimizer a handle names, of either kind. */
    ghost function OptimizerOf(handle: u64, kind: HandleType): Option<Optimizer>
      reads this, registry
    {
      if Find(registry.T(), handle, kind).Ok? && registry.entries[handle].item < |objects|
         && objects[registry.entries[handle].item].OptimizerObject?
      then Some(objects[registry.entries[handle].item].opt) else None
    }

    /** The optimizer a handle names, of either kind, and what it needs to be used. */
    method FindOptimizer(handle: u64, kind: HandleType) returns (status: Status, j: nat)
      requires Valid() && (kind.OptimizerHandle? || kind.ParameterOptimizer?)
      ensures status.Ok? <==> OptimizerOf(handle, kind).Some?
      ensures status.Ok? ==>
                j < |objects| && objects[j].OptimizerObject? && objects[j].opt.Valid(heap.W())
                && OptimizerOf(handle, kind) == Some(objects[j].opt)
                && forall i :: i in objects[j].opt.parameters ==> i in heap.held
    {
      status, j := FindObject(handle, kind);
      if status.Ok? {
        assert ObjectOk(objects, heap.W(), j);
        OptimizerHolds(j);
      }
    }

    /** The parameters of a live optimizer are held, by itself or by its module. */
    lemma OptimizerHolds(j: nat)
      requires Valid() && j < |objects| == |objectCounts| && objectCounts[j] > 0 && objects[j].OptimizerObject?
      ensures forall i :: i in objects[j].opt.parameters ==> i in heap.held
    {
      var hs := HoldingsOf(objects);
      assert ObjectOk(objects, heap.W(), j);
      assert hs[j] == HoldingOf(objects[j]);
      if objects[j].owner.None? {
        LiveObjectHolds(registry.T(), hs, objectCounts, heap.held, NoLocals, j);
      } else {
        var k := objects[j].owner.value;
        BelongingPositive(hs, objectCounts, k, |hs|);
        assert objectCounts[k] > 0;
        LiveObjectHolds(registry.T(), hs, objectCounts, heap.held, NoLocals, k);
        assert hs[k] == HoldingOf(objects[k]);
      }
    }

    method CreateOptimizer(handles: seq<u64>, o: Hyper) returns (status: Status, handle: u64)
      requires Valid()
      modifies this, heap`counts, heap`shares, heap`liveBytes, heap`held, registry
      ensures Valid() && forall x :: x in OptimizersOf(objects) ==> x in old(OptimizersOf(objects)) || fresh(x)
      ensures status.Ok? <==> Optimizable(old(registry.T()), heap.W(), handles, o) && Room(old(registry.T()))
      ensures status.Ok? ==>
                HandedOut(old(registry.T()), registry.T(), handle, ParameterOptimizer, |old(objects)|)
                && StartsAt(objects, |old(objects)|, o, Trainable(heap.W(), Named(old(registry.T()), handles)))
      ensures !status.Ok? ==> registry.entries == old(registry.entries)
    {
      handle := 0;
      var opt;
      HandlesAreGood();
      status, opt := Optimizers.Create(registry, heap, handles, o);
      if opt == null {
        return;
      }
      ParametersHeld(handles, opt.parameters);
      status, handle := EnterOptimizer(opt);
    }

    /** Take references to an optimizer's parameters, and hand it to a new handle. */
    method EnterOptimizer(opt: Optimizer) returns (status: Status, handle: u64)
      requires Valid() && opt.Valid(heap.W()) && forall k :: 0 <= k < |opt.parameters| ==> opt.parameters[k] in heap.held
      requires opt as object != heap && opt as object != registry
      modifies this, heap`counts, heap`shares, heap`liveBytes, heap`held, registry
      ensures Valid() && OptimizersOf(objects) == old(OptimizersOf(objects)) + {opt as object}
      ensures objects == old(objects) + [OptimizerObject(opt, None)]
      ensures Granted(old(registry.T()), registry.T(), status, handle, ParameterOptimizer, |old(objects)|)
    {
      ghost var w := heap.W();
      HoldAll(NoLocals, opt.parameters);
      assert heap.W() == w;
      assert NoLocals.tensors + multiset(opt.parameters) == multiset(opt.parameters);
      status, handle := Enter(OptimizerObject(opt, None));
    }

    lemma ParametersHeld(handles: seq<u64>, ids: seq<nat>)
      requires Valid() && AllTensors(registry.T(), handles) && HandlesHold(registry.T(), heap.held)
      requires ids == Trainable(heap.W(), Named(registry.T(), handles))
      ensures forall k :: 0 <= k < |ids| ==> ids[k] in heap.held
    {
      forall k | 0 <= k < |ids| ensures ids[k] in heap.held {
        var l :| 0 <= l < |handles| && Named(registry.T(), handles)[l] == ids[k];
        assert IsTensor(registry.T(), handles[l]);
      }
    }

    /** The optimizer of a module; it keeps the module alive. */
    method CreateModuleOptimizer(module_: u64, o: Hyper) returns (status: Status, handle: u64)
      requires Valid()
      modifies this, heap`counts, heap`shares, heap`liveBytes, heap`held, registry
      ensures Valid() && forall x :: x in OptimizersOf(objects) ==> x in old(OptimizersOf(objects)) || fresh(x)
      ensures status.Ok? <==> old(ModuleOf(module_)).Some? && HyperOk(o) && Room(old(registry.T()))
      ensures status.Ok? ==>
                HandedOut(old(registry.T()), registry.T(), handle, OptimizerHandle, |old(objects)|)
                && StartsAt(objects, |old(objects)|, o, old(ModuleOf(module_)).value.Parameters())
      ensures !status.Ok? ==> registry.entries == old(registry.entries)
    {
      handle := 0;
      var j;
      status, j := FindModule(module_);
      if status.Ok? {
        assert objects[j].m == ModuleOf(module_).value;
        status, handle := CreateBound(j, o);
        assert StartsAt(objects, |old(objects)|, o, old(objects)[j].m.Parameters()) || !status.Ok?;
      }
    }

    method CreateBound(j: nat, o: Hyper) returns (status: Status, handle: u64)
      requires Valid() && j < |objects| == |objectCounts| && objectCounts[j] > 0 && objects[j].ModuleObject?
      requires objects[j].m.Valid(heap.W())
      modifies this, heap`counts, heap`shares, heap`liveBytes, heap`held, registry
      ensures Valid() && forall x :: x in OptimizersOf(objects) ==> x in old(OptimizersOf(objects)) || fresh(x)
      ensures status.Ok? <==> HyperOk(o) && Room(old(registry.T()))
      ensures status.Ok? ==>
                HandedOut(old(registry.T()), registry.T(), handle, OptimizerHandle, |old(objects)|)
                && StartsAt(objects, |old(objects)|, o, old(objects)[j].m.Parameters())
      ensures !status.Ok? ==> registry.entries == old(registry.entries)
    {
      handle := 0;
      var opt;
      status, opt := CreateForModule(heap, objects[j].m, o);
      if opt == null {
        return;
      }
      assert multiset(HoldingOf(OptimizerObject(opt, Some(j))).tensors) == multiset{};
      status, handle := Enter(OptimizerObject(opt, Some(j)));
    }

    /** A step of an optimizer of either kind. */
    method StepOptimizer(handle: u64, kind: HandleType) returns (status: Status)
      requires Valid() && (kind.OptimizerHandle? || kind.ParameterOptimizer?)
      modifies heap`storages, heap`versions, heap`history, OptimizersOf(objects)
      ensures Valid() && old(heap.history) <= heap.history
      ensures status.Ok? <==> OptimizerOf(handle, kind).Some?
      ensures !status.Ok? ==> heap.W() == old(heap.W())
      ensures status.Ok? ==>
                var opt := OptimizerOf(handle, kind).value;
                opt.step == old(opt.step) + 1 && StageOk(Stage(old(heap.W()), old(opt.history)), opt.parameters)
                && Stage(heap.W(), opt.history)
                   == StepAll(heap.p, opt.o, opt.step, opt.parameters, Stage(old(heap.W()), old(opt.history)), |opt.parameters|)
      ensures status.Ok? ==>
                var opt := OptimizerOf(handle, kind).value;
                Tensors(old(heap.W()), opt.parameters) &&
                forall k :: 0 <= k < |opt.parameters| && Lone(old(heap.W()), opt.parameters, k)
                            && HasGradient(old(heap.W()), opt.parameters[k]) ==>
                  Stored(heap.p, opt.o, opt.step, old(heap.W()), heap.W(), opt.parameters[k],
                         Moment(old(opt.first), k), Moment(old(opt.second), k), Moment(opt.first, k), Moment(opt.second, k))
    {
      var j;
      status, j := FindOptimizer(handle, kind);
      if !status.Ok? {
        return;
      }
      assert ObjectOk(objects, heap.W(), j);
      status := StepObject(objects[j].opt, j);
    }

    method StepObject(opt: Optimizer, ghost j: nat) returns (status: Status)
      requires Valid() && j < |objects| && objects[j].OptimizerObject? && objects[j].opt == opt && opt.Valid(heap.W())
      requires opt as object in OptimizersOf(objects)
      modifies heap`storages, heap`versions, heap`history, opt
      ensures Valid() && old(heap.history) <= heap.history && status.Ok?
      ensures opt.step == old(opt.step) + 1 && StageOk(Stage(old(heap.W()), old(opt.history)), opt.parameters)
      ensures Stage(heap.W(), opt.history)
           == StepAll(heap.p, opt.o, opt.step, opt.parameters, Stage(old(heap.W()), old(opt.history)), |opt.parameters|)
      ensures forall k :: 0 <= k < |opt.parameters| && Lone(old(heap.W()), opt.parameters, k)
                          && HasGradient(old(heap.W()), opt.parameters[k]) ==>
                Stored(heap.p, opt.o, opt.step, old(heap.W()), heap.W(), opt.parameters[k],
                       Moment(old(opt.first), k), Moment(old(opt.second), k), Moment(opt.first, k), Moment(opt.second, k))
    {
      ghost var w, m := heap.W(), heap.M();
      status := opt.CpuStep(heap);
      forall k: nat | k < |objects| ensures ObjectOk(objects, heap.W(), k) {
        assert old(ObjectOk(objects, heap.W(), k));
        match objects[k]
        case ModuleObject(m) => m.StillValid(w, heap.W());
        case OptimizerObject(other, owner) =>
          if other != opt {
            other.StillValid(w, heap.W());
          }
      }
    }

    method ClearGradients(handle: u64, kind: HandleType) returns (status: Status)
      requires Valid() && (kind.OptimizerHandle? || kind.ParameterOptimizer?)
      modifies heap`metas, heap`liveBytes, heap`history
      ensures Valid() && old(heap.history) <= heap.history
      ensures status.Ok? <==> OptimizerOf(handle, kind).Some?
      ensures !status.Ok? ==> heap.W() == old(heap.W())
      ensures status.Ok? ==>
                heap.metas.Keys == old(heap.metas.Keys)
                && forall t :: t in heap.metas ==>
                     heap.metas[t] == if t in OptimizerOf(handle, kind).value.parameters
                                      then old(heap.metas)[t].(gradient := None) else old(heap.metas)[t]
    {
      var j;
      status, j := FindOptimizer(handle, kind);
      if !status.Ok? {
        return;
      }
      ghost var w, m := heap.W(), heap.M();
      objects[j].opt.ZeroGrad(heap);
      assert ObjectsOk(objects, w);
      Continued(w, m);
    }

    // ----- retaining and releasing

    method Retain(handle: u64, kind: HandleType) returns (status: Status)
      requires Valid()
      modifies registry
      ensures Valid() && Outcome(registry.T(), status, 0) == Apply(old(registry.T()), HandleRegistry.Retain(handle, kind))
    {
      ghost var t, w := registry.T(), heap.W();
      status := registry.RetainHandle(handle, kind);
      assert ObjectsOk(objects, w);
      Retained(t, objects, objectCounts, heap.held, handle, kind);
    }

    /** Release a handle; with its last reference what it named is dropped. */
    method ReleaseHandle(handle: u64, kind: HandleType) returns (status: Status)
      requires Valid()
      modifies registry, this`objectCounts, heap`counts, heap`shares, heap`liveBytes, heap`held
      ensures Valid() && Outcome(registry.T(), status, 0) == Apply(old(registry.T()), HandleRegistry.Release(handle, kind))
    {
      var known := handle in registry.entries;
      var entry := if known then registry.entries[handle] else Entry(kind, 1, 0);
      ghost var t, w := registry.T(), heap.W();
      status := registry.ReleaseHandle(handle, kind);
      assert ObjectsOk(objects, w);
      Released(t, objects, objectCounts, heap.held, handle, kind);
      if status.Ok? && handle !in registry.entries {
        Retire(entry);
      }
    }

    /** Drop what a handle that is gone named. */
    method Retire(entry: Entry)
      requires Ready(LeftBy(entry))
      modifies this`objectCounts, heap`counts, heap`shares, heap`liveBytes, heap`held
      ensures Valid()
    {
      if entry.kind.TensorHandle? {
        DropTensor(NoLocals, entry.item);
      } else if IsObject(entry.kind) {
        DropObject(NoLocals, entry.item);
      }
    }

    // ----- what the byte counter says

    /** The tensors that the handles name or that named modules and optimizers hold. */
    ghost function HandledTensors(): set<nat>
      reads this, heap, registry
    {
      set i: nat | i < |heap.tensors| && TensorReached(registry.T(), HoldingsOf(objects), i)
    }

    /** The byte counter is four times the total length of the storages, gradients included,
        that are reached from the handles of tensors, modules and optimizers. */
    lemma LiveBytesOfHandles()
      requires Valid()
      ensures GraphOk(Snapshot(heap.W()))
      ensures heap.liveBytes == LiveBytes(heap.W(), Reachable(Snapshot(heap.W()), HandledTensors()))
    {
      SnapshotOk(heap.p, heap.W());
      OpenBooks(heap.p, heap.W(), heap.L(), heap.M());
      LiveBytesExact(heap.p, heap.W(), Snapshot(heap.W()), heap.L(), heap.held);
      forall i: nat ensures i in Roots(heap.held) <==> i in HandledTensors() {
        HeldIfReached(registry.T(), HoldingsOf(objects), objectCounts, heap.held, i);
        if i in heap.held {
          heap.HeldIsAlive(i);
        }
      }
      assert Roots(heap.held) == HandledTensors();
    }

    /** With no handle left, nothing is live. */
    lemma NothingLeft()
      requires Valid() && registry.entries == map[]
      ensures heap.liveBytes == 0
    {
      NothingReached(registry.T(), HoldingsOf(objects), objectCounts, heap.held);
      OpenBooks(heap.p, heap.W(), heap.L(), heap.M());
      AllReclaimed(heap.p, heap.W(), heap.L());
    }

    // ----- runs

    method ExecuteTensor(c: Command)
      requires Valid() && c.WellFormed() && c.OnTensors()
      modifies heap, registry
      ensures Valid() && old(heap.history) <= heap.history
    {
      var status, handle;
      match c
      case CreateTensorOf(dims, data) => status, handle := CreateTensor(dims, data);
      case ComputeOf(r, a, b) => status, handle := Compute(r, a, b);
      case SetRequiresOf(a, flag) => status := SetRequires(a, flag);
      case AssignOf(ts, ss) =>
        ghost var targets, sources;
        status, targets, sources := Assign(ts, ss);
      case BackwardOf(a) =>
        ghost var root, topo;
        status, root, topo := RunBackward(a);
    }

    method ExecuteModule(c: Command)
      requires Valid() && c.WellFormed() && c.OnModules()
      modifies this, heap, registry
      ensures Valid() && old(heap.history) <= heap.history && OptimizersOf(objects) == old(OptimizersOf(objects))
    {
      var status, handle;
      match c
      case CreateModuleOf(config, weights, biases) => status, handle := CreateModule(config, weights, biases);
      case ForwardOf(m, a) => status, handle := Forward(m, a);
      case ParameterOf(m, index) => status, handle := ParameterAt(m, index);
      case LoadOf(m, bytes) => status := LoadModule(m, bytes);
    }

    method ExecuteOptimizer(c: Command)
      requires Valid() && c.WellFormed() && c.OnOptimizers()
      modifies this, heap, registry, OptimizersOf(objects)
      ensures Valid() && old(heap.history) <= heap.history
      ensures forall x :: x in OptimizersOf(objects) ==> x in old(OptimizersOf(objects)) || fresh(x)
    {
      var status, handle;
      match c
      case CreateOptimizerOf(handles, o) => status, handle := CreateOptimizer(handles, o);
      case CreateModuleOptimizerOf(m, o) => status, handle := CreateModuleOptimizer(m, o);
      case StepOf(x, bound) => status := StepOptimizer(x, if bound then OptimizerHandle else ParameterOptimizer);
      case ZeroGradOf(x, bound) => status := ClearGradients(x, if bound then OptimizerHandle else ParameterOptimizer);
    }

    /** One call, whatever it is and whatever its outcome. */
    method Execute(c: Command)
      requires Valid() && c.WellFormed()
      modifies this, heap, registry, OptimizersOf(objects)
      ensures Valid() && old(heap.history) <= heap.history
      ensures forall x :: x in OptimizersOf(objects) ==> x in old(OptimizersOf(objects)) || fresh(x)
    {
      if c.OnTensors() {
        ExecuteTensor(c);
      } else if c.OnModules() {
        ExecuteModule(c);
      } else if c.OnOptimizers() {
        ExecuteOptimizer(c);
      } else {
        var status;
        match c
        case RetainOf(x, kind) => status := Retain(x, kind);
        case ReleaseOf(x, kind) => status := ReleaseHandle(x, kind);
      }
    }

    /** Any run of calls: the byte counter is always what the handles reach, and zero when
        there is no handle left. */
    method Run(cs: seq<Command>)
      requires Valid() && forall k :: 0 <= k < |cs| ==> cs[k].WellFormed()
      modifies this, heap, registry, OptimizersOf(objects)
      ensures Valid() && old(heap.history) <= heap.history
      ensures GraphOk(Snapshot(heap.W()))
      ensures heap.liveBytes == LiveBytes(heap.W(), Reachable(Snapshot(heap.W()), HandledTensors()))
      ensures registry.entries == map[] ==> heap.liveBytes == 0
    {
      for k := 0 to |cs|
        invariant Valid() && old(heap.history) <= heap.history
        invariant forall x :: x in OptimizersOf(objects) ==> x in old(OptimizersOf(objects)) || fresh(x)
      {
        Execute(cs[k]);
      }
      LiveBytesOfHandles();
      if registry.entries == map[] {
        NothingLeft();
      }
    }

    /** Any run of calls that ends in a successful backward pass: every operator the root
        depends on is differentiated at the operand values it was recorded with, at some
        moment of the run's history, and in every direction the leaf gradients gain the
        derivative of the root. */
    method RunThenBackward(cs: seq<Command>, a: u64) returns (status: Status, ghost root: nat, ghost seen: World)
      requires Valid() && forall k :: 0 <= k < |cs| ==> cs[k].WellFormed()
      modifies this, heap, registry, OptimizersOf(objects)
      ensures Valid() && old(heap.history) <= heap.history
      ensures TensorsOk(seen)
      ensures status.Ok? ==>
                GraphOk(Snapshot(seen)) && root < |seen.tensors|
                && (exists now: seq<Change> :: now <= heap.history && Reached(heap.p, now, seen)
                                               && PassAsRecorded(heap.p, now, Snapshot(seen), root))
                && (Lawful(heap.p) ==>
                      forall seed: seq<seq<real>> :: SeedOk(Snapshot(seen), seed) ==>
                        Gains(heap.p, Snapshot(seen), seen.metas, heap.metas, root, seed))
    {
      Run(cs);
      seen := heap.W();
      ghost var now := heap.history;
      OpenBooks(heap.p, heap.W(), heap.L(), heap.M());
      ghost var topo;
      status, root, topo := RunBackward(a);
      if status.Ok? && Lawful(heap.p) {
        PassGains(heap.p, seen, Snapshot(seen), root, topo, heap.metas);
      }
    }
  }

  /** The calls of the engine. */
  datatype Command =
    | CreateTensorOf(dims: seq<int>, data: seq<real>)
    | ComputeOf(request: Request, a: u64, b: u64)
    | SetRequiresOf(a: u64, flag: bool)
    | AssignOf(targets: seq<u64>, sources: seq<u64>)
    | BackwardOf(a: u64)
    | CreateModuleOf(config: Config, weights: seq<real>, biases: seq<real>)
    | ForwardOf(m: u64, a: u64)
    | ParameterOf(m: u64, index: nat)
    | LoadOf(m: u64, bytes: seq<byte>)
    | CreateOptimizerOf(handles: seq<u64>, hyper: Hyper)
    | CreateModuleOptimizerOf(m: u64, hyper: Hyper)
    | StepOf(x: u64, bound: bool)
    | ZeroGradOf(x: u64, bound: bool)
    | RetainOf(x: u64, kind: HandleType)
    | ReleaseOf(x: u64, kind: HandleType)
  {
    /** Batches pair up, and initial values are as many as the shapes ask for. */
    ghost predicate WellFormed() {
      && (AssignOf? ==> |targets| == |sources|)
      && (CreateModuleOf? && ConfigOk(config) ==>
            |weights| == Numel(WeightDims(config)) && (config.useBias ==> |biases| == Numel(BiasDims(config))))
    }

    predicate OnTensors() {
      CreateTensorOf? || ComputeOf? || SetRequiresOf? || AssignOf? || BackwardOf?
    }

    predicate OnModules() {
      CreateModuleOf? || ForwardOf? || ParameterOf? || LoadOf?
    }

    predicate OnOptimizers() {
      CreateOptimizerOf? || CreateModuleOptimizerOf? || StepOf? || ZeroGradOf?
    }
  }

  function KindOf(x: Object): HandleType {
    match x
    case ModuleObject(_) => ModuleHandle
    case OptimizerObject(_, owner) => if owner.Some? then OptimizerHandle else ParameterOptimizer
  }

  lemma KindOfNew(objects: seq<Object>, x: Object)
    ensures IsObject(KindOf(x)) && KindOk(Entry(KindOf(x), 1, |objects|), objects + [x])
  {
    assert (objects + [x])[|objects|] == x;
  }

  /** The references a handle that is gone leaves to its caller. */
  function LeftBy(e: Entry): Locals {
    if e.kind.TensorHandle? then Locals(multiset{} + multiset{e.item}, multiset{})
    else if IsObject(e.kind) then Locals(multiset{}, multiset{} + multiset{e.item})
    else NoLocals
  }

  lemma Retained(t: Table, objects: seq<Object>, counts: seq<nat>, held: multiset<nat>, handle: u64, kind: HandleType)
    requires KindsOk(t, objects) && HoldingsOk(t, HoldingsOf(objects), counts, held, NoLocals)
    ensures var r := Apply(t, HandleRegistry.Retain(handle, kind)).table;
            KindsOk(r, objects) && HoldingsOk(r, HoldingsOf(objects), counts, held, NoLocals)
  {
    var r := Apply(t, HandleRegistry.Retain(handle, kind));
    if r.status.Ok? {
      Recounted(t, HoldingsOf(objects), counts, held, NoLocals, handle, t.entries[handle].refs + 1);
      SameKinds(t, objects, handle, t.entries[handle].refs + 1);
      assert r.table == WithRefs(t, handle, t.entries[handle].refs + 1);
    } else {
      assert r.table == t;
    }
  }

  lemma Released(t: Table, objects: seq<Object>, counts: seq<nat>, held: multiset<nat>, handle: u64, kind: HandleType)
    requires KindsOk(t, objects) && HoldingsOk(t, HoldingsOf(objects), counts, held, NoLocals)
    ensures var r := Apply(t, HandleRegistry.Release(handle, kind));
            KindsOk(r.table, objects)
            && HoldingsOk(r.table, HoldingsOf(objects), counts, held,
                          if handle in t.entries && handle !in r.table.entries then LeftBy(t.entries[handle]) else NoLocals)
            && (r.status.Ok? ==> handle in t.entries) && (!r.status.Ok? ==> r.table == t)
  {
    var r := Apply(t, HandleRegistry.Release(handle, kind));
    if r.status.Ok? {
      if t.entries[handle].refs == 1 {
        HandleGone(t, HoldingsOf(objects), counts, held, NoLocals, handle);
        FewerKinds(t, objects, handle);
      } else {
        Recounted(t, HoldingsOf(objects), counts, held, NoLocals, handle, t.entries[handle].refs - 1);
        SameKinds(t, objects, handle, t.entries[handle].refs - 1);
      }
    }
  }

  lemma SameKinds(t: Table, objects: seq<Object>, x: u64, refs: u64)
    requires KindsOk(t, objects) && x in t.entries
    ensures KindsOk(WithRefs(t, x, refs), objects)
  {
    forall y | y in t.entries ensures KindOk(WithRefs(t, x, refs).entries[y], objects) {
      assert KindOk(t.entries[y], objects);
    }
  }

  lemma FewerKinds(t: Table, objects: seq<Object>, x: u64)
    requires KindsOk(t, objects)
    ensures KindsOk(Without(t, x), objects)
  {
    forall y | y in Without(t, x).entries ensures KindOk(t.entries[y], objects) {
      assert y in t.entries;
    }
  }

  lemma MoreHoldings(t: Table, objects: seq<Object>, counts: seq<nat>, held: multiset<nat>, rest: Locals, x: Object)
    requires HoldingsOk(t, HoldingsOf(objects), counts, held,
                        Locals(rest.tensors + multiset(HoldingOf(x).tensors), rest.objects))
    requires x.OptimizerObject? && x.owner.Some? ==> x.owner.value < |counts| && counts[x.owner.value] > 0
    ensures HoldingOf(x).owner.Some? ==> HoldingOf(x).owner.value < |counts|
    ensures HoldingsOk(t, HoldingsOf(objects + [x]), OwnerRaised(counts, HoldingOf(x).owner) + [1], held,
                       Locals(rest.tensors, rest.objects + multiset{|objects|}))
  {
    assert HoldingsOf(objects + [x]) == HoldingsOf(objects) + [HoldingOf(x)];
    ObjectJoins(t, HoldingsOf(objects), counts, held, rest, HoldingOf(x));
  }

  lemma MoreApart(objects: seq<Object>, x: Object)
    ensures OptimizersOf(objects + [x]) == OptimizersOf(objects) + if x.OptimizerObject? then {x.opt as object} else {}
  {
    var all := objects + [x];
    forall k | 0 <= k < |objects| ensures all[k] == objects[k] {
    }
    assert all[|objects|] == x;
    var a, b := OptimizersOf(all), OptimizersOf(objects);
    forall o | o in b ensures o in a {
      var k :| 0 <= k < |objects| && objects[k].OptimizerObject? && objects[k].opt as object == o;
      assert all[k].OptimizerObject? && all[k].opt as object == o;
    }
  }

  lemma MoreKinds(t: Table, objects: seq<Object>, x: Object)
    requires KindsOk(t, objects)
    ensures KindsOk(t, objects + [x])
  {
    forall y | y in t.entries ensures KindOk(t.entries[y], objects + [x]) {
      assert KindOk(t.entries[y], objects);
    }
  }

  lemma NextHeld(m: multiset<nat>, ts: seq<nat>, k: nat)
    requires k < |ts|
    ensures m + multiset(ts[..k]) + multiset{ts[k]} == m + multiset(ts[..k + 1])
  {
    assert ts[..k + 1] == ts[..k] + [ts[k]];
  }
}
