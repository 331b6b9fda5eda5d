/** Batch assignment between tensors: validated as a whole, staged as a whole, then written. */
module Assignment {
  import opened Shapes
  import opened Layouts
  import opened ViewChains
  import opened Calculus
  import opened Worlds
  import opened Transitions
  import opened Heap
  import HandleRegistry

  type Handle = u64

  /** Every live tensor handle refers to a tensor of the heap. */
  ghost predicate HandlesOk(t: HandleRegistry.Table, w: World) {
    forall x :: x in t.entries && t.entries[x].kind.TensorHandle? ==> t.entries[x].item < |w.tensors|
  }

  /** Every live tensor handle holds a reference to its tensor. */
  ghost predicate HandlesHold(t: HandleRegistry.Table, held: multiset<nat>) {
    forall x :: x in t.entries && t.entries[x].kind.TensorHandle? ==> t.entries[x].item in held
  }

  predicate IsTensor(t: HandleRegistry.Table, x: Handle) {
    HandleRegistry.Find(t, x, HandleRegistry.TensorHandle).Ok?
  }

  function TensorOf(t: HandleRegistry.Table, x: Handle): nat
    requires IsTensor(t, x)
  {
    t.entries[x].item
  }

  // ----- what a batch must satisfy

  ghost predicate PairOk(t: HandleRegistry.Table, w: World, target: Handle, source: Handle)
    requires HandlesOk(t, w)
  {
    IsTensor(t, target) && IsTensor(t, source) && Dims(w, TensorOf(t, target)) == Dims(w, TensorOf(t, source))
  }

  /** The tensors two lists of handles name, pairwise of equal shape, with targets of
      pairwise distinct identity. */
  ghost predicate Resolved(t: HandleRegistry.Table, w: World, ts: seq<Handle>, ss: seq<Handle>,
                           targets: seq<nat>, sources: seq<nat>)
    requires HandlesOk(t, w) && |ts| == |ss|
  {
    && |targets| == |sources| == |ts|
    && (forall k :: 0 <= k < |ts| ==> PairOk(t, w, ts[k], ss[k]))
    && (forall k :: 0 <= k < |ts| ==> targets[k] == TensorOf(t, ts[k]) && sources[k] == TensorOf(t, ss[k]))
    && Distinct(w, targets)
  }

  ghost predicate Distinct(w: World, targets: seq<nat>) {
    && (forall k :: 0 <= k < |targets| ==> targets[k] < |w.tensors|)
    && (forall k, l :: 0 <= k < l < |targets| ==> w.tensors[targets[k]].counter != w.tensors[targets[l]].counter)
  }

  ghost predicate Acceptable(t: HandleRegistry.Table, w: World, ts: seq<Handle>, ss: seq<Handle>)
    requires HandlesOk(t, w) && |ts| == |ss|
  {
    && (forall k :: 0 <= k < |ts| ==> PairOk(t, w, ts[k], ss[k]))
    && (forall k, l :: 0 <= k < l < |ts| ==>
          w.tensors[TensorOf(t, ts[k])].counter != w.tensors[TensorOf(t, ts[l])].counter)
  }

  /** The same in full: every handle is live and names a tensor, the tensors of a pair have
      equal shapes, targets are contiguous, and no two of them share a version counter. */
  ghost predicate Assignable(entries: map<Handle, HandleRegistry.Entry>, tensors: seq<Tensor>, ts: seq<Handle>, ss: seq<Handle>) {
    && |ts| == |ss| && (forall k :: 0 <= k < |ts| ==> PairAssignable(entries, tensors, ts[k], ss[k]))
    && (forall k, l :: 0 <= k < l < |ts| ==>
          tensors[entries[ts[k]].item].counter != tensors[entries[ts[l]].item].counter)
  }

  ghost predicate PairAssignable(entries: map<Handle, HandleRegistry.Entry>, tensors: seq<Tensor>,
                                 target: Handle, source: Handle) {
    && target != 0 && target in entries && entries[target].kind.TensorHandle? && entries[target].item < |tensors|
    && source != 0 && source in entries && entries[source].kind.TensorHandle? && entries[source].item < |tensors|
    && tensors[entries[target].item].view.dims == tensors[entries[source].item].view.dims
    && tensors[entries[target].item].view.strides == CanonicalStrides(tensors[entries[target].item].view.dims)
  }

  lemma AssignableIs(t: HandleRegistry.Table, w: World, ts: seq<Handle>, ss: seq<Handle>)
    requires HandlesOk(t, w) && |ts| == |ss|
    ensures Assignable(t.entries, w.tensors, ts, ss) <==>
            Acceptable(t, w, ts, ss) && forall k :: 0 <= k < |ts| ==> Contiguous(w.tensors[TensorOf(t, ts[k])].view)
  {
    forall k | 0 <= k < |ts|
      ensures PairAssignable(t.entries, w.tensors, ts[k], ss[k]) <==>
              PairOk(t, w, ts[k], ss[k]) && Contiguous(w.tensors[TensorOf(t, ts[k])].view)
    {
    }
  }

  ghost predicate Writable(w: World, targets: seq<nat>)
    requires forall k :: 0 <= k < |targets| ==> targets[k] < |w.tensors|
  {
    forall k :: 0 <= k < |targets| ==> Contiguous(w.tensors[targets[k]].view)
  }

  // ----- what a batch does

  /** `j` shares storage, version and identity with one of the targets. */
  ghost predicate Aliased(w: World, targets: seq<nat>, j: nat)
    requires j < |w.tensors| && forall k :: 0 <= k < |targets| ==> targets[k] < |w.tensors|
  {
    exists k :: 0 <= k < |targets| && w.tensors[targets[k]].counter == w.tensors[j].counter
  }

  /** Every target has its own new contents, every alias of a target has moved one version,
      and all other tensors are untouched. */
  ghost predicate Committed(w: World, w': World, targets: seq<nat>, staged: seq<seq<real>>)
    requires TensorsOk(w) && Distinct(w, targets) && |staged| == |targets|
  {
    && w'.tensors == w.tensors && w'.records == w.records && TensorsOk(w')
    && (forall k :: 0 <= k < |targets| ==> w'.storages[w.tensors[targets[k]].storage] == staged[k])
    && (forall j :: 0 <= j < |w.tensors| ==> Moved(w, w', targets, j))
    && w'.metas.Keys == w.metas.Keys
    && (forall i :: i in w.metas ==>
          w'.metas[i] == if i in targets then w.metas[i].(gradient := None) else w.metas[i])
  }

  ghost predicate Moved(w: World, w': World, targets: seq<nat>, j: nat)
    requires TensorsOk(w) && TensorsOk(w') && w'.tensors == w.tensors
    requires j < |w.tensors| && forall k :: 0 <= k < |targets| ==> targets[k] < |w.tensors|
  {
    assert TensorOk(w, w.tensors[j]) && TensorOk(w', w.tensors[j]);
    Version(w', j) == Version(w, j) + (if Aliased(w, targets, j) then 1 else 0)
    && (!Aliased(w, targets, j) ==> w'.storages[w.tensors[j].storage] == w.storages[w.tensors[j].storage])
  }

  lemma CommitStep(p: Primitives, w: World, now: World, targets: seq<nat>, staged: seq<seq<real>>, t: nat, data: seq<real>)
    requires WorldOk(p, w) && WorldOk(p, now) && Distinct(w, targets + [t]) && Distinct(w, targets)
    requires |staged| == |targets| && Committed(w, now, targets, staged)
    requires t < |w.tensors| && |data| == |now.storages[now.tensors[t].storage]|
    ensures var next := Write(now, t, data);
            TensorsOk(next) && Committed(w, next.(metas := Cleared(next.metas, t)), targets + [t], staged + [data])
  {
    WriteOk(p, now, t, data);
    CommitMoves(p, w, now, Write(now, t, data).(metas := Cleared(now.metas, t)), targets, staged, t, data);
    CommitContents(p, w, now, targets, staged, t, data);
    CommitMetas(w.metas, now.metas, targets, t);
  }

  lemma CommitMetas(before: map<nat, Meta>, now: map<nat, Meta>, targets: seq<nat>, t: nat)
    requires now.Keys == before.Keys
    requires forall i :: i in before ==> now[i] == if i in targets then before[i].(gradient := None) else before[i]
    ensures Cleared(now, t).Keys == before.Keys
    ensures forall i :: i in before ==>
              Cleared(now, t)[i] == if i in targets + [t] then before[i].(gradient := None) else before[i]
  {
  }

  lemma CommitMoves(p: Primitives, w: World, now: World, next: World, targets: seq<nat>, staged: seq<seq<real>>,
                    t: nat, data: seq<real>)
    requires WorldOk(p, w) && WorldOk(p, now) && Distinct(w, targets + [t]) && Distinct(w, targets)
    requires |staged| == |targets| && Committed(w, now, targets, staged)
    requires t < |w.tensors| && |data| == |now.storages[now.tensors[t].storage]|
    requires next == Write(now, t, data).(metas := Cleared(now.metas, t)) && TensorsOk(next)
    ensures forall j :: 0 <= j < |w.tensors| ==> Moved(w, next, targets + [t], j)
  {
    var all := targets + [t];
    forall j | 0 <= j < |w.tensors| ensures Moved(w, next, all, j) {
      assert TensorOk(w, w.tensors[j]);
      assert Moved(w, now, targets, j);
      AliasedMore(w, targets, t, j);
      WriteReaches(p, now, t, data, j);
    }
  }

  lemma AliasedMore(w: World, targets: seq<nat>, t: nat, j: nat)
    requires t < |w.tensors| && j < |w.tensors| && Distinct(w, targets + [t]) && Distinct(w, targets)
    ensures Aliased(w, targets + [t], j) <==> Aliased(w, targets, j) || w.tensors[t].counter == w.tensors[j].counter
    ensures w.tensors[t].counter == w.tensors[j].counter ==> !Aliased(w, targets, j)
  {
    var all := targets + [t];
    forall k | 0 <= k < |targets| ensures w.tensors[targets[k]].counter != w.tensors[t].counter {
      assert all[k] == targets[k] && all[|targets|] == t;
    }
    if Aliased(w, targets, j) {
      var k :| 0 <= k < |targets| && w.tensors[targets[k]].counter == w.tensors[j].counter;
      assert all[k] == targets[k];
    }
    assert all[|targets|] == t;
  }

  lemma CommitContents(p: Primitives, w: World, now: World, targets: seq<nat>, staged: seq<seq<real>>, t: nat,
                       data: seq<real>)
    requires WorldOk(p, w) && Distinct(w, targets + [t]) && t < |w.tensors| && now.tensors == w.tensors
    requires TensorOk(now, now.tensors[t]) && |staged| == |targets|
    requires forall k :: 0 <= k < |targets| ==>
               targets[k] < |w.tensors| && w.tensors[targets[k]].storage < |now.storages|
               && now.storages[w.tensors[targets[k]].storage] == staged[k]
    ensures var all := targets + [t];
            forall k :: 0 <= k < |all| ==>
              all[k] < |w.tensors| && w.tensors[all[k]].storage < |now.storages|
              && Write(now, t, data).storages[w.tensors[all[k]].storage] == (staged + [data])[k]
  {
    var all := targets + [t];
    assert all[|targets|] == t;
    forall k | 0 <= k < |targets|
      ensures w.tensors[targets[k]].storage != w.tensors[t].storage
    {
      assert all[k] == targets[k];
    }
  }

  // ----- the batch

  /** Look up and check every pair before anything is staged. */
  method Resolve(r: HandleRegistry.Registry, h: TensorHeap, ts: seq<Handle>, ss: seq<Handle>)
    returns (status: Status, targets: seq<nat>, sources: seq<nat>)
    requires h.Valid() && HandlesOk(r.T(), h.W()) && |ts| == |ss|
    ensures status.Ok? <==> Acceptable(r.T(), h.W(), ts, ss)
    ensures status.Ok? ==> Resolved(r.T(), h.W(), ts, ss, targets, sources)
  {
    targets, sources := [], [];
    ghost var t, w := r.T(), h.W();
    var identities: set<nat> := {};
    for k := 0 to |ts|
      invariant Sofar(t, w, ts, ss, targets, sources, k)
      invariant identities == Identities(w, targets)
    {
      var first, target := r.Lookup(ts[k], HandleRegistry.TensorHandle);
      if !first.Ok? {
        return first, targets, sources;
      }
      var second, source := r.Lookup(ss[k], HandleRegistry.TensorHandle);
      if !second.Ok? {
        return second, targets, sources;
      }
      if !SameShape(h.tensors[target.value].view.dims, h.tensors[source.value].view.dims) {
        return Error(InvalidShape), targets, sources;
      }
      var identity := h.tensors[target.value].counter;
      if identity in identities {
        Repeated(t, w, ts, ss, targets, sources, k);
        return Error(InvalidArgument), targets, sources;
      }
      AnotherPair(t, w, ts, ss, targets, sources, k);
      identities := identities + {identity};
      targets, sources := targets + [target.value], sources + [source.value];
    }
    status := Ok;
  }

  ghost function Identities(w: World, targets: seq<nat>): set<nat>
    requires forall k :: 0 <= k < |targets| ==> targets[k] < |w.tensors|
  {
    set k | 0 <= k < |targets| :: w.tensors[targets[k]].counter
  }

  /** The first `n` pairs are acceptable and resolved. */
  ghost predicate Sofar(t: HandleRegistry.Table, w: World, ts: seq<Handle>, ss: seq<Handle>,
                        targets: seq<nat>, sources: seq<nat>, n: nat)
    requires HandlesOk(t, w) && |ts| == |ss| && n <= |ts|
  {
    && |targets| == |sources| == n
    && (forall k :: 0 <= k < n ==> PairOk(t, w, ts[k], ss[k]))
    && (forall k :: 0 <= k < n ==> targets[k] == TensorOf(t, ts[k]) && sources[k] == TensorOf(t, ss[k]))
    && Distinct(w, targets)
  }

  lemma Repeated(t: HandleRegistry.Table, w: World, ts: seq<Handle>, ss: seq<Handle>,
                 targets: seq<nat>, sources: seq<nat>, k: nat)
    requires HandlesOk(t, w) && |ts| == |ss| && k < |ts| && Sofar(t, w, ts, ss, targets, sources, k)
    requires PairOk(t, w, ts[k], ss[k]) && w.tensors[TensorOf(t, ts[k])].counter in Identities(w, targets)
    ensures !Acceptable(t, w, ts, ss)
  {
    var l :| 0 <= l < |targets| && w.tensors[targets[l]].counter == w.tensors[TensorOf(t, ts[k])].counter;
    assert targets[l] == TensorOf(t, ts[l]);
  }

  lemma AnotherPair(t: HandleRegistry.Table, w: World, ts: seq<Handle>, ss: seq<Handle>,
                    targets: seq<nat>, sources: seq<nat>, k: nat)
    requires HandlesOk(t, w) && |ts| == |ss| && k < |ts| && Sofar(t, w, ts, ss, targets, sources, k)
    requires PairOk(t, w, ts[k], ss[k]) && w.tensors[TensorOf(t, ts[k])].counter !in Identities(w, targets)
    ensures var target, source := TensorOf(t, ts[k]), TensorOf(t, ss[k]);
            Sofar(t, w, ts, ss, targets + [target], sources + [source], k + 1)
            && Identities(w, targets + [target]) == Identities(w, targets) + {w.tensors[target].counter}
  {
    var target := TensorOf(t, ts[k]);
    var all := targets + [target];
    forall l | 0 <= l < k ensures w.tensors[all[l]].counter != w.tensors[target].counter {
      assert w.tensors[targets[l]].counter in Identities(w, targets);
    }
    assert all[k] == target;
    forall c | c in Identities(w, all) ensures c in Identities(w, targets) + {w.tensors[target].counter} {
      var l :| 0 <= l < |all| && c == w.tensors[all[l]].counter;
      if l < k {
        assert all[l] == targets[l];
      }
    }
    forall c | c in Identities(w, targets) ensures c in Identities(w, all) {
      var l :| 0 <= l < |targets| && c == w.tensors[targets[l]].counter;
      assert all[l] == targets[l];
    }
  }

  /** Read every source and check every target before anything is written. */
  method Stage(h: TensorHeap, targets: seq<nat>, sources: seq<nat>) returns (status: Status, staged: seq<seq<real>>)
    requires h.Valid() && |targets| == |sources| && Distinct(h.W(), targets)
    requires forall k :: 0 <= k < |sources| ==> sources[k] < |h.tensors|
    ensures status.Ok? <==> Writable(h.W(), targets)
    ensures status.Ok? ==> staged == ValuesOf(h.W(), sources)
    ensures !status.Ok? ==> status == Error(InvalidArgument)
  {
    staged := [];
    for k := 0 to |targets|
      invariant |staged| == k
      invariant forall l :: 0 <= l < k ==> staged[l] == ValuesOf(h.W(), sources)[l]
      invariant forall l :: 0 <= l < k ==> Contiguous(h.tensors[targets[l]].view)
    {
      var direct, values := StageOne(h, targets[k], sources[k]);
      if !direct {
        return Error(InvalidArgument), staged;
      }
      StagedNext(h.W(), sources, staged, k, values);
      staged := staged + [values];
    }
    status := Ok;
  }

  method StageOne(h: TensorHeap, target: nat, source: nat) returns (direct: bool, values: seq<real>)
    requires h.Valid() && target < |h.tensors| && source < |h.tensors|
    ensures TensorOk(h.W(), h.tensors[source]) && values == Logical(h.W(), source)
    ensures direct <==> Contiguous(h.tensors[target].view)
  {
    values := h.LogicalValues(source);
    direct := h.HasDirectAccess(target);
  }

  lemma StagedNext(w: World, sources: seq<nat>, staged: seq<seq<real>>, k: nat, values: seq<real>)
    requires TensorsOk(w) && (forall k :: 0 <= k < |sources| ==> sources[k] < |w.tensors|) && k < |sources|
    requires |staged| == k && forall l :: 0 <= l < k ==> staged[l] == ValuesOf(w, sources)[l]
    requires TensorOk(w, w.tensors[sources[k]]) && values == Logical(w, sources[k])
    ensures forall l :: 0 <= l < k + 1 ==> (staged + [values])[l] == ValuesOf(w, sources)[l]
  {
  }

  ghost predicate StagedFits(w: World, targets: seq<nat>, staged: seq<seq<real>>)
    requires TensorsOk(w) && Distinct(w, targets)
  {
    |staged| == |targets| && forall k :: 0 <= k < |targets| ==> |staged[k]| == Numel(Dims(w, targets[k]))
  }

  /** Write the staged contents, moving the version and dropping the gradient of each target. */
  method Commit(h: TensorHeap, targets: seq<nat>, staged: seq<seq<real>>)
    requires h.Valid() && Distinct(h.W(), targets) && StagedFits(h.W(), targets, staged)
    requires forall k :: 0 <= k < |targets| ==> targets[k] in h.held
    modifies h`storages, h`versions, h`metas, h`liveBytes, h`history
    ensures h.Valid() && h.Continues(old(h.M())) && Committed(old(h.W()), h.W(), targets, staged)
  {
    ghost var w := h.W();
    NothingCommitted(w);
    for k := 0 to |targets|
      invariant h.Valid() && h.Continues(old(h.M())) && Distinct(w, targets[..k])
      invariant Committed(w, h.W(), targets[..k], staged[..k])
    {
      assert targets[..k + 1] == targets[..k] + [targets[k]] && staged[..k + 1] == staged[..k] + [staged[k]];
      CommitOne(h, w, targets[..k], staged[..k], targets[k], staged[k]);
    }
    assert targets[..|targets|] == targets && staged[..|targets|] == staged;
  }

  method CommitOne(h: TensorHeap, ghost w: World, ghost targets: seq<nat>, ghost staged: seq<seq<real>>,
                   t: nat, data: seq<real>)
    requires h.Valid() && WorldOk(h.p, w) && Distinct(w, targets) && Distinct(w, targets + [t])
    requires |staged| == |targets| && Committed(w, h.W(), targets, staged)
    requires t < |w.tensors| && |data| == Numel(Dims(w, t)) && t in h.held
    modifies h`storages, h`versions, h`metas, h`liveBytes, h`history
    ensures h.Valid() && h.Continues(old(h.M())) && Committed(w, h.W(), targets + [t], staged + [data])
  {
    ghost var now := h.W();
    assert TensorOk(now, h.tensors[t]);
    CommitStep(h.p, w, now, targets, staged, t, data);
    h.StoreValues(t, data);
    h.IncrementVersion(t, now);
    h.HeldIsAlive(t);
    h.ClearGradient(t);
  }

  lemma NothingCommitted(w: World)
    requires TensorsOk(w)
    ensures Committed(w, w, [], [])
  {
    forall j | 0 <= j < |w.tensors| ensures Moved(w, w, [], j) {
      assert TensorOk(w, w.tensors[j]);
    }
  }

  /** The effect of a batch on logical values: all targets receive at once what their
      sources held before the call, in a heap where nothing but aliases of targets moved. */
  ghost predicate Assigned(w: World, w': World, targets: seq<nat>, sources: seq<nat>)
    requires TensorsOk(w) && TensorsOk(w') && |targets| == |sources| && Distinct(w, targets)
    requires w'.tensors == w.tensors && forall k :: 0 <= k < |sources| ==> sources[k] < |w.tensors|
  {
    && (forall k :: 0 <= k < |targets| ==> Logical(w', targets[k]) == Logical(w, sources[k]))
    && (forall j :: 0 <= j < |w.tensors| ==> Kept(w, w', targets, j))
    && w'.records == w.records && w'.metas.Keys == w.metas.Keys
    && (forall i :: i in w.metas ==>
          w'.metas[i] == if i in targets then w.metas[i].(gradient := None) else w.metas[i])
  }

  ghost predicate Kept(w: World, w': World, targets: seq<nat>, j: nat)
    requires TensorsOk(w) && TensorsOk(w') && w'.tensors == w.tensors && Distinct(w, targets) && j < |w.tensors|
  {
    assert TensorOk(w, w.tensors[j]) && TensorOk(w', w.tensors[j]);
    if Aliased(w, targets, j) then Version(w', j) == Version(w, j) + 1
    else Version(w', j) == Version(w, j) && Logical(w', j) == Logical(w, j)
  }

  lemma CommittedIsAssigned(p: Primitives, w: World, w': World, targets: seq<nat>, sources: seq<nat>)
    requires WorldOk(p, w) && WorldOk(p, w') && |targets| == |sources| && Distinct(w, targets) && Writable(w, targets)
    requires forall k :: 0 <= k < |sources| ==> sources[k] < |w.tensors|
    requires Committed(w, w', targets, ValuesOf(w, sources))
    ensures Assigned(w, w', targets, sources)
  {
    forall k | 0 <= k < |targets| ensures Logical(w', targets[k]) == Logical(w, sources[k]) {
      TargetHolds(p, w', targets[k], ValuesOf(w, sources)[k]);
    }
    forall j | 0 <= j < |w.tensors| ensures Kept(w, w', targets, j) {
      assert Moved(w, w', targets, j);
    }
  }

  lemma TargetHolds(p: Primitives, w: World, t: nat, data: seq<real>)
    requires WorldOk(p, w) && t < |w.tensors| && Contiguous(w.tensors[t].view) && TensorOk(w, w.tensors[t])
    requires w.storages[w.tensors[t].storage] == data
    ensures Logical(w, t) == data
  {
    RegularOffset(w.tensors[t].view);
    ReadContiguous(w.tensors[t].view, data);
  }

  /** Assign every source to its target, all at once or not at all.  It succeeds exactly
      when all handles name tensors, shapes agree pairwise, no two targets share storage and
      every target is contiguous. */
  method AssignMany(r: HandleRegistry.Registry, h: TensorHeap, ts: seq<Handle>, ss: seq<Handle>)
    returns (status: Status, targets: seq<nat>, sources: seq<nat>)
    requires h.Valid() && HandlesOk(r.T(), h.W()) && HandlesHold(r.T(), h.held) && |ts| == |ss|
    modifies h`storages, h`versions, h`metas, h`liveBytes, h`history
    ensures h.Valid() && h.Continues(old(h.M())) && HandlesOk(r.T(), h.W())
    ensures status.Ok? <==>
              Acceptable(r.T(), old(h.W()), ts, ss) &&
              forall k :: 0 <= k < |ts| ==> Contiguous(old(h.tensors)[TensorOf(r.T(), ts[k])].view)
    ensures status.Ok? <==> Assignable(r.entries, old(h.tensors), ts, ss)
    ensures status.Ok? ==> |targets| == |sources| == |ts| && forall k :: 0 <= k < |ts| ==>
              ts[k] in r.entries && targets[k] == r.entries[ts[k]].item
              && ss[k] in r.entries && sources[k] == r.entries[ss[k]].item
    ensures !status.Ok? ==> h.W() == old(h.W())
    ensures status.Ok? ==>
              Resolved(r.T(), old(h.W()), ts, ss, targets, sources) && h.tensors == old(h.tensors)
              && Assigned(old(h.W()), h.W(), targets, sources)
  {
    targets, sources := [], [];
    ghost var w := h.W();
    AssignableIs(r.T(), w, ts, ss);
    if |ts| == 0 {
      NothingCommitted(w);
      CommittedIsAssigned(h.p, w, w, [], []);
      return Ok, targets, sources;
    }
    status, targets, sources := Resolve(r, h, ts, ss);
    if !status.Ok? {
      return;
    }
    var staged;
    status, staged := Stage(h, targets, sources);
    if !status.Ok? {
      return;
    }
    assert StagedFits(w, targets, staged);
    Commit(h, targets, staged);
    CommittedIsAssigned(h.p, w, h.W(), targets, sources);
  }

  // ----- what an assignment means for recorded graphs

  /** A node whose saved versions were current passes the version check afterwards exactly
      when no operand aliases a target; its operands then still hold what they held. */
  lemma AssignmentInvalidates(p: Primitives, w: World, w': World, targets: seq<nat>, sources: seq<nat>, i: nat)
    requires WorldOk(p, w) && WorldOk(p, w') && w'.tensors == w.tensors
    requires forall k :: 0 <= k < |sources| ==> sources[k] < |w.tensors|
    requires |targets| == |sources| && Distinct(w, targets) && Assigned(w, w', targets, sources)
    requires i in w.metas && w.metas[i].gradFn.Some? && i < |w.tensors| && Fresh(w, i)
    ensures Fresh(w', i) <==>
            var n := w.metas[i].gradFn.value;
            forall k :: 0 <= k < |n.parents| ==> n.parents[k] < |w.tensors| && !Aliased(w, targets, n.parents[k])
  {
    var n := w.metas[i].gradFn.value;
    ParentsKept(w, w', targets, n);
    FreshExactly(w', i, n);
  }

  lemma FreshExactly(w: World, i: nat, n: GradNode)
    requires TensorsOk(w) && i < |w.tensors| && i in w.metas && w.metas[i].gradFn == Some(n)
    requires |n.parents| == |n.versions| && forall k :: 0 <= k < |n.parents| ==> n.parents[k] < |w.tensors|
    requires forall k :: 0 <= k < |n.parents| ==> w.tensors[n.parents[k]].counter < |w.versions|
    ensures Fresh(w, i) <==> forall k :: 0 <= k < |n.parents| ==> Version(w, n.parents[k]) == n.versions[k]
  {
  }

  lemma ParentsKept(w: World, w': World, targets: seq<nat>, n: GradNode)
    requires TensorsOk(w) && TensorsOk(w') && w'.tensors == w.tensors && Distinct(w, targets)
    requires forall j :: 0 <= j < |w.tensors| ==> Kept(w, w', targets, j)
    requires |n.parents| == |n.versions| && forall k :: 0 <= k < |n.parents| ==> n.parents[k] < |w.tensors|
    requires forall k :: 0 <= k < |n.parents| ==>
               w.tensors[n.parents[k]].counter < |w.versions| && Version(w, n.parents[k]) == n.versions[k]
    ensures forall k :: 0 <= k < |n.parents| ==>
              w'.tensors[n.parents[k]].counter < |w'.versions|
              && (Version(w', n.parents[k]) == n.versions[k] <==> !Aliased(w, targets, n.parents[k]))
  {
    forall k | 0 <= k < |n.parents|
      ensures w'.tensors[n.parents[k]].counter < |w'.versions|
      ensures Version(w', n.parents[k]) == n.versions[k] <==> !Aliased(w, targets, n.parents[k])
    {
      VersionKept(w, w', targets, n.parents[k]);
    }
  }

  lemma VersionKept(w: World, w': World, targets: seq<nat>, j: nat)
    requires TensorsOk(w) && TensorsOk(w') && w'.tensors == w.tensors && Distinct(w, targets) && j < |w.tensors|
    requires Kept(w, w', targets, j)
    ensures w.tensors[j].counter < |w.versions| && w.tensors[j].counter < |w'.versions|
    ensures Version(w', j) == Version(w, j) <==> !Aliased(w, targets, j)
  {
    assert TensorOk(w, w.tensors[j]) && TensorOk(w', w.tensors[j]);
  }
}
