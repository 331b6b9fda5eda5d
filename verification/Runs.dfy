/** Whole runs of the tensor heap: the changes its methods make, their histories, and what
    no history can do. */
module Runs {
  import opened Shapes
  import opened Layouts
  import opened ViewChains
  import opened Calculus
  import opened Operators
  import opened Graphs
  import opened Worlds
  import opened Transitions

  datatype Change =
    | Added(dims: seq<int>, values: seq<real>)
    | Viewed(view: View, source: nat)
    | Recorded(result: nat, op: Op, parents: seq<nat>)
    | Written(target: nat, data: seq<real>)
    | Marked(marked: nat, meta: Meta)
    | Forgotten(cleared: nat)

  /** The demands of the heap's own methods.  Marking never touches a recorded node. */
  ghost predicate Enabled(p: Primitives, w: World, c: Change)
    requires TensorsOk(w)
  {
    match c
    case Added(dims, values) => ValidDims(dims) && |values| == Numel(dims)
    case Viewed(v, source) =>
      source < |w.tensors| && Regular(v) && v.WellFormed() && Numel(v.dims) == Numel(Dims(w, source))
    case Recorded(i, op, parents) => CanRecord(p, w, i, op, parents)
    case Written(i, data) =>
      i < |w.tensors| && TensorOk(w, w.tensors[i]) && |data| == |w.storages[w.tensors[i].storage]|
    case Marked(i, m) =>
      MetaOk(p, w, i, m) && m.gradFn == if i in w.metas then w.metas[i].gradFn else None
    case Forgotten(i) => true
  }

  function Changed(w: World, c: Change): World
    requires TensorsOk(w)
    requires c.Viewed? ==> c.source < |w.tensors|
    requires c.Recorded? ==> c.result < |w.tensors| && forall k :: 0 <= k < |c.parents| ==> c.parents[k] < |w.tensors|
    requires c.Written? ==> c.target < |w.tensors| && TensorOk(w, w.tensors[c.target])
  {
    match c
    case Added(dims, values) => AddMaterialised(w, dims, values)
    case Viewed(v, source) => AddView(w, v, source)
    case Recorded(i, op, parents) => Attach(w, i, op, parents)
    case Written(i, data) => Write(w, i, data)
    case Marked(i, m) => w.(metas := w.metas[i := m])
    case Forgotten(i) => w.(metas := Cleared(w.metas, i))
  }

  lemma ChangedOk(p: Primitives, w: World, c: Change)
    requires WorldOk(p, w) && Enabled(p, w, c)
    ensures WorldOk(p, Changed(w, c))
  {
    match c
    case Added(dims, values) => MaterialisedOk(p, w, dims, values);
    case Viewed(v, source) => ViewOk(p, w, v, source);
    case Recorded(i, op, parents) => AttachOk(p, w, i, op, parents);
    case Written(i, data) => WriteOk(p, w, i, data);
    case Marked(i, m) => MetaChangeOk(p, w, w.metas[i := m]);
    case Forgotten(i) => ClearedOk(p, w, i);
  }

  /** A run: a list of changes, each enabled where it happens, from the empty heap. */
  ghost predicate Possible(p: Primitives, cs: seq<Change>)
    decreases |cs|, 0
  {
    |cs| == 0 || (var n := |cs| - 1; Possible(p, cs[..n]) && Enabled(p, After(p, cs[..n]), cs[n]))
  }

  ghost function After(p: Primitives, cs: seq<Change>): (w: World)
    requires Possible(p, cs)
    ensures WorldOk(p, w)
    decreases |cs|, 1
  {
    if |cs| == 0 then World([], [], [], map[], map[])
    else
      var n := |cs| - 1;
      ChangedOk(p, After(p, cs[..n]), cs[n]);
      Changed(After(p, cs[..n]), cs[n])
  }

  /** `w` is where the history `cs` leads. */
  ghost predicate Reached(p: Primitives, cs: seq<Change>, w: World) {
    Possible(p, cs) && After(p, cs) == w
  }

  lemma ReachedNext(p: Primitives, cs: seq<Change>, w: World, c: Change)
    requires Reached(p, cs, w) && WorldOk(p, w) && Enabled(p, w, c)
    ensures Reached(p, cs + [c], Changed(w, c))
  {
    assert (cs + [c])[..|cs|] == cs;
  }

  // ----- what no change does

  /** Later than `w`: tensors keep their views and sharing, storages their lengths, recorded
      nodes their operands and saved versions; a tensor's contents differ only if its version
      has grown. */
  ghost predicate Later(w: World, w': World) {
    && TensorsOk(w) && TensorsOk(w') && w.tensors <= w'.tensors && |w.storages| <= |w'.storages|
    && (forall s :: 0 <= s < |w.storages| ==> |w'.storages[s]| == |w.storages[s]|)
    && (forall j :: 0 <= j < |w.tensors| ==> KeptUnlessMoved(w, w', j))
    && (forall i :: i in w.metas && w.metas[i].gradFn.Some? ==>
          i in w'.metas && w'.metas[i].gradFn == w.metas[i].gradFn)
  }

  ghost predicate KeptUnlessMoved(w: World, w': World, j: nat)
    requires TensorsOk(w) && TensorsOk(w') && j < |w.tensors| && w.tensors <= w'.tensors
  {
    assert TensorOk(w, w.tensors[j]) && w'.tensors[j] == w.tensors[j] && TensorOk(w', w'.tensors[j]);
    && Version(w, j) <= Version(w', j)
    && (Version(w', j) == Version(w, j) ==> Logical(w', j) == Logical(w, j))
  }

  lemma ExtendedIsLater(w: World, w': World)
    requires TensorsOk(w) && TensorsOk(w') && Extends(w, w')
    requires forall i :: i in w.metas ==> i < |w.tensors|
    ensures Later(w, w')
  {
    forall j | 0 <= j < |w.tensors| ensures KeptUnlessMoved(w, w', j) {
      ExtendsKeeps(w, w', j);
    }
  }

  lemma SameStorageIsLater(w: World, w': World)
    requires TensorsOk(w) && TensorsOk(w')
    requires w'.storages == w.storages && w'.versions == w.versions && w'.tensors == w.tensors
    requires forall i :: i in w.metas && w.metas[i].gradFn.Some? ==>
               i in w'.metas && w'.metas[i].gradFn == w.metas[i].gradFn
    ensures Later(w, w')
  {
    forall j | 0 <= j < |w.tensors| ensures KeptUnlessMoved(w, w', j) {
      assert TensorOk(w, w.tensors[j]);
    }
  }

  lemma WrittenIsLater(p: Primitives, w: World, i: nat, data: seq<real>)
    requires WorldOk(p, w) && i < |w.tensors| && TensorOk(w, w.tensors[i])
    requires |data| == |w.storages[w.tensors[i].storage]|
    ensures Later(w, Write(w, i, data))
  {
    WriteOk(p, w, i, data);
    forall j | 0 <= j < |w.tensors| ensures KeptUnlessMoved(w, Write(w, i, data), j) {
      WriteReaches(p, w, i, data, j);
    }
  }

  lemma ChangeIsLater(p: Primitives, w: World, c: Change)
    requires WorldOk(p, w) && Enabled(p, w, c)
    ensures Later(w, Changed(w, c))
  {
    ChangedOk(p, w, c);
    MetasAreOfTensors(p, w);
    match c
    case Added(dims, values) =>
      MaterialisedOk(p, w, dims, values);
      ExtendedIsLater(w, Changed(w, c));
    case Viewed(v, source) =>
      ViewOk(p, w, v, source);
      ExtendedIsLater(w, Changed(w, c));
    case Recorded(i, op, parents) => SameStorageIsLater(w, Changed(w, c));
    case Written(i, data) => WrittenIsLater(p, w, i, data);
    case Marked(i, m) => SameStorageIsLater(w, Changed(w, c));
    case Forgotten(i) => SameStorageIsLater(w, Changed(w, c));
  }

  lemma LaterTransitive(a: World, b: World, c: World)
    requires Later(a, b) && Later(b, c)
    ensures Later(a, c)
  {
    forall j | 0 <= j < |a.tensors| ensures KeptUnlessMoved(a, c, j) {
      assert KeptUnlessMoved(a, b, j) && KeptUnlessMoved(b, c, j);
    }
  }

  lemma LaterReflexive(w: World)
    requires TensorsOk(w)
    ensures Later(w, w)
  {
  }

  lemma PossiblePrefix(p: Primitives, cs: seq<Change>, a: nat)
    requires Possible(p, cs) && a <= |cs|
    ensures Possible(p, cs[..a])
    decreases |cs|
  {
    if a < |cs| {
      assert cs[..|cs| - 1][..a] == cs[..a];
      PossiblePrefix(p, cs[..|cs| - 1], a);
    } else {
      assert cs[..a] == cs;
    }
  }

  /** In every run, between any two moments: contents change only when the version moves,
      views, sharing, storage sizes and recorded nodes never change. */
  lemma {:induction false} RunIsLater(p: Primitives, cs: seq<Change>, a: nat)
    requires Possible(p, cs) && a <= |cs|
    ensures Possible(p, cs[..a]) && Later(After(p, cs[..a]), After(p, cs))
    decreases |cs|
  {
    PossiblePrefix(p, cs, a);
    if a == |cs| {
      assert cs[..a] == cs;
      LaterReflexive(After(p, cs));
    } else {
      var rest := cs[..|cs| - 1];
      assert rest[..a] == cs[..a];
      RunIsLater(p, rest, a);
      ChangeIsLater(p, After(p, rest), cs[|cs| - 1]);
      LaterTransitive(After(p, cs[..a]), After(p, rest), After(p, cs));
    }
  }

  // ----- stale aliases

  /** In every run: if tensor `i` was recorded as the result of `parents` at moment `a`, and
      later passes the version check, the backward code then reads exactly the operand
      values of moment `a`, whatever was written, viewed or recorded in between. */
  lemma StaleAliasSound(p: Primitives, cs: seq<Change>, a: nat, i: nat, op: Op, parents: seq<nat>)
    requires Possible(p, cs) && a < |cs| && cs[a] == Recorded(i, op, parents)
    requires Possible(p, cs[..a]) && NeedsGrad(After(p, cs[..a]), parents)
    requires i < |After(p, cs).tensors| && Fresh(After(p, cs), i)
    ensures GraphOk(Snapshot(After(p, cs))) && ParentsEarlier(Snapshot(After(p, cs)), i)
    ensures forall k :: 0 <= k < |parents| ==> parents[k] < |After(p, cs[..a]).tensors|
    ensures OperandValues(Snapshot(After(p, cs)), i) == ValuesOf(After(p, cs[..a]), parents)
  {
    var now, end := After(p, cs[..a]), After(p, cs);
    RunIsLater(p, cs, a);
    RunIsLater(p, cs, a + 1);
    var upto := cs[..a + 1];
    assert upto[..a] == cs[..a] && upto[a] == cs[a];
    assert After(p, upto) == Attach(now, i, op, parents);
    var n := NodeMeta(now, op, parents).gradFn.value;
    assert end.metas[i].gradFn == Some(n);
    SnapshotOperands(p, end, i, n);
    OperandsUnchanged(now, end, i, op, parents);
  }

  lemma SnapshotOperands(p: Primitives, w: World, i: nat, n: GradNode)
    requires WorldOk(p, w) && i < |w.tensors| && i in w.metas && w.metas[i].gradFn == Some(n)
    ensures GraphOk(Snapshot(w)) && ParentsEarlier(Snapshot(w), i)
    ensures forall k :: 0 <= k < |n.parents| ==> n.parents[k] < |w.tensors|
    ensures OperandValues(Snapshot(w), i) == ValuesOf(w, n.parents)
  {
    SnapshotOk(p, w);
    assert MetaOk(p, w, i, w.metas[i]);
    assert Snapshot(w)[i].role == RoleOf(w, i);
  }

  lemma OperandsUnchanged(now: World, end: World, i: nat, op: Op, parents: seq<nat>)
    requires TensorsOk(now) && TensorsOk(end) && Later(now, end) && i < |end.tensors| && Fresh(end, i)
    requires forall k :: 0 <= k < |parents| ==> parents[k] < |now.tensors|
    requires i in end.metas && end.metas[i].gradFn == NodeMeta(now, op, parents).gradFn
    ensures ValuesOf(end, parents) == ValuesOf(now, parents)
  {
    var n := end.metas[i].gradFn.value;
    forall k | 0 <= k < |parents| ensures Logical(end, parents[k]) == Logical(now, parents[k]) {
      assert TensorOk(now, now.tensors[parents[k]]);
      assert Version(end, n.parents[k]) == n.versions[k] == VersionsOf(now, parents)[k];
      assert KeptUnlessMoved(now, end, parents[k]);
    }
  }

  /** Moment `a` of a history is the one at which the node of tensor `i` was recorded. */
  ghost predicate RecordedAt(p: Primitives, cs: seq<Change>, a: nat, i: nat, n: GradNode) {
    && a < |cs| && Possible(p, cs[..a]) && cs[a] == Recorded(i, n.op, n.parents)
    && (forall k :: 0 <= k < |n.parents| ==> n.parents[k] < |After(p, cs[..a]).tensors|)
    && NeedsGrad(After(p, cs[..a]), n.parents)
    && n.versions == VersionsOf(After(p, cs[..a]), n.parents)
  }

  /** Every recorded node was recorded at some moment of the history, with the versions its
      operands had then. */
  lemma {:induction false} RecordedMoment(p: Primitives, cs: seq<Change>, i: nat, n: GradNode) returns (a: nat)
    requires Possible(p, cs) && i in After(p, cs).metas && After(p, cs).metas[i].gradFn == Some(n)
    ensures RecordedAt(p, cs, a, i, n)
    decreases |cs|
  {
    var last := |cs| - 1;
    var rest, c := cs[..last], cs[last];
    var before := After(p, rest);
    NodeAppears(p, before, c, i, n);
    if i in before.metas && before.metas[i].gradFn == Some(n) {
      a := RecordedMoment(p, rest, i, n);
      RecordedEarlier(p, cs, rest, a, i, n);
    } else {
      a := last;
    }
  }

  lemma RecordedEarlier(p: Primitives, cs: seq<Change>, rest: seq<Change>, a: nat, i: nat, n: GradNode)
    requires RecordedAt(p, rest, a, i, n) && rest <= cs
    ensures RecordedAt(p, cs, a, i, n)
  {
    assert rest[..a] == cs[..a];
  }

  /** A node is there because it was there before or has just been recorded. */
  lemma NodeAppears(p: Primitives, w: World, c: Change, i: nat, n: GradNode)
    requires WorldOk(p, w) && Enabled(p, w, c)
    requires i in Changed(w, c).metas && Changed(w, c).metas[i].gradFn == Some(n)
    ensures (i in w.metas && w.metas[i].gradFn == Some(n))
         || (c == Recorded(i, n.op, n.parents) && NeedsGrad(w, n.parents)
             && (forall k :: 0 <= k < |n.parents| ==> n.parents[k] < |w.tensors|)
             && n.versions == VersionsOf(w, n.parents))
  {
  }

  /** The operands of node `i` are those it was recorded with. */
  ghost predicate ReadsAsRecorded(p: Primitives, cs: seq<Change>, g: Graph, i: nat) {
    exists a: nat, n: GradNode ::
      RecordedAt(p, cs, a, i, n) && i < |g| && ParentsEarlier(g, i) && g[i].role == Computed(n.op, n.parents)
      && OperandValues(g, i) == ValuesOf(After(p, cs[..a]), n.parents)
  }

  /** In every run, every node that passes the version check reads its operands as they were
      when it was recorded. */
  lemma FreshReadsAsRecorded(p: Primitives, cs: seq<Change>, w: World, g: Graph, i: nat)
    requires Reached(p, cs, w) && g == Snapshot(w) && i < |w.tensors| && Fresh(w, i) && RoleOf(w, i).Computed?
    ensures ReadsAsRecorded(p, cs, g, i)
  {
    var n := w.metas[i].gradFn.value;
    var a := RecordedMoment(p, cs, i, n);
    StaleAliasSound(p, cs, a, i, n.op, n.parents);
    assert g[i].role == RoleOf(w, i);
  }

  /** The version a result had when it was recorded can be read off at any later time, from
      the versions saved with its node: the one saved for its operand if it is a view of it,
      and zero if it was materialised. */
  lemma RecordedVersionIs(p: Primitives, cs: seq<Change>, a: nat, i: nat, n: GradNode)
    requires Possible(p, cs) && RecordedAt(p, cs, a, i, n)
    ensures i < |After(p, cs[..a]).tensors| && TensorOk(After(p, cs[..a]), After(p, cs[..a]).tensors[i])
    ensures i < |After(p, cs).tensors| && forall k :: 0 <= k < |n.parents| ==> n.parents[k] < |After(p, cs).tensors|
    ensures RecordedVersion(After(p, cs), i, n) == Version(After(p, cs[..a]), i)
  {
    var moment, now := After(p, cs[..a]), After(p, cs);
    PossiblePrefix(p, cs, a + 1);
    var upto := cs[..a + 1];
    assert upto[..a] == cs[..a] && upto[a] == cs[a];
    assert CanRecord(p, moment, i, n.op, n.parents);
    RunIsLater(p, cs, a);
    RecordedNow(moment, i, n.op, n.parents);
    assert now.tensors[i] == moment.tensors[i];
    if |n.parents| > 0 {
      assert now.tensors[n.parents[0]] == moment.tensors[n.parents[0]];
    }
  }
}
