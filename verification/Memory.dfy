/** Reference counts of tensors and storages, and the byte counter: what each change of the
    heap does to them, and why the counts stay exact. */
module Memory {
  import Layouts
  import opened ViewChains
  import opened Calculus
  import opened Operators
  import opened Worlds
  import opened Transitions

  /** Strong references of each tensor, live tensors of each storage, and live bytes. */
  datatype Ledger = Ledger(counts: seq<nat>, shares: seq<nat>, liveBytes: int)

  predicate Alive(counts: seq<nat>, i: nat) {
    i < |counts| && counts[i] > 0
  }

  /** Occurrences of `q` among the operands of live recorded tensors below `n`. */
  ghost function Users(metas: map<nat, Meta>, counts: seq<nat>, q: nat, n: nat): nat
    requires n <= |counts|
  {
    if n == 0 then 0
    else Users(metas, counts, q, n - 1)
         + if counts[n - 1] > 0 then multiset(RecordedParents(metas, n - 1))[q] else 0
  }

  /** Live tensors below `n` that use storage `s`. */
  ghost function Sharers(tensors: seq<Tensor>, counts: seq<nat>, s: nat, n: nat): nat
    requires n <= |counts| && n <= |tensors|
  {
    if n == 0 then 0
    else Sharers(tensors, counts, s, n - 1)
         + if counts[n - 1] > 0 && tensors[n - 1].storage == s then 1 else 0
  }

  /** Bytes of the storages below `n` that live tensors use. */
  ghost function StorageBytes(storages: seq<seq<real>>, shares: seq<nat>, n: nat): nat
    requires n <= |shares| && n <= |storages|
  {
    if n == 0 then 0
    else StorageBytes(storages, shares, n - 1) + if shares[n - 1] > 0 then 4 * |storages[n - 1]| else 0
  }

  function GradientSize(metas: map<nat, Meta>, i: nat): nat {
    if i in metas && metas[i].gradient.Some? then 4 * |metas[i].gradient.value.data| else 0
  }

  /** Bytes of the gradients of live tensors below `n`; a gradient has storage of its own. */
  ghost function GradientBytes(metas: map<nat, Meta>, counts: seq<nat>, n: nat): nat
    requires n <= |counts|
  {
    if n == 0 then 0
    else GradientBytes(metas, counts, n - 1) + if counts[n - 1] > 0 then GradientSize(metas, n - 1) else 0
  }

  /** The counts are exact: a tensor's count is its references from outside (`held`, with
      multiplicity) and from live recorded results, a storage's count is its live tensors,
      and the byte counter is the size of what is live. */
  ghost predicate LedgerOk(w: World, l: Ledger, held: multiset<nat>) {
    && |l.counts| == |w.tensors| && |l.shares| == |w.storages|
    && (forall i :: i in held ==> i < |w.tensors|)
    && (forall i :: 0 <= i < |l.counts| ==> l.counts[i] == held[i] + Users(w.metas, l.counts, i, |l.counts|))
    && (forall s :: 0 <= s < |l.shares| ==> l.shares[s] == Sharers(w.tensors, l.counts, s, |l.counts|))
    && l.liveBytes == StorageBytes(w.storages, l.shares, |l.shares|) + GradientBytes(w.metas, l.counts, |l.counts|)
  }

  /** Metadata belongs to tensors and tensors to storages, and operands are older than
      results. */
  ghost predicate OwnersOlder(w: World) {
    && (forall i :: 0 <= i < |w.tensors| ==> w.tensors[i].storage < |w.storages|)
    && (forall i :: i in w.metas ==> i < |w.tensors|)
    && forall i: nat, q: nat :: q in RecordedParents(w.metas, i) ==> q < i
  }

  lemma WorldOwnersOlder(p: Primitives, w: World)
    requires WorldOk(p, w)
    ensures OwnersOlder(w)
  {
    MetasAreOfTensors(p, w);
    forall i | 0 <= i < |w.tensors| ensures w.tensors[i].storage < |w.storages| {
      assert TensorOk(w, w.tensors[i]);
    }
    forall i: nat, q: nat | q in RecordedParents(w.metas, i) ensures q < i {
      assert MetaOk(p, w, i, w.metas[i]);
    }
  }

  // ----- sums that do not change

  lemma {:induction false} UsersSame(metas: map<nat, Meta>, metas': map<nat, Meta>, counts: seq<nat>, counts': seq<nat>,
                                     q: nat, n: nat)
    requires n <= |counts| && n <= |counts'|
    requires forall i :: 0 <= i < n ==>
               (counts'[i] > 0 <==> counts[i] > 0) && RecordedParents(metas', i) == RecordedParents(metas, i)
    ensures Users(metas', counts', q, n) == Users(metas, counts, q, n)
  {
    if n != 0 {
      UsersSame(metas, metas', counts, counts', q, n - 1);
    }
  }

  lemma {:induction false} SharersSame(tensors: seq<Tensor>, tensors': seq<Tensor>, counts: seq<nat>, counts': seq<nat>,
                                       s: nat, n: nat)
    requires n <= |counts| && n <= |counts'| && n <= |tensors| && n <= |tensors'|
    requires forall i :: 0 <= i < n ==>
               (counts'[i] > 0 <==> counts[i] > 0) && tensors'[i].storage == tensors[i].storage
    ensures Sharers(tensors', counts', s, n) == Sharers(tensors, counts, s, n)
  {
    if n != 0 {
      SharersSame(tensors, tensors', counts, counts', s, n - 1);
    }
  }

  lemma {:induction false} StorageBytesSame(storages: seq<seq<real>>, storages': seq<seq<real>>,
                                            shares: seq<nat>, shares': seq<nat>, n: nat)
    requires n <= |shares| && n <= |shares'| && n <= |storages| && n <= |storages'|
    requires forall i :: 0 <= i < n ==>
               (shares'[i] > 0 <==> shares[i] > 0) && |storages'[i]| == |storages[i]|
    ensures StorageBytes(storages', shares', n) == StorageBytes(storages, shares, n)
  {
    if n != 0 {
      StorageBytesSame(storages, storages', shares, shares', n - 1);
    }
  }

  lemma {:induction false} GradientBytesSame(metas: map<nat, Meta>, metas': map<nat, Meta>,
                                             counts: seq<nat>, counts': seq<nat>, n: nat)
    requires n <= |counts| && n <= |counts'|
    requires forall i :: 0 <= i < n ==>
               (counts'[i] > 0 <==> counts[i] > 0) && GradientSize(metas', i) == GradientSize(metas, i)
    ensures GradientBytes(metas', counts', n) == GradientBytes(metas, counts, n)
  {
    if n != 0 {
      GradientBytesSame(metas, metas', counts, counts', n - 1);
    }
  }

  /** Nothing is an operand of an older tensor. */
  lemma {:induction false} NoUsersYet(metas: map<nat, Meta>, counts: seq<nat>, q: nat, n: nat)
    requires n <= |counts| && n <= q && forall i: nat, r: nat :: r in RecordedParents(metas, i) ==> r < i
    ensures Users(metas, counts, q, n) == 0
  {
    if n != 0 {
      NoUsersYet(metas, counts, q, n - 1);
      assert q !in RecordedParents(metas, n - 1);
    }
  }

  lemma {:induction false} NoSharersYet(tensors: seq<Tensor>, counts: seq<nat>, s: nat, n: nat)
    requires n <= |counts| && n <= |tensors| && forall i :: 0 <= i < n ==> tensors[i].storage != s
    ensures Sharers(tensors, counts, s, n) == 0
  {
    if n != 0 {
      NoSharersYet(tensors, counts, s, n - 1);
    }
  }

  // ----- new tensors

  /** A tensor of storage `s` joins, held once from outside. */
  lemma TensorJoins(w: World, w': World, counts: seq<nat>, held: multiset<nat>, s: nat)
    requires OwnersOlder(w) && |counts| == |w.tensors| && w'.metas == w.metas
    requires |w'.tensors| == |w.tensors| + 1 && w.tensors <= w'.tensors && w'.tensors[|w.tensors|].storage == s
    requires forall i :: i in held ==> i < |w.tensors|
    requires forall i :: 0 <= i < |counts| ==> counts[i] == held[i] + Users(w.metas, counts, i, |counts|)
    ensures var n, counts', held' := |counts|, counts + [1], held + multiset{|w.tensors|};
            && (forall i :: i in held' ==> i < |w'.tensors|)
            && (forall i :: 0 <= i < n + 1 ==> counts'[i] == held'[i] + Users(w'.metas, counts', i, n + 1))
            && (forall r :: Sharers(w'.tensors, counts', r, n + 1) == Sharers(w.tensors, counts, r, n) + if r == s then 1 else 0)
            && GradientBytes(w'.metas, counts', n + 1) == GradientBytes(w.metas, counts, n)
  {
    var n, counts', held' := |counts|, counts + [1], held + multiset{|w.tensors|};
    forall i | 0 <= i < n + 1 ensures counts'[i] == held'[i] + Users(w'.metas, counts', i, n + 1) {
      UsersSame(w.metas, w'.metas, counts, counts', i, n);
      if i == n {
        NoUsersYet(w.metas, counts, n, n);
        assert n !in held;
      }
    }
    forall r ensures Sharers(w'.tensors, counts', r, n + 1) == Sharers(w.tensors, counts, r, n) + if r == s then 1 else 0 {
      SharersSame(w.tensors, w'.tensors, counts, counts', r, n);
    }
    GradientBytesSame(w.metas, w'.metas, counts, counts', n);
  }

  /** The ledger once a tensor with storage of its own is there, referred to once. */
  function TensorAdded(l: Ledger, numel: nat): Ledger {
    Ledger(l.counts + [1], l.shares + [1], l.liveBytes + 4 * numel)
  }

  /** The ledger once a view of `source` is there, referred to once. */
  function ViewAdded(w: World, l: Ledger, source: nat): Ledger
    requires source < |w.tensors| && w.tensors[source].storage < |l.shares|
  {
    var s := w.tensors[source].storage;
    Ledger(l.counts + [1], l.shares[s := l.shares[s] + 1], l.liveBytes)
  }

  lemma AddedLedger(w: World, l: Ledger, held: multiset<nat>, dims: seq<int>, values: seq<real>)
    requires OwnersOlder(w) && LedgerOk(w, l, held)
    ensures LedgerOk(AddMaterialised(w, dims, values), TensorAdded(l, |values|), held + multiset{|w.tensors|})
  {
    TensorJoins(w, AddMaterialised(w, dims, values), l.counts, held, |l.shares|);
    SharesJoin(w.tensors, l.counts, l.shares, Tensor(Layouts.Canonical(dims), |w.storages|, |w.versions|));
    StorageJoins(w.storages, l.shares, values);
  }

  lemma SharesJoin(tensors: seq<Tensor>, counts: seq<nat>, shares: seq<nat>, t: Tensor)
    requires |counts| == |tensors| && t.storage == |shares|
    requires forall i :: 0 <= i < |tensors| ==> tensors[i].storage < |shares|
    requires forall s :: 0 <= s < |shares| ==> shares[s] == Sharers(tensors, counts, s, |counts|)
    ensures forall s :: 0 <= s <= |shares| ==>
              (shares + [1])[s] == Sharers(tensors + [t], counts + [1], s, |counts| + 1)
  {
    forall s | 0 <= s <= |shares|
      ensures (shares + [1])[s] == Sharers(tensors + [t], counts + [1], s, |counts| + 1)
    {
      SharersSame(tensors, tensors + [t], counts, counts + [1], s, |counts|);
      if s == |shares| {
        NoSharersYet(tensors, counts, s, |counts|);
      }
    }
  }

  lemma StorageJoins(storages: seq<seq<real>>, shares: seq<nat>, values: seq<real>)
    requires |shares| == |storages|
    ensures StorageBytes(storages + [values], shares + [1], |shares| + 1)
         == StorageBytes(storages, shares, |shares|) + 4 * |values|
  {
    StorageBytesSame(storages, storages + [values], shares, shares + [1], |shares|);
  }

  lemma ViewedLedger(w: World, l: Ledger, held: multiset<nat>, v: Layouts.View, source: nat)
    requires OwnersOlder(w) && LedgerOk(w, l, held) && Alive(l.counts, source) && source < |w.tensors|
    requires w.tensors[source].storage < |l.shares|
    ensures LedgerOk(AddView(w, v, source), ViewAdded(w, l, source), held + multiset{|w.tensors|})
  {
    var s, w' := w.tensors[source].storage, AddView(w, v, source);
    TensorJoins(w, w', l.counts, held, s);
    LiveShares(w.tensors, l.counts, source, |l.counts|);
    StorageBytesSame(w.storages, w'.storages, l.shares, l.shares[s := l.shares[s] + 1], |l.shares|);
  }

  /** The storage of a live tensor is in use. */
  lemma {:induction false} LiveShares(tensors: seq<Tensor>, counts: seq<nat>, i: nat, n: nat)
    requires i < n <= |counts| && n <= |tensors| && counts[i] > 0
    ensures Sharers(tensors, counts, tensors[i].storage, n) > 0
  {
    if i < n - 1 {
      LiveShares(tensors, counts, i, n - 1);
    }
  }

  // ----- recording

  /** Counts after a node took references to its operands. */
  function Referenced(counts: seq<nat>, parents: seq<nat>): (r: seq<nat>)
    ensures |r| == |counts|
  {
    seq(|counts|, q requires 0 <= q < |counts| => counts[q] + multiset(parents)[q])
  }

  lemma {:induction false} UsersRecorded(metas: map<nat, Meta>, metas': map<nat, Meta>, counts: seq<nat>, counts': seq<nat>,
                                         i: nat, parents: seq<nat>, q: nat, n: nat)
    requires n <= |counts| == |counts'| && i < |counts| && counts[i] > 0
    requires forall j :: 0 <= j < |counts| ==> (counts'[j] > 0 <==> counts[j] > 0)
    requires forall j :: j != i ==> RecordedParents(metas', j) == RecordedParents(metas, j)
    requires RecordedParents(metas, i) == [] && RecordedParents(metas', i) == parents
    ensures Users(metas', counts', q, n) == Users(metas, counts, q, n) + if i < n then multiset(parents)[q] else 0
  {
    if n != 0 {
      UsersRecorded(metas, metas', counts, counts', i, parents, q, n - 1);
      assert multiset(RecordedParents(metas, i))[q] == 0;
    }
  }

  lemma AttachedLedger(w: World, l: Ledger, held: multiset<nat>, i: nat, op: Op, parents: seq<nat>)
    requires TensorsOk(w) && LedgerOk(w, l, held) && i < |w.tensors| && i !in w.metas && Alive(l.counts, i)
    requires forall k :: 0 <= k < |parents| ==> parents[k] < |w.tensors| && Alive(l.counts, parents[k])
    requires NeedsGrad(w, parents)
    ensures LedgerOk(Attach(w, i, op, parents), l.(counts := Referenced(l.counts, parents)), held)
  {
    var w', counts' := Attach(w, i, op, parents), Referenced(l.counts, parents);
    var n := |l.counts|;
    forall j | 0 <= j < n ensures counts'[j] > 0 <==> l.counts[j] > 0 {
      if j in multiset(parents) {
        assert j in parents;
      }
    }
    forall q | 0 <= q < n ensures counts'[q] == held[q] + Users(w'.metas, counts', q, n) {
      UsersRecorded(w.metas, w'.metas, l.counts, counts', i, parents, q, n);
    }
    forall s | 0 <= s < |l.shares| ensures l.shares[s] == Sharers(w'.tensors, counts', s, n) {
      SharersSame(w.tensors, w'.tensors, l.counts, counts', s, n);
    }
    GradientBytesSame(w.metas, w'.metas, l.counts, counts', n);
  }

  // ----- writes and metadata

  lemma WrittenLedger(w: World, l: Ledger, held: multiset<nat>, i: nat, data: seq<real>)
    requires LedgerOk(w, l, held) && i < |w.tensors| && TensorOk(w, w.tensors[i])
    requires |data| == |w.storages[w.tensors[i].storage]|
    ensures LedgerOk(Write(w, i, data), l, held)
  {
    StorageBytesSame(w.storages, Write(w, i, data).storages, l.shares, l.shares, |l.shares|);
  }

  lemma {:induction false} GradientBytesChange(metas: map<nat, Meta>, metas': map<nat, Meta>, counts: seq<nat>, i: nat, n: nat)
    requires n <= |counts| && i < |counts| && counts[i] > 0
    requires forall j :: j != i ==> GradientSize(metas', j) == GradientSize(metas, j)
    ensures GradientBytes(metas', counts, n)
         == GradientBytes(metas, counts, n) + if i < n then GradientSize(metas', i) - GradientSize(metas, i) else 0
  {
    if n != 0 {
      GradientBytesChange(metas, metas', counts, i, n - 1);
    }
  }

  /** The ledger once the metadata of a live tensor is replaced. */
  function Remarked(w: World, l: Ledger, i: nat, m: Meta): Ledger {
    l.(liveBytes := l.liveBytes - GradientSize(w.metas, i) + GradientSize(w.metas[i := m], i))
  }

  /** Metadata of a live tensor that keeps its node; only the gradient's size matters. */
  lemma MarkedLedger(w: World, l: Ledger, held: multiset<nat>, i: nat, m: Meta)
    requires LedgerOk(w, l, held) && Alive(l.counts, i)
    requires m.gradFn == if i in w.metas then w.metas[i].gradFn else None
    ensures LedgerOk(w.(metas := w.metas[i := m]), Remarked(w, l, i, m), held)
  {
    var metas', n := w.metas[i := m], |l.counts|;
    forall q | 0 <= q < n ensures Users(metas', l.counts, q, n) == Users(w.metas, l.counts, q, n) {
      UsersSame(w.metas, metas', l.counts, l.counts, q, n);
    }
    GradientBytesChange(w.metas, metas', l.counts, i, n);
  }

  // ----- taking and dropping references

  function OneMore(l: Ledger, i: nat): Ledger
    requires i < |l.counts|
  {
    l.(counts := l.counts[i := l.counts[i] + 1])
  }

  function OneLess(l: Ledger, i: nat): Ledger
    requires i < |l.counts| && l.counts[i] > 0
  {
    l.(counts := l.counts[i := l.counts[i] - 1])
  }

  /** One more reference is taken to a tensor that has one. */
  lemma HeldLedger(w: World, l: Ledger, held: multiset<nat>, i: nat)
    requires LedgerOk(w, l, held) && i in held && i < |l.counts|
    ensures LedgerOk(w, OneMore(l, i), held + multiset{i})
  {
    var counts', n := l.counts[i := l.counts[i] + 1], |l.counts|;
    forall q | 0 <= q < n ensures Users(w.metas, counts', q, n) == Users(w.metas, l.counts, q, n) {
      UsersSame(w.metas, w.metas, l.counts, counts', q, n);
    }
    forall s | 0 <= s < |l.shares| ensures Sharers(w.tensors, counts', s, n) == Sharers(w.tensors, l.counts, s, n) {
      SharersSame(w.tensors, w.tensors, l.counts, counts', s, n);
    }
    GradientBytesSame(w.metas, w.metas, l.counts, counts', n);
  }

  /** One reference of several is dropped. */
  lemma DroppedLedger(w: World, l: Ledger, held: multiset<nat>, i: nat)
    requires LedgerOk(w, l, held) && i in held && i < |l.counts| && l.counts[i] > 1
    ensures LedgerOk(w, OneLess(l, i), held - multiset{i})
  {
    var counts', n := l.counts[i := l.counts[i] - 1], |l.counts|;
    forall q | 0 <= q < n ensures Users(w.metas, counts', q, n) == Users(w.metas, l.counts, q, n) {
      UsersSame(w.metas, w.metas, l.counts, counts', q, n);
    }
    forall s | 0 <= s < |l.shares| ensures Sharers(w.tensors, counts', s, n) == Sharers(w.tensors, l.counts, s, n) {
      SharersSame(w.tensors, w.tensors, l.counts, counts', s, n);
    }
    GradientBytesSame(w.metas, w.metas, l.counts, counts', n);
  }

  /** The ledger once tensor `i` is destroyed: it leaves its storage, whose bytes go with its
      last tensor, and its gradient goes with it. */
  function Destroyed(w: World, l: Ledger, i: nat): Ledger
    requires i < |w.tensors| && i < |l.counts| && w.tensors[i].storage < |l.shares| == |w.storages|
    requires l.shares[w.tensors[i].storage] > 0
  {
    var s := w.tensors[i].storage;
    Ledger(l.counts[i := 0], l.shares[s := l.shares[s] - 1],
           l.liveBytes - (if l.shares[s] == 1 then 4 * |w.storages[s]| else 0) - GradientSize(w.metas, i))
  }

  lemma {:induction false} UsersGone(metas: map<nat, Meta>, counts: seq<nat>, i: nat, q: nat, n: nat)
    requires n <= |counts| && i < |counts| && counts[i] > 0
    ensures Users(metas, counts[i := 0], q, n) + (if i < n then multiset(RecordedParents(metas, i))[q] else 0)
         == Users(metas, counts, q, n)
  {
    if n != 0 {
      UsersGone(metas, counts, i, q, n - 1);
    }
  }

  lemma {:induction false} SharersGone(tensors: seq<Tensor>, counts: seq<nat>, i: nat, s: nat, n: nat)
    requires n <= |counts| && n <= |tensors| && i < |counts| && i < |tensors| && counts[i] > 0
    ensures Sharers(tensors, counts[i := 0], s, n) + (if i < n && tensors[i].storage == s then 1 else 0)
         == Sharers(tensors, counts, s, n)
  {
    if n != 0 {
      SharersGone(tensors, counts, i, s, n - 1);
    }
  }

  lemma {:induction false} StorageBytesGone(storages: seq<seq<real>>, shares: seq<nat>, s: nat, n: nat)
    requires n <= |shares| == |storages| && s < |shares| && shares[s] > 0
    ensures StorageBytes(storages, shares[s := shares[s] - 1], n)
              + (if s < n && shares[s] == 1 then 4 * |storages[s]| else 0)
         == StorageBytes(storages, shares, n)
  {
    if n != 0 {
      StorageBytesGone(storages, shares, s, n - 1);
    }
  }

  lemma {:induction false} GradientBytesGone(metas: map<nat, Meta>, counts: seq<nat>, i: nat, n: nat)
    requires n <= |counts| && i < |counts| && counts[i] > 0
    ensures GradientBytes(metas, counts[i := 0], n) + (if i < n then GradientSize(metas, i) else 0)
         == GradientBytes(metas, counts, n)
  {
    if n != 0 {
      GradientBytesGone(metas, counts, i, n - 1);
    }
  }

  /** Destroying a tensor leaves its references to operands to be dropped from outside. */
  lemma DestroyedLedger(w: World, l: Ledger, held: multiset<nat>, i: nat)
    requires TensorsOk(w) && LedgerOk(w, l, held) && i in held && i < |l.counts| && l.counts[i] == 1
    requires forall q: nat :: q in RecordedParents(w.metas, i) ==> q < i
    ensures w.tensors[i].storage < |l.shares| && l.shares[w.tensors[i].storage] > 0
    ensures LedgerOk(w, Destroyed(w, l, i), held - multiset{i} + multiset(RecordedParents(w.metas, i)))
  {
    assert TensorOk(w, w.tensors[i]);
    var s, n := w.tensors[i].storage, |l.counts|;
    LiveShares(w.tensors, l.counts, i, n);
    var l' := Destroyed(w, l, i);
    var held' := held - multiset{i} + multiset(RecordedParents(w.metas, i));
    forall q | q in held' ensures q < n {
      if q !in held {
        assert q in RecordedParents(w.metas, i);
      }
    }
    forall q | 0 <= q < n ensures l'.counts[q] == held'[q] + Users(w.metas, l'.counts, q, n) {
      UsersGone(w.metas, l.counts, i, q, n);
      if q == i {
        assert i !in RecordedParents(w.metas, i);
      }
    }
    forall r | 0 <= r < |l.shares| ensures l'.shares[r] == Sharers(w.tensors, l'.counts, r, n) {
      SharersGone(w.tensors, l.counts, i, r, n);
    }
    StorageBytesGone(w.storages, l.shares, s, |l.shares|);
    GradientBytesGone(w.metas, l.counts, i, n);
  }
}
