/** The registry of opaque handles: typed, reference-counted entries under identifiers that
    are never issued twice. */
module HandleRegistry {
  import opened Shapes
  import opened ViewChains

  datatype HandleType = TensorHandle | RuntimeReserved | ModuleHandle | OptimizerHandle | InferenceSession | ParameterOptimizer

  /** `item` stands for the shared pointer the entry keeps alive. */
  datatype Entry = Entry(kind: HandleType, refs: u64, item: nat)

  datatype Table = Table(entries: map<u64, Entry>, next: u64)

  const MAX_U64: u64 := 0xffff_ffff_ffff_ffff
  const EmptyTable: Table := Table(map[], 1)

  datatype Call =
    | Insert(kind: HandleType, item: nat)
    | Retain(handle: u64, kind: HandleType)
    | Release(handle: u64, kind: HandleType)

  datatype Outcome = Outcome(table: Table, status: Status, handle: u64)

  // ----- what each call does

  function Find(t: Table, handle: u64, kind: HandleType): Status {
    if handle == 0 || handle !in t.entries || t.entries[handle].kind != kind then Error(InvalidHandle) else Ok
  }

  function Apply(t: Table, c: Call): Outcome {
    match c
    case Insert(kind, item) =>
      if t.next == 0 || t.next == MAX_U64 then Outcome(t, Error(InternalError), 0)
      else if t.next in t.entries then Outcome(t.(next := t.next + 1), Error(InternalError), 0)
      else Outcome(Table(t.entries[t.next := Entry(kind, 1, item)], t.next + 1), Ok, t.next)
    case Retain(handle, kind) =>
      if !Find(t, handle, kind).Ok? then Outcome(t, Error(InvalidHandle), 0)
      else if t.entries[handle].refs == MAX_U64 then Outcome(t, Error(InternalError), 0)
      else Outcome(WithRefs(t, handle, t.entries[handle].refs + 1), Ok, 0)
    case Release(handle, kind) =>
      if !Find(t, handle, kind).Ok? then Outcome(t, Error(InvalidHandle), 0)
      else if t.entries[handle].refs == 0 then Outcome(t, Error(InternalError), 0)
      else if t.entries[handle].refs == 1 then Outcome(t.(entries := t.entries - {handle}), Ok, 0)
      else Outcome(WithRefs(t, handle, t.entries[handle].refs - 1), Ok, 0)
  }

  function WithRefs(t: Table, handle: u64, refs: u64): Table
    requires handle in t.entries
  {
    t.(entries := t.entries[handle := t.entries[handle].(refs := refs)])
  }

  // ----- the registry

  class Registry {
    var entries: map<u64, Entry>
    var next: u64

    ghost function T(): Table
      reads this
    {
      Table(entries, next)
    }

    constructor ()
      ensures T() == EmptyTable
    {
      entries, next := map[], 1;
    }

    method InsertItem(kind: HandleType, item: nat) returns (status: Status, handle: u64)
      modifies this
      ensures Outcome(T(), status, handle) == Apply(old(T()), Insert(kind, item))
      ensures status.Ok? <==> old(next) != 0 && old(next) != 0xffff_ffff_ffff_ffff && old(next) !in old(entries)
      ensures status.Ok? ==> handle == old(next) && next as int == old(next) as int + 1
                             && entries == old(entries)[handle := Entry(kind, 1, item)]
      ensures !status.Ok? ==> entries == old(entries)
    {
      handle := 0;
      if next == 0 || next == MAX_U64 {
        return Error(InternalError), handle;
      }
      var candidate := next;
      next := next + 1;
      if candidate in entries {
        return Error(InternalError), handle;
      }
      entries := entries[candidate := Entry(kind, 1, item)];
      return Ok, candidate;
    }

    method RetainHandle(handle: u64, kind: HandleType) returns (status: Status)
      modifies this
      ensures Outcome(T(), status, 0) == Apply(old(T()), Retain(handle, kind))
      ensures status.Ok? <==> handle != 0 && handle in old(entries) && old(entries)[handle].kind == kind
                              && old(entries)[handle].refs < 0xffff_ffff_ffff_ffff
      ensures status.Ok? ==> entries == old(entries)[handle := Entry(kind, old(entries)[handle].refs + 1,
                                                                     old(entries)[handle].item)]
      ensures !status.Ok? ==> entries == old(entries)
    {
      if handle == 0 || handle !in entries || entries[handle].kind != kind {
        return Error(InvalidHandle);
      }
      var e := entries[handle];
      if e.refs == MAX_U64 {
        return Error(InternalError);
      }
      entries := entries[handle := e.(refs := e.refs + 1)];
      status := Ok;
    }

    method ReleaseHandle(handle: u64, kind: HandleType) returns (status: Status)
      modifies this
      ensures Outcome(T(), status, 0) == Apply(old(T()), Release(handle, kind))
      ensures status.Ok? <==> handle != 0 && handle in old(entries) && old(entries)[handle].kind == kind
                              && old(entries)[handle].refs > 0
      ensures status.Ok? ==>
                entries == if old(entries)[handle].refs == 1 then old(entries) - {handle}
                           else old(entries)[handle := Entry(kind, old(entries)[handle].refs - 1, old(entries)[handle].item)]
      ensures !status.Ok? ==> entries == old(entries)
    {
      if handle == 0 || handle !in entries || entries[handle].kind != kind {
        return Error(InvalidHandle);
      }
      var e := entries[handle];
      if e.refs == 0 {
        return Error(InternalError);
      }
      e := e.(refs := e.refs - 1);
      if e.refs == 0 {
        entries := entries - {handle};
      } else {
        entries := entries[handle := e];
      }
      status := Ok;
    }

    method Lookup(handle: u64, kind: HandleType) returns (status: Status, item: Option<nat>)
      ensures status == Find(T(), handle, kind)
      ensures status.Ok? <==> handle != 0 && handle in entries && entries[handle].kind == kind
      ensures item == if status.Ok? && handle in entries then Some(entries[handle].item) else None
    {
      if handle == 0 || handle !in entries || entries[handle].kind != kind {
        return Error(InvalidHandle), None;
      }
      return Ok, Some(entries[handle].item);
    }

    /** The number of live handles of a type. */
    method Count(kind: HandleType) returns (count: nat)
      ensures count == |LiveOf(T(), kind)|
      ensures forall h :: h in LiveOf(T(), kind) <==> h in entries && entries[h].kind == kind
    {
      count := 0;
      var remaining := entries.Keys;
      ghost var seen: set<u64> := {};
      assert OfKind(T(), {}, kind) == {};
      while remaining != {}
        invariant seen + remaining == entries.Keys && seen !! remaining
        invariant count == |OfKind(T(), seen, kind)|
        decreases |remaining|
      {
        var h :| h in remaining;
        CountOne(T(), seen, kind, h);
        if entries[h].kind == kind {
          count := count + 1;
        }
        seen, remaining := seen + {h}, remaining - {h};
      }
      assert seen == entries.Keys;
    }
  }

  ghost function OfKind(t: Table, handles: set<u64>, kind: HandleType): set<u64>
    requires handles <= t.entries.Keys
  {
    set h | h in handles && t.entries[h].kind == kind
  }

  ghost function LiveOf(t: Table, kind: HandleType): set<u64> {
    OfKind(t, t.entries.Keys, kind)
  }

  lemma CountOne(t: Table, seen: set<u64>, kind: HandleType, h: u64)
    requires seen <= t.entries.Keys && h in t.entries && h !in seen
    ensures |OfKind(t, seen + {h}, kind)| == |OfKind(t, seen, kind)| + if t.entries[h].kind == kind then 1 else 0
  {
    if t.entries[h].kind == kind {
      assert OfKind(t, seen + {h}, kind) == OfKind(t, seen, kind) + {h};
    } else {
      assert OfKind(t, seen + {h}, kind) == OfKind(t, seen, kind);
    }
  }

  // ----- whole runs

  /** The registry after a run of calls from the empty registry. */
  function After(calls: seq<Call>): Table
    decreases |calls|, 1
  {
    if |calls| == 0 then EmptyTable else Last(calls).table
  }

  /** The outcome of the last call of a run. */
  function Last(calls: seq<Call>): Outcome
    requires |calls| > 0
    decreases |calls|, 0
  {
    Apply(After(calls[..|calls| - 1]), calls[|calls| - 1])
  }

  function Bit(b: bool): nat {
    if b then 1 else 0
  }

  /** How often a run issued a handle. */
  ghost function Issues(calls: seq<Call>, h: u64): nat {
    if |calls| == 0 then 0
    else Issues(calls[..|calls| - 1], h)
         + Bit(calls[|calls| - 1].Insert? && Last(calls).status.Ok? && Last(calls).handle == h)
  }

  /** How often a handle was retained with success. */
  ghost function Retains(calls: seq<Call>, h: u64): nat {
    if |calls| == 0 then 0
    else Retains(calls[..|calls| - 1], h)
         + Bit(calls[|calls| - 1].Retain? && Last(calls).status.Ok? && calls[|calls| - 1].handle == h)
  }

  /** How often a handle was released with success. */
  ghost function Releases(calls: seq<Call>, h: u64): nat {
    if |calls| == 0 then 0
    else Releases(calls[..|calls| - 1], h)
         + Bit(calls[|calls| - 1].Release? && Last(calls).status.Ok? && calls[|calls| - 1].handle == h)
  }

  /** How many insertions of a run succeeded. */
  ghost function Insertions(calls: seq<Call>): nat {
    if |calls| == 0 then 0
    else Insertions(calls[..|calls| - 1]) + Bit(calls[|calls| - 1].Insert? && Last(calls).status.Ok?)
  }

  /** Reference counting over any run: identifiers are issued in sequence, each at most
      once; a live handle holds one reference plus its retains minus its releases; a handle
      that was issued and is gone has had exactly one release more than retains. */
  lemma {:induction false} Accounting(calls: seq<Call>, h: u64)
    ensures var t := After(calls);
            && t.next as int == 1 + Insertions(calls)
            && (forall k :: k in t.entries ==> 1 <= k < t.next)
            && Issues(calls, h) == Bit(1 <= h < t.next)
            && (h in t.entries ==>
                  1 <= t.entries[h].refs && t.entries[h].refs as int == 1 + Retains(calls, h) - Releases(calls, h))
            && (h !in t.entries && Issues(calls, h) == 1 ==> Releases(calls, h) == 1 + Retains(calls, h))
            && (Issues(calls, h) == 0 ==> Retains(calls, h) == 0 && Releases(calls, h) == 0)
  {
    if |calls| != 0 {
      Accounting(calls[..|calls| - 1], h);
    }
  }

  /** A handle is live exactly when it was issued and its releases have not yet used up its
      references. */
  lemma LiveExactly(calls: seq<Call>, h: u64)
    ensures h in After(calls).entries <==> Issues(calls, h) == 1 && Releases(calls, h) < 1 + Retains(calls, h)
  {
    Accounting(calls, h);
  }

  /** The duplicate-identifier and zero-count branches never run: insertion fails only when
      the identifier space is used up, releasing only for a handle that is not live under
      that type, and retaining beyond that only at the largest count. */
  lemma OnlyHonestErrors(calls: seq<Call>, c: Call)
    ensures c.Insert? ==> (Apply(After(calls), c).status.Ok? <==> Insertions(calls) < MAX_U64 as int - 1)
    ensures c.Release? ==> Apply(After(calls), c).status == Find(After(calls), c.handle, c.kind)
    ensures c.Retain? ==>
              (Apply(After(calls), c).status.Ok? <==>
                 Find(After(calls), c.handle, c.kind).Ok?
                 && Retains(calls, c.handle) - Releases(calls, c.handle) < MAX_U64 as int - 1)
    ensures !Apply(After(calls), c).status.Ok? ==> Apply(After(calls), c).table == After(calls)
  {
    Accounting(calls, if c.Insert? then 0 else c.handle);
  }

  /** In every run, looking up and releasing succeed exactly for a live handle of its own
      type, and retaining exactly below the largest count. */
  lemma LiveIsAccepted(calls: seq<Call>, h: u64, kind: HandleType)
    ensures var t := After(calls);
            && (Find(t, h, kind).Ok? <==> h in t.entries && t.entries[h].kind == kind)
            && (Apply(t, Release(h, kind)).status.Ok? <==> h in t.entries && t.entries[h].kind == kind)
            && (Apply(t, Retain(h, kind)).status.Ok? <==>
                  h in t.entries && t.entries[h].kind == kind && t.entries[h].refs < 0xffff_ffff_ffff_ffff)
  {
    Accounting(calls, h);
  }

  /** A handle that was just issued is found, under its type alone, and names the item. */
  lemma IssuedIsFound(calls: seq<Call>, kind: HandleType, item: nat, other: HandleType)
    requires calls != [] && calls[|calls| - 1] == Insert(kind, item) && Last(calls).status.Ok?
    ensures var t, h := After(calls), Last(calls).handle;
            h in t.entries && t.entries[h] == Entry(kind, 1, item) && (Find(t, h, other).Ok? <==> other == kind)
            && Apply(t, Release(h, kind)).status.Ok?
  {
    LiveIsAccepted(calls, Last(calls).handle, other);
    LiveIsAccepted(calls, Last(calls).handle, kind);
  }

  /** While a handle is live its type and its item never change, and once it has died it
      is never accepted again, whatever calls follow. */
  lemma {:induction false} LifeOfHandle(calls: seq<Call>, more: seq<Call>, h: u64)
    requires Issues(calls, h) == 1
    ensures h in After(calls + more).entries ==>
              h in After(calls).entries
              && After(calls + more).entries[h].kind == After(calls).entries[h].kind
              && After(calls + more).entries[h].item == After(calls).entries[h].item
    ensures h !in After(calls).entries ==> forall kind :: !Find(After(calls + more), h, kind).Ok?
    ensures Issues(calls + more, h) == 1
  {
    if |more| == 0 {
      assert calls + more == calls;
    } else {
      var n := |more| - 1;
      LifeOfHandle(calls, more[..n], h);
      assert (calls + more)[..|calls| + n] == calls + more[..n];
      Accounting(calls + more[..n], h);
      Accounting(calls + more, h);
    }
  }
}
