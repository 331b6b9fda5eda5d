/** Strided views of flat storage: index decoding, contiguity, copying out, and the
    list meaning of reshape and transpose. */
module Layouts {
  import opened RealSums
  import opened Shapes

  /** Shape, strides and storage offset of a tensor. */
  datatype View = View(dims: seq<int>, strides: seq<int>, offset: int) {
    ghost predicate WellFormed() {
      |strides| == |dims| && Positive(dims) && offset >= 0 &&
      forall i :: 0 <= i < |strides| ==> strides[i] >= 0
    }
  }

  /** The storage position of a logical index, relative to the offset: coordinates are
      peeled off from the last dimension. */
  function Decode(dims: seq<int>, strides: seq<int>, logical: int): int
    requires |strides| == |dims| && forall i :: 0 <= i < |dims| ==> dims[i] > 0
  {
    var n := |dims| - 1;
    if n < 0 then 0
    else logical % dims[n] * strides[n] + Decode(dims[..n], strides[..n], logical / dims[n])
  }

  function StorageIndex(v: View, logical: int): int
    requires v.WellFormed()
  {
    v.offset + Decode(v.dims, v.strides, logical)
  }

  /** The logical elements of a view, in row-major order. */
  function Read(v: View, data: seq<real>): (r: seq<real>)
    requires v.WellFormed()
  {
    var n := Numel(v.dims);
    if n < 0 then [] else seq(n, i requires v.WellFormed() => At(data, StorageIndex(v, i)))
  }

  ghost predicate Contiguous(v: View) {
    v.strides == CanonicalStrides(v.dims)
  }

  function Canonical(dims: seq<int>): View {
    View(dims, CanonicalStrides(dims), 0)
  }

  function Swap(v: View): View
    requires |v.dims| == 2 && |v.strides| == 2
  {
    View([v.dims[1], v.dims[0]], [v.strides[1], v.strides[0]], v.offset)
  }

  /** The layouts the CPU API can build: row-major, or a rank-2 transpose of that. */
  ghost predicate Regular(v: View) {
    && ValidDims(v.dims)
    && |v.strides| == |v.dims|
    && (v == Canonical(v.dims) || (|v.dims| == 2 && Swap(v) == Canonical(Swap(v).dims)))
  }

  // ----- contiguity

  lemma {:induction false} CanonicalFront(dims: seq<int>, k: nat)
    requires k < |dims|
    ensures Numel(dims[k..]) == Numel(dims[k..|dims| - 1]) * dims[|dims| - 1]
  {
    assert dims[k..][..|dims[k..]| - 1] == dims[k..|dims| - 1];
  }

  lemma FrontStride(dims: seq<int>, s: int, k: nat)
    requires k + 1 < |dims|
    ensures var n := |dims| - 1;
            s * Numel(dims[k + 1..]) == (s * dims[n]) * Numel(dims[..n][k + 1..])
  {
    var n := |dims| - 1;
    var x, last := Numel(dims[..n][k + 1..]), dims[n];
    CanonicalFront(dims, k + 1);
    assert dims[k + 1..n] == dims[..n][k + 1..];
    MulAssociative(s, last, x);
    assert x * last == last * x;
  }

  /** Strides that are `s` times the canonical ones scale the logical index by `s`. */
  lemma {:induction false} DecodeScaled(dims: seq<int>, strides: seq<int>, s: int, i: int)
    requires |strides| == |dims| && Positive(dims) && 0 <= i < Numel(dims)
    requires forall k :: 0 <= k < |dims| ==> strides[k] == s * Numel(dims[k + 1..])
    ensures Decode(dims, strides, i) == s * i
  {
    if |dims| != 0 {
      var n := |dims| - 1;
      var last := dims[n];
      var front := dims[..n];
      forall k | 0 <= k < n ensures strides[..n][k] == (s * last) * Numel(front[k + 1..]) {
        FrontStride(dims, s, k);
      }
      DivBounds(i, Numel(front), last);
      DecodeScaled(front, strides[..n], s * last, i / last);
      assert dims[n + 1..] == [];
      assert strides[n] == s * Numel([]);
      Regroup(s, last, i);
    }
  }

  lemma Regroup(s: int, n: int, i: int)
    requires n > 0
    ensures i % n * (s * 1) + s * n * (i / n) == s * i
  {
    var q, m := i / n, i % n;
    assert i == q * n + m;
    assert s * (q * n + m) == s * n * q + m * s;
  }

  /** Contiguity makes logical indexing the identity, at every rank. */
  lemma ContiguousIsIdentity(v: View, i: int)
    requires v.WellFormed() && Contiguous(v) && 0 <= i < Numel(v.dims)
    ensures StorageIndex(v, i) == v.offset + i
  {
    DecodeScaled(v.dims, v.strides, 1, i);
  }

  lemma CanonicalWellFormed(dims: seq<int>)
    requires Positive(dims)
    ensures Canonical(dims).WellFormed() && Contiguous(Canonical(dims))
  {
    forall i | 0 <= i < |dims| ensures CanonicalStrides(dims)[i] >= 0 {
      NumelPositive(dims[i + 1..]);
    }
  }

  lemma RegularWellFormed(v: View)
    requires Regular(v)
    ensures v.WellFormed() && Numel(v.dims) >= 1
  {
    NumelPositive(v.dims);
    if v == Canonical(v.dims) {
      CanonicalWellFormed(v.dims);
    } else {
      CanonicalWellFormed(Swap(v).dims);
      NumelPair(v.dims[1], v.dims[0]);
    }
  }

  // ----- transposition

  lemma DecodePair(v: View, r: int, c: int)
    requires v.WellFormed() && |v.dims| == 2
    requires 0 <= r < v.dims[0] && 0 <= c < v.dims[1]
    ensures StorageIndex(v, r * v.dims[1] + c) == v.offset + c * v.strides[1] + r * v.strides[0]
  {
    var i := r * v.dims[1] + c;
    DivMod(r, c, v.dims[1]);
    var d, s := v.dims[..1], v.strides[..1];
    assert Decode(v.dims, v.strides, i) == c * v.strides[1] + Decode(d, s, r);
    DivMod(0, r, v.dims[0]);
    assert Decode(d[..0], s[..0], r / v.dims[0]) == 0;
    assert Decode(d, s, r) == r % d[0] * s[0] + Decode(d[..0], s[..0], r / d[0]);
  }

  /** Swapping dimensions and strides swaps the two coordinates. */
  lemma SwapSwapsCoordinates(v: View, r: int, c: int)
    requires v.WellFormed() && |v.dims| == 2 && Swap(v).WellFormed()
    requires 0 <= r < v.dims[0] && 0 <= c < v.dims[1]
    ensures StorageIndex(Swap(v), c * v.dims[0] + r) == StorageIndex(v, r * v.dims[1] + c)
  {
    DecodePair(v, r, c);
    DecodePair(Swap(v), c, r);
  }

  lemma SwapRegular(v: View)
    requires Regular(v) && |v.dims| == 2
    ensures Regular(Swap(v)) && Swap(Swap(v)) == v && Numel(Swap(v).dims) == Numel(v.dims)
  {
    NumelPair(v.dims[0], v.dims[1]);
    assert v.dims == [v.dims[0], v.dims[1]] && v.strides == [v.strides[0], v.strides[1]];
    assert Swap(Swap(v)) == v;
  }

  // ----- the layout bijection

  /** The logical index stored at a storage position of a regular view. */
  function Locate(v: View, k: int): int
    requires Regular(v)
  {
    if v == Canonical(v.dims) then k
    else k % v.dims[0] * v.dims[1] + k / v.dims[0]
  }

  lemma TransposedIndex(v: View, i: int)
    requires Regular(v) && v.WellFormed() && v != Canonical(v.dims) && 0 <= i < Numel(v.dims)
    ensures 0 <= i / v.dims[1] < v.dims[0] && 0 <= i % v.dims[1] < v.dims[1]
    ensures StorageIndex(v, i) == i % v.dims[1] * v.dims[0] + i / v.dims[1]
  {
    var p, q := v.dims[0], v.dims[1];
    NumelPair(p, q);
    NumelPair(q, p);
    assert v.dims == [p, q];
    DivBounds(i, p, q);
    assert v.strides == [1, p];
    DecodePair(v, i / q, i % q);
  }

  /** Logical indices and storage positions of a regular view correspond one to one:
      decoding stays inside a full-extent storage and `Locate` inverts it both ways. */
  lemma LayoutBijection(v: View, i: int)
    requires Regular(v) && v.WellFormed() && 0 <= i < Numel(v.dims)
    ensures 0 <= StorageIndex(v, i) < Numel(v.dims)
    ensures Locate(v, StorageIndex(v, i)) == i
    ensures 0 <= Locate(v, i) < Numel(v.dims) && StorageIndex(v, Locate(v, i)) == i
  {
    if v == Canonical(v.dims) {
      ContiguousIsIdentity(v, i);
    } else {
      var p, q := v.dims[0], v.dims[1];
      NumelPair(p, q);
      assert v.dims == [p, q];
      TransposedIndex(v, i);
      FlatBounds(i % q, i / q, q, p);
      DivMod(i % q, i / q, p);
      DivBounds(i, q, p);
      var l := i % p * q + i / p;
      FlatBounds(i % p, i / p, p, q);
      DivMod(i % p, i / p, q);
      TransposedIndex(v, l);
    }
  }

  /** No two logical elements of a regular view share a storage position. */
  lemma LayoutInjective(v: View, i: int, j: int)
    requires Regular(v) && v.WellFormed() && 0 <= i < Numel(v.dims) && 0 <= j < Numel(v.dims)
    requires StorageIndex(v, i) == StorageIndex(v, j)
    ensures i == j
  {
    LayoutBijection(v, i);
    LayoutBijection(v, j);
  }

  lemma ReadContiguous(v: View, data: seq<real>)
    requires v.WellFormed() && Contiguous(v) && v.offset == 0 && |data| == Numel(v.dims)
    ensures Read(v, data) == data
  {
    forall i | 0 <= i < |data| ensures Read(v, data)[i] == data[i] {
      ContiguousIsIdentity(v, i);
    }
  }

  lemma ReadLength(v: View, data: seq<real>)
    requires Regular(v) && v.WellFormed()
    ensures |Read(v, data)| == Numel(v.dims)
  {
    NumelPositive(v.dims);
  }

  // ----- the imperative accessors

  method IsContiguous(v: View) returns (b: bool)
    requires v.WellFormed() && Numel(v.dims) <= MAX_F32
    ensures b <==> Contiguous(v)
  {
    var expected: u64 := 1;
    var index := |v.dims|;
    while index > 0
      invariant 0 <= index <= |v.dims|
      invariant expected as int == Numel(v.dims[index..])
      invariant forall k :: index <= k < |v.dims| ==> v.strides[k] == Numel(v.dims[k + 1..])
    {
      var d := index - 1;
      if v.strides[d] != expected as int {
        assert v.strides[d] != CanonicalStrides(v.dims)[d];
        return false;
      }
      NumelCons(v.dims, d);
      NumelSuffix(v.dims, d);
      MulAtLeast(v.dims[d], expected as int);
      expected := expected * v.dims[d] as u64;
      index := d;
    }
    return true;
  }

  method LogicalStorageIndex(v: View, logical: int) returns (index: int)
    requires v.WellFormed() && logical >= 0
    ensures index == StorageIndex(v, logical)
  {
    var remaining := logical;
    index := v.offset;
    var k := |v.dims|;
    assert v.dims[..k] == v.dims && v.strides[..k] == v.strides;
    while k > 0
      invariant 0 <= k <= |v.dims|
      invariant index + Decode(v.dims[..k], v.strides[..k], remaining) == StorageIndex(v, logical)
    {
      k := k - 1;
      assert v.dims[..k + 1][..k] == v.dims[..k] && v.strides[..k + 1][..k] == v.strides[..k];
      var coordinate := remaining % v.dims[k];
      remaining := remaining / v.dims[k];
      index := index + coordinate * v.strides[k];
    }
  }

  ghost predicate InBounds(v: View, extent: nat)
    requires v.WellFormed()
  {
    forall i :: 0 <= i < Numel(v.dims) ==> 0 <= StorageIndex(v, i) < extent
  }

  /** Copy a tensor's logical elements out of its storage.  The bulk path is taken for
      contiguous full-extent tensors, the element path otherwise; both give the same
      elements, and the copy fails exactly when some element lies outside storage. */
  method CopyToHost(v: View, storage: seq<real>) returns (status: Status, out: seq<real>)
    requires v.WellFormed() && Numel(v.dims) <= MAX_F32
    ensures status.Ok? <==> InBounds(v, |storage|)
    ensures status.Ok? ==> out == Read(v, storage)
    ensures !status.Ok? ==> status == Error(InternalError)
  {
    NumelPositive(v.dims);
    var numel := Numel(v.dims);
    var contiguous := IsContiguous(v);
    if contiguous && v.offset == 0 && 4 * |storage| == 4 * numel {
      ReadContiguous(v, storage);
      forall i | 0 <= i < numel ensures 0 <= StorageIndex(v, i) < |storage| {
        ContiguousIsIdentity(v, i);
      }
      return Ok, storage;
    }
    out := Zeros(numel);
    for logical := 0 to numel
      invariant |out| == numel
      invariant forall i :: 0 <= i < logical ==> 0 <= StorageIndex(v, i) < |storage|
      invariant forall i :: 0 <= i < logical ==> out[i] == storage[StorageIndex(v, i)]
    {
      var index := LogicalStorageIndex(v, logical);
      DecodeNonNegative(v.dims, v.strides, logical);
      if index >= |storage| {
        return Error(InternalError), [];
      }
      out := out[logical := storage[index]];
    }
    status := Ok;
  }

  lemma {:induction false} DecodeNonNegative(dims: seq<int>, strides: seq<int>, i: int)
    requires |strides| == |dims| && Positive(dims) && i >= 0
    requires forall k :: 0 <= k < |strides| ==> strides[k] >= 0
    ensures Decode(dims, strides, i) >= 0
  {
    var n := |dims| - 1;
    if n >= 0 {
      DecodeNonNegative(dims[..n], strides[..n], i / dims[n]);
      MulMonotone(0, i % dims[n], strides[n]);
    }
  }

  /** The out-of-storage error cannot occur for a regular view of a full storage. */
  lemma RegularInBounds(v: View, extent: nat)
    requires Regular(v) && v.WellFormed() && extent == Numel(v.dims)
    ensures InBounds(v, extent)
  {
    forall i | 0 <= i < Numel(v.dims) ensures 0 <= StorageIndex(v, i) < extent {
      LayoutBijection(v, i);
    }
  }
}
