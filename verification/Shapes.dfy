/** Tensor shapes: element counts, row-major strides and the checked construction
    of shape metadata. */
module Shapes {
  import opened RealSums

  datatype Status = Ok | Error(kind: ErrorKind)

  datatype ErrorKind =
    | InvalidArgument
    | InvalidShape
    | InvalidHandle
    | Unsupported
    | InternalError

  /** Unsigned 64-bit arithmetic; every operation on it is checked for wrap-around. */
  newtype u64 = x: int | 0 <= x < 0x1_0000_0000_0000_0000

  /** Signed 64-bit arithmetic, checked likewise. */
  newtype i64 = x: int | -0x8000_0000_0000_0000 <= x < 0x8000_0000_0000_0000

  const MAX_RANK: nat := 32
  const MAX_NUMEL: u64 := 0x7fff_ffff_ffff_ffff
  const MAX_F32_NUMEL: u64 := 0x3fff_ffff_ffff_ffff
  const MAX_F32: int := 0x3fff_ffff_ffff_ffff

  datatype ShapeInfo = ShapeInfo(dims: seq<int>, strides: seq<int>, numel: int, byteSize: int)

  ghost predicate Positive(dims: seq<int>) {
    forall i :: 0 <= i < |dims| ==> dims[i] > 0
  }

  /** The number of elements of a shape; one for the scalar shape. */
  function Numel(dims: seq<int>): int {
    if |dims| == 0 then 1 else Numel(dims[..|dims| - 1]) * dims[|dims| - 1]
  }

  /** Row-major strides: each is the product of the later dimensions. */
  function CanonicalStrides(dims: seq<int>): (s: seq<int>)
    ensures |s| == |dims|
  {
    seq(|dims|, i requires 0 <= i < |dims| => Numel(dims[i + 1..]))
  }

  /** The shapes for which metadata exists. */
  ghost predicate ValidDims(dims: seq<int>) {
    |dims| <= MAX_RANK && Positive(dims) && Numel(dims) <= MAX_F32
  }

  predicate SameShape(left: seq<int>, right: seq<int>) {
    left == right
  }

  /** The flat index of an element of a matrix, computed in signed 64-bit arithmetic: no
      step of it overflows. */
  function FlatIndex(row: nat, col: nat, rows: nat, width: nat): (index: nat)
    requires row < rows && col < width && rows * width <= MAX_F32
    ensures index == Flat(row, col, width) < rows * width
  {
    FlatBounds(row, col, rows, width);
    FactorsFit(row, rows, width);
    (row as i64 * width as i64 + col as i64) as int
  }

  lemma FactorsFit(row: nat, rows: nat, width: nat)
    requires row < rows && rows * width <= MAX_F32 && width > 0
    ensures row <= MAX_F32 && width <= MAX_F32 && 0 <= row * width <= MAX_F32
  {
    MulMonotone(1, rows, width);
    MulMonotone(1, width, rows);
    MulMonotone(row, rows, width);
  }

  // ----- facts about element counts

  lemma {:induction false} NumelPositive(dims: seq<int>)
    requires Positive(dims)
    ensures Numel(dims) >= 1
  {
    if |dims| != 0 {
      NumelPositive(dims[..|dims| - 1]);
    }
  }

  lemma {:induction false} NumelConcat(a: seq<int>, b: seq<int>)
    ensures Numel(a + b) == Numel(a) * Numel(b)
  {
    if |b| == 0 {
      assert a + b == a;
    } else {
      var last := |b| - 1;
      assert (a + b)[..|a + b| - 1] == a + b[..last];
      NumelConcat(a, b[..last]);
      MulAssociative(Numel(a), Numel(b[..last]), b[last]);
    }
  }

  lemma MulAssociative(a: int, b: int, c: int)
    ensures (a * b) * c == a * (b * c)
  {
  }

  /** A prefix of a positive shape has no more elements than the shape. */
  lemma NumelPrefix(dims: seq<int>, k: nat)
    requires Positive(dims) && k <= |dims|
    ensures 1 <= Numel(dims[..k]) <= Numel(dims)
  {
    assert dims[..k] + dims[k..] == dims;
    NumelConcat(dims[..k], dims[k..]);
    NumelPositive(dims[..k]);
    NumelPositive(dims[k..]);
    MulAtLeast(Numel(dims[..k]), Numel(dims[k..]));
  }

  lemma NumelSuffix(dims: seq<int>, k: nat)
    requires Positive(dims) && k <= |dims|
    ensures 1 <= Numel(dims[k..]) <= Numel(dims)
  {
    assert dims[..k] + dims[k..] == dims;
    NumelConcat(dims[..k], dims[k..]);
    NumelPositive(dims[..k]);
    NumelPositive(dims[k..]);
    MulAtLeast(Numel(dims[k..]), Numel(dims[..k]));
    assert Numel(dims[..k]) * Numel(dims[k..]) == Numel(dims[k..]) * Numel(dims[..k]);
  }

  lemma MulAtLeast(a: int, b: int)
    requires a >= 1 && b >= 1
    ensures a * b >= a
  {
  }

  lemma NumelCons(dims: seq<int>, k: nat)
    requires k < |dims|
    ensures Numel(dims[k..]) == dims[k] * Numel(dims[k + 1..])
  {
    assert dims[k..] == [dims[k]] + dims[k + 1..];
    NumelConcat([dims[k]], dims[k + 1..]);
    assert [dims[k]][..0] == [];
    assert Numel([dims[k]]) == 1 * dims[k];
  }

  lemma NumelPair(a: int, b: int)
    ensures Numel([a, b]) == a * b && Numel([b, a]) == a * b
    ensures CanonicalStrides([a, b]) == [b, 1]
  {
    NumelSingle(a);
    NumelSingle(b);
    assert [a, b][..1] == [a] && [b, a][..1] == [b];
    assert Numel([a, b]) == Numel([a]) * b && Numel([b, a]) == Numel([b]) * a;
    assert [a, b][1..] == [b] && [a, b][2..] == [];
  }

  lemma NumelSingle(a: int)
    ensures Numel([a]) == a && CanonicalStrides([a]) == [1]
  {
    assert [a][..0] == [] && [a][1..] == [];
    assert Numel([a]) == Numel([]) * a;
  }

  // ----- checked shape construction

  /** Success exactly when the rank is supported, every dimension is positive and the
      true element count (and hence the byte size) is representable.  All products
      are taken in `u64`, so no intermediate product wraps. */
  method ValidateShape(dims: seq<int>) returns (status: Status, out: ShapeInfo)
    ensures status.Ok? <==> |dims| <= 32 && (forall i :: 0 <= i < |dims| ==> dims[i] > 0)
                            && Numel(dims) <= 0x3fff_ffff_ffff_ffff
    ensures status.Ok? <==> ValidDims(dims)
    ensures status.Ok? ==>
              out == ShapeInfo(dims, CanonicalStrides(dims), Numel(dims), 4 * Numel(dims))
    ensures status.Ok? ==> 1 <= out.numel && out.byteSize < 0x1_0000_0000_0000_0000
    ensures !status.Ok? ==> status == Error(InvalidShape)
  {
    out := ShapeInfo([], [], 1, 4);
    var rank := |dims|;
    if rank > MAX_RANK {
      return Error(InvalidShape), out;
    }
    var dimensions: seq<int> := [];
    var numel: u64 := 1;
    for i := 0 to rank
      invariant dimensions == dims[..i]
      invariant Positive(dims[..i])
      invariant 1 <= numel <= MAX_NUMEL && numel as int == Numel(dims[..i])
    {
      var dim := dims[i];
      if dim <= 0 {
        return Error(InvalidShape), out;
      }
      if Exceeds(numel as int, dim) {
        OverflowIsFinal(dims, i, numel as int);
        return Error(InvalidShape), out;
      }
      assert dims[..i + 1][..i] == dims[..i];
      ProductFits(numel as int, dim);
      numel := numel * dim as u64;
      dimensions := dimensions + [dim];
    }
    assert dims[..rank] == dims;
    if numel > MAX_F32_NUMEL {
      return Error(InvalidShape), out;
    }
    var strides := CanonicalStridesLoop(dims);
    out := ShapeInfo(dimensions, strides, numel as int, 4 * numel as int);
    status := Ok;
  }

  /** The division-based overflow test of the element count. */
  predicate Exceeds(numel: int, dim: int)
    requires dim > 0
  {
    numel > MAX_NUMEL as int / dim
  }

  lemma ProductFits(numel: int, dim: int)
    requires numel >= 1 && dim > 0
    ensures !Exceeds(numel, dim) <==> numel * dim <= MAX_NUMEL as int
    ensures numel * dim >= 1
    ensures !Exceeds(numel, dim) ==> dim <= MAX_NUMEL as int
  {
    var q := MAX_NUMEL as int / dim;
    var m := MAX_NUMEL as int % dim;
    assert q * dim + m == MAX_NUMEL as int;
    if numel <= q {
      MulMonotone(numel, q, dim);
    } else {
      MulMonotone(q + 1, numel, dim);
    }
    MulMonotone(1, numel, dim);
  }

  /** Once a partial product is too large, the whole element count is. */
  lemma OverflowIsFinal(dims: seq<int>, i: nat, numel: int)
    requires i < |dims| && numel >= 1 && numel == Numel(dims[..i])
    requires dims[i] > 0 && Exceeds(numel, dims[i])
    ensures !ValidDims(dims)
  {
    if Positive(dims) {
      assert dims[..i + 1][..i] == dims[..i];
      ProductFits(numel, dims[i]);
      NumelPrefix(dims, i + 1);
    }
  }

  method CanonicalStridesLoop(dims: seq<int>) returns (strides: seq<int>)
    requires ValidDims(dims)
    ensures strides == CanonicalStrides(dims)
  {
    var rank := |dims|;
    strides := seq(rank, _ => 1);
    if rank > 0 {
      var stride: u64 := 1;
      var i := rank;
      while i > 0
        invariant 0 <= i <= rank && |strides| == rank
        invariant i > 0 ==> stride as int == Numel(dims[i..])
        invariant forall k :: i <= k < rank ==> strides[k] == Numel(dims[k + 1..])
      {
        i := i - 1;
        strides := strides[i := stride as int];
        if i > 0 {
          NumelCons(dims, i);
          NumelSuffix(dims, i);
          NumelSuffix(dims, i + 1);
          MulAtLeast(dims[i], Numel(dims[i + 1..]));
          stride := dims[i] as u64 * stride;
        }
      }
    }
  }
}
