/** The coded vector-Jacobian products are the adjoints of the forward-mode tangents. */
module Adjoints {
  import opened RealSums
  import opened ViewChains
  import opened Calculus
  import opened Operators
  import opened Duals
  import opened Vjps

  // ----- elementwise operators

  /** Pointwise adjointness with one operand. */
  lemma Adjoint1(g: seq<real>, j: seq<real>, c: seq<real>, d: seq<real>)
    requires |g| == |j| == |c| == |d|
    requires forall i :: 0 <= i < |g| ==> Times(At(g, i), At(j, i)) == Times(At(c, i), At(d, i))
    ensures Dot(g, j) == Dot(c, d)
  {
    SumCong(|g|, Pairwise(g, j), Pairwise(c, d));
  }

  /** Pointwise adjointness with two operands of the same shape. */
  lemma Adjoint2(g: seq<real>, j: seq<real>, c: seq<real>, d: seq<real>, c': seq<real>, d': seq<real>)
    requires |g| == |j| == |c| == |d| == |c'| == |d'|
    requires forall i :: 0 <= i < |g| ==>
               Times(At(g, i), At(j, i)) == Times(At(c, i), At(d, i)) + Times(At(c', i), At(d', i))
    ensures Dot(g, j) == Dot(c, d) + Dot(c', d')
  {
    SumAdd(|g|, Pairwise(c, d), Pairwise(c', d'), Pairwise(g, j));
  }

  lemma Product3(g: real, a: real, da: real, b: real, db: real)
    ensures Times(g, Times(da, b) + Times(a, db)) == Times(Times(g, b), da) + Times(Times(g, a), db)
  {
  }

  lemma ChainCommutes(g: real, s: real, d: real)
    ensures Times(g, Times(s, d)) == Times(Times(g, s), d)
  {
  }

  lemma TimesCommutes(a: real, b: real)
    ensures Times(a, b) == Times(b, a)
  {
  }

  lemma TimesDistributes(g: real, a: real, b: real)
    ensures Times(g, a + b) == Times(g, a) + Times(g, b)
  {
  }

  lemma MultiplyAdjoint(a: DTensor, b: DTensor, g: seq<real>, j: seq<real>)
    requires |g| == |j| == |a.v| == |a.d| == |b.v| == |b.d|
    requires forall i :: 0 <= i < |j| ==> At(j, i) == DMul(DAt(a, i), DAt(b, i)).d
    ensures Dot(g, j) == Dot(MulValues(g, b.v), a.d) + Dot(MulValues(g, a.v), b.d)
  {
    forall i | 0 <= i < |g|
      ensures Times(At(g, i), At(j, i))
           == Times(At(MulValues(g, b.v), i), At(a.d, i)) + Times(At(MulValues(g, a.v), i), At(b.d, i))
    {
      Product3(At(g, i), At(a.v, i), At(a.d, i), At(b.v, i), At(b.d, i));
    }
    Adjoint2(g, j, MulValues(g, b.v), a.d, MulValues(g, a.v), b.d);
  }

  lemma ActivationAdjoint(p: Primitives, a: Activation, x: DTensor, g: seq<real>, j: seq<real>)
    requires Lawful(p)
    requires |g| == |j| == |x.v| == |x.d|
    requires forall i :: 0 <= i < |j| ==> At(j, i) == DActivate(p, a, DAt(x, i)).d
    ensures Dot(g, j) == Dot(ActivationVjp(p, a, x.v, g), x.d)
  {
    var c := ActivationVjp(p, a, x.v, g);
    forall i | 0 <= i < |g| ensures Times(At(g, i), At(j, i)) == Times(At(c, i), At(x.d, i)) {
      SlopeIsDerivative(p, a, DAt(x, i));
      assert Slopes(p, a, x.v)(i) == Slope(p, a, At(x.v, i));
      ChainCommutes(At(g, i), Slope(p, a, At(x.v, i)), At(x.d, i));
    }
    Adjoint1(g, j, c, x.d);
  }

  lemma AddAdjoint(a: DTensor, b: DTensor, g: seq<real>, j: seq<real>)
    requires |g| == |j| == |a.d| == |b.d|
    requires forall i :: 0 <= i < |j| ==> At(j, i) == At(a.d, i) + At(b.d, i)
    ensures Dot(g, j) == Dot(g, a.d) + Dot(g, b.d)
  {
    forall i | 0 <= i < |g|
      ensures Times(At(g, i), At(j, i)) == Times(At(g, i), At(a.d, i)) + Times(At(g, i), At(b.d, i))
    {
      TimesDistributes(At(g, i), At(a.d, i), At(b.d, i));
    }
    Adjoint2(g, j, g, a.d, g, b.d);
  }

  // ----- reductions and rearrangements

  lemma SumAdjoint(x: DTensor, g: seq<real>, j: seq<real>)
    requires |g| == 1 && |j| == 1 && |x.v| == |x.d|
    requires j[0] == DSum(|x.v|, DElements(x)).d
    ensures Dot(g, j) == Dot(seq(|x.v|, _ => At(g, 0)), x.d)
  {
    var n := |x.v|;
    DSumParts(n, DElements(x), Elements(x.v), Elements(x.d));
    var c := seq(n, _ => At(g, 0));
    SumScale(n, g[0], Elements(x.d), Pairwise(c, x.d));
    DotSingle(g, j);
  }

  lemma DotSingle(g: seq<real>, j: seq<real>)
    requires |g| == 1 && |j| == 1
    ensures Dot(g, j) == Times(g[0], j[0])
  {
    assert Sum(0, Pairwise(g, j)) == 0.0;
    assert Dot(g, j) == Sum(0, Pairwise(g, j)) + Pairwise(g, j)(0);
  }

  lemma TransposeAt(rows: nat, cols: nat, s: seq<real>, r: int, c: int)
    requires 0 <= r < rows && 0 <= c < cols && |s| == rows * cols
    ensures At(TransposeList(rows, cols, s), Flat(c, r, rows)) == At(s, Flat(r, c, cols))
  {
    DivMod(c, r, rows);
    FlatBounds(c, r, cols, rows);
    assert cols * rows == rows * cols;
  }

  /** Transposition preserves inner products, so it is its own adjoint. */
  lemma TransposeAdjoint(rows: nat, cols: nat, d: seq<real>, g: seq<real>, j: seq<real>)
    requires rows > 0 && cols > 0 && |d| == |g| == rows * cols
    requires j == TransposeList(rows, cols, d)
    ensures Dot(g, j) == Dot(TransposeList(cols, rows, g), d)
  {
    var t := TransposeList(cols, rows, g);
    assert cols * rows == rows * cols;
    DotGrid(cols, rows, g, j);
    DotGrid(rows, cols, t, d);
    Sum2Swap(cols, rows, GridProduct(g, j, rows));
    forall r, c | 0 <= r < rows && 0 <= c < cols
      ensures Flip(GridProduct(g, j, rows))(r, c) == GridProduct(t, d, cols)(r, c)
    {
      TransposeAt(rows, cols, d, r, c);
      TransposeAt(cols, rows, g, c, r);
    }
    Sum2Cong(rows, cols, Flip(GridProduct(g, j, rows)), GridProduct(t, d, cols));
  }

  function Broadcast(b: seq<real>): (int, int) -> real {
    (r, c) => At(b, c)
  }

  function GridTimes(f: (int, int) -> real, h: (int, int) -> real): (int, int) -> real {
    (r, c) => Times(f(r, c), h(r, c))
  }

  /** Summing columns is the adjoint of broadcasting a bias over the rows. */
  lemma BroadcastAdjoint(rows: nat, cols: nat, g: seq<real>, b: seq<real>)
    requires |b| == cols
    ensures Sum2(rows, cols, GridTimes(Grid(g, cols), Broadcast(b))) == Dot(BiasVjp(g, rows, cols), b)
  {
    var f := GridTimes(Grid(g, cols), Broadcast(b));
    Sum2Swap(rows, cols, f);
    forall c | 0 <= c < cols
      ensures RowSums(Flip(f), rows)(c) == Pairwise(BiasVjp(g, rows, cols), b)(c)
    {
      forall r | 0 <= r < rows
        ensures Row(Flip(f), c)(r) == Times(At(b, c), Row(Flip(Grid(g, cols)), c)(r))
      {
        assert Row(Flip(f), c)(r) == Times(Grid(g, cols)(r, c), At(b, c));
        TimesCommutes(Grid(g, cols)(r, c), At(b, c));
      }
      SumScale(rows, At(b, c), Row(Flip(Grid(g, cols)), c), Row(Flip(f), c));
      TimesCommutes(At(b, c), Sum(rows, Row(Flip(Grid(g, cols)), c)));
    }
    SumCong(cols, RowSums(Flip(f), rows), Pairwise(BiasVjp(g, rows, cols), b));
  }

  lemma BiasAdjoint(rows: nat, cols: nat, m: seq<real>, b: seq<real>, g: seq<real>, j: seq<real>)
    requires |g| == |j| == |m| == rows * cols && |b| == cols
    requires forall i :: 0 <= i < |j| ==> At(j, i) == At(m, i) + At(b, ColOf(i, cols))
    ensures Dot(g, j) == Dot(g, m) + Dot(BiasVjp(g, rows, cols), b)
  {
    var f := GridTimes(Grid(g, cols), Broadcast(b));
    DotGrid(rows, cols, g, j);
    DotGrid(rows, cols, g, m);
    forall r, c | 0 <= r < rows && 0 <= c < cols
      ensures GridProduct(g, j, cols)(r, c) == GridProduct(g, m, cols)(r, c) + f(r, c)
    {
      TabulateAt(rows, cols, f, r, c);
      var i := Flat(r, c, cols);
      TimesDistributes(At(g, i), At(m, i), At(b, c));
    }
    Sum2Add(rows, cols, GridProduct(g, m, cols), f, GridProduct(g, j, cols));
    BroadcastAdjoint(rows, cols, g, b);
  }
}
