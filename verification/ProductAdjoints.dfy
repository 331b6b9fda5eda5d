/** Adjointness of the matrix product and of SwiGLU. */
module ProductAdjoints {
  import opened RealSums
  import opened Calculus
  import opened Operators
  import opened Duals
  import opened Vjps
  import opened Adjoints

  // ----- exchanging a bilinear double sum

  function Weighted(w: int -> real, f: int -> real): int -> real {
    x => Times(w(x), f(x))
  }

  /** x -> sum over y of M(x, y) w(y). */
  function Applied(mat: (int, int) -> real, w: int -> real, n: nat): int -> real {
    x => Sum(n, Weighted(w, Row(mat, x)))
  }

  function Weighing(u: int -> real, mat: (int, int) -> real, w: int -> real): (int, int) -> real {
    (x, y) => Times(u(x), Times(w(y), mat(x, y)))
  }

  lemma Reassociate(a: real, b: real, c: real)
    ensures Times(a, Times(b, c)) == Times(b, Times(a, c))
  {
  }

  lemma RowsOfWeighing(m: nat, n: nat, u: int -> real, mat: (int, int) -> real, w: int -> real)
    ensures Sum(m, Weighted(u, Applied(mat, w, n))) == Sum2(m, n, Weighing(u, mat, w))
  {
    forall x | 0 <= x < m
      ensures Weighted(u, Applied(mat, w, n))(x) == RowSums(Weighing(u, mat, w), n)(x)
    {
      SumScale(n, u(x), Weighted(w, Row(mat, x)), Row(Weighing(u, mat, w), x));
      assert Applied(mat, w, n)(x) == Sum(n, Weighted(w, Row(mat, x)));
    }
    SumCong(m, Weighted(u, Applied(mat, w, n)), RowSums(Weighing(u, mat, w), n));
  }

  /** sum_x u(x) sum_y M(x,y) w(y)  =  sum_y w(y) sum_x M(x,y) u(x). */
  lemma Exchange(m: nat, n: nat, u: int -> real, mat: (int, int) -> real, w: int -> real)
    ensures Sum(m, Weighted(u, Applied(mat, w, n))) == Sum(n, Weighted(w, Applied(Flip(mat), u, m)))
  {
    RowsOfWeighing(m, n, u, mat, w);
    RowsOfWeighing(n, m, w, Flip(mat), u);
    Sum2Swap(m, n, Weighing(u, mat, w));
    forall y, x | 0 <= y < n && 0 <= x < m
      ensures Flip(Weighing(u, mat, w))(y, x) == Weighing(w, Flip(mat), u)(y, x)
    {
      Reassociate(u(x), w(y), mat(x, y));
    }
    Sum2Cong(n, m, Flip(Weighing(u, mat, w)), Weighing(w, Flip(mat), u));
  }

  // ----- matrix product

  /** g(r, c) times the product entry (l r)(r, c). */
  function Upstream(g: seq<real>, l: seq<real>, r: seq<real>, k: nat, n: nat): (int, int) -> real {
    (row, col) => Times(At(g, Flat(row, col, n)), RowCol(l, r, k, n, row, col))
  }

  lemma LeftRow(g: seq<real>, l: seq<real>, r: seq<real>, k: nat, n: nat, row: int)
    ensures Sum(n, Row(Upstream(g, l, r, k, n), row))
         == Sum(k, Weighted(Row(Grid(l, k), row), Row(LeftEntries(g, r, n), row)))
  {
    var u, w := Row(Grid(g, n), row), Row(Grid(l, k), row);
    var mat := Flip(Grid(r, n));
    Exchange(n, k, u, mat, w);
    forall col | 0 <= col < n
      ensures Row(Upstream(g, l, r, k, n), row)(col) == Weighted(u, Applied(mat, w, k))(col)
    {
      SumCong(k, RowColTerm(l, r, k, n, row, col), Weighted(w, Row(mat, col)));
    }
    SumCong(n, Row(Upstream(g, l, r, k, n), row), Weighted(u, Applied(mat, w, k)));
    forall inner | 0 <= inner < k
      ensures Weighted(w, Applied(Flip(mat), u, n))(inner)
           == Weighted(w, Row(LeftEntries(g, r, n), row))(inner)
    {
      SumCong(n, RowRowTerm(g, r, n, row, inner), Weighted(u, Row(Flip(mat), inner)));
      assert LeftEntries(g, r, n)(row, inner) == Sum(n, RowRowTerm(g, r, n, row, inner));
    }
    SumCong(k, Weighted(w, Applied(Flip(mat), u, n)), Weighted(w, Row(LeftEntries(g, r, n), row)));
  }

  /** The left gradient is the adjoint of multiplying by a fixed right operand. */
  lemma MatmulLeftAdjoint(g: seq<real>, l: seq<real>, r: seq<real>, m: nat, k: nat, n: nat)
    requires |l| == m * k
    ensures Sum2(m, n, Upstream(g, l, r, k, n)) == Dot(MatmulLeft(g, r, m, k, n), l)
  {
    var o := MatmulLeft(g, r, m, k, n);
    DotGrid(m, k, o, l);
    forall row | 0 <= row < m
      ensures RowSums(Upstream(g, l, r, k, n), n)(row) == RowSums(GridProduct(o, l, k), k)(row)
    {
      LeftRow(g, l, r, k, n, row);
      forall inner | 0 <= inner < k
        ensures Weighted(Row(Grid(l, k), row), Row(LeftEntries(g, r, n), row))(inner)
             == Row(GridProduct(o, l, k), row)(inner)
      {
        TabulateAt(m, k, LeftEntries(g, r, n), row, inner);
        TimesCommutes(At(l, Flat(row, inner, k)), LeftEntries(g, r, n)(row, inner));
      }
      SumCong(k, Weighted(Row(Grid(l, k), row), Row(LeftEntries(g, r, n), row)),
              Row(GridProduct(o, l, k), row));
    }
    SumCong(m, RowSums(Upstream(g, l, r, k, n), n), RowSums(GridProduct(o, l, k), k));
  }

  function LeftProduct(g: seq<real>, l: seq<real>, r: seq<real>, k: nat, n: nat): (int, int) -> real {
    (row, inner) => Times(At(l, Flat(row, inner, k)), LeftEntries(g, r, n)(row, inner))
  }

  lemma RightRow(g: seq<real>, l: seq<real>, r: seq<real>, m: nat, k: nat, n: nat, inner: int)
    ensures Sum(m, Row(Flip(LeftProduct(g, l, r, k, n)), inner))
         == Sum(n, Weighted(Row(Grid(r, n), inner), Row(RightEntries(l, g, m, k, n), inner)))
  {
    var u, w := Row(Flip(Grid(l, k)), inner), Row(Grid(r, n), inner);
    var mat := Grid(g, n);
    Exchange(m, n, u, mat, w);
    forall row | 0 <= row < m
      ensures Row(Flip(LeftProduct(g, l, r, k, n)), inner)(row) == Weighted(u, Applied(mat, w, n))(row)
    {
      forall col | 0 <= col < n
        ensures RowRowTerm(g, r, n, row, inner)(col) == Weighted(w, Row(mat, row))(col)
      {
        TimesCommutes(At(g, Flat(row, col, n)), At(r, Flat(inner, col, n)));
      }
      SumCong(n, RowRowTerm(g, r, n, row, inner), Weighted(w, Row(mat, row)));
      assert LeftEntries(g, r, n)(row, inner) == Applied(mat, w, n)(row);
    }
    SumCong(m, Row(Flip(LeftProduct(g, l, r, k, n)), inner), Weighted(u, Applied(mat, w, n)));
    forall col | 0 <= col < n
      ensures Weighted(w, Applied(Flip(mat), u, m))(col)
           == Weighted(w, Row(RightEntries(l, g, m, k, n), inner))(col)
    {
      SumCong(m, ColColTerm(l, g, k, n, inner, col), Weighted(u, Row(Flip(mat), col)));
      assert RightEntries(l, g, m, k, n)(inner, col) == Applied(Flip(mat), u, m)(col);
    }
    SumCong(n, Weighted(w, Applied(Flip(mat), u, m)),
            Weighted(w, Row(RightEntries(l, g, m, k, n), inner)));
  }

  /** The right gradient is the adjoint of multiplying by a fixed left operand. */
  lemma MatmulRightAdjoint(g: seq<real>, l: seq<real>, r: seq<real>, m: nat, k: nat, n: nat)
    requires |r| == k * n
    ensures Sum2(m, n, Upstream(g, l, r, k, n)) == Dot(MatmulRight(l, g, m, k, n), r)
  {
    var o := MatmulRight(l, g, m, k, n);
    var p := LeftProduct(g, l, r, k, n);
    forall row | 0 <= row < m
      ensures RowSums(Upstream(g, l, r, k, n), n)(row) == RowSums(p, k)(row)
    {
      LeftRow(g, l, r, k, n, row);
      SumCong(k, Weighted(Row(Grid(l, k), row), Row(LeftEntries(g, r, n), row)), Row(p, row));
    }
    SumCong(m, RowSums(Upstream(g, l, r, k, n), n), RowSums(p, k));
    Sum2Swap(m, k, p);
    DotGrid(k, n, o, r);
    forall inner | 0 <= inner < k
      ensures RowSums(Flip(p), m)(inner) == RowSums(GridProduct(o, r, n), n)(inner)
    {
      RightRow(g, l, r, m, k, n, inner);
      forall col | 0 <= col < n
        ensures Weighted(Row(Grid(r, n), inner), Row(RightEntries(l, g, m, k, n), inner))(col)
             == Row(GridProduct(o, r, n), inner)(col)
      {
        TabulateAt(k, n, RightEntries(l, g, m, k, n), inner, col);
        TimesCommutes(At(r, Flat(inner, col, n)), RightEntries(l, g, m, k, n)(inner, col));
      }
      SumCong(n, Weighted(Row(Grid(r, n), inner), Row(RightEntries(l, g, m, k, n), inner)),
              Row(GridProduct(o, r, n), inner));
    }
    SumCong(k, RowSums(Flip(p), m), RowSums(GridProduct(o, r, n), n));
  }

  lemma EntryTangent(l: DTensor, r: DTensor, k: nat, n: int, row: int, col: int)
    ensures DSum(k, DRowColTerm(l, r, k, n, row, col)).d
         == RowCol(l.d, r.v, k, n, row, col) + RowCol(l.v, r.d, k, n, row, col)
  {
    var f := DRowColTerm(l, r, k, n, row, col);
    DSumParts(k, f, RowColTerm(l.v, r.v, k, n, row, col), Tangent(f));
    SumAdd(k, RowColTerm(l.d, r.v, k, n, row, col), RowColTerm(l.v, r.d, k, n, row, col), Tangent(f));
  }

  /** Both gradients together are the adjoint of the product rule. */
  lemma MatmulAdjoint(l: DTensor, r: DTensor, m: nat, k: nat, n: nat, g: seq<real>, j: seq<real>)
    requires |l.d| == m * k && |r.d| == k * n && |g| == |j| == m * n
    requires forall row, col :: 0 <= row < m && 0 <= col < n ==>
               At(j, Flat(row, col, n)) == DSum(k, DRowColTerm(l, r, k, n, row, col)).d
    ensures Dot(g, j) == Dot(MatmulLeft(g, r.v, m, k, n), l.d) + Dot(MatmulRight(l.v, g, m, k, n), r.d)
  {
    var a, b := Upstream(g, l.d, r.v, k, n), Upstream(g, l.v, r.d, k, n);
    assert Dot(g, j) == Sum2(m, n, a) + Sum2(m, n, b) by {
      DotGrid(m, n, g, j);
      forall row, col | 0 <= row < m && 0 <= col < n
        ensures GridProduct(g, j, n)(row, col) == a(row, col) + b(row, col)
      {
        EntryTangent(l, r, k, n, row, col);
        TimesDistributes(At(g, Flat(row, col, n)), RowCol(l.d, r.v, k, n, row, col),
                         RowCol(l.v, r.d, k, n, row, col));
      }
      Sum2Add(m, n, a, b, GridProduct(g, j, n));
    }
    MatmulLeftAdjoint(g, l.d, r.v, m, k, n);
    MatmulRightAdjoint(g, l.v, r.d, m, k, n);
  }

  // ----- SwiGLU

  function Against(f: (int, int) -> real, d: seq<real>, w: int, shift: int, row: int): int -> real {
    c => Times(f(row, c), At(d, Flat(row, shift + c, w)))
  }

  /** A gradient row made of two halves pairs with a tangent row half by half. */
  lemma TwoHalves(rows: nat, w: nat, half: nat, left: (int, int) -> real, right: (int, int) -> real,
                  d: seq<real>, row: nat)
    requires row < rows && w == 2 * half
    ensures Sum(w, Row(GridProduct(Tabulate(rows, w, GatedEntries(half, left, right)), d, w), row))
         == Sum(half, Against(left, d, w, 0, row)) + Sum(half, Against(right, d, w, half, row))
  {
    var e := GatedEntries(half, left, right);
    var f := Row(GridProduct(Tabulate(rows, w, e), d, w), row);
    var lh, rh := Against(left, d, w, 0, row), Against(right, d, w, half, row);
    forall c | 0 <= c < half ensures f(c) == lh(c) {
      TabulateAt(rows, w, e, row, c);
    }
    forall c | 0 <= c < half ensures f(half + c) == rh(c) {
      TabulateAt(rows, w, e, row, half + c);
    }
    SumSplit(half, half, f, rh);
    SumCong(half, f, lh);
  }

  lemma GateAlgebra(g: real, silu: real, slope: real, da: real, b: real, db: real)
    ensures Times(g, Times(Times(slope, da), b) + Times(silu, db))
         == Times(Times(Times(g, b), slope), da) + Times(Times(g, silu), db)
  {
    assert g * (slope * da * b) == g * b * slope * da;
    assert g * (silu * db) == g * silu * db;
  }

  /** The tangent of a gated product with given activation values and slopes. */
  function GatedTangent(x: DTensor, w: int, half: int, silu: (int, int) -> real,
                        slope: (int, int) -> real, row: int, c: int): real
  {
    Times(Times(slope(row, c), At(x.d, Flat(row, c, w))), At(x.v, Flat(row, half + c, w)))
    + Times(silu(row, c), At(x.d, Flat(row, half + c, w)))
  }

  lemma GatedRow(x: DTensor, rows: nat, w: nat, half: nat, g: seq<real>, j: seq<real>, row: nat,
                 silu: (int, int) -> real, slope: (int, int) -> real)
    requires row < rows && w == 2 * half
    requires forall c :: 0 <= c < half ==>
               At(j, Flat(row, c, half)) == GatedTangent(x, w, half, silu, slope, row, c)
    ensures Sum(half, Row(GridProduct(g, j, half), row))
         == Sum(w, Row(GridProduct(GatedVjp(x.v, g, rows, w, half, silu, slope), x.d, w), row))
  {
    var left, right := GatedLeft(x.v, g, w, half, slope), GatedRight(g, half, silu);
    var lh, rh := Against(left, x.d, w, 0, row), Against(right, x.d, w, half, row);
    forall c | 0 <= c < half ensures Row(GridProduct(g, j, half), row)(c) == lh(c) + rh(c) {
      GateAlgebra(At(g, Flat(row, c, half)), silu(row, c), slope(row, c), At(x.d, Flat(row, c, w)),
                  At(x.v, Flat(row, half + c, w)), At(x.d, Flat(row, half + c, w)));
    }
    SumAdd(half, lh, rh, Row(GridProduct(g, j, half), row));
    TwoHalves(rows, w, half, left, right, x.d, row);
  }

  lemma GatedAdjoint(x: DTensor, rows: nat, w: nat, half: nat, g: seq<real>, j: seq<real>,
                     silu: (int, int) -> real, slope: (int, int) -> real)
    requires w == 2 * half
    requires |g| == |j| == rows * half && |x.d| == rows * w
    requires forall row, c :: 0 <= row < rows && 0 <= c < half ==>
               At(j, Flat(row, c, half)) == GatedTangent(x, w, half, silu, slope, row, c)
    ensures Dot(g, j) == Dot(GatedVjp(x.v, g, rows, w, half, silu, slope), x.d)
  {
    var o := GatedVjp(x.v, g, rows, w, half, silu, slope);
    DotGrid(rows, half, g, j);
    DotGrid(rows, w, o, x.d);
    forall row | 0 <= row < rows
      ensures RowSums(GridProduct(g, j, half), half)(row) == RowSums(GridProduct(o, x.d, w), w)(row)
    {
      GatedRow(x, rows, w, half, g, j, row, silu, slope);
    }
    SumCong(rows, RowSums(GridProduct(g, j, half), half), RowSums(GridProduct(o, x.d, w), w));
  }

  lemma SwiGluTangent(p: Primitives, x: DTensor, w: int, half: int, row: int, c: int)
    requires Lawful(p)
    ensures DSwiGluAt(p, x, w, half, row, c).d
         == GatedTangent(x, w, half, SiluGrid(p, x.v, w), SlopeGrid(p, x.v, w), row, c)
  {
    SlopeIsDerivative(p, Silu, DAt(x, Flat(row, c, w)));
  }

  /** The two halves of the gradient row together are the adjoint of the gated product. */
  lemma SwiGluAdjoint(p: Primitives, x: DTensor, rows: nat, w: nat, half: nat, g: seq<real>, j: seq<real>)
    requires Lawful(p) && w == 2 * half
    requires |g| == |j| == rows * half && |x.d| == rows * w
    requires forall row, c :: 0 <= row < rows && 0 <= c < half ==>
               At(j, Flat(row, c, half)) == DSwiGluAt(p, x, w, half, row, c).d
    ensures Dot(g, j) == Dot(SwiGluVjp(p, x.v, g, rows, w, half), x.d)
  {
    var silu, slope := SiluGrid(p, x.v, w), SlopeGrid(p, x.v, w);
    forall row, c | 0 <= row < rows && 0 <= c < half
      ensures At(j, Flat(row, c, half)) == GatedTangent(x, w, half, silu, slope, row, c)
    {
      SwiGluTangent(p, x, w, half, row, c);
    }
    GatedAdjoint(x, rows, w, half, g, j, silu, slope);
  }
}
