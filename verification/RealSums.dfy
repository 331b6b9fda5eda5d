/** Finite sums of reals over index ranges and over rectangular index grids.

    Every summand is a total function on the integers.  The closures that occur in
    sums are produced by named functions (`Pairwise`, `Row`, `RowSums`, `Flip`,
    `Grid`), so that two sums over the same summand are the same term. */
module RealSums {

  /** The element at index `i`, or zero outside the sequence. */
  function At(s: seq<real>, i: int): real {
    if 0 <= i < |s| then s[i] else 0.0
  }

  // Arithmetic under names: equal operands give equal results by congruence.

  function Times(a: real, b: real): real { a * b }

  function Minus(a: real, b: real): real { a - b }

  /** Division; callers keep the divisor nonzero. */
  function Over(a: real, b: real): real { if b == 0.0 then 0.0 else a / b }

  /** The flat position of row `r`, column `c` in a grid of width `n`. */
  function Flat(r: int, c: int, n: int): int { r * n + c }

  function Zeros(n: nat): (z: seq<real>)
    ensures |z| == n && forall i :: 0 <= i < n ==> z[i] == 0.0
  {
    seq(n, _ => 0.0)
  }

  function VAdd(a: seq<real>, b: seq<real>): (s: seq<real>)
    requires |a| == |b|
    ensures |s| == |a| && forall i :: 0 <= i < |a| ==> s[i] == a[i] + b[i]
  {
    seq(|a|, i requires 0 <= i < |a| && |a| == |b| => a[i] + b[i])
  }

  /** Row and column of a flat index in a grid of width `n`. */
  function RowOf(j: int, n: int): int { if n > 0 then j / n else 0 }

  function ColOf(j: int, n: int): int { if n > 0 then j % n else 0 }

  function Sum(n: nat, f: int -> real): real {
    if n == 0 then 0.0 else Sum(n - 1, f) + f(n - 1)
  }

  function Pairwise(a: seq<real>, b: seq<real>): int -> real {
    i => Times(At(a, i), At(b, i))
  }

  /** Inner product of two value sequences. */
  function Dot(a: seq<real>, b: seq<real>): real {
    Sum(|a|, Pairwise(a, b))
  }

  function Row(f: (int, int) -> real, r: int): int -> real {
    c => f(r, c)
  }

  function RowSums(f: (int, int) -> real, n: nat): int -> real {
    r => Sum(n, Row(f, r))
  }

  function Flip(f: (int, int) -> real): (int, int) -> real {
    (r, c) => f(c, r)
  }

  /** The sum of `f(r, c)` over `m` rows and `n` columns. */
  function Sum2(m: nat, n: nat, f: (int, int) -> real): real {
    Sum(m, RowSums(f, n))
  }

  /** A value sequence read as a row-major grid of width `n`. */
  function Grid(s: seq<real>, n: int): (int, int) -> real {
    (r, c) => At(s, Flat(r, c, n))
  }

  /** The row-major sequence of an `m` by `n` grid. */
  function Tabulate(m: nat, n: nat, f: (int, int) -> real): (s: seq<real>)
    ensures |s| == m * n
  {
    seq(m * n, j => f(RowOf(j, n), ColOf(j, n)))
  }

  lemma TabulateAt(m: nat, n: nat, f: (int, int) -> real, r: int, c: int)
    requires 0 <= r < m && 0 <= c < n
    ensures 0 <= Flat(r, c, n) < m * n
    ensures RowOf(Flat(r, c, n), n) == r && ColOf(Flat(r, c, n), n) == c
    ensures At(Tabulate(m, n, f), Flat(r, c, n)) == f(r, c)
  {
    FlatBounds(r, c, m, n);
    DivMod(r, c, n);
  }

  // ----- division facts

  lemma MulMonotone(a: int, b: int, c: int)
    requires a <= b && c >= 0
    ensures a * c <= b * c
  {
  }

  lemma DivMod(r: int, c: int, n: int)
    requires 0 <= c < n
    ensures (r * n + c) / n == r && (r * n + c) % n == c
  {
    var q := (r * n + c) / n;
    var m := (r * n + c) % n;
    assert q * n + m == r * n + c;
    assert (q - r) * n == c - m;
    if q > r {
      MulMonotone(1, q - r, n);
    } else if q < r {
      MulMonotone(1, r - q, n);
    }
  }

  lemma DivBounds(i: int, a: int, n: int)
    requires 0 <= i < a * n && n > 0
    ensures 0 <= i / n < a && 0 <= i % n < n && i == i / n * n + i % n
  {
    if i / n >= a {
      MulMonotone(a, i / n, n);
    }
  }

  lemma FlatBounds(r: int, c: int, m: int, n: int)
    requires 0 <= r < m && 0 <= c < n
    ensures 0 <= r * n + c < m * n
  {
    MulMonotone(0, r, n);
    MulMonotone(r + 1, m, n);
  }

  // ----- sums over one range

  lemma {:induction false} SumCong(n: nat, f: int -> real, g: int -> real)
    requires forall i :: 0 <= i < n ==> f(i) == g(i)
    ensures Sum(n, f) == Sum(n, g)
  {
    if n != 0 {
      SumCong(n - 1, f, g);
    }
  }

  lemma {:induction false} SumZero(n: nat, f: int -> real)
    requires forall i :: 0 <= i < n ==> f(i) == 0.0
    ensures Sum(n, f) == 0.0
  {
    if n != 0 {
      SumZero(n - 1, f);
    }
  }

  lemma {:induction false} SumAdd(n: nat, f: int -> real, g: int -> real, h: int -> real)
    requires forall i :: 0 <= i < n ==> h(i) == f(i) + g(i)
    ensures Sum(n, h) == Sum(n, f) + Sum(n, g)
  {
    if n != 0 {
      SumAdd(n - 1, f, g, h);
    }
  }

  lemma {:induction false} SumScale(n: nat, k: real, f: int -> real, h: int -> real)
    requires forall i :: 0 <= i < n ==> h(i) == Times(k, f(i))
    ensures Sum(n, h) == Times(k, Sum(n, f))
  {
    if n != 0 {
      SumScale(n - 1, k, f, h);
    }
  }

  lemma {:induction false} SumSplit(a: nat, b: nat, f: int -> real, g: int -> real)
    requires forall i :: 0 <= i < b ==> g(i) == f(a + i)
    ensures Sum(a + b, f) == Sum(a, f) + Sum(b, g)
  {
    if b != 0 {
      SumSplit(a, b - 1, f, g);
    }
  }

  /** Only one index contributes. */
  lemma {:induction false} SumSingle(n: nat, k: nat, f: int -> real)
    requires k < n
    requires forall i :: 0 <= i < n && i != k ==> f(i) == 0.0
    ensures Sum(n, f) == f(k)
  {
    if k == n - 1 {
      SumZero(n - 1, f);
    } else {
      SumSingle(n - 1, k, f);
    }
  }

  lemma {:induction false} SumNonNegative(n: nat, f: int -> real)
    requires forall i :: 0 <= i < n ==> f(i) >= 0.0
    ensures Sum(n, f) >= 0.0
    ensures forall i :: 0 <= i < n ==> Sum(n, f) >= f(i)
  {
    if n != 0 {
      SumNonNegative(n - 1, f);
    }
  }

  // ----- sums over a grid

  lemma {:induction false} Sum2Cong(m: nat, n: nat, f: (int, int) -> real, g: (int, int) -> real)
    requires forall r, c :: 0 <= r < m && 0 <= c < n ==> f(r, c) == g(r, c)
    ensures Sum2(m, n, f) == Sum2(m, n, g)
  {
    forall r | 0 <= r < m ensures RowSums(f, n)(r) == RowSums(g, n)(r) {
      SumCong(n, Row(f, r), Row(g, r));
    }
    SumCong(m, RowSums(f, n), RowSums(g, n));
  }

  lemma {:induction false} Sum2Add(m: nat, n: nat, f: (int, int) -> real, g: (int, int) -> real,
                                   h: (int, int) -> real)
    requires forall r, c :: 0 <= r < m && 0 <= c < n ==> h(r, c) == f(r, c) + g(r, c)
    ensures Sum2(m, n, h) == Sum2(m, n, f) + Sum2(m, n, g)
  {
    forall r | 0 <= r < m ensures RowSums(h, n)(r) == RowSums(f, n)(r) + RowSums(g, n)(r) {
      SumAdd(n, Row(f, r), Row(g, r), Row(h, r));
    }
    SumAdd(m, RowSums(f, n), RowSums(g, n), RowSums(h, n));
  }

  /** The order of the two summations is irrelevant. */
  lemma {:induction false} Sum2Swap(m: nat, n: nat, f: (int, int) -> real)
    ensures Sum2(m, n, f) == Sum2(n, m, Flip(f))
  {
    if m == 0 {
      SumZero(n, RowSums(Flip(f), m));
    } else {
      Sum2Swap(m - 1, n, f);
      forall c | 0 <= c < n
        ensures RowSums(Flip(f), m)(c) == RowSums(Flip(f), m - 1)(c) + Row(f, m - 1)(c)
      {
        assert Sum(m, Row(Flip(f), c)) == Sum(m - 1, Row(Flip(f), c)) + f(m - 1, c);
      }
      SumAdd(n, RowSums(Flip(f), m - 1), Row(f, m - 1), RowSums(Flip(f), m));
    }
  }

  /** A flat row-major range is the grid of its rows and columns. */
  lemma {:induction false} SumFlat(m: nat, n: nat, f: int -> real, g: (int, int) -> real)
    requires forall r, c :: 0 <= r < m && 0 <= c < n ==> g(r, c) == f(Flat(r, c, n))
    ensures m * n >= 0 && Sum(m * n, f) == Sum2(m, n, g)
  {
    if m != 0 {
      SumFlat(m - 1, n, f, g);
      var a := (m - 1) * n;
      assert m * n == a + n;
      SumSplit(a, n, f, Row(g, m - 1));
    }
  }

  // ----- inner products

  lemma DotZero(a: seq<real>, n: nat)
    ensures Dot(a, Zeros(n)) == 0.0
  {
    SumZero(|a|, Pairwise(a, Zeros(n)));
  }

  /** Accumulating adjoints adds their inner products. */
  lemma DotAdd(a: seq<real>, b: seq<real>, t: seq<real>)
    requires |a| == |b|
    ensures Dot(VAdd(a, b), t) == Dot(a, t) + Dot(b, t)
  {
    SumAdd(|a|, Pairwise(a, t), Pairwise(b, t), Pairwise(VAdd(a, b), t));
  }

  function GridProduct(a: seq<real>, b: seq<real>, n: int): (int, int) -> real {
    (r, c) => Times(At(a, Flat(r, c, n)), At(b, Flat(r, c, n)))
  }

  lemma DotGrid(m: nat, n: nat, a: seq<real>, b: seq<real>)
    requires |a| == m * n
    ensures Dot(a, b) == Sum2(m, n, GridProduct(a, b, n))
  {
    SumFlat(m, n, Pairwise(a, b), GridProduct(a, b, n));
  }
}
