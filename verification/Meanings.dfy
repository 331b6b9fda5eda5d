/** What the operators compute, element by element and in plain arithmetic: sums are running
    totals, and no definition of the operators' own occurs. */
module Meanings {
  import opened RealSums
  import opened Shapes
  import opened ViewChains
  import opened Calculus
  import opened Operators

  /** Adding the terms in turn, from zero, gives `total`. */
  ghost predicate Adds(terms: seq<real>, total: real) {
    exists partial: seq<real> :: RunningTotal(terms, partial) && partial[|terms|] == total
  }

  ghost predicate RunningTotal(terms: seq<real>, partial: seq<real>) {
    && |partial| == |terms| + 1 && partial[0] == 0.0
    && forall k :: 0 <= k < |terms| ==> partial[k + 1] == partial[k] + terms[k]
  }

  /** `y` is the activation of `x`. */
  ghost predicate Activated(p: Primitives, a: Activation, x: real, y: real) {
    match a
    case Relu => y == if x > 0.0 then x else 0.0
    case Sigmoid => y == if x >= 0.0 then 1.0 / (1.0 + p.exp(-x)) else p.exp(x) / (1.0 + p.exp(x))
    case Tanh => y == p.tanh(x)
    case Gelu => y == 0.5 * x * (1.0 + p.erf(x * p.invSqrt2))
    case Silu => y == x * (1.0 / (1.0 + p.exp(-x)))
  }

  /** `z` is `x` in row-major order with `m` rows and `n` columns exchanged. */
  ghost predicate Transposed(x: seq<real>, m: int, n: int, z: seq<real>) {
    |z| == |x| && forall r, c :: 0 <= r < m && 0 <= c < n ==> TransposedAt(x, m, n, z, r, c)
  }

  ghost predicate TransposedAt(x: seq<real>, m: int, n: int, z: seq<real>, r: int, c: int) {
    At(z, c * m + r) == At(x, r * n + c)
  }

  /** `z` is the `m` by `n` product of `x` and `y`, with inner dimension `k`. */
  ghost predicate Multiplied(x: seq<real>, y: seq<real>, m: int, k: nat, n: int, z: seq<real>) {
    |z| == m * n && forall r, c :: 0 <= r < m && 0 <= c < n ==> MultipliedAt(x, y, k, n, z, r, c)
  }

  ghost predicate MultipliedAt(x: seq<real>, y: seq<real>, k: nat, n: int, z: seq<real>, r: int, c: int) {
    Adds(seq(k, q => At(x, r * k + q) * At(y, q * n + c)), At(z, r * n + c))
  }

  /** `z` adds `b` to each of the rows of `x`. */
  ghost predicate RowsShifted(x: seq<real>, b: seq<real>, m: int, n: int, z: seq<real>) {
    |z| == |x| && forall r, c :: 0 <= r < m && 0 <= c < n ==> ShiftedAt(x, b, n, z, r, c)
  }

  ghost predicate ShiftedAt(x: seq<real>, b: seq<real>, n: int, z: seq<real>, r: int, c: int) {
    At(z, r * n + c) == At(x, r * n + c) + At(b, c)
  }

  /** `z` is `x` times `y`, plus `bias` on each row if there is one. */
  ghost predicate Linear(x: seq<real>, y: seq<real>, bias: Option<seq<real>>, m: int, k: nat, n: int, z: seq<real>) {
    exists product: seq<real> ::
      Multiplied(x, y, m, k, n, product)
      && if bias.None? then z == product else RowsShifted(product, bias.value, m, n, z)
  }

  /** Rows of `2 * half` become rows of `half`: SiLU of the left half times the right half. */
  ghost predicate Gated(p: Primitives, x: seq<real>, rows: int, half: int, z: seq<real>) {
    |z| == rows * half && forall r, c :: 0 <= r < rows && 0 <= c < half ==> GatedAt(p, x, half, z, r, c)
  }

  ghost predicate GatedAt(p: Primitives, x: seq<real>, half: int, z: seq<real>, r: int, c: int) {
    var a, b := At(x, r * (2 * half) + c), At(x, r * (2 * half) + (half + c));
    At(z, r * half + c) == a * (1.0 / (1.0 + p.exp(-a))) * b
  }

  /** `mean` is the total of the terms divided by `n`. */
  ghost predicate MeanOf(terms: seq<real>, n: int, mean: real) {
    n > 0 && exists total: real :: Adds(terms, total) && mean == total / n as real
  }

  /** The mean of the squared differences. */
  ghost predicate MeanSquare(x: seq<real>, y: seq<real>, loss: real) {
    MeanOf(seq(|x|, i => (At(x, i) - At(y, i)) * (At(x, i) - At(y, i))), |x|, loss)
  }

  /** `top` is the largest of the `n` values from position `base` on. */
  ghost predicate Largest(z: seq<real>, base: int, n: int, top: real) {
    && (forall i :: base <= i < base + n ==> At(z, i) <= top)
    && exists i :: base <= i < base + n && At(z, i) == top
  }

  /** Row `r` has its maximum in `top` and the sum of its shifted exponentials in `den`. */
  ghost predicate RowScaled(p: Primitives, z: seq<real>, n: nat, top: seq<real>, den: seq<real>, r: int) {
    && Largest(z, r * n, n, At(top, r))
    && Adds(seq(n, c => p.exp(At(z, r * n + c) - At(top, r))), At(den, r))
  }

  /** The mean over rows of minus target times log-softmax. */
  ghost predicate LogLoss(p: Primitives, z: seq<real>, t: seq<real>, rows: nat, n: nat,
                          top: seq<real>, den: seq<real>, loss: real) {
    && n > 0 && |top| == |den| == rows && (forall r :: 0 <= r < rows ==> RowScaled(p, z, n, top, den, r))
    && MeanOf(LossTerms(p, z, t, rows, n, top, den), rows, loss)
  }

  /** Minus target times log-softmax of every element. */
  ghost function LossTerms(p: Primitives, z: seq<real>, t: seq<real>, rows: nat, n: nat, top: seq<real>, den: seq<real>):
    (terms: seq<real>)
    requires n > 0
    ensures |terms| == rows * n
  {
    seq(rows * n, j => -(At(t, j) * (At(z, j) - (p.log(At(den, j / n)) + At(top, j / n)))))
  }

  /** The values an operator of a caller's request computes. */
  ghost predicate Computed(p: Primitives, op: Op, d: seq<int>, x: seq<real>, y: seq<real>, od: seq<int>, z: seq<real>) {
    match op
    case Identity => od == d && z == x
    case Reshape => z == x
    case Transpose2D => |d| == 2 && od == [d[1], d[0]] && Transposed(x, d[0], d[1], z)
    case Add => od == d && |z| == |x| && forall i :: 0 <= i < |z| ==> z[i] == At(x, i) + At(y, i)
    case Multiply => od == d && |z| == |x| && forall i :: 0 <= i < |z| ==> z[i] == At(x, i) * At(y, i)
    case SumAll => od == [] && |z| == 1 && Adds(x, z[0])
    case Matmul => |d| == 2 && |od| == 2 && od[0] == d[0] && d[1] >= 0 && Multiplied(x, y, d[0], d[1], od[1], z)
    case Unary(a) => od == d && |z| == |x| && forall i :: 0 <= i < |z| ==> Activated(p, a, At(x, i), z[i])
    case SwiGlu =>
      |d| > 0 && |od| == |d| && od[..|d| - 1] == d[..|d| - 1] && d[|d| - 1] == 2 * od[|d| - 1] > 0
      && |x| % d[|d| - 1] == 0 && Gated(p, x, |x| / d[|d| - 1], od[|d| - 1], z)
    case Mse => od == [] && |z| == 1 && MeanSquare(x, y, z[0])
    case CrossEntropy =>
      od == [] && |z| == 1 && |d| == 2 && d[0] >= 0 && d[1] >= 0
      && exists top: seq<real>, den: seq<real> :: LogLoss(p, x, y, d[0], d[1], top, den, z[0])
    case BiasAdd => od == d && |d| == 2 && RowsShifted(x, y, d[0], d[1], z)
  }

  // ----- the operators mean this

  /** A sum is the last of its running totals. */
  lemma SumAdds(n: nat, f: int -> real, terms: seq<real>)
    requires |terms| == n && forall i :: 0 <= i < n ==> terms[i] == f(i)
    ensures Adds(terms, Sum(n, f))
  {
    var partial := seq(n + 1, k requires 0 <= k => Sum(k, f));
    assert RunningTotal(terms, partial);
  }

  lemma MatmulMeans(x: seq<real>, y: seq<real>, m: nat, k: nat, n: nat)
    ensures Multiplied(x, y, m, k, n, MatmulValues(x, y, m, k, n))
  {
    var z := MatmulValues(x, y, m, k, n);
    forall r: int, c: int | 0 <= r < m && 0 <= c < n ensures MultipliedAt(x, y, k, n, z, r, c) {
      TabulateAt(m, n, RowCols(x, y, k, n), r, c);
      SumAdds(k, RowColTerm(x, y, k, n, r, c), seq(k, q => At(x, r * k + q) * At(y, q * n + c)));
    }
  }

  lemma TransposeMeans(x: seq<real>, m: int, n: int)
    requires m > 0 && n > 0 && |x| == m * n
    ensures Transposed(x, m, n, TransposeList(m, n, x))
  {
    forall r, c | 0 <= r < m && 0 <= c < n ensures TransposedAt(x, m, n, TransposeList(m, n, x), r, c) {
      DivMod(c, r, m);
      FlatBounds(c, r, n, m);
    }
  }

  lemma BiasMeans(x: seq<real>, b: seq<real>, m: nat, n: nat)
    requires n > 0 && |x| == m * n
    ensures RowsShifted(x, b, m, n, BiasValues(x, b, n))
  {
    forall r: int, c: int | 0 <= r < m && 0 <= c < n ensures ShiftedAt(x, b, n, BiasValues(x, b, n), r, c) {
      DivMod(r, c, n);
      FlatBounds(r, c, m, n);
    }
  }

  lemma LinearMeans(x: seq<real>, y: seq<real>, bias: Option<seq<real>>, m: nat, k: nat, n: nat)
    requires n > 0
    ensures var product := MatmulValues(x, y, m, k, n);
            Linear(x, y, bias, m, k, n, if bias.None? then product else BiasValues(product, bias.value, n))
  {
    var product := MatmulValues(x, y, m, k, n);
    MatmulMeans(x, y, m, k, n);
    if bias.Some? {
      BiasMeans(product, bias.value, m, n);
    }
  }

  lemma SwiGluMeans(p: Primitives, x: seq<real>, rows: nat, half: nat)
    ensures Gated(p, x, rows, half, SwiGluValues(p, x, rows, 2 * half, half))
  {
    var z := SwiGluValues(p, x, rows, 2 * half, half);
    forall r: int, c: int | 0 <= r < rows && 0 <= c < half ensures GatedAt(p, x, half, z, r, c) {
      TabulateAt(rows, half, SwiGluGrid(p, x, 2 * half, half), r, c);
    }
  }

  lemma MeanIs(terms: seq<real>, n: nat, total: real)
    requires n > 0 && Adds(terms, total)
    ensures MeanOf(terms, n, total / n as real)
  {
  }

  lemma MseMeans(x: seq<real>, y: seq<real>)
    requires |x| > 0
    ensures MeanSquare(x, y, MseValue(x, y))
  {
    SumAdds(|x|, SquaredDifference(x, y), seq(|x|, i => (At(x, i) - At(y, i)) * (At(x, i) - At(y, i))));
  }

  lemma {:induction false} MaxIsLargest(z: seq<real>, base: int, n: nat)
    requires n > 0
    ensures Largest(z, base, n, MaxLogit(z, base, n))
  {
    if n == 1 {
      assert At(z, base) == MaxLogit(z, base, n);
    } else {
      MaxIsLargest(z, base, n - 1);
      assert At(z, base + n - 1) <= MaxLogit(z, base, n);
      var i :| base <= i < base + n - 1 && At(z, i) == MaxLogit(z, base, n - 1);
      assert At(z, i) == MaxLogit(z, base, n) || At(z, base + n - 1) == MaxLogit(z, base, n);
    }
  }

  lemma RowMeans(p: Primitives, z: seq<real>, n: nat, r: int, top: seq<real>, den: seq<real>)
    requires n > 0 && At(top, r) == RowMax(z, n, r) && At(den, r) == Denominator(p, z, n, r)
    ensures RowScaled(p, z, n, top, den, r)
  {
    MaxIsLargest(z, r * n, n);
    var terms, shifted := seq(n, c => p.exp(At(z, r * n + c) - At(top, r))), ShiftedExp(p, z, Flat(r, 0, n), RowMax(z, n, r));
    forall c | 0 <= c < n ensures terms[c] == shifted(c) {
      assert Minus(At(z, Flat(r, 0, n) + c), RowMax(z, n, r)) == At(z, r * n + c) - At(top, r);
    }
    SumAdds(n, shifted, terms);
  }

  lemma CrossEntropyMeans(p: Primitives, z: seq<real>, t: seq<real>, rows: nat, n: nat)
    requires rows > 0 && n > 0
    ensures exists top: seq<real>, den: seq<real> :: LogLoss(p, z, t, rows, n, top, den, CrossEntropyValue(p, z, t, rows, n))
  {
    var top := seq(rows, r => RowMax(z, n, r));
    var den := seq(rows, r => Denominator(p, z, n, r));
    forall r | 0 <= r < rows ensures RowScaled(p, z, n, top, den, r) {
      RowMeans(p, z, n, r, top, den);
    }
    TermsMean(p, z, t, rows, n, top, den);
    assert LogLoss(p, z, t, rows, n, top, den, CrossEntropyValue(p, z, t, rows, n));
  }

  lemma TermsMean(p: Primitives, z: seq<real>, t: seq<real>, rows: nat, n: nat, top: seq<real>, den: seq<real>)
    requires rows > 0 && n > 0 && |top| == |den| == rows
    requires forall r :: 0 <= r < rows ==> top[r] == RowMax(z, n, r) && den[r] == Denominator(p, z, n, r)
    ensures MeanOf(LossTerms(p, z, t, rows, n, top, den), rows, CrossEntropyValue(p, z, t, rows, n))
  {
    var terms, term := LossTerms(p, z, t, rows, n, top, den), CrossEntropyTerm(p, z, t, n);
    forall j | 0 <= j < rows * n ensures terms[j] == term(j) {
      TermMeans(p, z, t, rows, n, top, den, j);
    }
    SumAdds(rows * n, term, terms);
    MeanIs(terms, rows, Sum(rows * n, term));
  }

  lemma TermMeans(p: Primitives, z: seq<real>, t: seq<real>, rows: nat, n: nat, top: seq<real>, den: seq<real>, j: int)
    requires n > 0 && 0 <= j < rows * n && |top| == |den| == rows
    requires forall r :: 0 <= r < rows ==> top[r] == RowMax(z, n, r) && den[r] == Denominator(p, z, n, r)
    ensures CrossEntropyTerm(p, z, t, n)(j) == -(At(t, j) * (At(z, j) - (p.log(At(den, j / n)) + At(top, j / n))))
  {
    RowInRange(j, rows, n);
    assert CrossEntropyTerm(p, z, t, n)(j) == CrossTerm(At(t, j), At(z, j), LogDenominator(p, z, n, j / n));
    PlainTerm(At(t, j), At(z, j), LogDenominator(p, z, n, j / n));
  }

  lemma RowInRange(j: int, rows: nat, n: nat)
    requires n > 0 && 0 <= j < rows * n
    ensures 0 <= j / n < rows
  {
    assert j == j / n * n + j % n;
    if j / n >= rows {
      MulMonotone(rows, j / n, n);
    }
  }

  lemma PlainTerm(t: real, z: real, l: real)
    ensures CrossTerm(t, z, l) == -(t * (z - l))
  {
  }

  lemma ActivationMeans(p: Primitives, a: Activation, x: real)
    ensures Activated(p, a, x, Activate(p, a, x))
  {
    if a.Gelu? {
      assert Times(x, p.invSqrt2) == x * p.invSqrt2;
      PlainGelu(x, p.erf(x * p.invSqrt2));
    }
  }

  lemma PlainGelu(x: real, r: real)
    ensures GeluValue(x, r) == 0.5 * x * (1.0 + r)
  {
  }

  /** Every operator computes what it means. */
  lemma EvalMeans(p: Primitives, op: Op, pd: seq<seq<int>>, od: seq<int>, v: seq<seq<real>>)
    requires Typed(op, pd, od) && Sized(pd, v)
    ensures Computed(p, op, pd[0], v[0], if |v| > 1 then v[1] else v[0], od, Eval(p, op, pd, od, v))
  {
    match op
    case SumAll => SumAdds(|v[0]|, Elements(v[0]), v[0]);
    case Unary(a) =>
      forall i | 0 <= i < |v[0]| ensures Activated(p, a, At(v[0], i), Eval(p, op, pd, od, v)[i]) {
        ActivationMeans(p, a, At(v[0], i));
      }
    case SwiGlu => SwiGluMeaning(p, pd[0], od, v[0]);
    case Mse => LossMeans(p, op, pd, od, v);
    case CrossEntropy => LossMeans(p, op, pd, od, v);
    case Transpose2D => MatrixMeans(p, op, pd, od, v);
    case Matmul => MatrixMeans(p, op, pd, od, v);
    case BiasAdd => MatrixMeans(p, op, pd, od, v);
    case _ =>
  }

  lemma LossMeans(p: Primitives, op: Op, pd: seq<seq<int>>, od: seq<int>, v: seq<seq<real>>)
    requires (op.Mse? || op.CrossEntropy?) && Typed(op, pd, od) && Sized(pd, v)
    ensures Computed(p, op, pd[0], v[0], v[1], od, Eval(p, op, pd, od, v))
  {
    if op.Mse? {
      NumelPositive(pd[0]);
      MseMeans(v[0], v[1]);
    } else {
      CrossEntropyMeans(p, v[0], v[1], pd[0][0], pd[0][1]);
      var loss := CrossEntropyValue(p, v[0], v[1], pd[0][0], pd[0][1]);
      var top: seq<real>, den: seq<real> :| LogLoss(p, v[0], v[1], pd[0][0], pd[0][1], top, den, loss);
      assert LogLoss(p, v[0], v[1], pd[0][0], pd[0][1], top, den, Eval(p, op, pd, od, v)[0]);
    }
  }

  lemma MatrixMeans(p: Primitives, op: Op, pd: seq<seq<int>>, od: seq<int>, v: seq<seq<real>>)
    requires (op.Transpose2D? || op.Matmul? || op.BiasAdd?) && Typed(op, pd, od) && Sized(pd, v)
    ensures Computed(p, op, pd[0], v[0], if |v| > 1 then v[1] else v[0], od, Eval(p, op, pd, od, v))
  {
    PairOf(pd[0]);
    match op
    case Transpose2D => TransposeMeans(v[0], pd[0][0], pd[0][1]);
    case Matmul => MatmulMeans(v[0], v[1], pd[0][0], pd[0][1], pd[1][1]);
    case BiasAdd => BiasMeans(v[0], v[1], pd[0][0], pd[0][1]);
  }

  lemma SwiGluMeaning(p: Primitives, d: seq<int>, od: seq<int>, x: seq<real>)
    requires Typed(SwiGlu, [d], od) && |x| == Numel(d)
    ensures Computed(p, SwiGlu, d, x, x, od, SwiGluValues(p, x, RowCount(d), Last(d), Last(d) / 2))
  {
    SwiGluRows(d, od);
    SwiGluMeans(p, x, RowCount(d), Last(d) / 2);
    DivMod(RowCount(d), 0, Last(d));
  }
}
