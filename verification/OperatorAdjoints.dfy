/** The adjoint identity for every operator, and exactly when it holds for cross-entropy. */
module OperatorAdjoints {
  import opened RealSums
  import opened Shapes
  import opened ViewChains
  import opened Calculus
  import opened Operators
  import opened Duals
  import opened Vjps
  import opened Adjoints
  import opened ProductAdjoints
  import opened LossAdjoints

  ghost predicate TangentsSized(pd: seq<seq<int>>, x: seq<DTensor>) {
    |x| == |pd| && forall k :: 0 <= k < |pd| ==> |x[k].v| == |x[k].d| == Numel(pd[k])
  }

  lemma SizedValues(pd: seq<seq<int>>, x: seq<DTensor>)
    requires TangentsSized(pd, x)
    ensures Sized(pd, Values(x))
  {
  }

  /** What the contributions to the operands pair to, against the operands' tangents. */
  ghost function Pairing(p: Primitives, op: Op, pd: seq<seq<int>>, od: seq<int>, x: seq<DTensor>,
                         g: seq<real>): real
    requires Typed(op, pd, od) && TangentsSized(pd, x) && |g| == Numel(od)
  {
    SizedValues(pd, x);
    var first := Dot(Vjp(p, op, pd, od, Values(x), g, 0), x[0].d);
    if |pd| == 1 then first else first + Dot(Vjp(p, op, pd, od, Values(x), g, 1), x[1].d)
  }

  /** Target rows sum to one, or the logits do not move. */
  ghost predicate Differentiable(op: Op, pd: seq<seq<int>>, x: seq<DTensor>)
    requires |x| == |pd| == Arity(op)
  {
    op.CrossEntropy? && |pd[0]| == 2 && pd[0][0] > 0 && pd[0][1] > 0 ==>
      Normalised(x[1].v, pd[0][0], pd[0][1]) || (forall i :: At(x[0].d, i) == 0.0)
  }

  lemma JvpAt(p: Primitives, op: Op, pd: seq<seq<int>>, od: seq<int>, x: seq<DTensor>, i: int)
    requires Typed(op, pd, od) && |x| == |pd| && 0 <= i < Numel(od)
    ensures At(Jvp(p, op, pd, od, x), i) == DualAt(p, op, pd, od, x, i).d
  {
  }

  lemma ElementwiseCase(p: Primitives, op: Op, pd: seq<seq<int>>, od: seq<int>, x: seq<DTensor>,
                        g: seq<real>)
    requires Typed(op, pd, od) && TangentsSized(pd, x) && |g| == Numel(od) && Lawful(p)
    requires op.Add? || op.Multiply? || op.Unary? || op.Identity? || op.Reshape?
    ensures Dot(g, Jvp(p, op, pd, od, x)) == Pairing(p, op, pd, od, x, g)
  {
    var j := Jvp(p, op, pd, od, x);
    forall i | 0 <= i < |j| ensures At(j, i) == DualAt(p, op, pd, od, x, i).d {
      JvpAt(p, op, pd, od, x, i);
    }
    if op.Add? {
      AddAdjoint(x[0], x[1], g, j);
    } else if op.Multiply? {
      MultiplyAdjoint(x[0], x[1], g, j);
    } else if op.Unary? {
      ActivationAdjoint(p, op.a, x[0], g, j);
    } else {
      Adjoint1(g, j, g, x[0].d);
    }
  }

  lemma RearrangingCase(p: Primitives, op: Op, pd: seq<seq<int>>, od: seq<int>, x: seq<DTensor>,
                        g: seq<real>)
    requires Typed(op, pd, od) && TangentsSized(pd, x) && |g| == Numel(od)
    requires op.Transpose2D? || op.BiasAdd?
    ensures Dot(g, Jvp(p, op, pd, od, x)) == Pairing(p, op, pd, od, x, g)
  {
    var j := Jvp(p, op, pd, od, x);
    PairOf(pd[0]);
    match op
    case Transpose2D =>
      assert j == TransposeList(pd[0][0], pd[0][1], x[0].d);
      TransposeAdjoint(pd[0][0], pd[0][1], x[0].d, g, j);
    case BiasAdd =>
      assert pd[1] == [pd[1][0]];
      NumelSingle(pd[1][0]);
      BiasAdjoint(pd[0][0], pd[0][1], x[0].d, x[1].d, g, j);
  }

  lemma MatmulCase(p: Primitives, pd: seq<seq<int>>, od: seq<int>, x: seq<DTensor>, g: seq<real>)
    requires Typed(Matmul, pd, od) && TangentsSized(pd, x) && |g| == Numel(od)
    ensures Dot(g, Jvp(p, Matmul, pd, od, x)) == Pairing(p, Matmul, pd, od, x, g)
  {
    var j := Jvp(p, Matmul, pd, od, x);
    var m, k, n := pd[0][0], pd[0][1], pd[1][1];
    PairOf(pd[0]);
    PairOf(pd[1]);
    PairOf(od);
    forall row, col | 0 <= row < m && 0 <= col < n
      ensures At(j, Flat(row, col, n)) == DSum(k, DRowColTerm(x[0], x[1], k, n, row, col)).d
    {
      TabulateAt(m, n, RowCols(x[0].v, x[1].v, k, n), row, col);
      JvpAt(p, Matmul, pd, od, x, Flat(row, col, n));
    }
    MatmulAdjoint(x[0], x[1], m, k, n, g, j);
  }

  lemma SwiGluCase(p: Primitives, pd: seq<seq<int>>, od: seq<int>, x: seq<DTensor>, g: seq<real>)
    requires Typed(SwiGlu, pd, od) && TangentsSized(pd, x) && |g| == Numel(od) && Lawful(p)
    ensures Dot(g, Jvp(p, SwiGlu, pd, od, x)) == Pairing(p, SwiGlu, pd, od, x, g)
  {
    var j := Jvp(p, SwiGlu, pd, od, x);
    var rows, w, half := RowCount(pd[0]), Last(pd[0]), Last(pd[0]) / 2;
    SwiGluRows(pd[0], od);
    forall row, c | 0 <= row < rows && 0 <= c < half
      ensures At(j, Flat(row, c, half)) == DSwiGluAt(p, x[0], w, half, row, c).d
    {
      TabulateAt(rows, half, SiluGrid(p, x[0].v, w), row, c);
      JvpAt(p, SwiGlu, pd, od, x, Flat(row, c, half));
    }
    SwiGluAdjoint(p, x[0], rows, w, half, g, j);
  }

  lemma ScalarCase(p: Primitives, op: Op, pd: seq<seq<int>>, od: seq<int>, x: seq<DTensor>, g: seq<real>)
    requires Typed(op, pd, od) && TangentsSized(pd, x) && |g| == Numel(od)
    requires op.SumAll? || op.Mse?
    ensures Dot(g, Jvp(p, op, pd, od, x)) == Pairing(p, op, pd, od, x, g)
  {
    var j := Jvp(p, op, pd, od, x);
    assert Numel([]) == 1;
    JvpAt(p, op, pd, od, x, 0);
    NumelPositive(pd[0]);
    match op
    case SumAll => SumAdjoint(x[0], g, j);
    case Mse => MseAdjoint(|x[0].v|, x[0], x[1], g, j);
  }

  /** The cross-entropy gap at operator level. */
  lemma CrossEntropyCase(p: Primitives, pd: seq<seq<int>>, od: seq<int>, x: seq<DTensor>, g: seq<real>)
    requires Typed(CrossEntropy, pd, od) && TangentsSized(pd, x) && |g| == Numel(od)
    ensures Dot(g, Jvp(p, CrossEntropy, pd, od, x))
         == Pairing(p, CrossEntropy, pd, od, x, g)
            + Times(CrossEntropyScale(g, pd[0][0]), Sum(pd[0][0], Gap(p, x[0], x[1].v, pd[0][1])))
  {
    assert Numel([]) == 1;
    PairOf(pd[0]);
    JvpAt(p, CrossEntropy, pd, od, x, 0);
    CrossEntropyGap(p, x[0], x[1], pd[0][0], pd[0][1], g, Jvp(p, CrossEntropy, pd, od, x));
  }

  lemma TimesZero(a: real)
    ensures Times(a, 0.0) == 0.0
  {
  }

  lemma DifferentiableCrossEntropy(p: Primitives, pd: seq<seq<int>>, od: seq<int>, x: seq<DTensor>,
                                   g: seq<real>)
    requires Typed(CrossEntropy, pd, od) && TangentsSized(pd, x) && |g| == Numel(od)
    requires Differentiable(CrossEntropy, pd, x)
    ensures Dot(g, Jvp(p, CrossEntropy, pd, od, x)) == Pairing(p, CrossEntropy, pd, od, x, g)
  {
    CrossEntropyCase(p, pd, od, x, g);
    assert Sum(pd[0][0], Gap(p, x[0], x[1].v, pd[0][1])) == 0.0 by {
      GapVanishes(p, x[0], x[1].v, pd[0][0], pd[0][1]);
    }
    TimesZero(CrossEntropyScale(g, pd[0][0]));
  }

  /** For every operator, all shapes and all values: the inner product of the upstream
      gradient with the forward tangent equals the sum of the inner products of the coded
      contributions with the operand tangents. */
  lemma OperatorAdjoint(p: Primitives, op: Op, pd: seq<seq<int>>, od: seq<int>, x: seq<DTensor>,
                        g: seq<real>)
    requires Typed(op, pd, od) && TangentsSized(pd, x) && |g| == Numel(od) && Lawful(p)
    requires Differentiable(op, pd, x)
    ensures Dot(g, Jvp(p, op, pd, od, x)) == Pairing(p, op, pd, od, x, g)
  {
    if op.Matmul? {
      MatmulCase(p, pd, od, x, g);
    } else if op.SwiGlu? {
      SwiGluCase(p, pd, od, x, g);
    } else if op.CrossEntropy? {
      DifferentiableCrossEntropy(p, pd, od, x, g);
    } else if op.SumAll? || op.Mse? {
      ScalarCase(p, op, pd, od, x, g);
    } else if op.Transpose2D? || op.BiasAdd? {
      RearrangingCase(p, op, pd, od, x, g);
    } else {
      ElementwiseCase(p, op, pd, od, x, g);
    }
  }

  // ----- exactly when the cross-entropy gradients are the derivative

  /** Ones on one row, zeros elsewhere. */
  function RowIndicator(batch: nat, classes: nat, row: int): seq<real> {
    Tabulate(batch, classes, (r, c) => if r == row then 1.0 else 0.0)
  }

  lemma IndicatorShifted(batch: nat, classes: nat, row: int, r: int, c: int)
    requires 0 <= row < batch && 0 <= r < batch && 0 <= c < classes
    ensures Shifted(RowIndicator(batch, classes, row), Flat(r, 0, classes))(c)
         == if r == row then 1.0 else 0.0
  {
    RowIndex(batch, classes, r, c);
    TabulateAt(batch, classes, (r, c) => if r == row then 1.0 else 0.0, r, c);
  }

  lemma ConstantWeights(n: nat, e: int -> real, d: int -> real, k: real)
    requires k == 0.0 || k == 1.0
    requires Sum(n, e) > 0.0 && forall c :: 0 <= c < n ==> d(c) == k
    ensures Over(Sum(n, Products(e, d)), Sum(n, e)) == k
  {
    if k == 1.0 {
      SumCong(n, Products(e, d), e);
      QuotientUnique(Sum(n, e), Sum(n, e), 1.0);
    } else {
      SumZero(n, Products(e, d));
    }
  }

  /** Moving all logits of one row together moves only that row's log-denominator, at
      unit speed: the probabilities of a row sum to one. */
  lemma IndicatorTangent(p: Primitives, z: DTensor, batch: nat, classes: nat, row: int, r: int)
    requires classes > 0 && 0 <= row < batch && 0 <= r < batch
    requires z.d == RowIndicator(batch, classes, row)
    ensures LogTangent(p, z, classes)(r) == if r == row then 1.0 else 0.0
  {
    var base := Flat(r, 0, classes);
    var e := ShiftedExp(p, z.v, base, DRowMax(z, classes, r).v);
    var d := Shifted(z.d, base);
    LogTangentIs(p, z, classes, r, e, base);
    assert Sum(classes, e) > 0.0 by {
      MaxLogitValue(z, base, classes);
      DenominatorPositive(p, z.v, classes, r);
    }
    var k := if r == row then 1.0 else 0.0;
    forall c | 0 <= c < classes ensures d(c) == k {
      IndicatorShifted(batch, classes, row, r, c);
    }
    ConstantWeights(classes, e, d, k);
  }

  lemma IndicatorGap(p: Primitives, z: DTensor, t: seq<real>, batch: nat, classes: nat, row: int)
    requires classes > 0 && 0 <= row < batch
    requires z.d == RowIndicator(batch, classes, row)
    ensures Sum(batch, Gap(p, z, t, classes)) == RowSum(t, classes, row) - 1.0
  {
    var sums, rows := RowSums(Grid(t, classes), classes), LogTangent(p, z, classes);
    var f := GapOf(sums, rows);
    forall r | 0 <= r < batch && r != row ensures f(r) == 0.0 {
      IndicatorTangent(p, z, batch, classes, row, r);
      ZeroGap(sums, rows, r);
    }
    IndicatorTangent(p, z, batch, classes, row, row);
    UnitGap(sums, rows, row);
    SumSingle(batch, row, f);
  }

  lemma UnitGap(sums: int -> real, rows: int -> real, row: int)
    requires rows(row) == 1.0
    ensures GapOf(sums, rows)(row) == sums(row) - 1.0
  {
  }

  ghost predicate AdjointAt(p: Primitives, pd: seq<seq<int>>, od: seq<int>, z: seq<real>, t: seq<real>,
                            dz: seq<real>, dt: seq<real>, g: seq<real>)
    requires Typed(CrossEntropy, pd, od) && |z| == |t| == |dz| == |dt| == Numel(pd[0]) && |g| == 1
  {
    assert Numel([]) == 1;
    var x := [DTensor(z, dz), DTensor(t, dt)];
    Dot(g, Jvp(p, CrossEntropy, pd, od, x)) == Pairing(p, CrossEntropy, pd, od, x, g)
  }

  /** The cross-entropy gradients are the derivative in every direction and for every
      upstream gradient if and only if every target row sums to one. */
  lemma CrossEntropyExact(p: Primitives, pd: seq<seq<int>>, od: seq<int>, z: seq<real>, t: seq<real>)
    requires Typed(CrossEntropy, pd, od) && |z| == |t| == Numel(pd[0])
    ensures Normalised(t, pd[0][0], pd[0][1]) <==>
            (forall dz, dt, g :: |dz| == |dt| == Numel(pd[0]) && |g| == 1 ==>
               AdjointAt(p, pd, od, z, t, dz, dt, g))
  {
    var batch, classes := pd[0][0], pd[0][1];
    assert Numel([]) == 1;
    if Normalised(t, batch, classes) {
      forall dz, dt, g | |dz| == |dt| == Numel(pd[0]) && |g| == 1
        ensures AdjointAt(p, pd, od, z, t, dz, dt, g)
      {
        DifferentiableCrossEntropy(p, pd, od, [DTensor(z, dz), DTensor(t, dt)], g);
      }
    } else {
      var row :| 0 <= row < batch && RowSum(t, classes, row) != 1.0;
      UnnormalisedFails(p, pd, od, z, t, row);
    }
  }

  lemma UnnormalisedFails(p: Primitives, pd: seq<seq<int>>, od: seq<int>, z: seq<real>, t: seq<real>,
                          row: int)
    requires Typed(CrossEntropy, pd, od) && |z| == |t| == Numel(pd[0])
    requires 0 <= row < pd[0][0] && RowSum(t, pd[0][1], row) != 1.0
    ensures |RowIndicator(pd[0][0], pd[0][1], row)| == Numel(pd[0])
    ensures !AdjointAt(p, pd, od, z, t, RowIndicator(pd[0][0], pd[0][1], row), Zeros(|t|), [1.0])
  {
    var batch, classes := pd[0][0], pd[0][1];
    assert pd[0] == [batch, classes] && Numel(pd[0]) == batch * classes by {
      PairOf(pd[0]);
    }
    assert Numel([]) == 1;
    var dz, dt := RowIndicator(batch, classes, row), Zeros(|t|);
    var x := [DTensor(z, dz), DTensor(t, dt)];
    CrossEntropyCase(p, pd, od, x, [1.0]);
    var gap := Sum(batch, Gap(p, x[0], t, classes));
    assert gap != 0.0 by {
      IndicatorGap(p, x[0], t, batch, classes, row);
    }
    PositiveScale(batch);
    NonZeroTimes(CrossEntropyScale([1.0], batch), gap);
  }

  lemma PositiveScale(batch: nat)
    requires batch > 0
    ensures CrossEntropyScale([1.0], batch) > 0.0
  {
    assert At([1.0], 0) == 1.0;
    var q, n := 1.0 / batch as real, batch as real;
    assert q * n == 1.0;
  }

  lemma NonZeroTimes(a: real, b: real)
    requires a > 0.0 && b != 0.0
    ensures Times(a, b) != 0.0
  {
  }
}
