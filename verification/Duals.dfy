/** Forward-mode differentiation of the operators: the forward formulas evaluated on dual
    numbers, and their agreement with the real-valued forward pass. */
module Duals {
  import opened RealSums
  import opened Shapes
  import opened Calculus
  import opened Operators

  /** Values together with a tangent. */
  datatype DTensor = DTensor(v: seq<real>, d: seq<real>)

  function DAt(x: DTensor, i: int): Dual {
    Dual(At(x.v, i), At(x.d, i))
  }

  function DSum(n: nat, f: int -> Dual): Dual {
    if n == 0 then DConst(0.0) else DAdd(DSum(n - 1, f), f(n - 1))
  }

  /** The sum rule: value and tangent of a sum are the sums of values and tangents. */
  lemma {:induction false} DSumParts(n: nat, f: int -> Dual, fv: int -> real, fd: int -> real)
    requires forall i :: 0 <= i < n ==> f(i) == Dual(fv(i), fd(i))
    ensures DSum(n, f) == Dual(Sum(n, fv), Sum(n, fd))
  {
    if n != 0 {
      DSumParts(n - 1, f, fv, fd);
    }
  }

  function DElements(x: DTensor): int -> Dual {
    i => DAt(x, i)
  }

  function DRowColTerm(l: DTensor, r: DTensor, k: int, n: int, row: int, col: int): int -> Dual {
    i => DMul(DAt(l, Flat(row, i, k)), DAt(r, Flat(i, col, n)))
  }

  function DSwiGluAt(p: Primitives, x: DTensor, w: int, half: int, row: int, col: int): Dual {
    DMul(DActivate(p, Silu, DAt(x, Flat(row, col, w))),
         DAt(x, Flat(row, half + col, w)))
  }

  function DSquaredDifference(a: DTensor, b: DTensor): int -> Dual {
    i => DMul(DSub(DAt(a, i), DAt(b, i)), DSub(DAt(a, i), DAt(b, i)))
  }

  function DMaxLogit(z: DTensor, base: int, n: nat): Dual {
    if n <= 1 then DAt(z, base) else DMax(DMaxLogit(z, base, n - 1), DAt(z, base + n - 1))
  }

  function DRowMax(z: DTensor, classes: nat, row: int): Dual {
    DMaxLogit(z, Flat(row, 0, classes), classes)
  }

  function DShiftedExp(p: Primitives, z: DTensor, base: int, shift: Dual): int -> Dual {
    c => DExp(p, DSub(DAt(z, base + c), shift))
  }

  function DDenominator(p: Primitives, z: DTensor, classes: nat, row: int): Dual {
    DSum(classes, DShiftedExp(p, z, Flat(row, 0, classes), DRowMax(z, classes, row)))
  }

  function DLogDenominator(p: Primitives, z: DTensor, classes: nat, row: int): Dual {
    DAdd(DLog(p, DDenominator(p, z, classes, row)), DRowMax(z, classes, row))
  }

  function DCrossTerm(t: Dual, z: Dual, l: Dual): Dual {
    DNeg(DMul(t, DSub(z, l)))
  }

  function DLogDenominatorOf(p: Primitives, z: DTensor, classes: nat): int -> Dual {
    j => DLogDenominator(p, z, classes, RowOf(j, classes))
  }

  function DCrossTerms(t: DTensor, z: DTensor, l: int -> Dual): int -> Dual {
    j => DCrossTerm(DAt(t, j), DAt(z, j), l(j))
  }

  function DCrossEntropyTerm(p: Primitives, z: DTensor, t: DTensor, classes: nat): int -> Dual {
    DCrossTerms(t, z, DLogDenominatorOf(p, z, classes))
  }

  /** Element `j` of an operator's result on dual operands. */
  function DualAt(p: Primitives, op: Op, pd: seq<seq<int>>, ghost od: seq<int>,
                  x: seq<DTensor>, j: int): Dual
    requires Typed(op, pd, od) && |x| == |pd|
  {
    match op
    case Identity => DAt(x[0], j)
    case Reshape => DAt(x[0], j)
    case Transpose2D => DAt(x[0], j % pd[0][0] * pd[0][1] + j / pd[0][0])
    case Add => DAdd(DAt(x[0], j), DAt(x[1], j))
    case Multiply => DMul(DAt(x[0], j), DAt(x[1], j))
    case SumAll => NumelPositive(pd[0]); DSum(Numel(pd[0]), DElements(x[0]))
    case Matmul =>
      DSum(pd[0][1], DRowColTerm(x[0], x[1], pd[0][1], pd[1][1], RowOf(j, pd[1][1]), ColOf(j, pd[1][1])))
    case Unary(a) => DActivate(p, a, DAt(x[0], j))
    case SwiGlu => DSwiGluAt(p, x[0], Last(pd[0]), Last(pd[0]) / 2, RowOf(j, Last(pd[0]) / 2), ColOf(j, Last(pd[0]) / 2))
    case Mse =>
      NumelPositive(pd[0]);
      DDiv(DSum(Numel(pd[0]), DSquaredDifference(x[0], x[1])), DConst(Numel(pd[0]) as real))
    case CrossEntropy =>
      DDiv(DSum(pd[0][0] * pd[0][1], DCrossEntropyTerm(p, x[0], x[1], pd[0][1])),
           DConst(pd[0][0] as real))
    case BiasAdd => DAdd(DAt(x[0], j), DAt(x[1], ColOf(j, pd[0][1])))
  }

  /** The Jacobian-vector product: the tangent of the operator's result. */
  function Jvp(p: Primitives, op: Op, pd: seq<seq<int>>, od: seq<int>, x: seq<DTensor>): (r: seq<real>)
    requires Typed(op, pd, od) && |x| == |pd|
    ensures |r| == Numel(od)
  {
    NumelPositive(od);
    seq(Numel(od), j requires Typed(op, pd, od) && |x| == |pd| => DualAt(p, op, pd, od, x, j).d)
  }

  ghost function Values(x: seq<DTensor>): (v: seq<seq<real>>)
    ensures |v| == |x|
  {
    seq(|x|, k requires 0 <= k < |x| => x[k].v)
  }

  // ----- agreement with the real-valued forward pass

  lemma {:induction false} MaxLogitValue(z: DTensor, base: int, n: nat)
    ensures DMaxLogit(z, base, n).v == MaxLogit(z.v, base, n)
  {
    if n > 1 {
      MaxLogitValue(z, base, n - 1);
    }
  }

  function Tangent(f: int -> Dual): int -> real {
    i => f(i).d
  }

  lemma ShiftedExpValue(p: Primitives, z: DTensor, base: int, m: Dual, c: int)
    ensures DShiftedExp(p, z, base, m)(c).v == ShiftedExp(p, z.v, base, m.v)(c)
  {
    var x := DSub(DAt(z, base + c), m);
    assert x.v == Minus(At(z.v, base + c), m.v);
    assert DShiftedExp(p, z, base, m)(c) == DExp(p, x);
    assert DExp(p, x).v == p.exp(x.v);
  }

  lemma DenominatorParts(p: Primitives, z: DTensor, classes: nat, row: int)
    ensures DDenominator(p, z, classes, row)
         == Dual(Denominator(p, z.v, classes, row),
                 Sum(classes, Tangent(DShiftedExp(p, z, Flat(row, 0, classes), DRowMax(z, classes, row)))))
  {
    var base, m := Flat(row, 0, classes), DRowMax(z, classes, row);
    MaxLogitValue(z, base, classes);
    var f, g := DShiftedExp(p, z, base, m), ShiftedExp(p, z.v, base, m.v);
    forall c | 0 <= c < classes ensures f(c) == Dual(g(c), Tangent(f)(c)) {
      ShiftedExpValue(p, z, base, m, c);
    }
    DSumParts(classes, f, g, Tangent(f));
  }

  lemma LogDenominatorValue(p: Primitives, z: DTensor, classes: nat, row: int)
    ensures DLogDenominator(p, z, classes, row).v == LogDenominator(p, z.v, classes, row)
  {
    DenominatorParts(p, z, classes, row);
    MaxLogitValue(z, Flat(row, 0, classes), classes);
  }

  lemma MatmulDualValue(l: DTensor, r: DTensor, k: nat, n: nat, row: int, col: int)
    ensures DSum(k, DRowColTerm(l, r, k, n, row, col)).v == RowCol(l.v, r.v, k, n, row, col)
  {
    var f := DRowColTerm(l, r, k, n, row, col);
    DSumParts(k, f, RowColTerm(l.v, r.v, k, n, row, col), Tangent(f));
  }

  lemma SwiGluDualValue(p: Primitives, x: DTensor, w: int, half: int, row: int, col: int)
    requires Lawful(p)
    ensures DSwiGluAt(p, x, w, half, row, col).v == SwiGluAt(p, x.v, w, half, row, col)
  {
    SlopeIsDerivative(p, Silu, DAt(x, Flat(row, col, w)));
  }

  lemma MseDualValue(n: nat, a: DTensor, b: DTensor)
    ensures DSum(n, DSquaredDifference(a, b)).v == Sum(n, SquaredDifference(a.v, b.v))
  {
    var f := DSquaredDifference(a, b);
    DSumParts(n, f, SquaredDifference(a.v, b.v), Tangent(f));
  }

  lemma CrossTermParts(t: Dual, z: Dual, l: Dual)
    ensures DCrossTerm(t, z, l).v == CrossTerm(t.v, z.v, l.v)
    ensures DCrossTerm(t, z, l).d == CrossTerm(t.d, z.v, l.v) + CrossTerm(t.v, z.d, l.d)
  {
  }

  /** The sum of cross terms, split by the product rule. */
  lemma CrossTermsParts(n: nat, t: DTensor, z: DTensor, l: int -> Dual, lv: int -> real, ld: int -> real)
    requires forall i :: 0 <= i < n ==> l(i) == Dual(lv(i), ld(i))
    ensures DSum(n, DCrossTerms(t, z, l))
         == Dual(Sum(n, CrossTerms(t.v, z.v, lv)),
                 Sum(n, CrossTerms(t.d, z.v, lv)) + Sum(n, CrossTerms(t.v, z.d, ld)))
  {
    var f := DCrossTerms(t, z, l);
    var a, b := CrossTerms(t.d, z.v, lv), CrossTerms(t.v, z.d, ld);
    forall i | 0 <= i < n
      ensures f(i) == Dual(CrossTerms(t.v, z.v, lv)(i), Tangent(f)(i)) && Tangent(f)(i) == a(i) + b(i)
    {
      CrossTermParts(DAt(t, i), DAt(z, i), l(i));
    }
    DSumParts(n, f, CrossTerms(t.v, z.v, lv), Tangent(f));
    SumAdd(n, a, b, Tangent(f));
  }

  lemma LogDenominatorOfValue(p: Primitives, z: DTensor, classes: nat, i: int)
    ensures DLogDenominatorOf(p, z, classes)(i)
         == Dual(LogDenominatorOf(p, z.v, classes)(i), Tangent(DLogDenominatorOf(p, z, classes))(i))
  {
    LogDenominatorValue(p, z, classes, RowOf(i, classes));
  }

  /** Value and tangent of the summed cross-entropy. */
  lemma CrossEntropyParts(p: Primitives, n: nat, classes: nat, z: DTensor, t: DTensor)
    ensures var lv, ld := LogDenominatorOf(p, z.v, classes), Tangent(DLogDenominatorOf(p, z, classes));
            DSum(n, DCrossEntropyTerm(p, z, t, classes))
              == Dual(Sum(n, CrossEntropyTerm(p, z.v, t.v, classes)),
                      Sum(n, CrossTerms(t.d, z.v, lv)) + Sum(n, CrossTerms(t.v, z.d, ld)))
  {
    var l := DLogDenominatorOf(p, z, classes);
    var lv, ld := LogDenominatorOf(p, z.v, classes), Tangent(l);
    forall i | 0 <= i < n ensures l(i) == Dual(lv(i), ld(i)) {
      LogDenominatorOfValue(p, z, classes, i);
    }
    CrossTermsParts(n, t, z, l, lv, ld);
  }

  lemma ScalarDualValue(p: Primitives, op: Op, pd: seq<seq<int>>, od: seq<int>, x: seq<DTensor>)
    requires Typed(op, pd, od) && |x| == |pd| && Sized(pd, Values(x))
    requires op.SumAll? || op.Mse? || op.CrossEntropy?
    ensures Eval(p, op, pd, od, Values(x)) == [DualAt(p, op, pd, od, x, 0).v]
  {
    var v := Values(x);
    match op
    case SumAll =>
      DSumParts(|v[0]|, DElements(x[0]), Elements(v[0]), Tangent(DElements(x[0])));
    case Mse => MseDualValue(|v[0]|, x[0], x[1]);
    case CrossEntropy => CrossEntropyParts(p, pd[0][0] * pd[0][1], pd[0][1], x[0], x[1]);
  }

  lemma GridDualValue(p: Primitives, op: Op, pd: seq<seq<int>>, od: seq<int>, x: seq<DTensor>, j: int)
    requires Typed(op, pd, od) && |x| == |pd| && Sized(pd, Values(x)) && Lawful(p)
    requires op.Matmul? || op.SwiGlu?
    requires 0 <= j < |Eval(p, op, pd, od, Values(x))|
    ensures DualAt(p, op, pd, od, x, j).v == Eval(p, op, pd, od, Values(x))[j]
  {
    match op
    case Matmul =>
      var n := pd[1][1];
      MatmulDualValue(x[0], x[1], pd[0][1], n, RowOf(j, n), ColOf(j, n));
    case SwiGlu =>
      var half := Last(pd[0]) / 2;
      SwiGluDualValue(p, x[0], Last(pd[0]), half, RowOf(j, half), ColOf(j, half));
  }

  /** Evaluating on dual numbers does not disturb the values: the value part of every
      result element is the element the forward pass computes. */
  lemma DualValue(p: Primitives, op: Op, pd: seq<seq<int>>, od: seq<int>, x: seq<DTensor>, j: int)
    requires Typed(op, pd, od) && |x| == |pd| && Sized(pd, Values(x)) && Lawful(p)
    requires 0 <= j < Numel(od)
    ensures j < |Eval(p, op, pd, od, Values(x))|
    ensures DualAt(p, op, pd, od, x, j).v == Eval(p, op, pd, od, Values(x))[j]
  {
    EvalLength(p, op, pd, od, Values(x));
    if op.SumAll? || op.Mse? || op.CrossEntropy? {
      assert Numel([]) == 1;
      ScalarDualValue(p, op, pd, od, x);
    } else if op.Matmul? || op.SwiGlu? {
      GridDualValue(p, op, pd, od, x, j);
    } else if op.Transpose2D? {
      PairOf(pd[0]);
    } else if op.Unary? {
      SlopeIsDerivative(p, op.a, DAt(x[0], j));
    }
  }
}
