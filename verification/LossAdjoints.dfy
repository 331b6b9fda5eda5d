/** Adjointness of the two losses.  The cross-entropy logits gradient is probability minus
    target; it is the derivative exactly when every target row sums to one. */
module LossAdjoints {
  import opened RealSums
  import opened Calculus
  import opened Operators
  import opened Duals
  import opened Vjps
  import opened Adjoints

  lemma QuotientTangentIs(x: real, dx: real, y: real, dy: real, q: real)
    requires y > 0.0 && q * (y * y) == dx * y - x * dy
    ensures QuotientTangent(x, dx, y, dy) == q
  {
    QuotientOfProduct(dx * y - x * dy, y, y, q);
  }

  lemma DivideByConstant(x: real, dx: real, c: real)
    requires c > 0.0
    ensures QuotientTangent(x, dx, c, 0.0) == dx / c
  {
    var q := dx / c;
    assert q * c == dx;
    assert q * (c * c) == dx * c;
    QuotientTangentIs(x, dx, c, 0.0, q);
  }

  // ----- mean squared error

  /** Difference times difference of tangents. */
  function DifferenceTangent(a: DTensor, b: DTensor): int -> real {
    i => Times(Minus(At(a.v, i), At(b.v, i)), Minus(At(a.d, i), At(b.d, i)))
  }

  lemma SquareTangent(a: DTensor, b: DTensor, i: int)
    ensures DSquaredDifference(a, b)(i).d == Times(2.0, DifferenceTangent(a, b)(i))
  {
  }

  lemma ScaleAlgebra(g: real, h: real, n: real)
    requires n > 0.0
    ensures Times(g, Times(2.0, h) / n) == Times(2.0 * g / n, h)
  {
    var q := 2.0 * h / n;
    var s := 2.0 * g / n;
    assert q * n == 2.0 * h && s * n == 2.0 * g;
    assert g * q * n == s * h * n;
  }

  lemma MsePoint(scale: real, a: real, b: real, da: real, db: real)
    ensures Times(scale, Times(Minus(a, b), Minus(da, db)))
         == Times(Times(scale, Minus(a, b)), da) + Times(Times(-scale, Minus(a, b)), db)
  {
  }

  lemma MseAdjoint(n: nat, a: DTensor, b: DTensor, g: seq<real>, j: seq<real>)
    requires n > 0 && |a.v| == |a.d| == |b.v| == |b.d| == n && |g| == |j| == 1
    requires j[0] == DDiv(DSum(n, DSquaredDifference(a, b)), DConst(n as real)).d
    ensures Dot(g, j) == Dot(MseVjp(a.v, b.v, g, 0), a.d) + Dot(MseVjp(a.v, b.v, g, 1), b.d)
  {
    var f, h := DSquaredDifference(a, b), DifferenceTangent(a, b);
    var scale := MseScale(g, n);
    DotSingle(g, j);
    assert j[0] == Times(2.0, Sum(n, h)) / n as real by {
      DivideByConstant(DSum(n, f).v, DSum(n, f).d, n as real);
      DSumParts(n, f, SquaredDifference(a.v, b.v), Tangent(f));
      forall i | 0 <= i < n ensures Tangent(f)(i) == Times(2.0, h(i)) {
        SquareTangent(a, b, i);
      }
      SumScale(n, 2.0, h, Tangent(f));
    }
    ScaleAlgebra(g[0], Sum(n, h), n as real);
    MseSplit(n, a, b, scale);
  }

  lemma MseSplit(n: nat, a: DTensor, b: DTensor, scale: real)
    requires |a.v| == |a.d| == |b.v| == |b.d| == n
    ensures Times(scale, Sum(n, DifferenceTangent(a, b)))
         == Dot(ScaledDifference(scale, a.v, b.v), a.d) + Dot(ScaledDifference(-scale, a.v, b.v), b.d)
  {
    var h := DifferenceTangent(a, b);
    var u, w := ScaledDifference(scale, a.v, b.v), ScaledDifference(-scale, a.v, b.v);
    var k := (i: int) => Times(scale, h(i));
    SumScale(n, scale, h, k);
    forall i | 0 <= i < n ensures k(i) == Pairwise(u, a.d)(i) + Pairwise(w, b.d)(i) {
      MsePoint(scale, At(a.v, i), At(b.v, i), At(a.d, i), At(b.d, i));
    }
    SumAdd(n, Pairwise(u, a.d), Pairwise(w, b.d), k);
  }

  // ----- cross-entropy

  function RowSum(t: seq<real>, classes: nat, row: int): real {
    Sum(classes, Row(Grid(t, classes), row))
  }

  ghost predicate Normalised(t: seq<real>, batch: nat, classes: nat) {
    forall row :: 0 <= row < batch ==> RowSum(t, classes, row) == 1.0
  }

  /** The tangent of a row's log-denominator. */
  function LogTangent(p: Primitives, z: DTensor, classes: nat): int -> real {
    row => DLogDenominator(p, z, classes, row).d
  }

  /** Logit tangents, seen from the start of a row. */
  function Shifted(d: seq<real>, base: int): int -> real {
    c => At(d, base + c)
  }

  function Products(e: int -> real, d: int -> real): int -> real {
    c => Times(e(c), d(c))
  }

  function Probabilities(p: Primitives, z: seq<real>, classes: nat, row: int): int -> real {
    c => Probability(p, z, classes, Flat(row, c, classes))
  }

  function ProbabilityTangent(p: Primitives, z: DTensor, classes: nat): (int, int) -> real {
    (row, c) => Times(Probabilities(p, z.v, classes, row)(c), Shifted(z.d, Flat(row, 0, classes))(c))
  }

  lemma ShiftPoint(e: real, d: real, m: real)
    ensures Times(e, Minus(d, m)) == Times(e, d) + Times(-m, e)
  {
  }

  /** Shifting every tangent by `m` shifts the weighted sum by `m` times the weights. */
  lemma ShiftedSum(n: nat, e: int -> real, d: int -> real, m: real, f: int -> real)
    requires forall c :: 0 <= c < n ==> f(c) == Times(e(c), Minus(d(c), m))
    ensures Sum(n, f) == Sum(n, Products(e, d)) + Times(-m, Sum(n, e))
  {
    var k := (c: int) => Times(-m, e(c));
    SumScale(n, -m, e, k);
    forall c | 0 <= c < n ensures f(c) == Products(e, d)(c) + k(c) {
      ShiftPoint(e(c), d(c), m);
    }
    SumAdd(n, Products(e, d), k, f);
  }

  lemma ShiftedExpTangent(p: Primitives, z: DTensor, base: int, m: Dual, c: int)
    ensures DShiftedExp(p, z, base, m)(c).d
         == Times(ShiftedExp(p, z.v, base, m.v)(c), Minus(Shifted(z.d, base)(c), m.d))
  {
    var x := DSub(DAt(z, base + c), m);
    assert x.v == Minus(At(z.v, base + c), m.v);
    assert x.d == Minus(At(z.d, base + c), m.d);
    assert DShiftedExp(p, z, base, m)(c) == DExp(p, x);
    assert DExp(p, x).d == Times(p.exp(x.v), x.d);
  }

  /** The tangent of a row's denominator. */
  lemma DenominatorTangent(p: Primitives, z: DTensor, classes: nat, row: int, base: int, m: Dual,
                           e: int -> real)
    requires base == Flat(row, 0, classes) && m == DRowMax(z, classes, row)
    requires e == ShiftedExp(p, z.v, base, m.v)
    ensures DDenominator(p, z, classes, row)
         == Dual(Denominator(p, z.v, classes, row),
                 Sum(classes, Products(e, Shifted(z.d, base)))
                 + Times(-m.d, Denominator(p, z.v, classes, row)))
    ensures Denominator(p, z.v, classes, row) == Sum(classes, e)
  {
    DenominatorParts(p, z, classes, row);
    MaxLogitValue(z, base, classes);
    var f := Tangent(DShiftedExp(p, z, base, m));
    forall c | 0 <= c < classes ensures f(c) == Times(e(c), Minus(Shifted(z.d, base)(c), m.d)) {
      ShiftedExpTangent(p, z, base, m, c);
    }
    ShiftedSum(classes, e, Shifted(z.d, base), m.d, f);
  }

  /** (E - m D)/D + m = E/D. */
  lemma ShiftCancels(e: real, m: real, den: real)
    requires den > 0.0
    ensures Over(e + Times(-m, den), den) + m == Over(e, den)
  {
    var q := e / den;
    assert q * den == e;
    QuotientUnique(e + Times(-m, den), den, q - m);
  }

  lemma LogTangentIs(p: Primitives, z: DTensor, classes: nat, row: int, e: int -> real, base: int)
    requires classes > 0 && base == Flat(row, 0, classes)
    requires e == ShiftedExp(p, z.v, base, DRowMax(z, classes, row).v)
    ensures LogTangent(p, z, classes)(row)
         == Over(Sum(classes, Products(e, Shifted(z.d, base))), Sum(classes, e))
  {
    var m := DRowMax(z, classes, row);
    DenominatorTangent(p, z, classes, row, base, m, e);
    DenominatorPositive(p, z.v, classes, row);
    ShiftCancels(Sum(classes, Products(e, Shifted(z.d, base))), m.d, Sum(classes, e));
  }

  lemma QuotientTimes(a: real, b: real, d: real)
    requires d > 0.0
    ensures Times(Over(a, d), b) == Times(Over(1.0, d), Times(a, b))
  {
    var q, i := a / d, 1.0 / d;
    assert q * d == a && i * d == 1.0;
    assert q == i * a;
  }

  lemma InverseTimes(e: real, d: real)
    requires d > 0.0
    ensures Times(Over(1.0, d), e) == Over(e, d)
  {
    var i := 1.0 / d;
    assert i * d == 1.0;
    QuotientUnique(e, d, i * e);
  }

  /** Weights e(c)/den: dividing first or last is the same. */
  lemma DividedWeights(n: nat, pr: int -> real, d: int -> real, e: int -> real, den: real, r: int -> real)
    requires den > 0.0
    requires forall c :: 0 <= c < n ==> pr(c) == Over(e(c), den)
    requires forall c :: 0 <= c < n ==> r(c) == Times(pr(c), d(c))
    ensures Sum(n, r) == Over(Sum(n, Products(e, d)), den)
  {
    var f := Products(e, d);
    forall c | 0 <= c < n ensures r(c) == Times(Over(1.0, den), f(c)) {
      QuotientTimes(e(c), d(c), den);
    }
    SumScale(n, Over(1.0, den), f, r);
    InverseTimes(Sum(n, f), den);
  }

  lemma RowIndex(batch: nat, classes: nat, row: int, c: int)
    requires 0 <= c < classes && 0 <= row < batch
    ensures Flat(row, 0, classes) + c == Flat(row, c, classes)
    ensures RowOf(Flat(row, c, classes), classes) == row
  {
    DivMod(row, c, classes);
  }

  lemma ProbabilityAt(p: Primitives, z: seq<real>, classes: nat, row: int, c: int, base: int)
    requires base + c == Flat(row, c, classes) && RowOf(base + c, classes) == row
    ensures Probabilities(p, z, classes, row)(c)
         == Over(ShiftedExp(p, z, base, RowMax(z, classes, row))(c), Denominator(p, z, classes, row))
  {
    assert Probabilities(p, z, classes, row)(c) == Probability(p, z, classes, base + c);
  }

  /** Weighting by probabilities is weighting by exponentials and dividing. */
  lemma ProbabilityWeights(p: Primitives, z: DTensor, batch: nat, classes: nat, row: int,
                           base: int, e: int -> real, den: real)
    requires 0 <= row < batch && base == Flat(row, 0, classes)
    requires e == ShiftedExp(p, z.v, base, RowMax(z.v, classes, row))
    requires den == Denominator(p, z.v, classes, row) && den > 0.0
    ensures Sum(classes, Row(ProbabilityTangent(p, z, classes), row))
         == Over(Sum(classes, Products(e, Shifted(z.d, base))), den)
  {
    var pr, d := Probabilities(p, z.v, classes, row), Shifted(z.d, base);
    var r := Row(ProbabilityTangent(p, z, classes), row);
    forall c | 0 <= c < classes ensures pr(c) == Over(e(c), den) {
      RowIndex(batch, classes, row, c);
      ProbabilityAt(p, z.v, classes, row, c, base);
    }
    DividedWeights(classes, pr, d, e, den, r);
  }

  /** The log-denominator's tangent is the probability-weighted tangent of the logits: the
      shift by the row maximum cancels. */
  lemma SoftmaxTangent(p: Primitives, z: DTensor, batch: nat, classes: nat, row: int)
    requires classes > 0 && 0 <= row < batch
    ensures LogTangent(p, z, classes)(row) == Sum(classes, Row(ProbabilityTangent(p, z, classes), row))
  {
    var base := Flat(row, 0, classes);
    MaxLogitValue(z, base, classes);
    var e := ShiftedExp(p, z.v, base, RowMax(z.v, classes, row));
    LogTangentIs(p, z, classes, row, e, base);
    DenominatorPositive(p, z.v, classes, row);
    ProbabilityWeights(p, z, batch, classes, row, base, e, Sum(classes, e));
  }

  // ----- the cross-entropy identity and its gap

  /** Target times log-denominator tangent, minus probability times logit tangent. */
  function Excess(pr: int -> real, dl: int -> real, dz: seq<real>, t: seq<real>): int -> real {
    i => Minus(Times(At(t, i), dl(i)), Times(pr(i), At(dz, i)))
  }

  function RowExcess(l: real, t: int -> real, pt: int -> real): int -> real {
    c => Minus(Times(l, t(c)), pt(c))
  }

  function ExcessGrid(dl: int -> real, t: (int, int) -> real, pt: (int, int) -> real): (int, int) -> real {
    (row, c) => RowExcess(dl(row), Row(t, row), Row(pt, row))(c)
  }

  /** How far a row's mass is from one, times the row's log-denominator tangent. */
  function GapOf(sums: int -> real, rows: int -> real): int -> real {
    row => Times(Minus(sums(row), 1.0), rows(row))
  }

  function Gap(p: Primitives, z: DTensor, t: seq<real>, classes: nat): int -> real {
    GapOf(RowSums(Grid(t, classes), classes), LogTangent(p, z, classes))
  }

  lemma ProbabilityTangentIs(p: Primitives, z: DTensor, batch: nat, classes: nat, row: int, c: int)
    requires 0 <= row < batch && 0 <= c < classes
    ensures ProbabilityTangent(p, z, classes)(row, c)
         == Times(ProbabilityOf(p, z.v, classes)(Flat(row, c, classes)), At(z.d, Flat(row, c, classes)))
  {
    RowIndex(batch, classes, row, c);
    assert Shifted(z.d, Flat(row, 0, classes))(c) == At(z.d, Flat(row, c, classes));
  }

  lemma LogTangentAt(p: Primitives, z: DTensor, batch: nat, classes: nat, row: int, c: int)
    requires 0 <= row < batch && 0 <= c < classes
    ensures Tangent(DLogDenominatorOf(p, z, classes))(Flat(row, c, classes)) == LogTangent(p, z, classes)(row)
  {
    RowIndex(batch, classes, row, c);
  }

  lemma MinusSum(n: nat, f: int -> real, g: int -> real, h: int -> real)
    requires forall i :: 0 <= i < n ==> h(i) == Minus(f(i), g(i))
    ensures Sum(n, h) == Minus(Sum(n, f), Sum(n, g))
  {
    SumAdd(n, h, g, f);
  }

  lemma GapPoint(s: real, l: real)
    ensures Minus(Times(l, s), l) == Times(Minus(s, 1.0), l)
  {
  }

  lemma RowExcessSum(n: nat, l: real, t: int -> real, pt: int -> real)
    requires Sum(n, pt) == l
    ensures Sum(n, RowExcess(l, t, pt)) == Times(Minus(Sum(n, t), 1.0), l)
  {
    var f := (c: int) => Times(l, t(c));
    SumScale(n, l, t, f);
    MinusSum(n, f, pt, RowExcess(l, t, pt));
    GapPoint(Sum(n, t), l);
  }

  lemma ExcessRows(batch: nat, classes: nat, rows: int -> real, t: (int, int) -> real,
                   pt: (int, int) -> real)
    requires forall row :: 0 <= row < batch ==> Sum(classes, Row(pt, row)) == rows(row)
    ensures Sum2(batch, classes, ExcessGrid(rows, t, pt)) == Sum(batch, GapOf(RowSums(t, classes), rows))
  {
    var grid := ExcessGrid(rows, t, pt);
    forall row | 0 <= row < batch
      ensures RowSums(grid, classes)(row) == GapOf(RowSums(t, classes), rows)(row)
    {
      RowExcessSum(classes, rows(row), Row(t, row), Row(pt, row));
      SumCong(classes, Row(grid, row), RowExcess(rows(row), Row(t, row), Row(pt, row)));
    }
    SumCong(batch, RowSums(grid, classes), GapOf(RowSums(t, classes), rows));
  }

  lemma ExcessPoint(p: Primitives, z: DTensor, t: seq<real>, batch: nat, classes: nat, row: int, c: int)
    requires 0 <= row < batch && 0 <= c < classes
    ensures ExcessGrid(LogTangent(p, z, classes), Grid(t, classes), ProbabilityTangent(p, z, classes))(row, c)
         == Excess(ProbabilityOf(p, z.v, classes), Tangent(DLogDenominatorOf(p, z, classes)), z.d, t)
              (Flat(row, c, classes))
  {
    var i := Flat(row, c, classes);
    var pr, dl := ProbabilityOf(p, z.v, classes), Tangent(DLogDenominatorOf(p, z, classes));
    var rows, pt := LogTangent(p, z, classes), ProbabilityTangent(p, z, classes);
    ProbabilityTangentIs(p, z, batch, classes, row, c);
    LogTangentAt(p, z, batch, classes, row, c);
    TimesCommutes(rows(row), At(t, i));
    ExcessUnfold(pr, dl, z.d, t, rows, pt, classes, row, c, i);
  }

  lemma ExcessUnfold(pr: int -> real, dl: int -> real, dz: seq<real>, t: seq<real>,
                     rows: int -> real, pt: (int, int) -> real, classes: nat, row: int, c: int, i: int)
    requires i == Flat(row, c, classes)
    requires pt(row, c) == Times(pr(i), At(dz, i)) && dl(i) == rows(row)
    requires Times(rows(row), At(t, i)) == Times(At(t, i), dl(i))
    ensures ExcessGrid(rows, Grid(t, classes), pt)(row, c) == Excess(pr, dl, dz, t)(i)
  {
    assert Row(pt, row)(c) == pt(row, c);
    assert Row(Grid(t, classes), row)(c) == At(t, i);
    var l, w := Times(At(t, i), dl(i)), Times(pr(i), At(dz, i));
    assert RowExcess(rows(row), Row(Grid(t, classes), row), Row(pt, row))(c) == Minus(l, w);
    assert Excess(pr, dl, dz, t)(i) == Minus(l, w);
  }

  /** Summed over the batch, the excess is the gap of the target rows. */
  lemma ExcessIsGap(p: Primitives, z: DTensor, t: seq<real>, batch: nat, classes: nat)
    requires classes > 0
    ensures Sum(batch * classes,
                Excess(ProbabilityOf(p, z.v, classes), Tangent(DLogDenominatorOf(p, z, classes)), z.d, t))
         == Sum(batch, Gap(p, z, t, classes))
  {
    var e := Excess(ProbabilityOf(p, z.v, classes), Tangent(DLogDenominatorOf(p, z, classes)), z.d, t);
    var rows, pt := LogTangent(p, z, classes), ProbabilityTangent(p, z, classes);
    forall row, c | 0 <= row < batch && 0 <= c < classes
      ensures ExcessGrid(rows, Grid(t, classes), pt)(row, c) == e(Flat(row, c, classes))
    {
      ExcessPoint(p, z, t, batch, classes, row, c);
    }
    SumFlat(batch, classes, e, ExcessGrid(rows, Grid(t, classes), pt));
    forall row | 0 <= row < batch ensures Sum(classes, Row(pt, row)) == rows(row) {
      SoftmaxTangent(p, z, batch, classes, row);
    }
    ExcessRows(batch, classes, rows, Grid(t, classes), pt);
  }

  lemma TargetPoint(scale: real, z: real, l: real, dt: real)
    ensures Times(Times(-scale, Minus(z, l)), dt) == Times(scale, CrossTerm(dt, z, l))
  {
  }

  lemma LogitsPoint(scale: real, pr: real, t: real, dz: real, dl: real)
    ensures Times(scale, CrossTerm(t, dz, dl))
         == Times(Times(scale, Minus(pr, t)), dz) + Times(scale, Minus(Times(t, dl), Times(pr, dz)))
  {
  }

  lemma TargetDot(l: int -> real, z: seq<real>, dt: seq<real>, scale: real)
    ensures Dot(TargetWith(l, z, |dt|, scale), dt) == Times(scale, Sum(|dt|, CrossTerms(dt, z, l)))
  {
    var o, f := TargetWith(l, z, |dt|, scale), CrossTerms(dt, z, l);
    forall i | 0 <= i < |dt| ensures Pairwise(o, dt)(i) == Times(scale, f(i)) {
      TargetPoint(scale, At(z, i), l(i), At(dt, i));
    }
    SumScale(|dt|, scale, f, Pairwise(o, dt));
  }

  lemma LogitsDot(pr: int -> real, dl: int -> real, t: seq<real>, dz: seq<real>, scale: real)
    ensures Times(scale, Sum(|dz|, CrossTerms(t, dz, dl)))
         == Dot(LogitsWith(pr, t, |dz|, scale), dz) + Times(scale, Sum(|dz|, Excess(pr, dl, dz, t)))
  {
    var n := |dz|;
    var o, f, e := LogitsWith(pr, t, n, scale), CrossTerms(t, dz, dl), Excess(pr, dl, dz, t);
    var sf := (i: int) => Times(scale, f(i));
    var se := (i: int) => Times(scale, e(i));
    SumScale(n, scale, f, sf);
    SumScale(n, scale, e, se);
    forall i | 0 <= i < n ensures sf(i) == Pairwise(o, dz)(i) + se(i) {
      LogitsPoint(scale, pr(i), At(t, i), At(dz, i), dl(i));
    }
    SumAdd(n, Pairwise(o, dz), se, sf);
  }

  lemma MeanScale(g: real, s: real, n: real)
    requires n > 0.0
    ensures Times(g, s / n) == Times(g / n, s)
  {
    var q, h := s / n, g / n;
    assert q * n == s && h * n == g;
    assert g * q == h * n * q;
  }

  lemma LossScale(g: seq<real>, j: seq<real>, s: Dual, batch: nat)
    requires batch > 0 && |g| == |j| == 1 && j[0] == DDiv(s, DConst(batch as real)).d
    ensures Dot(g, j) == Times(CrossEntropyScale(g, batch), s.d)
  {
    DotSingle(g, j);
    DivideByConstant(s.v, s.d, batch as real);
    MeanScale(g[0], s.d, batch as real);
  }

  /** The exact relation between the coded gradients and the true derivative: they differ
      by the upstream scale times the gap of the target rows. */
  lemma CrossEntropyGap(p: Primitives, z: DTensor, t: DTensor, batch: nat, classes: nat,
                        g: seq<real>, j: seq<real>)
    requires batch > 0 && classes > 0 && |g| == |j| == 1
    requires |z.v| == |z.d| == |t.v| == |t.d| == batch * classes
    requires j[0] == DDiv(DSum(batch * classes, DCrossEntropyTerm(p, z, t, classes)),
                          DConst(batch as real)).d
    ensures Dot(g, j) == Dot(CrossEntropyVjp(p, z.v, t.v, batch, classes, g, 0), z.d)
                         + Dot(CrossEntropyVjp(p, z.v, t.v, batch, classes, g, 1), t.d)
                         + Times(CrossEntropyScale(g, batch), Sum(batch, Gap(p, z, t.v, classes)))
  {
    var n, scale := |z.v|, CrossEntropyScale(g, batch);
    var pr, l := ProbabilityOf(p, z.v, classes), LogDenominatorOf(p, z.v, classes);
    var dl := Tangent(DLogDenominatorOf(p, z, classes));
    var fromTarget, fromLogits := Sum(n, CrossTerms(t.d, z.v, l)), Sum(n, CrossTerms(t.v, z.d, dl));
    assert Dot(g, j) == Times(scale, fromTarget + fromLogits) by {
      LossScale(g, j, DSum(n, DCrossEntropyTerm(p, z, t, classes)), batch);
      CrossEntropyParts(p, n, classes, z, t);
    }
    TimesDistributes(scale, fromTarget, fromLogits);
    assert Times(scale, fromTarget) == Dot(CrossEntropyVjp(p, z.v, t.v, batch, classes, g, 1), t.d) by {
      TargetDot(l, z.v, t.d, scale);
    }
    assert Times(scale, fromLogits) == Dot(CrossEntropyVjp(p, z.v, t.v, batch, classes, g, 0), z.d)
                                       + Times(scale, Sum(n, Excess(pr, dl, z.d, t.v))) by {
      LogitsDot(pr, dl, t.v, z.d, scale);
    }
    ExcessIsGap(p, z, t.v, batch, classes);
  }

  lemma ZeroLogTangent(p: Primitives, z: DTensor, batch: nat, classes: nat, row: int)
    requires classes > 0 && 0 <= row < batch
    requires forall i :: At(z.d, i) == 0.0
    ensures LogTangent(p, z, classes)(row) == 0.0
  {
    SoftmaxTangent(p, z, batch, classes, row);
    var f := Row(ProbabilityTangent(p, z, classes), row);
    forall c | 0 <= c < classes ensures f(c) == 0.0 {
      ProbabilityTangentIs(p, z, batch, classes, row, c);
    }
    SumZero(classes, f);
  }

  lemma ZeroGap(sums: int -> real, rows: int -> real, row: int)
    requires sums(row) == 1.0 || rows(row) == 0.0
    ensures GapOf(sums, rows)(row) == 0.0
  {
  }

  /** The gap closes for normalised targets, and for logits that do not move. */
  lemma GapVanishes(p: Primitives, z: DTensor, t: seq<real>, batch: nat, classes: nat)
    requires classes > 0
    requires Normalised(t, batch, classes) || (forall i :: At(z.d, i) == 0.0)
    ensures Sum(batch, Gap(p, z, t, classes)) == 0.0
  {
    var sums, rows := RowSums(Grid(t, classes), classes), LogTangent(p, z, classes);
    forall row | 0 <= row < batch ensures GapOf(sums, rows)(row) == 0.0 {
      if Normalised(t, batch, classes) {
        assert RowSum(t, classes, row) == 1.0;
      } else {
        ZeroLogTangent(p, z, batch, classes, row);
      }
      ZeroGap(sums, rows, row);
    }
    SumZero(batch, GapOf(sums, rows));
  }
}
