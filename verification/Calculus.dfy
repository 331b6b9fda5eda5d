/** Real primitives and first-order forward differentiation by dual numbers.

    A dual number carries a value and a directional derivative.  The arithmetic rules
    below are the sum, product, quotient and chain rules; evaluating a formula on dual
    numbers yields its value and its directional derivative. */
module Calculus {
  import opened RealSums

  /** The transcendental functions and constants the kernels use.  Only the laws listed
      in `Lawful` are relied upon. */
  datatype Functions = Functions(
    exp: real -> real,
    log: real -> real,
    tanh: real -> real,
    erf: real -> real,
    sqrt: real -> real,
    invSqrt2: real,
    invSqrt2Pi: real,
    erfSlope: real)

  ghost predicate ExpPositive(p: Functions) {
    forall x {:trigger p.exp(x)} :: p.exp(x) > 0.0
  }

  /** The exponential is positive, so every denominator in the kernels is nonzero. */
  type Primitives = p: Functions | ExpPositive(p)
    witness Functions(x => 1.0, x => 0.0, x => 0.0, x => 0.0, x => 0.0, 0.0, 0.0, 0.0)

  /** The exponential law and the sign of the square root at `x`, and the relations between
      the GELU constants: 1/sqrt(2) squares to one half, and the slope 2/sqrt(pi) of erf at
      zero scales to 2/sqrt(2 pi). */
  ghost predicate LawAt(p: Primitives, x: real) {
    && p.exp(-x) * p.exp(x) == 1.0
    && p.invSqrt2 * p.invSqrt2 == 0.5
    && p.erfSlope * p.invSqrt2 == 2.0 * p.invSqrt2Pi
    && (x >= 0.0 ==> p.sqrt(x) >= 0.0)
  }

  ghost predicate Lawful(p: Primitives) {
    forall x :: LawAt(p, x)
  }

  datatype Dual = Dual(v: real, d: real)

  function DConst(c: real): Dual { Dual(c, 0.0) }

  function DAdd(x: Dual, y: Dual): Dual { Dual(x.v + y.v, x.d + y.d) }

  function DSub(x: Dual, y: Dual): Dual { Dual(Minus(x.v, y.v), Minus(x.d, y.d)) }

  function DScale(x: Dual, c: real): Dual { Dual(Times(x.v, c), Times(x.d, c)) }

  function DNeg(x: Dual): Dual { Dual(-x.v, -x.d) }

  function DMul(x: Dual, y: Dual): Dual { Dual(Times(x.v, y.v), Times(x.d, y.v) + Times(x.v, y.d)) }

  function DDiv(x: Dual, y: Dual): Dual
    requires y.v != 0.0
  {
    Dual(x.v / y.v, QuotientTangent(x.v, x.d, y.v, y.d))
  }

  /** The quotient rule. */
  function QuotientTangent(x: real, dx: real, y: real, dy: real): real
    requires y != 0.0
  {
    OverProduct(dx * y - x * dy, y, y)
  }

  function OverProduct(n: real, a: real, b: real): real
    requires a != 0.0 && b != 0.0
  {
    n / (a * b)
  }

  /** The product rule is the first-order part of the product of two lines. */
  lemma ProductExpansion(x: Dual, y: Dual, h: real)
    ensures (x.v + h * x.d) * (y.v + h * y.d) == DMul(x, y).v + h * DMul(x, y).d + h * h * (x.d * y.d)
  {
    Spread4(x.v, h * x.d, y.v, h * y.d);
    var a, b := x.d * y.v, x.v * y.d;
    assert h * x.d * y.v == h * a && x.v * (h * y.d) == h * b && h * (a + b) == h * a + h * b;
    assert (h * x.d) * (h * y.d) == h * h * (x.d * y.d);
  }

  lemma Spread4(a: real, b: real, c: real, d: real)
    ensures (a + b) * (c + d) == a * c + b * c + a * d + b * d
  {
  }

  /** The quotient rule: the tangent of the quotient, times the divisor, makes up for the
      divisor's own tangent. */
  lemma QuotientExpansion(x: Dual, y: Dual)
    requires y.v != 0.0
    ensures DMul(DDiv(x, y), y) == x
  {
    var q := x.v / y.v;
    assert q * y.v == x.v;
    QuotientReturns(x.v, x.d, y.v, y.d, q);
  }

  lemma QuotientReturns(x: real, dx: real, y: real, dy: real, q: real)
    requires y != 0.0 && q * y == x
    ensures QuotientTangent(x, dx, y, dy) * y + q * dy == dx
  {
    var n := dx * y - x * dy;
    var t := n / (y * y);
    assert t * (y * y) == n;
    assert (t * y) * y == n;
    assert (t * y + q * dy) * y == n + x * dy by {
      assert q * dy * y == x * dy;
    }
    assert (t * y + q * dy - dx) * y == 0.0;
  }

  function DExp(p: Primitives, x: Dual): Dual { Dual(p.exp(x.v), Times(p.exp(x.v), x.d)) }

  /** The logarithm; its derivative rule is meaningful at nonzero arguments only. */
  function DLog(p: Primitives, x: Dual): Dual {
    Dual(p.log(x.v), Over(x.d, x.v))
  }

  function DTanh(p: Primitives, x: Dual): Dual {
    Dual(p.tanh(x.v), (1.0 - p.tanh(x.v) * p.tanh(x.v)) * x.d)
  }

  function DErf(p: Primitives, x: Dual): Dual {
    Dual(p.erf(x.v), p.erfSlope * p.exp(NegSquare(x.v)) * x.d)
  }

  function NegSquare(x: real): real { -(x * x) }

  function NegHalfSquare(x: real): real { -0.5 * x * x }

  /** The larger of two values; ties keep the first, as `std::max` does. */
  function DMax(x: Dual, y: Dual): Dual { if x.v < y.v then y else x }

  // ----- the scalar activations

  datatype Activation = Relu | Sigmoid | Tanh | Gelu | Silu

  // The product formulas are named so that equal factors give equal results by
  // congruence alone.

  function LogisticOf(e: real): real
    requires e > 0.0
  {
    1.0 / (1.0 + e)
  }

  function LogisticLocal(s: real): real { s * (1.0 - s) }

  function SiluValue(x: real, s: real): real { x * s }

  function SiluLocal(x: real, s: real): real { s * (1.0 + x * (1.0 - s)) }

  function GeluValue(x: real, r: real): real { 0.5 * x * (1.0 + r) }

  function GeluLocal(x: real, r: real, w: real, k: real): real {
    0.5 * (1.0 + r) + x * w * k
  }

  /** The forward formula of each activation. */
  function Activate(p: Primitives, a: Activation, x: real): real {
    match a
    case Relu => if 0.0 < x then x else 0.0
    case Sigmoid =>
      if x >= 0.0 then LogisticOf(p.exp(-x)) else p.exp(x) / (1.0 + p.exp(x))
    case Tanh => p.tanh(x)
    case Gelu => GeluValue(x, p.erf(Times(x, p.invSqrt2)))
    case Silu => SiluValue(x, LogisticOf(p.exp(-x)))
  }

  function DLogistic(p: Primitives, x: Dual): Dual {
    DDiv(DConst(1.0), DAdd(DConst(1.0), DExp(p, DNeg(x))))
  }

  function DLogisticNegative(p: Primitives, x: Dual): Dual {
    DDiv(DExp(p, x), DAdd(DConst(1.0), DExp(p, x)))
  }

  function DGelu(x: Dual, z: Dual): Dual {
    DMul(DMul(DConst(0.5), x), DAdd(DConst(1.0), z))
  }

  /** The same formulas on dual numbers. */
  function DActivate(p: Primitives, a: Activation, x: Dual): Dual {
    match a
    case Relu => DMax(DConst(0.0), x)
    case Sigmoid => if x.v >= 0.0 then DLogistic(p, x) else DLogisticNegative(p, x)
    case Tanh => DTanh(p, x)
    case Gelu => DGelu(x, DErf(p, DScale(x, p.invSqrt2)))
    case Silu => DMul(x, DLogistic(p, x))
  }

  /** The local derivative the backward pass multiplies the upstream gradient with. */
  function Slope(p: Primitives, a: Activation, x: real): real {
    match a
    case Relu => if x > 0.0 then 1.0 else 0.0
    case Sigmoid => LogisticLocal(LogisticOf(p.exp(-x)))
    case Tanh => 1.0 - p.tanh(x) * p.tanh(x)
    case Gelu => GeluLocal(x, p.erf(Times(x, p.invSqrt2)), p.exp(NegHalfSquare(x)), p.invSqrt2Pi)
    case Silu => SiluLocal(x, LogisticOf(p.exp(-x)))
  }

  /** A value whose derivative is a local slope times the incoming derivative. */
  function Chain(value: real, slope: real, d: real): Dual { Dual(value, Times(slope, d)) }

  // ----- algebra, stated on plain reals

  lemma QuotientUnique(a: real, b: real, q: real)
    requires b > 0.0 && q * b == a
    ensures a / b == q
  {
  }

  lemma ProductPositive(b: real, c: real)
    requires b > 0.0 && c > 0.0
    ensures b * c > 0.0
  {
  }

  lemma QuotientOfProduct(a: real, b: real, c: real, q: real)
    requires b > 0.0 && c > 0.0 && q * (b * c) == a
    ensures OverProduct(a, b, c) == q
  {
    ProductPositive(b, c);
    QuotientUnique(a, b * c, q);
  }

  lemma Shuffle(s: real, t: real, x: real, b: real, n: real)
    requires (s * b) * (t * b) == n
    ensures s * t * x * (b * b) == n * x
  {
    assert (s * b) * (t * b) * x == n * x;
    assert s * t * x * (b * b) == (s * b) * (t * b) * x;
  }

  lemma Inverse(b: real)
    requires b != 0.0
    ensures 1.0 / b * b == 1.0
  {
  }

  lemma Complement(s: real, b: real)
    ensures (1.0 - s) * b == b - s * b
  {
  }

  /** (u x)' by the quotient rule, when s = u/b, t = 1 - s and s t b^2 = n. */
  lemma QuotientRule(n: real, s: real, t: real, b: real, x: real, m: real)
    requires b > 0.0 && (s * b) * (t * b) == n && m == n * x
    ensures OverProduct(m, b, b) == s * t * x
  {
    Shuffle(s, t, x, b, n);
    QuotientOfProduct(m, b, b, s * t * x);
  }

  /** s = 1/(1+f) equals e/(1+e) when f e = 1. */
  lemma Reciprocal(e: real, f: real)
    requires e > 0.0 && f > 0.0 && f * e == 1.0
    ensures 1.0 / (1.0 + f) == e / (1.0 + e)
  {
    var s := 1.0 / (1.0 + f);
    Inverse(1.0 + f);
    Distribute(s, f, e);
    QuotientUnique(e, 1.0 + e, s);
  }

  lemma Distribute(s: real, f: real, e: real)
    requires s * (1.0 + f) == 1.0 && f * e == 1.0
    ensures s * (1.0 + e) == e
  {
    assert s * (1.0 + f) * e == s * e + s * (f * e);
  }

  // ----- derivatives of the activations

  /** Derivative of 1/(1+e) with e' = -e x'. */
  lemma LogisticSlope(p: Primitives, x: Dual)
    ensures var s := LogisticOf(p.exp(-x.v));
            DLogistic(p, x) == Chain(s, LogisticLocal(s), x.d)
  {
    LogisticAlgebra(p.exp(-x.v), x.d);
  }

  lemma LogisticAlgebra(e: real, xd: real)
    requires e > 0.0
    ensures DDiv(DConst(1.0), DAdd(DConst(1.0), Dual(e, e * -xd)))
         == Chain(LogisticOf(e), LogisticLocal(LogisticOf(e)), xd)
  {
    var b, s := 1.0 + e, 1.0 / (1.0 + e);
    Inverse(b);
    Complement(s, b);
    QuotientRule(e, s, 1.0 - s, b, xd, 0.0 * b - 1.0 * (0.0 + e * -xd));
  }

  /** Derivative of e/(1+e) with e' = e x', the branch used for negative inputs. */
  lemma LogisticSlopeNegative(p: Primitives, x: Dual)
    requires Lawful(p)
    ensures var s := LogisticOf(p.exp(-x.v));
            p.exp(x.v) / (1.0 + p.exp(x.v)) == s &&
            DLogisticNegative(p, x) == Chain(s, LogisticLocal(s), x.d)
  {
    var e := p.exp(x.v);
    var f := p.exp(-x.v);
    assert LawAt(p, x.v);
    Reciprocal(e, f);
    LogisticNegativeAlgebra(e, x.d);
  }

  lemma LogisticNegativeAlgebra(e: real, xd: real)
    requires e > 0.0
    ensures DDiv(Dual(e, e * xd), DAdd(DConst(1.0), Dual(e, e * xd)))
         == Chain(e / (1.0 + e), LogisticLocal(e / (1.0 + e)), xd)
  {
    var b, s := 1.0 + e, e / (1.0 + e);
    assert s * b == e;
    Complement(s, b);
    Cancel(e, xd);
    QuotientRule(e, s, 1.0 - s, b, xd, e * xd * b - e * (0.0 + e * xd));
  }

  lemma Cancel(e: real, xd: real)
    ensures e * xd * (1.0 + e) - e * (0.0 + e * xd) == e * xd
  {
  }

  lemma SigmoidSlope(p: Primitives, x: Dual)
    requires Lawful(p)
    ensures DActivate(p, Sigmoid, x) == Chain(Activate(p, Sigmoid, x.v), Slope(p, Sigmoid, x.v), x.d)
  {
    if x.v >= 0.0 {
      LogisticSlope(p, x);
    } else {
      LogisticSlopeNegative(p, x);
    }
  }

  lemma GeluAlgebra(x: Dual, z: Dual, c: real, k: real, slope: real, w: real)
    requires slope * c == 2.0 * k && z.d == slope * w * (x.d * c)
    ensures DGelu(x, z) == Chain(GeluValue(x.v, z.v), GeluLocal(x.v, z.v, w, k), x.d)
  {
    assert slope * w * (x.d * c) == (slope * c) * (w * x.d);
    assert 0.5 * x.v * (2.0 * k * (w * x.d)) == x.v * w * k * x.d;
  }

  lemma HalfSquare(x: real, c: real, y: real)
    requires c * c == 0.5 && y == x * c
    ensures NegSquare(y) == NegHalfSquare(x)
  {
    assert (x * c) * (x * c) == (c * c) * (x * x);
  }

  lemma ErfScaled(p: Primitives, x: Dual, y: Dual, w: real)
    requires Lawful(p)
    requires y.v == x.v * p.invSqrt2 && y.d == x.d * p.invSqrt2 && w == p.exp(NegHalfSquare(x.v))
    ensures DErf(p, y) == Dual(p.erf(y.v), p.erfSlope * w * (x.d * p.invSqrt2))
  {
    assert LawAt(p, 0.0);
    HalfSquare(x.v, p.invSqrt2, y.v);
  }

  lemma GeluConstants(p: Primitives)
    requires Lawful(p)
    ensures p.erfSlope * p.invSqrt2 == 2.0 * p.invSqrt2Pi
  {
    assert LawAt(p, 0.0);
  }

  lemma GeluSlope(p: Primitives, x: Dual)
    requires Lawful(p)
    ensures DActivate(p, Gelu, x) == Chain(Activate(p, Gelu, x.v), Slope(p, Gelu, x.v), x.d)
  {
    var y := DScale(x, p.invSqrt2);
    var w := p.exp(NegHalfSquare(x.v));
    ErfScaled(p, x, y, w);
    GeluConstants(p);
    GeluAlgebra(x, DErf(p, y), p.invSqrt2, p.invSqrt2Pi, p.erfSlope, w);
  }

  lemma SiluProduct(x: Dual, s: real)
    ensures DMul(x, Chain(s, LogisticLocal(s), x.d))
         == Chain(SiluValue(x.v, s), SiluLocal(x.v, s), x.d)
  {
  }

  /** The coded local derivative of every activation is the dual-number derivative of its
      coded forward formula. */
  lemma SlopeIsDerivative(p: Primitives, a: Activation, x: Dual)
    requires Lawful(p)
    ensures DActivate(p, a, x) == Chain(Activate(p, a, x.v), Slope(p, a, x.v), x.d)
  {
    match a
    case Relu =>
    case Sigmoid => SigmoidSlope(p, x);
    case Tanh =>
    case Gelu => GeluSlope(p, x);
    case Silu =>
      LogisticSlope(p, x);
      SiluProduct(x, LogisticOf(p.exp(-x.v)));
  }
}
