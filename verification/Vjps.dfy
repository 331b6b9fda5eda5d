/** Vector-Jacobian products: the gradient each operator sends to each operand, as the
    backward pass computes it from the upstream gradient and the saved operand values. */
module Vjps {
  import opened RealSums
  import opened Shapes
  import opened ViewChains
  import opened Calculus
  import opened Operators

  function RowRowTerm(g: seq<real>, r: seq<real>, n: int, row: int, inner: int): int -> real {
    col => Times(At(g, Flat(row, col, n)), At(r, Flat(inner, col, n)))
  }

  function LeftEntries(g: seq<real>, r: seq<real>, n: nat): (int, int) -> real {
    (row, inner) => Sum(n, RowRowTerm(g, r, n, row, inner))
  }

  /** Gradient of a matrix product with respect to its left operand. */
  function MatmulLeft(g: seq<real>, r: seq<real>, m: nat, k: nat, n: nat): (o: seq<real>)
    ensures |o| == m * k
  {
    Tabulate(m, k, LeftEntries(g, r, n))
  }

  function ColColTerm(l: seq<real>, g: seq<real>, k: int, n: int, inner: int, col: int): int -> real {
    row => Times(At(l, Flat(row, inner, k)), At(g, Flat(row, col, n)))
  }

  function RightEntries(l: seq<real>, g: seq<real>, m: nat, k: nat, n: nat): (int, int) -> real {
    (inner, col) => Sum(m, ColColTerm(l, g, k, n, inner, col))
  }

  /** Gradient of a matrix product with respect to its right operand. */
  function MatmulRight(l: seq<real>, g: seq<real>, m: nat, k: nat, n: nat): (o: seq<real>)
    ensures |o| == k * n
  {
    Tabulate(k, n, RightEntries(l, g, m, k, n))
  }

  function Slopes(p: Primitives, a: Activation, x: seq<real>): int -> real {
    i => Slope(p, a, At(x, i))
  }

  function ScaledBy(g: seq<real>, f: int -> real): (r: seq<real>)
    ensures |r| == |g|
  {
    seq(|g|, i => Times(At(g, i), f(i)))
  }

  function ActivationVjp(p: Primitives, a: Activation, x: seq<real>, g: seq<real>): (r: seq<real>)
    ensures |r| == |g|
  {
    ScaledBy(g, Slopes(p, a, x))
  }

  /** Activated left halves and their slopes, as grids of width `w`. */
  function SiluGrid(p: Primitives, x: seq<real>, w: int): (int, int) -> real {
    (row, c) => SiluOf(p, At(x, Flat(row, c, w)))
  }

  function SlopeGrid(p: Primitives, x: seq<real>, w: int): (int, int) -> real {
    (row, c) => Slope(p, Silu, At(x, Flat(row, c, w)))
  }

  function GatedLeft(x: seq<real>, g: seq<real>, w: int, half: int,
                     slope: (int, int) -> real): (int, int) -> real {
    (row, c) => Times(Times(At(g, Flat(row, c, half)), At(x, Flat(row, half + c, w))), slope(row, c))
  }

  function GatedRight(g: seq<real>, half: int, silu: (int, int) -> real): (int, int) -> real {
    (row, c) => Times(At(g, Flat(row, c, half)), silu(row, c))
  }

  function GatedEntries(half: int, left: (int, int) -> real, right: (int, int) -> real): (int, int) -> real {
    (row, c) => if c < half then left(row, c) else right(row, c - half)
  }

  function GatedVjp(x: seq<real>, g: seq<real>, rows: nat, w: nat, half: nat,
                    silu: (int, int) -> real, slope: (int, int) -> real): (r: seq<real>)
    ensures |r| == rows * w
  {
    Tabulate(rows, w, GatedEntries(half, GatedLeft(x, g, w, half, slope), GatedRight(g, half, silu)))
  }

  function SwiGluVjp(p: Primitives, x: seq<real>, g: seq<real>, rows: nat, w: nat, half: nat): (r: seq<real>)
    ensures |r| == rows * w
  {
    GatedVjp(x, g, rows, w, half, SiluGrid(p, x, w), SlopeGrid(p, x, w))
  }

  /** `scale` times the elementwise difference. */
  function ScaledDifference(scale: real, a: seq<real>, b: seq<real>): (r: seq<real>)
    ensures |r| == |a|
  {
    seq(|a|, i => Times(scale, Minus(At(a, i), At(b, i))))
  }

  function MseScale(g: seq<real>, n: nat): real {
    if n == 0 then 0.0 else 2.0 * At(g, 0) / n as real
  }

  function MseVjp(a: seq<real>, b: seq<real>, g: seq<real>, k: nat): seq<real> {
    var scale := MseScale(g, |a|);
    if k == 0 then ScaledDifference(scale, a, b) else ScaledDifference(-scale, a, b)
  }

  /** The softmax probability of element `j`. */
  function Probability(p: Primitives, z: seq<real>, classes: nat, j: int): real {
    var row := RowOf(j, classes);
    var den := Denominator(p, z, classes, row);
    Over(p.exp(Minus(At(z, j), RowMax(z, classes, row))), den)
  }

  function CrossEntropyScale(g: seq<real>, batch: nat): real {
    if batch == 0 then 0.0 else At(g, 0) / batch as real
  }

  function ProbabilityOf(p: Primitives, z: seq<real>, classes: nat): int -> real {
    j => Probability(p, z, classes, j)
  }

  function LogitsWith(pr: int -> real, t: seq<real>, n: nat, scale: real): (r: seq<real>)
    ensures |r| == n
  {
    seq(n, j => Times(scale, Minus(pr(j), At(t, j))))
  }

  function TargetWith(l: int -> real, z: seq<real>, n: nat, scale: real): (r: seq<real>)
    ensures |r| == n
  {
    seq(n, j => Times(-scale, Minus(At(z, j), l(j))))
  }

  /** Gradient with respect to the logits: probability minus target. */
  function LogitsVjp(p: Primitives, z: seq<real>, t: seq<real>, scale: real, classes: nat): (r: seq<real>)
    ensures |r| == |z|
  {
    LogitsWith(ProbabilityOf(p, z, classes), t, |z|, scale)
  }

  /** Gradient with respect to the target: minus the log-probability. */
  function TargetVjp(p: Primitives, z: seq<real>, t: seq<real>, scale: real, classes: nat): (r: seq<real>)
    ensures |r| == |t|
  {
    TargetWith(LogDenominatorOf(p, z, classes), z, |t|, scale)
  }

  function CrossEntropyVjp(p: Primitives, z: seq<real>, t: seq<real>, batch: nat, classes: nat,
                           g: seq<real>, k: nat): seq<real>
  {
    var scale := CrossEntropyScale(g, batch);
    if k == 0 then LogitsVjp(p, z, t, scale, classes) else TargetVjp(p, z, t, scale, classes)
  }

  /** Column sums: the gradient of a broadcast bias. */
  function BiasVjp(g: seq<real>, rows: nat, cols: nat): (r: seq<real>)
    ensures |r| == cols
  {
    seq(cols, c => Sum(rows, Row(Flip(Grid(g, cols)), c)))
  }

  /** The contribution of an operator to operand `k`, given the upstream gradient. */
  function Vjp(p: Primitives, op: Op, pd: seq<seq<int>>, ghost od: seq<int>,
               v: seq<seq<real>>, g: seq<real>, k: nat): seq<real>
    requires Typed(op, pd, od) && Sized(pd, v) && |g| == Numel(od) && k < |pd|
  {
    match op
    case Identity => g
    case Reshape => g
    case Transpose2D => TransposeList(pd[0][1], pd[0][0], g)
    case Add => g
    case Multiply => if k == 0 then MulValues(g, v[1]) else MulValues(g, v[0])
    case SumAll => seq(|v[0]|, _ => At(g, 0))
    case Matmul =>
      if k == 0 then MatmulLeft(g, v[1], pd[0][0], pd[0][1], pd[1][1])
      else MatmulRight(v[0], g, pd[0][0], pd[0][1], pd[1][1])
    case Unary(a) => ActivationVjp(p, a, v[0], g)
    case SwiGlu => SwiGluVjp(p, v[0], g, RowCount(pd[0]), Last(pd[0]), Last(pd[0]) / 2)
    case Mse => MseVjp(v[0], v[1], g, k)
    case CrossEntropy => CrossEntropyVjp(p, v[0], v[1], pd[0][0], pd[0][1], g, k)
    case BiasAdd => if k == 0 then g else BiasVjp(g, pd[0][0], pd[0][1])
  }

  /** Every contribution has as many values as its operand has elements. */
  lemma VjpLength(p: Primitives, op: Op, pd: seq<seq<int>>, od: seq<int>,
                  v: seq<seq<real>>, g: seq<real>, k: nat)
    requires Typed(op, pd, od) && Sized(pd, v) && |g| == Numel(od) && k < |pd|
    ensures |Vjp(p, op, pd, od, v, g, k)| == Numel(pd[k])
  {
    if op.Matmul? {
      MatmulVjpLength(p, pd, od, v, g, k);
    } else if op.SwiGlu? {
      SwiGluRows(pd[0], od);
    } else if op.BiasAdd? {
      assert pd[1] == [pd[1][0]];
      NumelSingle(pd[1][0]);
    }
  }

  lemma MatmulVjpLength(p: Primitives, pd: seq<seq<int>>, od: seq<int>,
                        v: seq<seq<real>>, g: seq<real>, k: nat)
    requires Typed(Matmul, pd, od) && Sized(pd, v) && |g| == Numel(od) && k < |pd|
    ensures |Vjp(p, Matmul, pd, od, v, g, k)| == Numel(pd[k])
  {
    PairOf(pd[0]);
    PairOf(pd[1]);
  }
}
