/** The differentiable operators: shape rules, forward values, their evaluation on dual
    numbers, and the vector-Jacobian products of the backward pass.

    Tensors appear here as row-major value sequences together with their shapes. */
module Operators {
  import opened RealSums
  import opened Shapes
  import opened ViewChains
  import opened Calculus

  datatype Op =
    | Identity
    | Reshape
    | Transpose2D
    | Add
    | Multiply
    | SumAll
    | Matmul
    | Unary(a: Activation)
    | SwiGlu
    | Mse
    | CrossEntropy
    | BiasAdd

  /** Number of operands. */
  function Arity(op: Op): nat {
    match op
    case Add => 2
    case Multiply => 2
    case Matmul => 2
    case Mse => 2
    case CrossEntropy => 2
    case BiasAdd => 2
    case _ => 1
  }

  function Last(dims: seq<int>): int {
    if |dims| == 0 then 1 else dims[|dims| - 1]
  }

  /** The number of rows when the last dimension is taken as the row width. */
  function RowCount(dims: seq<int>): nat {
    if Last(dims) > 0 && Numel(dims) > 0 then Numel(dims) / Last(dims) else 0
  }

  /** The operand shapes `pd` an operator accepts and the result shape `od` it gives. */
  ghost predicate Typed(op: Op, pd: seq<seq<int>>, od: seq<int>) {
    && |pd| == Arity(op)
    && (forall k :: 0 <= k < |pd| ==> Positive(pd[k]))
    && Positive(od)
    && match op
       case Identity => od == pd[0]
       case Reshape => Numel(od) == Numel(pd[0])
       case Transpose2D => |pd[0]| == 2 && od == [pd[0][1], pd[0][0]]
       case Add => pd[0] == pd[1] == od
       case Multiply => pd[0] == pd[1] == od
       case SumAll => od == []
       case Matmul =>
         |pd[0]| == 2 && |pd[1]| == 2 && pd[0][1] == pd[1][0] && od == [pd[0][0], pd[1][1]]
       case Unary(_) => od == pd[0]
       case SwiGlu =>
         |pd[0]| >= 1 && Last(pd[0]) % 2 == 0 &&
         od == pd[0][..|pd[0]| - 1] + [Last(pd[0]) / 2]
       case Mse => pd[0] == pd[1] && od == []
       case CrossEntropy => |pd[0]| == 2 && pd[0] == pd[1] && od == []
       case BiasAdd => |pd[0]| == 2 && |pd[1]| == 1 && pd[1][0] == pd[0][1] && od == pd[0]
  }

  /** One value sequence of the right length per operand. */
  ghost predicate Sized(pd: seq<seq<int>>, v: seq<seq<real>>) {
    |v| == |pd| && forall k :: 0 <= k < |pd| ==> |v[k]| == Numel(pd[k])
  }

  // ----- forward values

  function MulValues(a: seq<real>, b: seq<real>): (r: seq<real>)
    ensures |r| == |a|
  {
    seq(|a|, i => Times(At(a, i), At(b, i)))
  }

  function Elements(a: seq<real>): int -> real {
    i => At(a, i)
  }

  function RowColTerm(l: seq<real>, r: seq<real>, k: int, n: int, row: int, col: int): int -> real {
    i => Times(At(l, Flat(row, i, k)), At(r, Flat(i, col, n)))
  }

  /** Entry (row, col) of a matrix product with inner dimension `k` and width `n`. */
  function RowCol(l: seq<real>, r: seq<real>, k: nat, n: int, row: int, col: int): real {
    Sum(k, RowColTerm(l, r, k, n, row, col))
  }

  function RowCols(l: seq<real>, r: seq<real>, k: nat, n: int): (int, int) -> real {
    (row, col) => RowCol(l, r, k, n, row, col)
  }

  function MatmulValues(l: seq<real>, r: seq<real>, m: nat, k: nat, n: nat): (o: seq<real>)
    ensures |o| == m * n
  {
    Tabulate(m, n, RowCols(l, r, k, n))
  }

  function ActivateValues(p: Primitives, a: Activation, x: seq<real>): (r: seq<real>)
    ensures |r| == |x|
  {
    seq(|x|, i => Activate(p, a, At(x, i)))
  }

  function SiluOf(p: Primitives, x: real): real {
    SiluValue(x, LogisticOf(p.exp(-x)))
  }

  function SwiGluAt(p: Primitives, x: seq<real>, w: int, half: int, row: int, col: int): real {
    Times(SiluOf(p, At(x, Flat(row, col, w))), At(x, Flat(row, half + col, w)))
  }

  function SwiGluGrid(p: Primitives, x: seq<real>, w: int, half: int): (int, int) -> real {
    (row, col) => SwiGluAt(p, x, w, half, row, col)
  }

  function SwiGluValues(p: Primitives, x: seq<real>, rows: nat, w: nat, half: nat): (r: seq<real>)
    ensures |r| == rows * half
  {
    Tabulate(rows, half, SwiGluGrid(p, x, w, half))
  }

  function SquaredDifference(a: seq<real>, b: seq<real>): int -> real {
    i => Times(Minus(At(a, i), At(b, i)), Minus(At(a, i), At(b, i)))
  }

  function MseValue(a: seq<real>, b: seq<real>): real
    requires |a| > 0
  {
    Sum(|a|, SquaredDifference(a, b)) / |a| as real
  }

  function Max(x: real, y: real): real { if x < y then y else x }

  /** The running maximum of `n` logits starting at `base`. */
  function MaxLogit(z: seq<real>, base: int, n: nat): real {
    if n <= 1 then At(z, base) else Max(MaxLogit(z, base, n - 1), At(z, base + n - 1))
  }

  function RowMax(z: seq<real>, classes: nat, row: int): real {
    MaxLogit(z, Flat(row, 0, classes), classes)
  }

  function ShiftedExp(p: Primitives, z: seq<real>, base: int, shift: real): int -> real {
    c => p.exp(Minus(At(z, base + c), shift))
  }

  /** The softmax denominator of a row, shifted by the row maximum. */
  function Denominator(p: Primitives, z: seq<real>, classes: nat, row: int): real {
    Sum(classes, ShiftedExp(p, z, Flat(row, 0, classes), RowMax(z, classes, row)))
  }

  lemma DenominatorPositive(p: Primitives, z: seq<real>, classes: nat, row: int)
    requires classes > 0
    ensures Denominator(p, z, classes, row) > 0.0
  {
    var f := ShiftedExp(p, z, Flat(row, 0, classes), RowMax(z, classes, row));
    SumNonNegative(classes, f);
    assert f(0) > 0.0;
  }

  function LogDenominator(p: Primitives, z: seq<real>, classes: nat, row: int): real {
    p.log(Denominator(p, z, classes, row)) + RowMax(z, classes, row)
  }

  function CrossTerm(t: real, z: real, l: real): real {
    -Times(t, Minus(z, l))
  }

  function LogDenominatorOf(p: Primitives, z: seq<real>, classes: nat): int -> real {
    j => LogDenominator(p, z, classes, RowOf(j, classes))
  }

  function CrossTerms(t: seq<real>, z: seq<real>, l: int -> real): int -> real {
    j => CrossTerm(At(t, j), At(z, j), l(j))
  }

  /** The loss contribution of each element: minus target times log-probability. */
  function CrossEntropyTerm(p: Primitives, z: seq<real>, t: seq<real>, classes: nat): int -> real {
    CrossTerms(t, z, LogDenominatorOf(p, z, classes))
  }

  function CrossEntropyValue(p: Primitives, z: seq<real>, t: seq<real>, batch: nat, classes: nat): real
    requires batch > 0
  {
    Sum(batch * classes, CrossEntropyTerm(p, z, t, classes)) / batch as real
  }

  function BiasValues(m: seq<real>, b: seq<real>, cols: nat): (r: seq<real>)
    ensures |r| == |m|
  {
    seq(|m|, j => At(m, j) + At(b, ColOf(j, cols)))
  }

  /** The value an operator computes from its operands' values. */
  function Eval(p: Primitives, op: Op, pd: seq<seq<int>>, ghost od: seq<int>, v: seq<seq<real>>): seq<real>
    requires Typed(op, pd, od) && Sized(pd, v)
  {
    match op
    case Identity => v[0]
    case Reshape => v[0]
    case Transpose2D => TransposeList(pd[0][0], pd[0][1], v[0])
    case Add => VAdd(v[0], v[1])
    case Multiply => MulValues(v[0], v[1])
    case SumAll => [Sum(|v[0]|, Elements(v[0]))]
    case Matmul => MatmulValues(v[0], v[1], pd[0][0], pd[0][1], pd[1][1])
    case Unary(a) => ActivateValues(p, a, v[0])
    case SwiGlu => SwiGluValues(p, v[0], RowCount(pd[0]), Last(pd[0]), Last(pd[0]) / 2)
    case Mse => NumelPositive(pd[0]); [MseValue(v[0], v[1])]
    case CrossEntropy => [CrossEntropyValue(p, v[0], v[1], pd[0][0], pd[0][1])]
    case BiasAdd => BiasValues(v[0], v[1], pd[0][1])
  }

  /** The result has as many values as the result shape has elements. */
  lemma EvalLength(p: Primitives, op: Op, pd: seq<seq<int>>, od: seq<int>, v: seq<seq<real>>)
    requires Typed(op, pd, od) && Sized(pd, v)
    ensures |Eval(p, op, pd, od, v)| == Numel(od)
  {
    assert Numel([]) == 1;
    match op
    case Transpose2D => PairOf(pd[0]);
    case Matmul =>
      NumelPair(pd[0][0], pd[1][1]);
    case SwiGlu => SwiGluRows(pd[0], od);
    case BiasAdd => PairOf(pd[0]);
    case _ =>
  }

  lemma PairOf(d: seq<int>)
    requires |d| == 2
    ensures d == [d[0], d[1]] && Numel(d) == d[0] * d[1] && Numel([d[1], d[0]]) == d[0] * d[1]
  {
    NumelPair(d[0], d[1]);
    assert d == [d[0], d[1]];
  }

  /** SwiGLU splits each row of even width into two halves. */
  lemma SwiGluRows(d: seq<int>, od: seq<int>)
    requires Positive(d) && |d| >= 1 && Last(d) % 2 == 0
    requires od == d[..|d| - 1] + [Last(d) / 2]
    ensures var rows, half := RowCount(d), Last(d) / 2;
            rows >= 1 && half >= 1 && Last(d) == 2 * half && Numel(d) == rows * Last(d) && Numel(od) == rows * half
  {
    var front := d[..|d| - 1];
    assert od[..|od| - 1] == front;
    NumelPositive(front);
    DivMod(Numel(front), 0, Last(d));
  }
}
