/** The loops of the forward pass, each against the value it is specified to compute.

    Buffers are arrays filled in place.  Every flat index stays inside its buffer, and where
    a row is multiplied by a width the index is computed in checked 64-bit arithmetic. */
module ForwardKernels {
  import opened RealSums
  import opened Shapes
  import opened Calculus
  import opened Operators

  method AddKernel(left: seq<real>, right: seq<real>) returns (out: seq<real>)
    requires |left| == |right|
    ensures out == VAdd(left, right)
  {
    var result := new real[|left|](_ => 0.0);
    for index := 0 to |left|
      invariant forall j :: 0 <= j < index ==> result[j] == left[j] + right[j]
    {
      result[index] := left[index] + right[index];
    }
    out := result[..];
  }

  method MultiplyKernel(left: seq<real>, right: seq<real>) returns (out: seq<real>)
    requires |left| == |right|
    ensures out == MulValues(left, right)
  {
    var result := new real[|left|](_ => 0.0);
    for index := 0 to |left|
      invariant forall j :: 0 <= j < index ==> result[j] == Times(left[j], right[j])
    {
      result[index] := left[index] * right[index];
    }
    out := result[..];
  }

  method SumKernel(input: seq<real>) returns (value: real)
    ensures value == Sum(|input|, Elements(input))
  {
    value := 0.0;
    for index := 0 to |input|
      invariant value == Sum(index, Elements(input))
    {
      value := value + input[index];
    }
  }

  method UnaryKernel(p: Primitives, a: Activation, input: seq<real>) returns (out: seq<real>)
    ensures out == ActivateValues(p, a, input)
  {
    var values := new real[|input|];
    ghost var target := ActivateValues(p, a, input);
    for index := 0 to |input|
      invariant forall j :: 0 <= j < index ==> values[j] == target[j]
    {
      values[index] := ActivateOne(p, a, input, index);
    }
    out := values[..];
    assert |out| == |target| && forall j :: 0 <= j < |out| ==> out[j] == target[j];
  }

  method ActivateOne(p: Primitives, a: Activation, input: seq<real>, index: nat) returns (value: real)
    requires index < |input|
    ensures value == ActivateValues(p, a, input)[index]
  {
    value := Activate(p, a, input[index]);
  }

  // ----- matrix product

  /** How many products have been accumulated into element `j` when the loops stand at
      (row, inner, col). */
  function Steps(j: int, k: nat, n: nat, row: nat, inner: nat, col: nat): nat {
    if RowOf(j, n) < row then k
    else if RowOf(j, n) > row then 0
    else if ColOf(j, n) < col then inner + 1 else inner
  }

  ghost predicate AccumulatedTo(out: seq<real>, l: seq<real>, r: seq<real>, k: nat, n: nat,
                                row: nat, inner: nat, col: nat) {
    forall j :: 0 <= j < |out| ==>
      out[j] == Sum(Steps(j, k, n, row, inner, col), RowColTerm(l, r, k, n, RowOf(j, n), ColOf(j, n)))
  }

  lemma GridPosition(j: int, m: nat, n: nat)
    requires n > 0 && 0 <= j < m * n
    ensures 0 <= RowOf(j, n) < m && 0 <= ColOf(j, n) < n
    ensures j == Flat(RowOf(j, n), ColOf(j, n), n)
  {
    DivBounds(j, m, n);
  }

  lemma AccumulateOne(before: seq<real>, after: seq<real>, l: seq<real>, r: seq<real>, m: nat, k: nat, n: nat,
                      row: nat, inner: nat, col: nat)
    requires row < m && inner < k && col < n && |before| == |after| == m * n
    requires AccumulatedTo(before, l, r, k, n, row, inner, col)
    requires 0 <= Flat(row, col, n) < |before|
    requires after == before[Flat(row, col, n) := before[Flat(row, col, n)]
                        + Times(At(l, Flat(row, inner, k)), At(r, Flat(inner, col, n)))]
    ensures AccumulatedTo(after, l, r, k, n, row, inner, col + 1)
  {
    DivMod(row, col, n);
    var idx := Flat(row, col, n);
    forall j | 0 <= j < |after|
      ensures after[j] == Sum(Steps(j, k, n, row, inner, col + 1), RowColTerm(l, r, k, n, RowOf(j, n), ColOf(j, n)))
    {
      GridPosition(j, m, n);
      if j == idx {
        assert Steps(j, k, n, row, inner, col + 1) == inner + 1;
        assert RowColTerm(l, r, k, n, row, col)(inner) == Times(At(l, Flat(row, inner, k)), At(r, Flat(inner, col, n)));
      }
    }
  }

  lemma SameSteps(out: seq<real>, l: seq<real>, r: seq<real>, m: nat, k: nat, n: nat,
                  row: nat, inner: nat, col: nat, row': nat, inner': nat, col': nat)
    requires AccumulatedTo(out, l, r, k, n, row, inner, col) && n > 0 && |out| == m * n
    requires forall j :: 0 <= j < |out| ==> Steps(j, k, n, row, inner, col) == Steps(j, k, n, row', inner', col')
    ensures AccumulatedTo(out, l, r, k, n, row', inner', col')
  {
  }

  lemma NextInner(out: seq<real>, l: seq<real>, r: seq<real>, m: nat, k: nat, n: nat, row: nat, inner: nat)
    requires AccumulatedTo(out, l, r, k, n, row, inner, n) && n > 0 && |out| == m * n
    ensures AccumulatedTo(out, l, r, k, n, row, inner + 1, 0)
  {
    forall j | 0 <= j < |out| ensures Steps(j, k, n, row, inner, n) == Steps(j, k, n, row, inner + 1, 0) {
      GridPosition(j, m, n);
    }
    SameSteps(out, l, r, m, k, n, row, inner, n, row, inner + 1, 0);
  }

  lemma NextRow(out: seq<real>, l: seq<real>, r: seq<real>, m: nat, k: nat, n: nat, row: nat)
    requires AccumulatedTo(out, l, r, k, n, row, k, 0) && n > 0 && |out| == m * n
    ensures AccumulatedTo(out, l, r, k, n, row + 1, 0, 0)
  {
    forall j | 0 <= j < |out| ensures Steps(j, k, n, row, k, 0) == Steps(j, k, n, row + 1, 0, 0) {
      GridPosition(j, m, n);
    }
    SameSteps(out, l, r, m, k, n, row, k, 0, row + 1, 0, 0);
  }

  lemma NothingYet(out: seq<real>, l: seq<real>, r: seq<real>, m: nat, k: nat, n: nat)
    requires n > 0 && |out| == m * n && forall j :: 0 <= j < |out| ==> out[j] == 0.0
    ensures AccumulatedTo(out, l, r, k, n, 0, 0, 0)
  {
    forall j | 0 <= j < |out| ensures Steps(j, k, n, 0, 0, 0) == 0 {
      GridPosition(j, m, n);
    }
  }

  lemma AllRows(out: seq<real>, l: seq<real>, r: seq<real>, m: nat, k: nat, n: nat)
    requires AccumulatedTo(out, l, r, k, n, m, 0, 0) && n > 0 && |out| == m * n
    ensures out == MatmulValues(l, r, m, k, n)
  {
    forall j | 0 <= j < |out| ensures out[j] == MatmulValues(l, r, m, k, n)[j] {
      GridPosition(j, m, n);
    }
  }

  /** The innermost loop: add one left element times a right row into an output row. */
  method AccumulateRow(output: array<real>, l: seq<real>, r: seq<real>, m: nat, k: nat, n: nat,
                       row: nat, inner: nat)
    requires row < m && inner < k && output.Length == m * n
    requires |l| == m * k <= MAX_F32 && |r| == k * n <= MAX_F32 && m * n <= MAX_F32
    requires AccumulatedTo(output[..], l, r, k, n, row, inner, 0)
    modifies output
    ensures AccumulatedTo(output[..], l, r, k, n, row, inner, n)
  {
    var leftValue := l[FlatIndex(row, inner, m, k)];
    for col := 0 to n
      invariant AccumulatedTo(output[..], l, r, k, n, row, inner, col)
    {
      AccumulateAt(output, l, r, m, k, n, row, inner, col, leftValue);
    }
  }

  method AccumulateAt(output: array<real>, ghost l: seq<real>, r: seq<real>, m: nat, k: nat, n: nat,
                      row: nat, inner: nat, col: nat, leftValue: real)
    requires row < m && inner < k && col < n && output.Length == m * n
    requires |r| == k * n <= MAX_F32 && m * n <= MAX_F32
    requires leftValue == At(l, Flat(row, inner, k))
    requires AccumulatedTo(output[..], l, r, k, n, row, inner, col)
    modifies output
    ensures AccumulatedTo(output[..], l, r, k, n, row, inner, col + 1)
  {
    var target, source := FlatIndex(row, col, m, n), FlatIndex(inner, col, k, n);
    ghost var before := output[..];
    output[target] := output[target] + Times(leftValue, r[source]);
    assert output[..] == before[target := before[target] + Times(leftValue, r[source])];
    AccumulateOne(before, output[..], l, r, m, k, n, row, inner, col);
  }

  /** The row/inner/column loop nest that accumulates products into the output buffer. */
  method MatmulKernel(l: seq<real>, r: seq<real>, m: nat, k: nat, n: nat) returns (out: seq<real>)
    requires m > 0 && k > 0 && n > 0
    requires |l| == m * k <= MAX_F32 && |r| == k * n <= MAX_F32 && m * n <= MAX_F32
    ensures out == MatmulValues(l, r, m, k, n)
  {
    var size := m * n;
    var output := new real[size](_ => 0.0);
    NothingYet(output[..], l, r, m, k, n);
    for row := 0 to m
      invariant AccumulatedTo(output[..], l, r, k, n, row, 0, 0)
    {
      AccumulateLeftRow(output, l, r, m, k, n, row);
    }
    out := output[..];
    AllRows(out, l, r, m, k, n);
  }

  /** The two inner loops, for one output row. */
  method AccumulateLeftRow(output: array<real>, l: seq<real>, r: seq<real>, m: nat, k: nat, n: nat, row: nat)
    requires row < m && n > 0 && output.Length == m * n
    requires |l| == m * k <= MAX_F32 && |r| == k * n <= MAX_F32 && m * n <= MAX_F32
    requires AccumulatedTo(output[..], l, r, k, n, row, 0, 0)
    modifies output
    ensures AccumulatedTo(output[..], l, r, k, n, row + 1, 0, 0)
  {
    for inner := 0 to k
      invariant AccumulatedTo(output[..], l, r, k, n, row, inner, 0)
    {
      AccumulateRow(output, l, r, m, k, n, row, inner);
      NextInner(output[..], l, r, m, k, n, row, inner);
    }
    NextRow(output[..], l, r, m, k, n, row);
  }

  // ----- SwiGLU, bias and losses

  method SwiGluKernel(p: Primitives, input: seq<real>, rows: nat, w: nat, half: nat) returns (out: seq<real>)
    requires half > 0 && w == 2 * half && |input| == rows * w <= MAX_F32
    ensures out == SwiGluValues(p, input, rows, w, half)
  {
    ghost var f := SwiGluGrid(p, input, w, half);
    ghost var spec := Tabulate(rows, half, f);
    var size := rows * half;
    var values := new real[size](_ => 0.0);
    var inputBase, base := 0, 0;
    for row := 0 to rows
      invariant inputBase == row * w && base == row * half
      invariant 0 <= base <= size
      invariant forall j :: 0 <= j < base ==> values[j] == spec[j]
    {
      RowSpan(rows, half, row, base, f);
      RowInside(rows, w, row);
      SwiGluRowKernel(p, input, w, half, row, inputBase, base, values, spec);
      inputBase, base := inputBase + w, base + half;
      NextRowStart(row, w);
      NextRowStart(row, half);
    }
    out := values[..];
  }

  lemma NextRowStart(row: nat, n: nat)
    ensures (row + 1) * n == row * n + n
  {
  }

  /** A row occupies `n` consecutive positions. */
  lemma RowSpan(m: nat, n: nat, row: nat, base: int, f: (int, int) -> real)
    requires row < m && base == row * n
    ensures 0 <= base && base + n <= m * n
    ensures forall i :: base <= i < base + n ==> Tabulate(m, n, f)[i] == f(row, i - base)
  {
    MulMonotone(0, row, n);
    MulMonotone(row + 1, m, n);
    forall i | base <= i < base + n ensures Tabulate(m, n, f)[i] == f(row, i - base) {
      DivMod(row, i - base, n);
      assert RowOf(i, n) == row && ColOf(i, n) == i - base;
    }
  }

  method SwiGluRowKernel(p: Primitives, input: seq<real>, w: nat, half: nat, row: nat, inputBase: nat, base: nat,
                         values: array<real>, ghost spec: seq<real>)
    requires w == 2 * half && inputBase == Flat(row, 0, w) && inputBase + w <= |input|
    requires |spec| == values.Length && base + half <= |spec|
    requires forall i :: base <= i < base + half ==> spec[i] == SwiGluGrid(p, input, w, half)(row, i - base)
    requires forall j :: 0 <= j < base ==> values[j] == spec[j]
    modifies values
    ensures forall j :: 0 <= j < base + half ==> values[j] == spec[j]
  {
    for col := 0 to half
      invariant forall j :: 0 <= j < base + col ==> values[j] == spec[j]
    {
      values[base + col] := GatedValue(p, input, w, half, row, inputBase, col);
    }
  }

  method GatedValue(p: Primitives, input: seq<real>, w: nat, half: nat, ghost row: nat, inputBase: nat, col: nat)
    returns (value: real)
    requires col < half && w == 2 * half && inputBase == Flat(row, 0, w) && inputBase + w <= |input|
    ensures value == SwiGluGrid(p, input, w, half)(row, col)
  {
    assert Flat(row, col, w) == inputBase + col && Flat(row, half + col, w) == inputBase + (half + col);
    value := Times(SiluOf(p, input[inputBase + col]), input[inputBase + (half + col)]);
  }

  method BiasKernel(matrix: seq<real>, bias: seq<real>, rows: nat, cols: nat) returns (out: seq<real>)
    requires cols > 0 && |matrix| == rows * cols <= MAX_F32 && |bias| == cols
    ensures out == BiasValues(matrix, bias, cols)
  {
    var values := new real[|matrix|](i requires 0 <= i < |matrix| => matrix[i]);
    ghost var spec := BiasValues(matrix, bias, cols);
    for row := 0 to rows
      invariant forall j :: 0 <= j < |matrix| ==>
                  values[j] == if j < row * cols then spec[j] else matrix[j]
    {
      for col := 0 to cols
        invariant forall j :: 0 <= j < |matrix| ==>
                    values[j] == if j < row * cols + col then spec[j] else matrix[j]
      {
        DivMod(row, col, cols);
        var index := FlatIndex(row, col, rows, cols);
        values[index] := values[index] + bias[col];
      }
      assert (row + 1) * cols == row * cols + cols;
    }
    out := values[..];
  }

  method MseKernel(prediction: seq<real>, target: seq<real>) returns (value: real)
    requires |prediction| == |target| > 0
    ensures value == MseValue(prediction, target)
  {
    var total := 0.0;
    for index := 0 to |prediction|
      invariant total == Sum(index, SquaredDifference(prediction, target))
    {
      var difference := prediction[index] - target[index];
      total := total + difference * difference;
    }
    value := total / |prediction| as real;
  }

  /** The largest logit of a row. */
  method MaxKernel(z: seq<real>, base: nat, classes: nat) returns (m: real)
    requires classes > 0 && base + classes <= |z|
    ensures m == MaxLogit(z, base, classes)
  {
    m := z[base];
    for col := 1 to classes
      invariant m == MaxLogit(z, base, col)
    {
      m := Max(m, z[base + col]);
    }
  }

  /** The shifted softmax denominator of a row. */
  method DenominatorKernel(p: Primitives, z: seq<real>, base: nat, classes: nat, shift: real) returns (d: real)
    requires base + classes <= |z|
    ensures d == Sum(classes, ShiftedExp(p, z, base, shift))
  {
    d := 0.0;
    for col := 0 to classes
      invariant d == Sum(col, ShiftedExp(p, z, base, shift))
    {
      assert At(z, base + col) == z[base + col];
      assert ShiftedExp(p, z, base, shift)(col) == p.exp(Minus(z[base + col], shift));
      d := d + p.exp(Minus(z[base + col], shift));
    }
  }

  lemma RowInside(batch: nat, classes: nat, row: nat)
    requires row < batch
    ensures Flat(row, 0, classes) + classes <= batch * classes
    ensures Flat(row, 0, classes) >= 0
  {
    MulMonotone(row + 1, batch, classes);
    MulMonotone(0, row, classes);
  }

  /** The log-denominator of a row. */
  method LogDenominatorKernel(p: Primitives, z: seq<real>, classes: nat, ghost row: nat, base: nat) returns (l: real)
    requires classes > 0 && base == Flat(row, 0, classes) && base + classes <= |z|
    ensures l == LogDenominator(p, z, classes, row)
  {
    var m := MaxKernel(z, base, classes);
    var d := DenominatorKernel(p, z, base, classes, m);
    l := p.log(d) + m;
  }

  /** Row values spread over the elements of the row. */
  function Spread(rows: seq<real>, classes: nat): int -> real {
    i => At(rows, RowOf(i, classes))
  }

  function LogDenominators(p: Primitives, z: seq<real>, batch: nat, classes: nat): (r: seq<real>)
    ensures |r| == batch
  {
    seq(batch, row => LogDenominator(p, z, classes, row))
  }

  lemma SpreadTerms(p: Primitives, z: seq<real>, t: seq<real>, batch: nat, classes: nat)
    requires |z| == batch * classes && classes > 0
    ensures Sum(|z|, CrossTerms(t, z, Spread(LogDenominators(p, z, batch, classes), classes)))
         == Sum(|z|, CrossEntropyTerm(p, z, t, classes))
  {
    var a, b := Spread(LogDenominators(p, z, batch, classes), classes), LogDenominatorOf(p, z, classes);
    forall i | 0 <= i < |z| ensures CrossTerms(t, z, a)(i) == CrossTerms(t, z, b)(i) {
      DivBounds(i, batch, classes);
      assert a(i) == b(i);
    }
    SumCong(|z|, CrossTerms(t, z, a), CrossTerms(t, z, b));
  }

  method CrossEntropyKernel(p: Primitives, z: seq<real>, t: seq<real>, batch: nat, classes: nat) returns (value: real)
    requires batch > 0 && classes > 0 && |z| == |t| == batch * classes <= MAX_F32
    ensures value == CrossEntropyValue(p, z, t, batch, classes)
  {
    var total := CrossEntropyTotal(p, z, t, batch, classes, LogDenominators(p, z, batch, classes));
    SpreadTerms(p, z, t, batch, classes);
    value := total / batch as real;
  }

  method CrossEntropyTotal(p: Primitives, z: seq<real>, t: seq<real>, batch: nat, classes: nat,
                           ghost logs: seq<real>) returns (total: real)
    requires classes > 0 && |z| == |t| == batch * classes && |logs| == batch
    requires forall row {:trigger LogDenominator(p, z, classes, row)} ::
               0 <= row < batch ==> logs[row] == LogDenominator(p, z, classes, row)
    ensures total == Sum(|z|, CrossTerms(t, z, Spread(logs, classes)))
  {
    total := 0.0;
    var base := 0;
    for row := 0 to batch
      invariant base == row * classes >= 0
      invariant total == Sum(base, CrossTerms(t, z, Spread(logs, classes)))
    {
      RowInside(batch, classes, row);
      total := CrossEntropyLine(p, z, t, classes, row, base, logs, total);
      NextRowStart(row, classes);
      base := base + classes;
    }
  }

  method CrossEntropyLine(p: Primitives, z: seq<real>, t: seq<real>, classes: nat, row: nat, base: nat,
                          ghost logs: seq<real>, total: real) returns (next: real)
    requires classes > 0 && base == row * classes && base + classes <= |z| == |t| && row < |logs|
    requires logs[row] == LogDenominator(p, z, classes, row)
    requires total == Sum(base, CrossTerms(t, z, Spread(logs, classes)))
    ensures next == Sum(base + classes, CrossTerms(t, z, Spread(logs, classes)))
  {
    var l := LogDenominatorKernel(p, z, classes, row, base);
    SpreadRow(logs, classes, row, base);
    next := CrossEntropyRow(z, t, classes, base, l, Spread(logs, classes), total);
  }

  lemma SpreadRow(rows: seq<real>, classes: nat, row: nat, base: int)
    requires row < |rows| && base == row * classes
    ensures forall i :: base <= i < base + classes ==> Spread(rows, classes)(i) == rows[row]
  {
    forall i | base <= i < base + classes ensures Spread(rows, classes)(i) == rows[row] {
      DivMod(row, i - base, classes);
      assert RowOf(i, classes) == row;
    }
  }

  method CrossEntropyRow(z: seq<real>, t: seq<real>, classes: nat, base: nat, l: real,
                         ghost of: int -> real, total: real) returns (next: real)
    requires base + classes <= |z| == |t|
    requires forall i :: base <= i < base + classes ==> of(i) == l
    requires total == Sum(base, CrossTerms(t, z, of))
    ensures next == Sum(base + classes, CrossTerms(t, z, of))
  {
    next := total;
    for col := 0 to classes
      invariant next == Sum(base + col, CrossTerms(t, z, of))
    {
      var index := base + col;
      assert of(index) == l && At(t, index) == t[index] && At(z, index) == z[index];
      next := next - Times(t[index], Minus(z[index], l));
      assert CrossTerms(t, z, of)(index) == CrossTerm(t[index], z[index], l);
    }
  }
}
