/** The loops of the backward pass, each against its vector-Jacobian product. */
module BackwardKernels {
  import opened RealSums
  import opened Shapes
  import opened ViewChains
  import opened Calculus
  import opened Operators
  import opened Vjps
  import opened ForwardKernels

  // ----- rearrangement and elementwise gradients

  /** Element `j` of the transpose has been written when the loops stand at (row, col). */
  ghost predicate Written(j: int, rows: nat, row: int, col: int) {
    ColOf(j, rows) < row || (ColOf(j, rows) == row && RowOf(j, rows) < col)
  }

  ghost predicate TransposedTo(out: seq<real>, spec: seq<real>, rows: nat, row: int, col: int)
    requires |out| == |spec|
  {
    forall j :: 0 <= j < |out| && Written(j, rows, row, col) ==> out[j] == spec[j]
  }

  method TransposeKernel(input: seq<real>, rows: nat, cols: nat) returns (out: seq<real>)
    requires rows > 0 && cols > 0 && |input| == rows * cols <= MAX_F32
    ensures out == TransposeList(rows, cols, input)
  {
    ghost var spec := TransposeList(rows, cols, input);
    var output := new real[|input|](_ => 0.0);
    assert cols * rows == rows * cols;
    for row := 0 to rows
      invariant TransposedTo(output[..], spec, rows, row, 0)
    {
      TransposeRow(input, rows, cols, row, output);
      assert TransposedTo(output[..], spec, rows, row + 1, 0) by {
        forall j | 0 <= j < |spec| && Written(j, rows, row + 1, 0) ensures output[j] == spec[j] {
          GridPosition(j, cols, rows);
        }
      }
    }
    out := output[..];
    forall j | 0 <= j < |spec| ensures out[j] == spec[j] {
      GridPosition(j, cols, rows);
    }
  }

  method TransposeRow(input: seq<real>, rows: nat, cols: nat, row: nat, output: array<real>)
    requires row < rows && cols > 0 && |input| == output.Length == cols * rows <= MAX_F32
    requires TransposedTo(output[..], TransposeList(rows, cols, input), rows, row, 0)
    modifies output
    ensures TransposedTo(output[..], TransposeList(rows, cols, input), rows, row, cols)
  {
    ghost var spec := TransposeList(rows, cols, input);
    for col := 0 to cols
      invariant TransposedTo(output[..], spec, rows, row, col)
    {
      TransposePlaces(rows, cols, row, col);
      ghost var before := output[..];
      assert rows * cols == cols * rows;
      var target := FlatIndex(col, row, cols, rows);
      output[target] := input[FlatIndex(row, col, rows, cols)];
      assert spec[target] == At(input, row * cols + col);
      forall j | 0 <= j < |spec| && Written(j, rows, row, col + 1) ensures output[j] == spec[j] {
        GridPosition(j, cols, rows);
        if j != target {
          assert Written(j, rows, row, col);
          assert output[j] == before[j];
        }
      }
    }
  }

  lemma TransposePlaces(rows: nat, cols: nat, row: nat, col: nat)
    requires row < rows && col < cols
    ensures 0 <= col * rows + row < cols * rows && 0 <= row * cols + col < cols * rows
    ensures RowOf(col * rows + row, rows) == col && ColOf(col * rows + row, rows) == row
  {
    FlatBounds(col, row, cols, rows);
    FlatBounds(row, col, rows, cols);
    assert rows * cols == cols * rows;
    DivMod(col, row, rows);
  }

  method ScaleKernel(grad: seq<real>, local: int -> real) returns (out: seq<real>)
    ensures out == ScaledBy(grad, local)
  {
    var values := new real[|grad|](_ => 0.0);
    for index := 0 to |grad|
      invariant forall j :: 0 <= j < index ==> values[j] == Times(grad[j], local(j))
    {
      values[index] := Times(grad[index], local(index));
    }
    out := values[..];
  }

  method ActivationVjpKernel(p: Primitives, a: Activation, input: seq<real>, grad: seq<real>) returns (out: seq<real>)
    requires |input| == |grad|
    ensures out == ActivationVjp(p, a, input, grad)
  {
    out := ScaleKernel(grad, Slopes(p, a, input));
  }

  method ScaledDifferenceKernel(scale: real, a: seq<real>, b: seq<real>) returns (out: seq<real>)
    requires |a| == |b|
    ensures out == ScaledDifference(scale, a, b)
  {
    var values := new real[|a|](_ => 0.0);
    for index := 0 to |a|
      invariant forall j :: 0 <= j < index ==> values[j] == Times(scale, Minus(a[j], b[j]))
    {
      values[index] := Times(scale, Minus(a[index], b[index]));
    }
    out := values[..];
  }

  // ----- matrix product

  method LeftEntryKernel(grad: seq<real>, right: seq<real>, m: nat, k: nat, n: nat, row: nat, inner: nat)
    returns (value: real)
    requires row < m && inner < k && |grad| == m * n <= MAX_F32 && |right| == k * n <= MAX_F32
    ensures value == LeftEntries(grad, right, n)(row, inner)
  {
    value := 0.0;
    for col := 0 to n
      invariant value == Sum(col, RowRowTerm(grad, right, n, row, inner))
    {
      value := value + Times(grad[FlatIndex(row, col, m, n)], right[FlatIndex(inner, col, k, n)]);
    }
  }

  method MatmulLeftKernel(grad: seq<real>, right: seq<real>, m: nat, k: nat, n: nat) returns (out: seq<real>)
    requires |grad| == m * n <= MAX_F32 && |right| == k * n <= MAX_F32 && m * k <= MAX_F32
    ensures out == MatmulLeft(grad, right, m, k, n)
  {
    ghost var f := LeftEntries(grad, right, n);
    ghost var spec := Tabulate(m, k, f);
    var size := m * k;
    var values := new real[size](_ => 0.0);
    var base := 0;
    for row := 0 to m
      invariant 0 <= base == row * k <= size
      invariant forall j :: 0 <= j < base ==> values[j] == spec[j]
    {
      RowSpan(m, k, row, base, f);
      MatmulLeftRow(grad, right, m, k, n, row, base, values, spec);
      base := base + k;
      NextRowStart(row, k);
    }
    out := values[..];
  }

  method MatmulLeftRow(grad: seq<real>, right: seq<real>, m: nat, k: nat, n: nat, row: nat, base: nat,
                       values: array<real>, ghost spec: seq<real>)
    requires row < m && |grad| == m * n <= MAX_F32 && |right| == k * n <= MAX_F32
    requires |spec| == values.Length && base + k <= |spec|
    requires forall i :: base <= i < base + k ==> spec[i] == LeftEntries(grad, right, n)(row, i - base)
    requires forall j :: 0 <= j < base ==> values[j] == spec[j]
    modifies values
    ensures forall j :: 0 <= j < base + k ==> values[j] == spec[j]
  {
    for inner := 0 to k
      invariant forall j :: 0 <= j < base + inner ==> values[j] == spec[j]
    {
      values[base + inner] := LeftEntryKernel(grad, right, m, k, n, row, inner);
    }
  }

  method RightEntryKernel(left: seq<real>, grad: seq<real>, m: nat, k: nat, n: nat, inner: nat, col: nat)
    returns (value: real)
    requires inner < k && col < n && |left| == m * k <= MAX_F32 && |grad| == m * n <= MAX_F32
    ensures value == RightEntries(left, grad, m, k, n)(inner, col)
  {
    value := 0.0;
    for row := 0 to m
      invariant value == Sum(row, ColColTerm(left, grad, k, n, inner, col))
    {
      value := value + Times(left[FlatIndex(row, inner, m, k)], grad[FlatIndex(row, col, m, n)]);
    }
  }

  method MatmulRightKernel(left: seq<real>, grad: seq<real>, m: nat, k: nat, n: nat) returns (out: seq<real>)
    requires |left| == m * k <= MAX_F32 && |grad| == m * n <= MAX_F32 && k * n <= MAX_F32
    ensures out == MatmulRight(left, grad, m, k, n)
  {
    ghost var f := RightEntries(left, grad, m, k, n);
    ghost var spec := Tabulate(k, n, f);
    var size := k * n;
    var values := new real[size](_ => 0.0);
    var base := 0;
    for inner := 0 to k
      invariant 0 <= base == inner * n <= size
      invariant forall j :: 0 <= j < base ==> values[j] == spec[j]
    {
      RowSpan(k, n, inner, base, f);
      MatmulRightRow(left, grad, m, k, n, inner, base, values, spec);
      base := base + n;
      NextRowStart(inner, n);
    }
    out := values[..];
  }

  method MatmulRightRow(left: seq<real>, grad: seq<real>, m: nat, k: nat, n: nat, inner: nat, base: nat,
                        values: array<real>, ghost spec: seq<real>)
    requires inner < k && |left| == m * k <= MAX_F32 && |grad| == m * n <= MAX_F32
    requires |spec| == values.Length && base + n <= |spec|
    requires forall i :: base <= i < base + n ==> spec[i] == RightEntries(left, grad, m, k, n)(inner, i - base)
    requires forall j :: 0 <= j < base ==> values[j] == spec[j]
    modifies values
    ensures forall j :: 0 <= j < base + n ==> values[j] == spec[j]
  {
    for col := 0 to n
      invariant forall j :: 0 <= j < base + col ==> values[j] == spec[j]
    {
      values[base + col] := RightEntryKernel(left, grad, m, k, n, inner, col);
    }
  }

  // ----- bias: column sums accumulated row by row

  method BiasVjpKernel(grad: seq<real>, rows: nat, cols: nat) returns (out: seq<real>)
    requires |grad| == rows * cols <= MAX_F32
    ensures out == BiasVjp(grad, rows, cols)
  {
    var values := new real[cols](_ => 0.0);
    for row := 0 to rows
      invariant forall c :: 0 <= c < cols ==> values[c] == Sum(row, Row(Flip(Grid(grad, cols)), c))
    {
      RowInside(rows, cols, row);
      BiasVjpRow(grad, cols, row, row * cols, values);
    }
    out := values[..];
  }

  method BiasVjpRow(grad: seq<real>, cols: nat, ghost row: nat, base: nat, values: array<real>)
    requires values.Length == cols && base == Flat(row, 0, cols) && base + cols <= |grad|
    requires forall c :: 0 <= c < cols ==> values[c] == Sum(row, Row(Flip(Grid(grad, cols)), c))
    modifies values
    ensures forall c :: 0 <= c < cols ==> values[c] == Sum(row + 1, Row(Flip(Grid(grad, cols)), c))
  {
    for col := 0 to cols
      invariant forall c :: 0 <= c < cols ==>
                  values[c] == Sum(if c < col then row + 1 else row, Row(Flip(Grid(grad, cols)), c))
    {
      assert Row(Flip(Grid(grad, cols)), col)(row) == grad[base + col];
      values[col] := values[col] + grad[base + col];
    }
  }

  // ----- SwiGLU

  /** A row of a two-halves grid: the left half, then the right half. */
  lemma HalvesSpan(rows: nat, w: nat, half: nat, left: (int, int) -> real, right: (int, int) -> real,
                   row: nat, base: int)
    requires row < rows && w == 2 * half && base == row * w
    ensures 0 <= base && base + w <= rows * w
    ensures forall i :: base <= i < base + half ==>
              Tabulate(rows, w, GatedEntries(half, left, right))[i] == left(row, i - base)
    ensures forall i :: base + half <= i < base + w ==>
              Tabulate(rows, w, GatedEntries(half, left, right))[i] == right(row, i - base - half)
  {
    RowSpan(rows, w, row, base, GatedEntries(half, left, right));
  }

  method SwiGluVjpKernel(p: Primitives, input: seq<real>, grad: seq<real>, rows: nat, w: nat, half: nat)
    returns (out: seq<real>)
    requires half > 0 && w == 2 * half && |input| == rows * w <= MAX_F32 && |grad| == rows * half
    ensures out == SwiGluVjp(p, input, grad, rows, w, half)
  {
    ghost var left := GatedLeft(input, grad, w, half, SlopeGrid(p, input, w));
    ghost var right := GatedRight(grad, half, SiluGrid(p, input, w));
    ghost var spec := Tabulate(rows, w, GatedEntries(half, left, right));
    var values := new real[|input|](_ => 0.0);
    var inputBase, gradBase := 0, 0;
    for row := 0 to rows
      invariant 0 <= inputBase == row * w <= |input| && gradBase == row * half
      invariant forall j :: 0 <= j < inputBase ==> values[j] == spec[j]
    {
      HalvesSpan(rows, w, half, left, right, row, inputBase);
      RowInside(rows, half, row);
      SwiGluVjpRow(p, input, grad, w, half, row, inputBase, gradBase, values, spec);
      inputBase, gradBase := inputBase + w, gradBase + half;
      NextRowStart(row, w);
      NextRowStart(row, half);
    }
    out := values[..];
  }

  method SwiGluVjpRow(p: Primitives, input: seq<real>, grad: seq<real>, w: nat, half: nat, ghost row: nat,
                      inputBase: nat, gradBase: nat, values: array<real>, ghost spec: seq<real>)
    requires w == 2 * half && |spec| == values.Length == |input|
    requires inputBase == Flat(row, 0, w) && inputBase + w <= |input|
    requires gradBase == Flat(row, 0, half) && gradBase + half <= |grad|
    requires forall i :: inputBase <= i < inputBase + half ==>
               spec[i] == GatedLeft(input, grad, w, half, SlopeGrid(p, input, w))(row, i - inputBase)
    requires forall i :: inputBase + half <= i < inputBase + w ==>
               spec[i] == GatedRight(grad, half, SiluGrid(p, input, w))(row, i - inputBase - half)
    requires forall j :: 0 <= j < inputBase ==> values[j] == spec[j]
    modifies values
    ensures forall j :: 0 <= j < inputBase + w ==> values[j] == spec[j]
  {
    for col := 0 to half
      invariant forall j :: 0 <= j < inputBase + col ==> values[j] == spec[j]
      invariant forall j :: inputBase + half <= j < inputBase + half + col ==> values[j] == spec[j]
    {
      var l, r := GatedPair(p, input, grad, w, half, row, inputBase, gradBase, col);
      StorePair(values, spec, inputBase, half, col, l, r);
    }
  }

  /** Store the gradients of one pair into the two halves of the row. */
  method StorePair(values: array<real>, ghost spec: seq<real>, base: nat, half: nat, col: nat, l: real, r: real)
    requires col < half && base + half + half <= values.Length == |spec|
    requires spec[base + col] == l && spec[base + half + col] == r
    requires forall j :: 0 <= j < base + col ==> values[j] == spec[j]
    requires forall j :: base + half <= j < base + half + col ==> values[j] == spec[j]
    modifies values
    ensures forall j :: 0 <= j < base + col + 1 ==> values[j] == spec[j]
    ensures forall j :: base + half <= j < base + half + col + 1 ==> values[j] == spec[j]
  {
    values[base + col] := l;
    values[base + half + col] := r;
  }

  /** The two gradients of one gated pair. */
  method GatedPair(p: Primitives, input: seq<real>, grad: seq<real>, w: nat, half: nat, ghost row: nat,
                   inputBase: nat, gradBase: nat, col: nat) returns (l: real, r: real)
    requires col < half && w == 2 * half
    requires inputBase == Flat(row, 0, w) && inputBase + w <= |input|
    requires gradBase == Flat(row, 0, half) && gradBase + half <= |grad|
    ensures l == GatedLeft(input, grad, w, half, SlopeGrid(p, input, w))(row, col)
    ensures r == GatedRight(grad, half, SiluGrid(p, input, w))(row, col)
  {
    assert Flat(row, col, w) == inputBase + col && Flat(row, half + col, w) == inputBase + (half + col);
    assert Flat(row, col, half) == gradBase + col;
    var a, b := input[inputBase + col], input[inputBase + (half + col)];
    var upstream := grad[gradBase + col];
    var slope, silu := Slope(p, Silu, a), SiluOf(p, a);
    assert SlopeGrid(p, input, w)(row, col) == slope && SiluGrid(p, input, w)(row, col) == silu;
    l := Times(Times(upstream, b), slope);
    r := Times(upstream, silu);
  }

  // ----- cross-entropy

  lemma RowProbabilities(p: Primitives, z: seq<real>, batch: nat, classes: nat, row: nat, base: int)
    requires row < batch && base == row * classes
    ensures forall i :: base <= i < base + classes ==>
              ProbabilityOf(p, z, classes)(i)
                == Over(p.exp(Minus(At(z, i), RowMax(z, classes, row))), Denominator(p, z, classes, row))
  {
    forall i | base <= i < base + classes
      ensures ProbabilityOf(p, z, classes)(i)
                == Over(p.exp(Minus(At(z, i), RowMax(z, classes, row))), Denominator(p, z, classes, row))
    {
      DivMod(row, i - base, classes);
      assert RowOf(i, classes) == row;
    }
  }

  method LogitsVjpKernel(p: Primitives, z: seq<real>, t: seq<real>, scale: real, batch: nat, classes: nat)
    returns (out: seq<real>)
    requires classes > 0 && |z| == |t| == batch * classes <= MAX_F32
    ensures out == LogitsVjp(p, z, t, scale, classes)
  {
    ghost var spec := LogitsVjp(p, z, t, scale, classes);
    var values := new real[|z|](_ => 0.0);
    var base := 0;
    for row := 0 to batch
      invariant base == row * classes >= 0
      invariant base <= |z| && forall j :: 0 <= j < base ==> values[j] == spec[j]
    {
      RowInside(batch, classes, row);
      LogitsVjpLine(p, z, t, scale, batch, classes, row, base, values, spec);
      base := base + classes;
      NextRowStart(row, classes);
    }
    out := values[..];
  }

  method LogitsVjpLine(p: Primitives, z: seq<real>, t: seq<real>, scale: real, ghost batch: nat, classes: nat,
                       ghost row: nat, base: nat, values: array<real>, ghost spec: seq<real>)
    requires classes > 0 && row < batch && base == Flat(row, 0, classes)
    requires base + classes <= |z| == |t| == values.Length == |spec|
    requires spec == LogitsWith(ProbabilityOf(p, z, classes), t, |z|, scale)
    requires forall j :: 0 <= j < base ==> values[j] == spec[j]
    modifies values
    ensures forall j :: 0 <= j < base + classes ==> values[j] == spec[j]
  {
    var m := MaxKernel(z, base, classes);
    var d := DenominatorKernel(p, z, base, classes, m);
    RowProbabilities(p, z, batch, classes, row, base);
    LogitsVjpRow(p, z, t, scale, classes, base, m, d, ProbabilityOf(p, z, classes), values, spec);
  }

  method LogitsVjpRow(p: Primitives, z: seq<real>, t: seq<real>, scale: real, classes: nat, base: nat,
                      m: real, d: real, ghost pr: int -> real, values: array<real>, ghost spec: seq<real>)
    requires base + classes <= |z| == |t| == values.Length == |spec|
    requires forall i :: base <= i < base + classes ==> pr(i) == Over(p.exp(Minus(At(z, i), m)), d)
    requires spec == LogitsWith(pr, t, |z|, scale)
    requires forall j :: 0 <= j < base ==> values[j] == spec[j]
    modifies values
    ensures forall j :: 0 <= j < base + classes ==> values[j] == spec[j]
  {
    for col := 0 to classes
      invariant forall j :: 0 <= j < base + col ==> values[j] == spec[j]
    {
      var index := base + col;
      assert At(z, index) == z[index] && At(t, index) == t[index];
      var probability := Over(p.exp(Minus(z[index], m)), d);
      assert pr(index) == probability;
      values[index] := Times(scale, Minus(probability, t[index]));
    }
  }

  method TargetVjpKernel(p: Primitives, z: seq<real>, t: seq<real>, scale: real, batch: nat, classes: nat)
    returns (out: seq<real>)
    requires classes > 0 && |z| == |t| == batch * classes <= MAX_F32
    ensures out == TargetVjp(p, z, t, scale, classes)
  {
    ghost var spec := TargetVjp(p, z, t, scale, classes);
    var values := new real[|z|](_ => 0.0);
    var base := 0;
    for row := 0 to batch
      invariant base == row * classes >= 0
      invariant base <= |z| && forall j :: 0 <= j < base ==> values[j] == spec[j]
    {
      RowInside(batch, classes, row);
      TargetVjpLine(p, z, t, scale, batch, classes, row, base, values, spec);
      base := base + classes;
      NextRowStart(row, classes);
    }
    out := values[..];
  }

  lemma RowLogs(p: Primitives, z: seq<real>, batch: nat, classes: nat, row: nat, base: int)
    requires row < batch && base == row * classes
    ensures forall i :: base <= i < base + classes ==>
              LogDenominatorOf(p, z, classes)(i) == LogDenominator(p, z, classes, row)
  {
    forall i | base <= i < base + classes
      ensures LogDenominatorOf(p, z, classes)(i) == LogDenominator(p, z, classes, row)
    {
      DivMod(row, i - base, classes);
      assert RowOf(i, classes) == row;
    }
  }

  method TargetVjpLine(p: Primitives, z: seq<real>, t: seq<real>, scale: real, ghost batch: nat, classes: nat,
                       ghost row: nat, base: nat, values: array<real>, ghost spec: seq<real>)
    requires classes > 0 && row < batch && base == Flat(row, 0, classes)
    requires base + classes <= |z| == |t| == values.Length == |spec|
    requires spec == TargetWith(LogDenominatorOf(p, z, classes), z, |t|, scale)
    requires forall j :: 0 <= j < base ==> values[j] == spec[j]
    modifies values
    ensures forall j :: 0 <= j < base + classes ==> values[j] == spec[j]
  {
    var l := LogDenominatorKernel(p, z, classes, row, base);
    RowLogs(p, z, batch, classes, row, base);
    TargetVjpRow(z, scale, classes, base, l, LogDenominatorOf(p, z, classes), values, spec);
  }

  method TargetVjpRow(z: seq<real>, scale: real, classes: nat, base: nat, l: real, ghost of: int -> real,
                      values: array<real>, ghost spec: seq<real>)
    requires base + classes <= |z| == values.Length == |spec|
    requires forall i :: base <= i < base + classes ==> of(i) == l
    requires spec == TargetWith(of, z, |z|, scale)
    requires forall j :: 0 <= j < base ==> values[j] == spec[j]
    modifies values
    ensures forall j :: 0 <= j < base + classes ==> values[j] == spec[j]
  {
    for col := 0 to classes
      invariant forall j :: 0 <= j < base + col ==> values[j] == spec[j]
    {
      var index := base + col;
      assert of(index) == l && At(z, index) == z[index];
      values[index] := Times(-scale, Minus(z[index], l));
    }
  }
}
