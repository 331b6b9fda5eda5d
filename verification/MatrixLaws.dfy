/** Algebra of the matrix operators: transposition reverses products, for values and
    through the tensor operations. */
module MatrixLaws {
  import opened RealSums
  import opened Shapes
  import opened ViewChains
  import opened Calculus
  import opened Operators
  import opened Worlds
  import opened Transitions
  import opened Heap
  import opened CpuBackend
  import Adjoints

  lemma ProductTerm(l: seq<real>, r: seq<real>, m: nat, k: nat, n: nat, row: int, col: int, i: int)
    requires |l| == m * k && |r| == k * n && 0 <= row < m && 0 <= col < n && 0 <= i < k
    ensures RowColTerm(TransposeList(k, n, r), TransposeList(m, k, l), k, m, col, row)(i)
         == RowColTerm(l, r, k, n, row, col)(i)
  {
    Adjoints.TransposeAt(k, n, r, i, col);
    Adjoints.TransposeAt(m, k, l, row, i);
    Adjoints.TimesCommutes(At(l, Flat(row, i, k)), At(r, Flat(i, col, n)));
  }

  /** The transpose of a product is the product of the transposes in reverse order. */
  lemma TransposeOfProduct(l: seq<real>, r: seq<real>, m: nat, k: nat, n: nat)
    requires |l| == m * k && |r| == k * n && m > 0 && k > 0 && n > 0
    ensures TransposeList(m, n, MatmulValues(l, r, m, k, n))
         == MatmulValues(TransposeList(k, n, r), TransposeList(m, k, l), n, k, m)
  {
    var a, b := TransposeList(k, n, r), TransposeList(m, k, l);
    var x, y := TransposeList(m, n, MatmulValues(l, r, m, k, n)), MatmulValues(a, b, n, k, m);
    assert n * m == m * n;
    forall j | 0 <= j < m * n ensures x[j] == y[j] {
      DivBounds(j, n, m);
      var row, col := j % m, j / m;
      assert j == Flat(col, row, m);
      Adjoints.TransposeAt(m, n, MatmulValues(l, r, m, k, n), row, col);
      TabulateAt(m, n, RowCols(l, r, k, n), row, col);
      TabulateAt(n, m, RowCols(a, b, k, m), col, row);
      forall i | 0 <= i < k ensures RowColTerm(a, b, k, m, col, row)(i) == RowColTerm(l, r, k, n, row, col)(i) {
        ProductTerm(l, r, m, k, n, row, col, i);
      }
      SumCong(k, RowColTerm(a, b, k, m, col, row), RowColTerm(l, r, k, n, row, col));
    }
  }

  // ----- through the tensor operations

  /** Tensor `t` has a shape and logical values. */
  ghost predicate HasValue(w: World, t: nat, dims: seq<int>, x: seq<real>) {
    t < |w.tensors| && TensorOk(w, w.tensors[t]) && Dims(w, t) == dims && Logical(w, t) == x
  }

  lemma ValueKept(p: Primitives, w: World, w': World, t: nat, dims: seq<int>, x: seq<real>)
    requires WorldOk(p, w) && WorldOk(p, w') && Extends(w, w') && HasValue(w, t, dims, x)
    ensures HasValue(w', t, dims, x)
  {
    ExtendsKeeps(w, w', t);
    assert TensorOk(w', w'.tensors[t]);
  }

  method TransposeStep(h: TensorHeap, t: nat, rows: nat, cols: nat, ghost x: seq<real>) returns (out: nat)
    requires h.Valid() && t in h.held && HasValue(h.W(), t, [rows, cols], x)
    modifies h
    ensures h.Valid() && Extends(old(h.W()), h.W()) && h.Produced(old(h.M()), true, out)
    ensures rows > 0 && cols > 0 && |x| == rows * cols
    ensures HasValue(h.W(), out, [cols, rows], TransposeList(rows, cols, x))
  {
    ghost var w := h.W();
    One(w, t);
    DimsValid(h.p, w, t);
    PairOf([rows, cols]);
    var status;
    status, out := TransposeTensor(h, t);
    assert TensorOk(h.W(), h.tensors[out]);
  }

  method ProductStep(h: TensorHeap, a: nat, b: nat, m: nat, k: nat, n: nat, ghost x: seq<real>, ghost y: seq<real>)
    returns (status: Status, out: nat)
    requires h.Valid() && a in h.held && b in h.held && HasValue(h.W(), a, [m, k], x) && HasValue(h.W(), b, [k, n], y)
    modifies h
    ensures h.Valid() && Extends(old(h.W()), h.W()) && h.Produced(old(h.M()), status.Ok?, out)
    ensures status.Ok? <==> ValidDims([m, n])
    ensures status.Ok? ==> HasValue(h.W(), out, [m, n], MatmulValues(x, y, m, k, n))
  {
    ghost var w := h.W();
    Two(w, a, b);
    status, out := MatmulTensors(h, a, b);
    if status.Ok? {
      assert TensorOk(h.W(), h.tensors[out]);
    }
  }

  lemma ReversedValid(m: nat, n: nat)
    requires ValidDims([m, n])
    ensures ValidDims([n, m])
  {
    NumelPair(m, n);
    assert [m, n][0] > 0 && [m, n][1] > 0;
  }

  /** The product of two matrices, transposed. */
  method ProductThenTranspose(h: TensorHeap, left: nat, right: nat, m: nat, k: nat, n: nat,
                              ghost x: seq<real>, ghost y: seq<real>) returns (status: Status, out: nat)
    requires h.Valid() && left in h.held && right in h.held
    requires HasValue(h.W(), left, [m, k], x) && HasValue(h.W(), right, [k, n], y)
    modifies h
    ensures h.Valid() && Extends(old(h.W()), h.W()) && h.Produced(old(h.M()), status.Ok?, out)
    ensures status.Ok? <==> ValidDims([m, n])
    ensures status.Ok? ==> m > 0 && n > 0 && HasValue(h.W(), out, [n, m], TransposeList(m, n, MatmulValues(x, y, m, k, n)))
  {
    out := 0;
    ghost var held, w := h.held, h.W();
    var product;
    status, product := ProductStep(h, left, right, m, k, n, x, y);
    if status.Ok? {
      ghost var w1 := h.W();
      out := TransposeStep(h, product, m, n, MatmulValues(x, y, m, k, n));
      ExtendsTransitive(w, w1, h.W());
      h.Release(product, held + multiset{out});
    }
  }

  method ReleaseBoth(h: TensorHeap, a: nat, b: nat, ghost rest: multiset<nat>)
    requires h.Valid() && h.held == rest + multiset{a} + multiset{b}
    modifies h`counts, h`shares, h`liveBytes, h`held
    ensures h.Valid() && h.W() == old(h.W()) && h.held == rest
  {
    h.Release(b, rest + multiset{a});
    h.Release(a, rest);
  }

  /** The product of two transposed matrices, in reverse order. */
  method ReversedProduct(h: TensorHeap, left: nat, right: nat, m: nat, k: nat, n: nat,
                         ghost x: seq<real>, ghost y: seq<real>) returns (out: nat)
    requires h.Valid() && left in h.held && right in h.held && ValidDims([m, n])
    requires HasValue(h.W(), left, [m, k], x) && HasValue(h.W(), right, [k, n], y)
    modifies h
    ensures h.Valid() && Extends(old(h.W()), h.W()) && h.Produced(old(h.M()), true, out)
    ensures m > 0 && k > 0 && n > 0 && |x| == m * k && |y| == k * n
    ensures HasValue(h.W(), out, [n, m], MatmulValues(TransposeList(k, n, y), TransposeList(m, k, x), n, k, m))
  {
    ghost var held, w := h.held, h.W();
    var a, b := TransposeBoth(h, left, right, m, k, n, x, y);
    ghost var w1 := h.W();
    ReversedValid(m, n);
    var status;
    status, out := ProductStep(h, a, b, n, k, m, TransposeList(k, n, y), TransposeList(m, k, x));
    ExtendsTransitive(w, w1, h.W());
    ReleaseBoth(h, a, b, held + multiset{out});
  }

  method TransposeBoth(h: TensorHeap, left: nat, right: nat, m: nat, k: nat, n: nat,
                       ghost x: seq<real>, ghost y: seq<real>) returns (a: nat, b: nat)
    requires h.Valid() && left in h.held && right in h.held
    requires HasValue(h.W(), left, [m, k], x) && HasValue(h.W(), right, [k, n], y)
    modifies h
    ensures h.Valid() && Extends(old(h.W()), h.W()) && old(h.history) <= h.history
    ensures h.held == old(h.held) + multiset{a} + multiset{b}
    ensures m > 0 && k > 0 && n > 0 && |x| == m * k && |y| == k * n
    ensures HasValue(h.W(), a, [n, k], TransposeList(k, n, y)) && HasValue(h.W(), b, [k, m], TransposeList(m, k, x))
  {
    ghost var w := h.W();
    a := TransposeStep(h, right, k, n, y);
    ghost var w1 := h.W();
    ValueKept(h.p, w, w1, left, [m, k], x);
    b := TransposeStep(h, left, m, k, x);
    ExtendsTransitive(w, w1, h.W());
    ValueKept(h.p, w1, h.W(), a, [n, k], TransposeList(k, n, y));
  }

  /** Transposing the product, and multiplying the transposed views, give equal tensors, and
      leave every other tensor as it was. */
  method TransposedProduct(h: TensorHeap, left: nat, right: nat, m: nat, k: nat, n: nat,
                           ghost x: seq<real>, ghost y: seq<real>) returns (status: Status, first: nat, second: nat)
    requires h.Valid() && left in h.held && right in h.held
    requires HasValue(h.W(), left, [m, k], x) && HasValue(h.W(), right, [k, n], y)
    modifies h
    ensures h.Valid() && Extends(old(h.W()), h.W()) && old(h.history) <= h.history
    ensures status.Ok? <==> ValidDims([m, n])
    ensures h.held == if status.Ok? then old(h.held) + multiset{first} + multiset{second} else old(h.held)
    ensures status.Ok? ==>
              m > 0 && n > 0 && HasValue(h.W(), first, [n, m], TransposeList(m, n, MatmulValues(x, y, m, k, n)))
              && HasValue(h.W(), second, [n, m], TransposeList(m, n, MatmulValues(x, y, m, k, n)))
  {
    second := 0;
    ghost var w := h.W();
    status, first := ProductThenTranspose(h, left, right, m, k, n, x, y);
    if status.Ok? {
      ghost var w1 := h.W();
      ValueKept(h.p, w, w1, left, [m, k], x);
      ValueKept(h.p, w, w1, right, [k, n], y);
      second := ReversedProduct(h, left, right, m, k, n, x, y);
      ExtendsTransitive(w, w1, h.W());
      ValueKept(h.p, w1, h.W(), first, [n, m], TransposeList(m, n, MatmulValues(x, y, m, k, n)));
      TransposeOfProduct(x, y, m, k, n);
    }
  }
}
