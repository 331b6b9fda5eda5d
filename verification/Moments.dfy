/** Exponentially decayed sums of past gradients and their bias correction. */
module Moments {
  import opened RealSums

  function Power(b: real, n: nat): real {
    if n == 0 then 1.0 else Times(b, Power(b, n - 1))
  }

  /** The moment a parameter element holds after the gradients in `h`: each new gradient
      enters with weight `c`, everything older decays by `b`. */
  function Decayed(c: real, b: real, h: seq<real>): real {
    if |h| == 0 then 0.0 else Times(b, Decayed(c, b, h[..|h| - 1])) + Times(c, h[|h| - 1])
  }

  /** The weight of gradient `j` of `n`: decayed once for each later gradient. */
  function Weight(c: real, b: real, n: nat, j: int): real {
    if 0 <= j < n then Times(c, Power(b, n - 1 - j)) else 0.0
  }

  function Weights(c: real, b: real, n: nat): int -> real {
    j => Weight(c, b, n, j)
  }

  function Weighted(w: int -> real, h: seq<real>): int -> real {
    j => Times(w(j), At(h, j))
  }

  function Squares(h: seq<real>): (s: seq<real>)
    ensures |s| == |h|
  {
    seq(|h|, j requires 0 <= j < |h| => Times(h[j], h[j]))
  }

  /** The correction divides by the total weight of `t` gradients. */
  function Corrected(b: real, t: nat, h: seq<real>): real {
    Over(Decayed(1.0 - b, b, h), 1.0 - Power(b, t))
  }

  function Shares(b: real, t: nat, n: nat): int -> real {
    j => Over(Weight(1.0 - b, b, n, j), 1.0 - Power(b, t))
  }

  // ----- powers

  lemma {:induction false} PowerBounds(b: real, k: nat, t: nat)
    requires 0.0 <= b < 1.0 && k <= t
    ensures 0.0 <= Power(b, t) <= Power(b, k) <= 1.0
    ensures t >= 1 ==> Power(b, t) < 1.0
    ensures Power(b, k) == Power(b, t) <==> k == t || (b == 0.0 && k >= 1)
    decreases t
  {
    if k == t {
      if k > 0 {
        PowerBounds(b, k - 1, t - 1);
        Shrinks(b, Power(b, t - 1));
      }
    } else {
      PowerBounds(b, k, t - 1);
      Shrinks(b, Power(b, t - 1));
      if b > 0.0 {
        PowerPositive(b, t - 1);
      }
    }
  }

  /** Exponents add. */
  lemma {:induction false} PowerAdd(b: real, m: nat, n: nat)
    ensures Power(b, 0) == 1.0 && Power(b, 1) == b
    ensures Power(b, m + n) == Power(b, m) * Power(b, n)
  {
    if m != 0 {
      PowerAdd(b, m - 1, n);
      Associates(b, Power(b, m - 1), Power(b, n));
    }
  }

  lemma Associates(x: real, y: real, z: real)
    ensures (x * y) * z == x * (y * z)
  {
  }

  lemma Shrinks(b: real, x: real)
    requires 0.0 <= b < 1.0 && 0.0 <= x <= 1.0
    ensures 0.0 <= Times(b, x) <= x && Times(b, x) < 1.0
    ensures x > 0.0 ==> Times(b, x) < x
    ensures b == 0.0 ==> Times(b, x) == 0.0
  {
    assert (1.0 - b) * x >= 0.0 && b * x >= 0.0;
    assert x - b * x == (1.0 - b) * x;
    if x > 0.0 {
      assert (1.0 - b) * x > 0.0;
    }
  }

  lemma {:induction false} PowerPositive(b: real, n: nat)
    requires b > 0.0
    ensures Power(b, n) > 0.0
  {
    if n != 0 {
      PowerPositive(b, n - 1);
    }
  }

  // ----- closed forms

  lemma WeightDecays(c: real, b: real, n: nat, j: int)
    requires 0 <= j < n - 1
    ensures Weight(c, b, n, j) == Times(b, Weight(c, b, n - 1, j))
  {
    var q := Power(b, n - 2 - j);
    assert Power(b, n - 1 - j) == Times(b, q);
    Reorder(c, b, q);
  }

  lemma Reorder(x: real, y: real, z: real)
    ensures Times(x, Times(y, z)) == Times(y, Times(x, z))
    ensures Times(Times(x, y), z) == Times(x, Times(y, z))
  {
  }

  lemma TermIs(w: int -> real, h: seq<real>, j: int, x: real, y: real)
    requires w(j) == x && At(h, j) == y
    ensures Weighted(w, h)(j) == Times(x, y)
  {
  }

  lemma DecayedTerm(w: int -> real, v: int -> real, h: seq<real>, rest: seq<real>, b: real, j: int)
    requires w(j) == Times(b, v(j)) && At(h, j) == At(rest, j)
    ensures Weighted(w, h)(j) == Times(b, Weighted(v, rest)(j))
  {
    TermIs(w, h, j, Times(b, v(j)), At(h, j));
    TermIs(v, rest, j, v(j), At(h, j));
    Reorder(b, v(j), At(h, j));
  }

  /** A moment is the weighted sum of all past gradients. */
  lemma {:induction false} DecayedIsWeighted(c: real, b: real, h: seq<real>)
    ensures Decayed(c, b, h) == Sum(|h|, Weighted(Weights(c, b, |h|), h))
  {
    if |h| != 0 {
      var n := |h|;
      var rest := h[..n - 1];
      DecayedIsWeighted(c, b, rest);
      var now, before := Weighted(Weights(c, b, n), h), Weighted(Weights(c, b, n - 1), rest);
      forall j | 0 <= j < n - 1 ensures now(j) == Times(b, before(j)) {
        WeightDecays(c, b, n, j);
        DecayedTerm(Weights(c, b, n), Weights(c, b, n - 1), h, rest, b, j);
      }
      SumScale(n - 1, b, before, now);
      assert Weight(c, b, n, n - 1) == Times(c, Power(b, 0)) == c;
      TermIs(Weights(c, b, n), h, n - 1, c, h[n - 1]);
    }
  }

  /** The weights of `n` gradients add up to one less the decay of `n` steps. */
  lemma {:induction false} WeightTotal(c: real, b: real, n: nat)
    requires c == 1.0 - b
    ensures Sum(n, Weights(c, b, n)) == 1.0 - Power(b, n)
  {
    if n != 0 {
      WeightTotal(c, b, n - 1);
      var now, before := Weights(c, b, n), Weights(c, b, n - 1);
      forall j | 0 <= j < n - 1 ensures now(j) == Times(b, before(j)) {
        WeightDecays(c, b, n, j);
      }
      SumScale(n - 1, b, before, now);
      assert now(n - 1) == Times(c, Power(b, 0)) == c;
      Spread(b, Power(b, n - 1));
    }
  }

  lemma Spread(b: real, q: real)
    ensures Times(b, 1.0 - q) + (1.0 - b) == 1.0 - Times(b, q)
  {
  }

  // ----- bias correction

  /** After `k` of `t` steps delivered a gradient, the corrected moment is a combination of
      those gradients with nonnegative weights that total (1 - b^k) / (1 - b^t): at most
      one, and one exactly when no step was skipped (or nothing decays slowly, at b = 0). */
  lemma BiasCorrection(b: real, t: nat, h: seq<real>)
    requires 0.0 <= b < 1.0 && 1 <= t && |h| <= t
    ensures 1.0 - Power(b, t) > 0.0
    ensures Corrected(b, t, h) == Sum(|h|, Weighted(Shares(b, t, |h|), h))
    ensures forall j :: 0 <= j < |h| ==> Shares(b, t, |h|)(j) >= 0.0
    ensures Sum(|h|, Shares(b, t, |h|)) == Over(1.0 - Power(b, |h|), 1.0 - Power(b, t)) <= 1.0
    ensures Sum(|h|, Shares(b, t, |h|)) == 1.0 <==> |h| == t || (b == 0.0 && |h| >= 1)
  {
    var k, d := |h|, 1.0 - Power(b, t);
    PowerBounds(b, k, t);
    DecayedIsWeighted(1.0 - b, b, h);
    var w, s := Weights(1.0 - b, b, k), Shares(b, t, k);
    forall j | 0 <= j < k
      ensures s(j) >= 0.0 && s(j) == Times(1.0 / d, w(j))
      ensures Weighted(s, h)(j) == Times(1.0 / d, Weighted(w, h)(j))
    {
      PowerBounds(b, 0, k - 1 - j);
      Quotient(1.0 - b, Power(b, k - 1 - j), d);
      Reorder(1.0 / d, w(j), At(h, j));
    }
    SumScale(k, 1.0 / d, Weighted(w, h), Weighted(s, h));
    SumScale(k, 1.0 / d, w, s);
    WeightTotal(1.0 - b, b, k);
    Proportion(Decayed(1.0 - b, b, h), d);
    Proportion(1.0 - Power(b, k), d);
    AtMostOne(1.0 - Power(b, k), d);
  }

  lemma Quotient(c: real, q: real, d: real)
    requires c >= 0.0 && q >= 0.0 && d > 0.0
    ensures Over(Times(c, q), d) >= 0.0 && Over(Times(c, q), d) == Times(1.0 / d, Times(c, q))
  {
    NonNegativeProduct(c, q);
    Proportion(Times(c, q), d);
    NonNegativeProduct(1.0 / d, Times(c, q));
  }

  lemma NonNegativeProduct(x: real, y: real)
    requires x >= 0.0 && y >= 0.0
    ensures Times(x, y) >= 0.0
  {
  }

  lemma Proportion(x: real, d: real)
    requires d > 0.0
    ensures Over(x, d) == Times(1.0 / d, x)
  {
  }

  lemma AtMostOne(x: real, d: real)
    requires x <= d && d > 0.0
    ensures Over(x, d) <= 1.0
    ensures Over(x, d) == 1.0 <==> x == d
  {
  }

  lemma {:induction false} CombinationBounds(n: nat, s: int -> real, h: seq<real>, lo: real, hi: real)
    requires n <= |h| && forall j :: 0 <= j < n ==> s(j) >= 0.0 && lo <= h[j] <= hi
    ensures Times(lo, Sum(n, s)) <= Sum(n, Weighted(s, h)) <= Times(hi, Sum(n, s))
  {
    if n != 0 {
      CombinationBounds(n - 1, s, h, lo, hi);
      ScaledBetween(s(n - 1), h[n - 1], lo, hi, Sum(n - 1, s));
    }
  }

  lemma ScaledBetween(s: real, x: real, lo: real, hi: real, rest: real)
    requires s >= 0.0 && lo <= x <= hi
    ensures Times(lo, rest + s) == Times(lo, rest) + Times(lo, s)
    ensures Times(hi, rest + s) == Times(hi, rest) + Times(hi, s)
    ensures Times(lo, s) <= Times(s, x) <= Times(hi, s)
  {
  }

  /** The corrected moment stays between the smallest and the largest of the gradients,
      with zero counted among them if a step was skipped. */
  lemma CorrectedBetween(b: real, t: nat, h: seq<real>, lo: real, hi: real)
    requires 0.0 <= b < 1.0 && 1 <= t && |h| <= t && lo <= hi
    requires forall j :: 0 <= j < |h| ==> lo <= h[j] <= hi
    requires |h| < t ==> lo <= 0.0 <= hi
    ensures lo <= Corrected(b, t, h) <= hi
  {
    BiasCorrection(b, t, h);
    CombinationBounds(|h|, Shares(b, t, |h|), h, lo, hi);
    SumNonNegative(|h|, Shares(b, t, |h|));
    if |h| < t {
      Within(lo, hi, Sum(|h|, Shares(b, t, |h|)));
    }
  }

  lemma Within(lo: real, hi: real, s: real)
    requires lo <= 0.0 <= hi && 0.0 <= s <= 1.0
    ensures lo <= Times(lo, s) && Times(hi, s) <= hi
  {
  }

  /** The corrected second moment is never negative. */
  lemma SecondNonNegative(b: real, t: nat, h: seq<real>)
    requires 0.0 <= b < 1.0 && 1 <= t && |h| <= t
    ensures Corrected(b, t, Squares(h)) >= 0.0
  {
    BiasCorrection(b, t, Squares(h));
    forall j | 0 <= j < |h| ensures Weighted(Shares(b, t, |h|), Squares(h))(j) >= 0.0 {
      SquareTerm(Shares(b, t, |h|)(j), h[j]);
    }
    SumNonNegative(|h|, Weighted(Shares(b, t, |h|), Squares(h)));
  }

  lemma SquareTerm(s: real, x: real)
    requires s >= 0.0
    ensures Times(s, Times(x, x)) >= 0.0
  {
    NonNegativeSquare(x);
    NonNegativeProduct(s, Times(x, x));
  }

  /** A moment of nonnegative quantities is nonnegative. */
  lemma {:induction false} DecayedNonNegative(c: real, b: real, h: seq<real>)
    requires c >= 0.0 && b >= 0.0 && forall j :: 0 <= j < |h| ==> h[j] >= 0.0
    ensures Decayed(c, b, h) >= 0.0
  {
    if |h| != 0 {
      DecayedNonNegative(c, b, h[..|h| - 1]);
      NonNegativeProduct(b, Decayed(c, b, h[..|h| - 1]));
      NonNegativeProduct(c, h[|h| - 1]);
    }
  }

  lemma NonNegativeSquare(x: real)
    ensures Times(x, x) >= 0.0
  {
  }

  /** `x` is a combination of the gradients in `h` with nonnegative weights totalling at most
      one, and exactly one if and only if no step of `t` was skipped or `b` is zero. */
  ghost predicate Combination(b: real, t: nat, h: seq<real>, x: real) {
    var s := Shares(b, t, |h|);
    && x == Sum(|h|, Weighted(s, h))
    && (forall j :: 0 <= j < |h| ==> s(j) >= 0.0)
    && Sum(|h|, s) <= 1.0
    && (Sum(|h|, s) == 1.0 <==> |h| == t || (b == 0.0 && |h| >= 1))
  }

  lemma CorrectedIsCombination(b: real, t: nat, h: seq<real>)
    requires 0.0 <= b < 1.0 && 1 <= t && |h| <= t
    ensures Combination(b, t, h, Corrected(b, t, h))
  {
    BiasCorrection(b, t, h);
  }
}
