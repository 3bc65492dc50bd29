/** Vectors and matrices over exact reals: what the trainer's loops compute, and the inequalities behind it. */
module Vectors {

  type Vec = seq<real>

  /** The sum of the first `n` products, as an accumulating loop forms it. */
  function DotN(u: Vec, v: Vec, n: nat): real
    requires n <= |u| && n <= |v|
  {
    if n == 0 then 0.0 else DotN(u, v, n - 1) + u[n - 1] * v[n - 1]
  }

  function Dot(u: Vec, v: Vec): real
    requires |u| == |v|
  {
    DotN(u, v, |u|)
  }

  function Norm2(v: Vec): real {
    Dot(v, v)
  }

  function Add(u: Vec, v: Vec): (r: Vec)
    requires |u| == |v|
    ensures |r| == |u|
  {
    seq(|u|, j requires 0 <= j < |u| => u[j] + v[j])
  }

  function Scale(c: real, v: Vec): (r: Vec)
    ensures |r| == |v|
  {
    seq(|v|, j requires 0 <= j < |v| => c * v[j])
  }

  function Zero(d: nat): (r: Vec)
    ensures |r| == d
  {
    seq(d, _ => 0.0)
  }

  // ---------- the dot product is bilinear ----------

  lemma {:induction false} DotSym(u: Vec, v: Vec, n: nat)
    requires n <= |u| && n <= |v|
    ensures DotN(u, v, n) == DotN(v, u, n)
  {
    if n > 0 {
      DotSym(u, v, n - 1);
    }
  }

  lemma {:induction false} DotAdd(u: Vec, v: Vec, w: Vec, n: nat)
    requires n <= |u| == |v| == |w|
    ensures DotN(u, Add(v, w), n) == DotN(u, v, n) + DotN(u, w, n)
  {
    if n > 0 {
      DotAdd(u, v, w, n - 1);
    }
  }

  lemma {:induction false} DotScale(u: Vec, c: real, v: Vec, n: nat)
    requires n <= |u| == |v|
    ensures DotN(u, Scale(c, v), n) == c * DotN(u, v, n)
  {
    if n > 0 {
      DotScale(u, c, v, n - 1);
      Distribute(c, DotN(u, v, n - 1), u[n - 1], v[n - 1]);
    }
  }

  lemma Distribute(c: real, s: real, a: real, b: real)
    ensures c * (s + a * b) == c * s + a * (c * b)
  {
  }

  lemma {:induction false} DotZero(u: Vec, d: nat, n: nat)
    requires n <= |u| && n <= d
    ensures DotN(u, Zero(d), n) == 0.0
  {
    if n > 0 {
      DotZero(u, d, n - 1);
    }
  }

  lemma ZeroDot(v: Vec)
    ensures Dot(Zero(|v|), v) == 0.0
  {
    DotSym(Zero(|v|), v, |v|);
    DotZero(v, |v|, |v|);
  }

  lemma {:induction false} NormNonNegative(v: Vec, n: nat)
    requires n <= |v|
    ensures DotN(v, v, n) >= 0.0
    ensures forall j :: 0 <= j < n && v[j] != 0.0 ==> DotN(v, v, n) > 0.0
  {
    if n > 0 {
      NormNonNegative(v, n - 1);
      SquareNonNegative(v[n - 1]);
      if v[n - 1] != 0.0 {
        AddSquare(DotN(v, v, n - 1), v[n - 1]);
      }
    }
  }

  lemma NormPositive(v: Vec)
    ensures Norm2(v) >= 0.0
  {
    NormNonNegative(v, |v|);
  }

  lemma SquareNonNegative(x: real)
    ensures x * x >= 0.0
  {
  }

  function Times(x: real, y: real): real {
    x * y
  }

  lemma SameSign(x: real, y: real)
    requires (x > 0.0 && y > 0.0) || (x < 0.0 && y < 0.0)
    ensures Times(x, y) > 0.0
  {
  }

  lemma AddSquare(a: real, x: real)
    requires a >= 0.0 && x != 0.0
    ensures a + x * x > 0.0
  {
    SameSign(x, x);
  }

  lemma {:induction false} DotOfZeros(u: Vec, v: Vec, n: nat)
    requires n <= |u| && n <= |v| && forall j :: 0 <= j < n ==> v[j] == 0.0
    ensures DotN(u, v, n) == 0.0
  {
    if n > 0 {
      DotOfZeros(u, v, n - 1);
    }
  }

  lemma DotWithNull(u: Vec, v: Vec)
    requires |u| == |v| && Norm2(v) == 0.0
    ensures Dot(u, v) == 0.0
  {
    NormNonNegative(v, |v|);
    DotOfZeros(u, v, |v|);
  }

  /** a x + b y. */
  function Mixed(a: real, x: real, b: real, y: real): real {
    a * x + b * y
  }

  lemma DotOfSum(w: Vec, a: real, u: Vec, b: real, v: Vec)
    requires |w| == |u| == |v|
    ensures Dot(w, Add(Scale(a, u), Scale(b, v))) == Mixed(a, Dot(w, u), b, Dot(w, v))
  {
    DotAdd(w, Scale(a, u), Scale(b, v), |w|);
    DotScale(w, a, u, |w|);
    DotScale(w, b, v, |w|);
  }

  /** |a u + b v|^2 spelled out. */
  lemma NormOfSum(a: real, u: Vec, b: real, v: Vec)
    requires |u| == |v|
    ensures Norm2(Add(Scale(a, u), Scale(b, v)))
      == Mixed(a, Mixed(a, Norm2(u), b, Dot(u, v)), b, Mixed(a, Dot(u, v), b, Norm2(v)))
  {
    var w := Add(Scale(a, u), Scale(b, v));
    DotOfSum(w, a, u, b, v);
    DotOfSum(u, a, u, b, v);
    DotOfSum(v, a, u, b, v);
    DotSym(w, u, |u|);
    DotSym(w, v, |u|);
    DotSym(u, v, |u|);
  }

  lemma CauchySchwarz(u: Vec, v: Vec)
    requires |u| == |v|
    ensures Dot(u, v) * Dot(u, v) <= Norm2(u) * Norm2(v)
  {
    var a, b, c := Norm2(u), Norm2(v), Dot(u, v);
    NormNonNegative(v, |v|);
    if b == 0.0 {
      DotWithNull(u, v);
    } else {
      NormOfSum(b, u, -c, v);
      NormNonNegative(Add(Scale(b, u), Scale(-c, v)), |u|);
      Discriminant(a, b, c);
    }
  }

  lemma Discriminant(a: real, b: real, c: real)
    requires b > 0.0
    requires Mixed(b, Mixed(b, a, -c, c), -c, Mixed(b, c, -c, b)) >= 0.0
    ensures c * c <= a * b
  {
    assert b * c + -c * b == 0.0;
    if c * c > a * b {
      Product(b, b * a + -c * c);
    }
  }

  lemma Product(x: real, y: real)
    requires x > 0.0 && y < 0.0
    ensures x * y < 0.0
  {
  }

  // ---------- matrices ----------

  /** A list of rows, each of length `d`. */
  predicate IsMatrix(X: seq<Vec>, d: nat) {
    forall i :: 0 <= i < |X| ==> |X[i]| == d
  }

  /** X v. */
  function Apply(X: seq<Vec>, v: Vec): (r: Vec)
    requires IsMatrix(X, |v|)
    ensures |r| == |X|
  {
    seq(|X|, i requires 0 <= i < |X| => Dot(X[i], v))
  }

  /** y[0] X[0] + ... + y[n-1] X[n-1]. */
  function Comb(X: seq<Vec>, y: Vec, n: nat, d: nat): (r: Vec)
    requires IsMatrix(X, d) && n <= |X| && n <= |y|
    ensures |r| == d
  {
    if n == 0 then Zero(d) else Add(Comb(X, y, n - 1, d), Scale(y[n - 1], X[n - 1]))
  }

  /** How much of the data lies along `v`: |X v|^2. */
  function Energy(X: seq<Vec>, v: Vec): real
    requires IsMatrix(X, |v|)
  {
    Norm2(Apply(X, v))
  }

  lemma DotOfScaled(v: Vec, c: real, x: Vec)
    requires |v| == |x|
    ensures Dot(v, Scale(c, x)) == Dot(x, v) * c
  {
    DotScale(v, c, x, |v|);
    DotSym(v, x, |v|);
  }

  /** <v, X^T y> == <X v, y>. */
  lemma {:induction false} Adjoint(X: seq<Vec>, v: Vec, y: Vec, n: nat)
    requires IsMatrix(X, |v|) && n <= |X| && n <= |y|
    ensures Dot(v, Comb(X, y, n, |v|)) == DotN(Apply(X, v), y, n)
  {
    var d := |v|;
    if n == 0 {
      DotZero(v, d, d);
    } else {
      Adjoint(X, v, y, n - 1);
      DotAdd(v, Comb(X, y, n - 1, d), Scale(y[n - 1], X[n - 1]), d);
      DotOfScaled(v, y[n - 1], X[n - 1]);
    }
  }

  /** X^T (X v). */
  function Gram(X: seq<Vec>, v: Vec): (r: Vec)
    requires IsMatrix(X, |v|)
    ensures |r| == |v|
  {
    Comb(X, Apply(X, v), |X|, |v|)
  }

  /** The data captured along `w`, per unit length, is at least that along `v`. */
  predicate AtLeastAsGood(X: seq<Vec>, v: Vec, w: Vec)
    requires IsMatrix(X, |v|) && IsMatrix(X, |w|)
  {
    Energy(X, v) * Norm2(w) <= Energy(X, w) * Norm2(v)
  }

  /** One step of the power iteration never loses ground: Cauchy-Schwarz twice. */
  lemma GramImproves(X: seq<Vec>, v: Vec)
    requires IsMatrix(X, |v|)
    ensures AtLeastAsGood(X, v, Gram(X, v))
  {
    var y, w := Apply(X, v), Gram(X, v);
    Adjoint(X, v, y, |X|);
    Adjoint(X, w, y, |X|);
    CauchySchwarz(v, w);
    CauchySchwarz(Apply(X, w), y);
    NormPositive(v);
    NormPositive(w);
    NormPositive(y);
    NormPositive(Apply(X, w));
    TwoSquares(Norm2(y), Norm2(w), Energy(X, w), Norm2(v));
  }

  /** From a^2 <= v w and w^2 <= e a follows a w <= e v. */
  lemma TwoSquares(a: real, w: real, e: real, v: real)
    requires a >= 0.0 && w >= 0.0 && e >= 0.0 && v >= 0.0
    requires a * a <= v * w && w * w <= e * a
    ensures a * w <= e * v
  {
    if a * w > e * v {
      var p := a * w;
      NonNegativeProduct(e, v);
      assert a > 0.0 && w > 0.0;
      MonotoneProduct(a * a, v * w, w * w, e * a);
      assert p * p == (a * a) * (w * w);
      assert (v * w) * (e * a) == (e * v) * p;
      Cancel(p, e * v);
    }
  }

  lemma NonNegativeProduct(x: real, y: real)
    requires x >= 0.0 && y >= 0.0
    ensures x * y >= 0.0
  {
  }

  lemma MonotoneProduct(x: real, x': real, y: real, y': real)
    requires 0.0 <= x <= x' && 0.0 <= y <= y'
    ensures x * y <= x' * y'
  {
    assert x * y <= x' * y;
    assert x' * y <= x' * y';
  }

  lemma Cancel(p: real, q: real)
    requires p > 0.0 && p * p <= q * p
    ensures p <= q
  {
  }

  // ---------- scaling ----------

  lemma NormOfScaled(c: real, v: Vec)
    ensures Norm2(Scale(c, v)) == c * c * Norm2(v)
  {
    var w := Scale(c, v);
    DotScale(w, c, v, |v|);
    DotSym(w, v, |v|);
    DotScale(v, c, v, |v|);
  }

  lemma ApplyScaled(X: seq<Vec>, c: real, v: Vec)
    requires IsMatrix(X, |v|)
    ensures Apply(X, Scale(c, v)) == Scale(c, Apply(X, v))
  {
    forall i | 0 <= i < |X|
      ensures Apply(X, Scale(c, v))[i] == Scale(c, Apply(X, v))[i]
    {
      DotScale(X[i], c, v, |v|);
    }
  }

  lemma EnergyOfScaled(X: seq<Vec>, c: real, v: Vec)
    requires IsMatrix(X, |v|)
    ensures Energy(X, Scale(c, v)) == c * c * Energy(X, v)
  {
    ApplyScaled(X, c, v);
    NormOfScaled(c, Apply(X, v));
  }

  lemma ScalingKeepsGood(X: seq<Vec>, v: Vec, c: real, w: Vec)
    requires IsMatrix(X, |v|) && |w| == |v| && AtLeastAsGood(X, v, w)
    ensures AtLeastAsGood(X, v, Scale(c, w))
  {
    NormOfScaled(c, w);
    EnergyOfScaled(X, c, w);
    SquareNonNegative(c);
    ScaleBoth(c * c, Energy(X, v), Norm2(w), Energy(X, w), Norm2(v));
  }

  lemma ScaleBoth(k: real, a: real, b: real, c: real, d: real)
    requires k >= 0.0 && a * b <= c * d
    ensures a * (k * b) <= k * c * d
  {
    assert a * (k * b) == k * (a * b);
    assert k * c * d == k * (c * d);
  }

  /** Being at least as good is transitive through a nonzero vector. */
  lemma GoodTransitive(X: seq<Vec>, u: Vec, v: Vec, w: Vec)
    requires |u| == |v| == |w| && IsMatrix(X, |v|)
    requires AtLeastAsGood(X, u, v) && AtLeastAsGood(X, v, w)
    requires Norm2(v) == 0.0 ==> Norm2(w) == 0.0
    ensures AtLeastAsGood(X, u, w)
  {
    NormPositive(u);
    NormPositive(v);
    NormPositive(w);
    NormPositive(Apply(X, w));
    ChainOrNull(Energy(X, u), Norm2(u), Energy(X, v), Norm2(v), Energy(X, w), Norm2(w));
  }

  lemma ChainOrNull(a0: real, b0: real, a1: real, b1: real, a2: real, b2: real)
    requires b0 >= 0.0 && b1 >= 0.0 && b2 >= 0.0 && a2 >= 0.0
    requires a0 * b1 <= a1 * b0 && a1 * b2 <= a2 * b1
    requires b1 == 0.0 ==> b2 == 0.0
    ensures a0 * b2 <= a2 * b0
  {
    if b1 == 0.0 {
      NonNegativeProduct(a2, b0);
      assert a0 * b2 == 0.0;
    } else {
      Chain(a0, b0, a1, b1, a2, b2);
    }
  }

  lemma Chain(a0: real, b0: real, a1: real, b1: real, a2: real, b2: real)
    requires b0 >= 0.0 && b1 > 0.0 && b2 >= 0.0
    requires a0 * b1 <= a1 * b0 && a1 * b2 <= a2 * b1
    ensures a0 * b2 <= a2 * b0
  {
    Scaled(b2, a0 * b1, a1 * b0);
    Scaled(b0, a1 * b2, a2 * b1);
    assert b2 * (a0 * b1) == (a0 * b2) * b1;
    assert b2 * (a1 * b0) == b0 * (a1 * b2);
    assert b0 * (a2 * b1) == (a2 * b0) * b1;
    CancelRight(a0 * b2, a2 * b0, b1);
  }

  lemma Scaled(k: real, x: real, y: real)
    requires k >= 0.0 && x <= y
    ensures k * x <= k * y
  {
  }

  lemma CancelRight(x: real, y: real, k: real)
    requires k > 0.0 && x * k <= y * k
    ensures x <= y
  {
  }
}
