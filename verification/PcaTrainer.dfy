/** The trainer of the 3-d projection: centring, power iteration and deflation, as the mathematics
    on rows and as the loops on the flat data that compute it. */
module PcaTraining {
  import opened Vectors

  const ITERATIONS: nat := 15
  const EPSILON := 0.000000001

  /** 2000 rows of 384 numbers. */
  predicate IsData(X: seq<Vec>) {
    |X| == 2000 && IsMatrix(X, 384)
  }

  // ---------- on rows ----------

  /** The mean loop after `n` rows. */
  function MeanUpTo(X: seq<Vec>, n: nat): (m: Vec)
    requires IsMatrix(X, 384) && n <= |X|
    ensures |m| == 384
  {
    if n == 0 then Zero(384) else AddShare(MeanUpTo(X, n - 1), X[n - 1])
  }

  /** One row's share of the mean is added. */
  function AddShare(m: Vec, row: Vec): (r: Vec)
    requires |m| == |row|
    ensures |r| == |m|
  {
    seq(|m|, j requires 0 <= j < |m| => m[j] + row[j] / 2000.0)
  }

  function Mean(X: seq<Vec>): (m: Vec)
    requires IsData(X)
    ensures |m| == 384
  {
    MeanUpTo(X, 2000)
  }

  function CenterRow(r: Vec, m: Vec): (c: Vec)
    requires |r| == |m|
    ensures |c| == |r|
  {
    seq(|r|, j requires 0 <= j < |r| => r[j] - m[j])
  }

  function Center(X: seq<Vec>, m: Vec): (C: seq<Vec>)
    requires IsMatrix(X, |m|)
    ensures |C| == |X| && IsMatrix(C, |m|)
  {
    seq(|X|, i requires 0 <= i < |X| => CenterRow(X[i], m))
  }

  function DeflateRow(r: Vec, v: Vec): (c: Vec)
    requires |r| == |v|
    ensures |c| == |r|
  {
    seq(|r|, j requires 0 <= j < |r| => r[j] - Dot(r, v) * v[j])
  }

  function Deflate(X: seq<Vec>, v: Vec): (C: seq<Vec>)
    requires IsMatrix(X, |v|)
    ensures |C| == |X| && IsMatrix(C, |v|)
  {
    seq(|X|, i requires 0 <= i < |X| => DeflateRow(X[i], v))
  }

  /** The square root, given by what it is. */
  ghost predicate IsRoot(root: real -> real) {
    forall x :: x >= 0.0 ==> root(x) >= 0.0 && Times(root(x), root(x)) == x
  }

  function Normalized(root: real -> real, next: Vec): (v: Vec)
    requires IsRoot(root)
    ensures |v| == |next|
  {
    NormPositive(next);
    DivideBy(next, root(Norm2(next)) + EPSILON)
  }

  function DivideBy(v: Vec, c: real): (r: Vec)
    requires c > 0.0
    ensures |r| == |v|
  {
    seq(|v|, j requires 0 <= j < |v| => v[j] / c)
  }

  function StartAxis(): (v: Vec)
    ensures |v| == 384
  {
    seq(384, _ => 0.1)
  }

  /** The axis after `k` iterations. */
  function Iterate(root: real -> real, X: seq<Vec>, k: nat): (v: Vec)
    requires IsRoot(root) && IsMatrix(X, 384)
    ensures |v| == 384
    decreases |X|, k
  {
    if k == 0 then StartAxis() else Normalized(root, Gram(X, Iterate(root, X, k - 1)))
  }

  function Axis(root: real -> real, X: seq<Vec>): (v: Vec)
    requires IsRoot(root) && IsMatrix(X, 384)
    ensures |v| == 384
  {
    Iterate(root, X, ITERATIONS)
  }

  /** The data left after `k` axes have been taken out. */
  function Residual(root: real -> real, X: seq<Vec>, k: nat): (R: seq<Vec>)
    requires IsRoot(root) && IsMatrix(X, 384)
    ensures |R| == |X| && IsMatrix(R, 384)
  {
    if k == 0 then X else WithoutAxis(root, Residual(root, X, k - 1))
  }

  function WithoutAxis(root: real -> real, X: seq<Vec>): (R: seq<Vec>)
    requires IsRoot(root) && IsMatrix(X, 384)
    ensures |R| == |X| && IsMatrix(R, 384)
  {
    Deflate(X, Axis(root, X))
  }

  function AxisK(root: real -> real, X: seq<Vec>, k: nat): (v: Vec)
    requires IsRoot(root) && IsMatrix(X, 384)
    ensures |v| == 384
  {
    Axis(root, Residual(root, X, k))
  }

  /** The file the trainer writes: the mean, then the three axes. */
  function Trained(root: real -> real, X: seq<Vec>): (res: Vec)
    requires IsRoot(root) && IsData(X)
    ensures |res| == 1536
  {
    Mean(X) + ThreeAxes(root, Center(X, Mean(X)))
  }

  function ThreeAxes(root: real -> real, C: seq<Vec>): (r: Vec)
    requires IsRoot(root) && IsMatrix(C, 384)
    ensures |r| == 1152
  {
    AxisK(root, C, 0) + AxisK(root, C, 1) + AxisK(root, C, 2)
  }

  // ---------- columns sum to zero ----------

  function ColSum(X: seq<Vec>, n: nat, d: nat): (s: Vec)
    requires IsMatrix(X, d) && n <= |X|
    ensures |s| == d
  {
    if n == 0 then Zero(d) else Add(ColSum(X, n - 1, d), X[n - 1])
  }

  predicate ColumnsSumToZero(X: seq<Vec>, d: nat)
    requires IsMatrix(X, d)
  {
    ColSum(X, |X|, d) == Zero(d)
  }

  lemma {:induction false} MeanIsColSum(X: seq<Vec>, n: nat, j: nat)
    requires IsMatrix(X, 384) && n <= |X| && j < 384
    ensures ColSum(X, n, 384)[j] == MeanUpTo(X, n)[j] * 2000.0
  {
    if n > 0 {
      MeanIsColSum(X, n - 1, j);
    }
  }

  lemma {:induction false} ColSumCenter(X: seq<Vec>, m: Vec, n: nat, j: nat)
    requires IsMatrix(X, |m|) && n <= |X| && j < |m|
    ensures ColSum(Center(X, m), n, |m|)[j] == ColSum(X, n, |m|)[j] - n as real * m[j]
  {
    if n > 0 {
      ColSumCenter(X, m, n - 1, j);
      assert n as real * m[j] == (n - 1) as real * m[j] + m[j];
    }
  }

  lemma CenteredColumnsSumToZero(X: seq<Vec>)
    requires IsData(X)
    ensures ColumnsSumToZero(Center(X, Mean(X)), 384)
  {
    var m := Mean(X);
    forall j: nat | j < 384
      ensures ColSum(Center(X, m), 2000, 384)[j] == 0.0
    {
      MeanIsColSum(X, 2000, j);
      ColSumCenter(X, m, 2000, j);
    }
  }

  lemma {:induction false} DotColSum(X: seq<Vec>, v: Vec, n: nat)
    requires IsMatrix(X, |v|) && n < |X|
    ensures Dot(ColSum(X, n + 1, |v|), v) == Dot(ColSum(X, n, |v|), v) + Dot(X[n], v)
  {
    var d := |v|;
    var s := ColSum(X, n, d);
    DotSym(ColSum(X, n + 1, d), v, d);
    DotAdd(v, s, X[n], d);
    DotSym(s, v, d);
    DotSym(X[n], v, d);
  }

  lemma {:induction false} ColSumDeflate(X: seq<Vec>, v: Vec, n: nat, j: nat)
    requires IsMatrix(X, |v|) && n <= |X| && j < |v|
    ensures ColSum(Deflate(X, v), n, |v|)[j] == ColSum(X, n, |v|)[j] - Dot(ColSum(X, n, |v|), v) * v[j]
  {
    if n == 0 {
      DotSym(Zero(|v|), v, |v|);
      DotZero(v, |v|, |v|);
    } else {
      ColSumDeflate(X, v, n - 1, j);
      DotColSum(X, v, n - 1);
      Combine(ColSum(X, n - 1, |v|)[j], Dot(ColSum(X, n - 1, |v|), v), X[n - 1][j], Dot(X[n - 1], v), v[j]);
    }
  }

  lemma Combine(s: real, d: real, x: real, e: real, c: real)
    ensures (s - d * c) + (x - e * c) == (s + x) - (d + e) * c
  {
  }

  lemma DeflationKeepsColumnsZero(X: seq<Vec>, v: Vec)
    requires IsMatrix(X, |v|) && ColumnsSumToZero(X, |v|)
    ensures ColumnsSumToZero(Deflate(X, v), |v|)
  {
    DotSym(Zero(|v|), v, |v|);
    DotZero(v, |v|, |v|);
    forall j: nat | j < |v|
      ensures ColSum(Deflate(X, v), |X|, |v|)[j] == 0.0
    {
      ColSumDeflate(X, v, |X|, j);
    }
  }

  // ---------- lengths ----------

  lemma DeflatedIsSum(r: Vec, v: Vec)
    requires |r| == |v|
    ensures DeflateRow(r, v) == Add(Scale(1.0, r), Scale(-Dot(r, v), v))
  {
    var c := Dot(r, v);
    forall j | 0 <= j < |r|
      ensures DeflateRow(r, v)[j] == Add(Scale(1.0, r), Scale(-c, v))[j]
    {
      assert -c * v[j] == -(c * v[j]);
    }
  }

  /** |r - c v|^2 in the form that NormOfSum gives it. */
  function LengthLeft(a: real, c: real, b: real): (x: real)
    ensures x == a - c * c * (2.0 - b)
  {
    Expand(a, c, b);
    Mixed(1.0, Mixed(1.0, a, -c, c), -c, Mixed(1.0, c, -c, b))
  }

  lemma Expand(a: real, c: real, b: real)
    ensures Mixed(1.0, Mixed(1.0, a, -c, c), -c, Mixed(1.0, c, -c, b)) == a - c * c * (2.0 - b)
  {
    assert -c * (1.0 * c + -c * b) == -(c * c) + c * c * b;
  }

  /** The energy balance of taking an axis out of one row. */
  lemma DeflatedLength(r: Vec, v: Vec)
    requires |r| == |v|
    ensures Norm2(DeflateRow(r, v)) == Norm2(r) - Dot(r, v) * Dot(r, v) * (2.0 - Norm2(v))
  {
    DeflatedIsSum(r, v);
    NormOfSum(1.0, r, -Dot(r, v), v);
    assert Norm2(DeflateRow(r, v)) == LengthLeft(Norm2(r), Dot(r, v), Norm2(v));
  }

  /** <r - c v, v> in the form that DotOfSum gives it. */
  function AlongLeft(c: real, b: real): (x: real)
    ensures x == c * (1.0 - b)
  {
    assert -c * b == -(c * b);
    Mixed(1.0, c, -c, b)
  }

  /** What is left along a vector in a row that it has been taken out of. */
  lemma DeflatedAlong(r: Vec, v: Vec)
    requires |r| == |v|
    ensures Dot(DeflateRow(r, v), v) == Dot(r, v) * (1.0 - Norm2(v))
  {
    DotOfDeflated(r, v);
    assert Dot(DeflateRow(r, v), v) == AlongLeft(Dot(r, v), Norm2(v));
  }

  lemma DotOfDeflated(r: Vec, v: Vec)
    requires |r| == |v|
    ensures Dot(DeflateRow(r, v), v) == Mixed(1.0, Dot(r, v), -Dot(r, v), Norm2(v))
  {
    DeflatedIsSum(r, v);
    DotOfSum(v, 1.0, r, -Dot(r, v), v);
    DotSym(DeflateRow(r, v), v, |v|);
    DotSym(r, v, |v|);
  }

  lemma DeflationShortens(r: Vec, v: Vec)
    requires |r| == |v| && Norm2(v) <= 1.0
    ensures Norm2(DeflateRow(r, v)) <= Norm2(r)
  {
    DeflatedLength(r, v);
    SquareNonNegative(Dot(r, v));
    NonNegativeProduct(Dot(r, v) * Dot(r, v), 2.0 - Norm2(v));
  }

  /** Dividing by the norm plus a little gives a vector no longer than 1. */
  lemma NormalizedShort(root: real -> real, next: Vec)
    requires IsRoot(root)
    ensures Norm2(Normalized(root, next)) <= 1.0
    ensures root(Norm2(next)) + EPSILON > 0.0
    ensures Normalized(root, next) == Scale(1.0 / (root(Norm2(next)) + EPSILON), next)
  {
    NormPositive(next);
    var s := root(Norm2(next));
    var c := 1.0 / (s + EPSILON);
    forall j | 0 <= j < |next|
      ensures Normalized(root, next)[j] == Scale(c, next)[j]
    {
      Quotient(next[j], s + EPSILON);
    }
    assert Normalized(root, next) == Scale(c, next);
    NormOfScaled(c, next);
    UnitBound(s, EPSILON, c, Norm2(next));
  }

  lemma Quotient(x: real, y: real)
    requires y > 0.0
    ensures x / y == (1.0 / y) * x
  {
  }

  lemma UnitBound(s: real, e: real, c: real, n: real)
    requires s >= 0.0 && e > 0.0 && c == 1.0 / (s + e) && n == Times(s, s)
    ensures c * c * n <= 1.0
  {
    assert c * (s + e) == 1.0;
    assert c > 0.0;
    assert 0.0 <= c * s <= 1.0;
    assert (c * s) * (c * s) <= 1.0;
    assert (c * s) * (c * s) == c * c * (s * s);
  }

  /** How short exactly: by the factor s / (s + 1e-9), s being the length of what is normalised. */
  lemma NormalizedLength(root: real -> real, next: Vec)
    requires IsRoot(root)
    ensures var s := root(Norm2(next));
      Norm2(next) == s * s && Norm2(Normalized(root, next)) * ((s + 0.000000001) * (s + 0.000000001)) == s * s
  {
    NormPositive(next);
    NormalizedShort(root, next);
    var s := root(Norm2(next));
    assert Norm2(next) == Times(s, s);
    NormOfScaled(1.0 / (s + EPSILON), next);
    SquareBack(1.0 / (s + EPSILON), s + EPSILON, Norm2(next));
  }

  lemma SquareBack(c: real, d: real, n: real)
    requires c * d == 1.0
    ensures (c * c * n) * (d * d) == n
  {
    var e := c * d;
    assert (c * c * n) * (d * d) == e * e * n;
    assert e * e * n == 1.0 * 1.0 * n;
  }

  // ---------- the axes ----------

  lemma AxisShort(root: real -> real, X: seq<Vec>, k: nat)
    requires IsRoot(root) && IsMatrix(X, 384) && k > 0
    ensures Norm2(Iterate(root, X, k)) <= 1.0
  {
    NormalizedShort(root, Gram(X, Iterate(root, X, k - 1)));
  }

  lemma NextNull(root: real -> real, X: seq<Vec>, v: Vec)
    requires IsRoot(root) && IsMatrix(X, |v|) && Norm2(v) == 0.0
    ensures Norm2(Normalized(root, Gram(X, v))) == 0.0
  {
    var y, w := Apply(X, v), Gram(X, v);
    CauchySchwarzNull(X, v);
    NormalizedShort(root, w);
    NormOfScaled(1.0 / (root(Norm2(w)) + EPSILON), w);
  }

  /** X^T X v has no length when v has none. */
  lemma CauchySchwarzNull(X: seq<Vec>, v: Vec)
    requires IsMatrix(X, |v|) && Norm2(v) == 0.0
    ensures Norm2(Gram(X, v)) == 0.0
  {
    var y, w := Apply(X, v), Gram(X, v);
    forall i | 0 <= i < |X|
      ensures y[i] == 0.0
    {
      DotWithNull(X[i], v);
    }
    Adjoint(X, w, y, |X|);
    DotOfZeros(Apply(X, w), y, |X|);
  }

  /** However many iterations: the axis captures, per unit length, at least what the starting vector does. */
  lemma {:induction false} IterateImproves(root: real -> real, X: seq<Vec>, k: nat)
    requires IsRoot(root) && IsMatrix(X, 384)
    ensures AtLeastAsGood(X, StartAxis(), Iterate(root, X, k))
  {
    if k > 0 {
      IterateImproves(root, X, k - 1);
      var v := Iterate(root, X, k - 1);
      var next := Gram(X, v);
      GramImproves(X, v);
      NormalizedShort(root, next);
      ScalingKeepsGood(X, v, 1.0 / (root(Norm2(next)) + EPSILON), next);
      if Norm2(v) == 0.0 {
        NextNull(root, X, v);
      }
      GoodTransitive(X, StartAxis(), v, Iterate(root, X, k));
    }
  }

  /** A power step loses a direction exactly when no data lies along it. */
  lemma GramNonzero(X: seq<Vec>, v: Vec)
    requires IsMatrix(X, |v|)
    ensures Norm2(Gram(X, v)) > 0.0 <==> Energy(X, v) > 0.0
  {
    var y, w := Apply(X, v), Gram(X, v);
    NormPositive(w);
    NormPositive(y);
    Adjoint(X, v, y, |X|);
    if Norm2(w) == 0.0 {
      DotWithNull(v, w);
    }
    if Norm2(y) == 0.0 {
      NormNonNegative(y, |y|);
      Adjoint(X, w, y, |X|);
      DotOfZeros(Apply(X, w), y, |X|);
    }
  }

  lemma NormalizedNonzero(root: real -> real, next: Vec)
    requires IsRoot(root)
    ensures Norm2(Normalized(root, next)) > 0.0 <==> Norm2(next) > 0.0
  {
    NormalizedShort(root, next);
    NormPositive(next);
    var c := 1.0 / (root(Norm2(next)) + EPSILON);
    NormOfScaled(c, next);
    SameSign(c, c);
    if Norm2(next) > 0.0 {
      SameSign(Times(c, c), Norm2(next));
    }
  }

  lemma EnergyOfNull(X: seq<Vec>, v: Vec)
    requires IsMatrix(X, |v|) && Norm2(v) == 0.0
    ensures Energy(X, v) == 0.0
  {
    var y := Apply(X, v);
    forall i | 0 <= i < |X|
      ensures y[i] == 0.0
    {
      DotWithNull(X[i], v);
    }
    DotOfZeros(y, y, |y|);
  }

  /** Some data lies along a good nonzero vector when some lies along the starting vector. */
  lemma GoodHasEnergy(X: seq<Vec>, u: Vec, v: Vec)
    requires |u| == |v| && IsMatrix(X, |v|) && AtLeastAsGood(X, u, v)
    requires Energy(X, u) > 0.0 && Norm2(v) > 0.0
    ensures Energy(X, v) > 0.0
  {
    NormPositive(u);
    NormPositive(Apply(X, v));
    SameSign(Energy(X, u), Norm2(v));
  }

  /** The iteration ends with a nonzero vector exactly when some data lies along the starting vector. */
  lemma {:induction false} IterateNonzero(root: real -> real, X: seq<Vec>, k: nat)
    requires IsRoot(root) && IsMatrix(X, 384) && k > 0
    ensures Norm2(Iterate(root, X, k)) > 0.0 <==> Energy(X, StartAxis()) > 0.0
  {
    var v := Iterate(root, X, k - 1);
    GramNonzero(X, v);
    NormalizedNonzero(root, Gram(X, v));
    if k > 1 {
      IterateNonzero(root, X, k - 1);
      NormPositive(v);
      if Norm2(v) > 0.0 {
        IterateImproves(root, X, k - 1);
        GoodHasEnergy(X, StartAxis(), v);
      } else {
        EnergyOfNull(X, v);
      }
    }
  }

  lemma AxisIsGood(root: real -> real, R: seq<Vec>)
    requires IsRoot(root) && IsMatrix(R, 384)
    ensures Norm2(Axis(root, R)) <= 1.0
    ensures Norm2(Axis(root, R)) > 0.0 <==> Energy(R, StartAxis()) > 0.0
    ensures AtLeastAsGood(R, StartAxis(), Axis(root, R))
  {
    AxisShort(root, R, ITERATIONS);
    IterateNonzero(root, R, ITERATIONS);
    IterateImproves(root, R, ITERATIONS);
  }

  /** One round of finding an axis and taking it out lengthens no row. */
  lemma RoundShortens(root: real -> real, R: seq<Vec>, i: nat)
    requires IsRoot(root) && IsMatrix(R, 384) && i < |R|
    ensures Norm2(WithoutAxis(root, R)[i]) <= Norm2(R[i])
  {
    AxisShort(root, R, ITERATIONS);
    DeflationShortens(R[i], Axis(root, R));
  }

  lemma {:induction false} ResidualShort(root: real -> real, C: seq<Vec>, k: nat, i: nat)
    requires IsRoot(root) && IsMatrix(C, 384) && i < |C|
    ensures Norm2(Residual(root, C, k)[i]) <= Norm2(C[i])
  {
    if k > 0 {
      ResidualShort(root, C, k - 1, i);
      RoundShortens(root, Residual(root, C, k - 1), i);
    }
  }

  lemma {:induction false} ResidualColumns(root: real -> real, C: seq<Vec>, k: nat)
    requires IsRoot(root) && IsMatrix(C, 384) && ColumnsSumToZero(C, 384)
    ensures ColumnsSumToZero(Residual(root, C, k), 384)
  {
    if k > 0 {
      ResidualColumns(root, C, k - 1);
      RoundKeepsColumns(root, Residual(root, C, k - 1));
    }
  }

  lemma RoundKeepsColumns(root: real -> real, R: seq<Vec>)
    requires IsRoot(root) && IsMatrix(R, 384) && ColumnsSumToZero(R, 384)
    ensures ColumnsSumToZero(WithoutAxis(root, R), 384)
  {
    DeflationKeepsColumnsZero(R, Axis(root, R));
  }

  /** After any number of rounds the columns still sum to zero and no row has grown. */
  lemma ResidualCentered(root: real -> real, X: seq<Vec>, k: nat)
    requires IsRoot(root) && IsData(X)
    ensures ColumnsSumToZero(Residual(root, Center(X, Mean(X)), k), 384)
    ensures forall i :: 0 <= i < 2000 ==> Norm2(Residual(root, Center(X, Mean(X)), k)[i]) <= Norm2(Center(X, Mean(X))[i])
  {
    var C := Center(X, Mean(X));
    CenteredColumnsSumToZero(X);
    ResidualColumns(root, C, k);
    forall i | 0 <= i < 2000
      ensures Norm2(Residual(root, C, k)[i]) <= Norm2(C[i])
    {
      ResidualShort(root, C, k, i);
    }
  }

  /** Every axis written is no longer than 1, nonzero exactly when some of the data left for it lies along the vector
      that the iteration starts from, and then at least as good a direction as that vector. */
  lemma WrittenAxisIsGood(root: real -> real, X: seq<Vec>, k: nat)
    requires IsRoot(root) && IsData(X)
    ensures var R := Residual(root, Center(X, Mean(X)), k);
      && Norm2(AxisK(root, Center(X, Mean(X)), k)) <= 1.0
      && (Norm2(AxisK(root, Center(X, Mean(X)), k)) > 0.0 <==> Energy(R, StartAxis()) > 0.0)
      && AtLeastAsGood(R, StartAxis(), AxisK(root, Center(X, Mean(X)), k))
  {
    AxisIsGood(root, Residual(root, Center(X, Mean(X)), k));
  }

  // ---------- the axis is a power ----------

  /** (X^T X)^k v. */
  function Power(X: seq<Vec>, k: nat, v: Vec): (r: Vec)
    requires IsMatrix(X, |v|)
    ensures |r| == |v|
    decreases |X|, k
  {
    if k == 0 then v else Power(X, k - 1, Gram(X, v))
  }

  lemma {:induction false} PowerMore(X: seq<Vec>, k: nat, v: Vec)
    requires IsMatrix(X, |v|)
    ensures Power(X, k + 1, v) == Gram(X, Power(X, k, v))
  {
    if k > 0 {
      PowerMore(X, k - 1, Gram(X, v));
    }
  }

  lemma CombEntry(X: seq<Vec>, y: Vec, n: nat, d: nat, j: nat)
    requires IsMatrix(X, d) && 0 < n <= |X| && n <= |y| && j < d
    ensures Comb(X, y, n, d)[j] == Comb(X, y, n - 1, d)[j] + Times(y[n - 1], X[n - 1][j])
  {
  }

  lemma ScaledEntry(c: real, s: real, y: real, x: real)
    ensures Times(c, s + Times(y, x)) == Times(c, s) + Times(c * y, x)
  {
  }

  lemma {:induction false} CombScaledAt(X: seq<Vec>, c: real, y: Vec, n: nat, d: nat, j: nat)
    requires IsMatrix(X, d) && n <= |X| && n <= |y| && j < d
    ensures Comb(X, Scale(c, y), n, d)[j] == Times(c, Comb(X, y, n, d)[j])
  {
    if n > 0 {
      CombScaledAt(X, c, y, n - 1, d, j);
      CombEntry(X, y, n, d, j);
      CombEntry(X, Scale(c, y), n, d, j);
      ScaledEntry(c, Comb(X, y, n - 1, d)[j], y[n - 1], X[n - 1][j]);
    }
  }

  lemma CombScaled(X: seq<Vec>, c: real, y: Vec, n: nat, d: nat)
    requires IsMatrix(X, d) && n <= |X| && n <= |y|
    ensures Comb(X, Scale(c, y), n, d) == Scale(c, Comb(X, y, n, d))
  {
    forall j: nat | j < d
      ensures Comb(X, Scale(c, y), n, d)[j] == Scale(c, Comb(X, y, n, d))[j]
    {
      CombScaledAt(X, c, y, n, d, j);
    }
  }

  lemma GramScaled(X: seq<Vec>, c: real, v: Vec)
    requires IsMatrix(X, |v|)
    ensures Gram(X, Scale(c, v)) == Scale(c, Gram(X, v))
  {
    ApplyScaled(X, c, v);
    CombScaled(X, c, Apply(X, v), |X|, |v|);
  }

  lemma ScaleTwice(c: real, d: real, v: Vec)
    ensures Scale(c, Scale(d, v)) == Scale(Times(c, d), v)
  {
    forall j | 0 <= j < |v|
      ensures Scale(c, Scale(d, v))[j] == Scale(Times(c, d), v)[j]
    {
    }
  }

  lemma NormalizedIsMultiple(root: real -> real, next: Vec) returns (c: real)
    requires IsRoot(root)
    ensures c > 0.0 && Normalized(root, next) == Scale(c, next)
  {
    NormalizedShort(root, next);
    c := 1.0 / (root(Norm2(next)) + EPSILON);
  }

  lemma ScaleOne(v: Vec)
    ensures Scale(1.0, v) == v
  {
  }

  lemma NextMultiple(root: real -> real, X: seq<Vec>, d: real, p: Vec) returns (c: real)
    requires IsRoot(root) && IsMatrix(X, |p|) && d > 0.0
    ensures c > 0.0 && Normalized(root, Gram(X, Scale(d, p))) == Scale(c, Gram(X, p))
  {
    GramScaled(X, d, p);
    var e := NormalizedIsMultiple(root, Gram(X, Scale(d, p)));
    c := Times(e, d);
    SameSign(e, d);
    ScaleTwice(e, d, Gram(X, p));
  }

  lemma NextIterate(root: real -> real, X: seq<Vec>, k: nat, d: real, p: Vec) returns (c: real)
    requires IsRoot(root) && IsMatrix(X, 384) && |p| == 384 && k > 0 && d > 0.0
    requires Iterate(root, X, k - 1) == Scale(d, p)
    ensures c > 0.0 && Iterate(root, X, k) == Scale(c, Gram(X, p))
  {
    c := NextMultiple(root, X, d, p);
  }

  /** After `k` iterations stands a positive multiple of (X^T X)^k times the starting vector. */
  lemma {:induction false} IterateIsPower(root: real -> real, X: seq<Vec>, k: nat, start: Vec) returns (c: real)
    requires IsRoot(root) && IsMatrix(X, 384) && start == StartAxis()
    ensures c > 0.0 && Iterate(root, X, k) == Scale(c, Power(X, k, start))
  {
    if k == 0 {
      c := 1.0;
      ScaleOne(start);
    } else {
      var d := IterateIsPower(root, X, k - 1, start);
      PowerMore(X, k - 1, start);
      c := NextIterate(root, X, k, d, Power(X, k - 1, start));
    }
  }

  /** Each axis written points where the fifteenth power of the data left for it sends the vector of 0.1s. */
  lemma AxisIsPower(root: real -> real, X: seq<Vec>, k: nat) returns (c: real)
    requires IsRoot(root) && IsMatrix(X, 384)
    ensures c > 0.0 && AxisK(root, X, k) == Scale(c, Power(Residual(root, X, k), 15, seq(384, _ => 0.1)))
  {
    c := IterateIsPower(root, Residual(root, X, k), ITERATIONS, StartAxis());
  }

  // ---------- what the rounds take out ----------

  /** What taking out `v` takes from a row: its length squared along `v`, for a vector of length 1. */
  function RowTaken(r: Vec, v: Vec): real
    requires |r| == |v|
  {
    Dot(r, v) * Dot(r, v) * (2.0 - Norm2(v))
  }

  /** `left` is shorter than `r` by what lay along `v`, and of that the part 1 - |v|^2 is left. */
  predicate TakenOut(r: Vec, v: Vec, left: Vec)
    requires |r| == |v| == |left|
  {
    && Norm2(left) == Norm2(r) - RowTaken(r, v)
    && Dot(left, v) == Dot(r, v) * (1.0 - Norm2(v))
  }

  lemma RowTakenOut(r: Vec, v: Vec)
    requires |r| == |v|
    ensures TakenOut(r, v, DeflateRow(r, v))
  {
    DeflatedLength(r, v);
    DeflatedAlong(r, v);
  }

  /** Each round takes its own axis out of every row that is left for it. */
  lemma RoundTakesOut(root: real -> real, X: seq<Vec>, k: nat, i: nat)
    requires IsRoot(root) && IsMatrix(X, 384) && i < |X|
    ensures TakenOut(Residual(root, X, k)[i], AxisK(root, X, k), Residual(root, X, k + 1)[i])
  {
    RowTakenOut(Residual(root, X, k)[i], AxisK(root, X, k));
  }

  /** All that is in the data: the sum of the squared lengths of the rows. */
  function Total(X: seq<Vec>): real {
    if X == [] then 0.0 else Total(X[..|X| - 1]) + Norm2(X[|X| - 1])
  }

  /** What taking out `v` takes: the energy along it, for a vector of length 1. */
  function Taken(X: seq<Vec>, v: Vec): real
    requires IsMatrix(X, |v|)
  {
    Energy(X, v) * (2.0 - Norm2(v))
  }

  lemma {:induction false} TotalDeflated(X: seq<Vec>, v: Vec)
    requires IsMatrix(X, |v|)
    ensures Total(Deflate(X, v)) == Total(X) - Taken(X, v)
  {
    if X == [] {
      NothingTaken(v);
    } else {
      var n := |X| - 1;
      TotalDeflated(X[..n], v);
      assert Deflate(X, v)[..n] == Deflate(X[..n], v);
      RowTakenOut(X[n], v);
      TakenMore(X, v);
    }
  }

  lemma NothingTaken(v: Vec)
    ensures Taken([], v) == 0.0
  {
  }

  lemma TakenMore(X: seq<Vec>, v: Vec)
    requires IsMatrix(X, |v|) && X != []
    ensures Taken(X, v) == Taken(X[..|X| - 1], v) + RowTaken(X[|X| - 1], v)
  {
    var n := |X| - 1;
    EnergyOneMore(X, v);
    Spread(Energy(X[..n], v), Dot(X[n], v) * Dot(X[n], v), 2.0 - Norm2(v));
  }

  lemma Spread(a: real, b: real, c: real)
    ensures (a + b) * c == a * c + b * c
  {
  }

  lemma EnergyOneMore(X: seq<Vec>, v: Vec)
    requires IsMatrix(X, |v|) && X != []
    ensures Energy(X, v) == Energy(X[..|X| - 1], v) + Dot(X[|X| - 1], v) * Dot(X[|X| - 1], v)
  {
    var n := |X| - 1;
    DotNOfPrefix(Apply(X, v), Apply(X[..n], v), n);
  }

  lemma {:induction false} DotNOfPrefix(u: Vec, v: Vec, n: nat)
    requires n <= |u| && n <= |v| && forall j :: 0 <= j < n ==> u[j] == v[j]
    ensures DotN(u, u, n) == DotN(v, v, n)
  {
    if n > 0 {
      DotNOfPrefix(u, v, n - 1);
    }
  }

  /** What the first `k` axes have taken, each out of the data left for it. */
  function Explained(root: real -> real, X: seq<Vec>, k: nat): real
    requires IsRoot(root) && IsMatrix(X, 384)
  {
    if k == 0 then 0.0
    else Explained(root, X, k - 1) + Taken(Residual(root, X, k - 1), AxisK(root, X, k - 1))
  }

  /** What the axes took and what is left add up to what there was, after any number of rounds. */
  lemma {:induction false} EnergyConserved(root: real -> real, X: seq<Vec>, k: nat)
    requires IsRoot(root) && IsMatrix(X, 384)
    ensures Total(X) == Explained(root, X, k) + Total(Residual(root, X, k))
  {
    if k > 0 {
      EnergyConserved(root, X, k - 1);
      var R := Residual(root, X, k - 1);
      TotalDeflated(R, Axis(root, R));
    }
  }

  /** A direction without data is at right angles to the axis found, and taking that axis out puts nothing there. */
  lemma EmptyStaysEmpty(root: real -> real, X: seq<Vec>, u: Vec)
    requires IsRoot(root) && IsMatrix(X, 384) && |u| == 384
    requires Apply(X, u) == Zero(|X|)
    ensures Dot(Axis(root, X), u) == 0.0
    ensures Apply(WithoutAxis(root, X), u) == Zero(|X|)
  {
    NextAcross(root, X, u, Iterate(root, X, ITERATIONS - 1));
    forall i | 0 <= i < |X|
      ensures Apply(WithoutAxis(root, X), u)[i] == 0.0
    {
      assert Apply(X, u)[i] == 0.0;
      DeflatedAcross(X[i], Axis(root, X), u);
    }
  }

  /** Taking out a vector leaves alone what lies at right angles to it. */
  lemma DeflatedAcross(r: Vec, v: Vec, u: Vec)
    requires |r| == |v| == |u| && Dot(v, u) == 0.0
    ensures Dot(DeflateRow(r, v), u) == Dot(r, u)
  {
    DeflatedIsSum(r, v);
    DotOfSum(u, 1.0, r, -Dot(r, v), v);
    DotSym(u, r, |u|);
    DotSym(u, v, |u|);
    DotSym(u, DeflateRow(r, v), |u|);
  }

  lemma NextAcross(root: real -> real, X: seq<Vec>, u: Vec, v: Vec)
    requires IsRoot(root) && IsMatrix(X, |v|) && |u| == |v|
    requires Apply(X, u) == Zero(|X|)
    ensures Dot(Normalized(root, Gram(X, v)), u) == 0.0
  {
    var w := Gram(X, v);
    NormalizedShort(root, w);
    Adjoint(X, u, Apply(X, v), |X|);
    ZeroDot(Apply(X, v));
    DotOfScaled(u, 1.0 / (root(Norm2(w)) + EPSILON), w);
    DotSym(u, w, |u|);
    DotSym(u, Normalized(root, w), |u|);
  }

  /** So every later axis is at right angles to a direction along which nothing is left. */
  lemma {:induction false} NothingComesBack(root: real -> real, X: seq<Vec>, j: nat, k: nat, u: Vec)
    requires IsRoot(root) && IsMatrix(X, 384) && |u| == 384 && j <= k
    requires Apply(Residual(root, X, j), u) == Zero(|X|)
    ensures Apply(Residual(root, X, k), u) == Zero(|X|)
    ensures Dot(AxisK(root, X, k), u) == 0.0
  {
    if j < k {
      NothingComesBack(root, X, j, k - 1, u);
      EmptyStaysEmpty(root, Residual(root, X, k - 1), u);
    }
    EmptyStaysEmpty(root, Residual(root, X, k), u);
  }
}
