/** The projector of the server, and what joins it to the trainer: the same file, and a centred picture. */
module Projection {
  import opened Options
  import opened Vectors
  import opened PcaTraining

  /** Coordinate `k` of a point, from the file that the trainer writes. */
  function Coordinate(file: Vec, x: Vec, k: nat): real
    requires |file| == 1536 && |x| == 384 && k < 3
  {
    Dot(CenterRow(x, file[..384]), file[(k + 1) * 384..(k + 2) * 384])
  }

  class LogProjector {
    const mean: array<real>
    const components: array2<real>

    ghost predicate Loaded(file: Vec)
      reads mean, components
    {
      && |file| == 1536
      && mean.Length == 384 && components.Length0 == 3 && components.Length1 == 384
      && mean[..] == file[..384]
      && forall k, i :: 0 <= k < 3 && 0 <= i < 384 ==> components[k, i] == file[(k + 1) * 384 + i]
    }

    ghost predicate Valid() {
      mean.Length == 384 && components.Length0 == 3 && components.Length1 == 384
    }

    constructor ()
      ensures Valid() && fresh(mean) && fresh(components)
    {
      mean := new real[384];
      components := new real[3, 384];
    }

    /** Reads 384 numbers of mean, then three times 384 of components. A missing file is reported; a short
        one is not, and leaves what it does not reach as it was. */
    method Init(file: Option<seq<real>>) returns (ok: bool)
      requires Valid()
      modifies mean, components
      ensures ok == file.Some?
      ensures forall i :: 0 <= i < 384 ==>
        mean[i] == if file.Some? && i < |file.value| then file.value[i] else old(mean[i])
      ensures forall k, i :: 0 <= k < 3 && 0 <= i < 384 ==>
        var p := (k + 1) * 384 + i;
        components[k, i] == if file.Some? && p < |file.value| then file.value[p] else old(components[k, i])
      ensures ok && |file.value| >= 1536 ==> Loaded(file.value[..1536])
    {
      if file.None? {
        return false;
      }
      var f := file.value;
      forall i | 0 <= i < 384 && i < |f| {
        mean[i] := f[i];
      }
      forall k, i | 0 <= k < 3 && 0 <= i < 384 && (k + 1) * 384 + i < |f| {
        components[k, i] := f[(k + 1) * 384 + i];
      }
      ok := true;
    }

    method Project(input: seq<real>, ghost file: Vec) returns (coords: array<real>)
      requires Loaded(file) && |input| == 384
      ensures fresh(coords) && coords.Length == 3
      ensures forall k :: 0 <= k < 3 ==> coords[k] == Coordinate(file, input, k)
    {
      coords := new real[3](_ => 0.0);
      for k := 0 to 3
        invariant forall c :: 0 <= c < k ==> coords[c] == Coordinate(file, input, c)
        invariant forall c :: k <= c < 3 ==> coords[c] == 0.0
      {
        ghost var axis := file[(k + 1) * 384..(k + 2) * 384];
        for i := 0 to 384
          invariant forall c :: 0 <= c < k ==> coords[c] == Coordinate(file, input, c)
          invariant forall c :: k < c < 3 ==> coords[c] == 0.0
          invariant coords[k] == DotN(CenterRow(input, file[..384]), axis, i)
        {
          assert axis[i] == file[(k + 1) * 384 + i];
          coords[k] := coords[k] + (input[i] - mean[i]) * components[k, i];
        }
      }
    }
  }

  /** The sum of one coordinate over the first `n` points. */
  function CoordinateSum(file: Vec, X: seq<Vec>, k: nat, n: nat): real
    requires |file| == 1536 && IsMatrix(X, 384) && k < 3 && n <= |X|
  {
    if n == 0 then 0.0 else CoordinateSum(file, X, k, n - 1) + Coordinate(file, X[n - 1], k)
  }

  /** Whatever the axes: with the mean first in the file, coordinates add up along the centred columns. */
  lemma {:induction false} CoordinateSumIsDot(file: Vec, X: seq<Vec>, k: nat, n: nat)
    requires |file| == 1536 && IsMatrix(X, 384) && k < 3 && n <= |X|
    ensures CoordinateSum(file, X, k, n) == Dot(ColSum(Center(X, file[..384]), n, 384), file[(k + 1) * 384..(k + 2) * 384])
  {
    var axis := file[(k + 1) * 384..(k + 2) * 384];
    if n == 0 {
      ZeroDot(axis);
    } else {
      CoordinateSumIsDot(file, X, k, n - 1);
      DotColSum(Center(X, file[..384]), axis, n - 1);
    }
  }

  lemma TrainedStartsWithMean(root: real -> real, X: seq<Vec>)
    requires IsRoot(root) && IsData(X)
    ensures Trained(root, X)[..384] == Mean(X)
  {
  }

  lemma ProjectionOfCentred(file: Vec, X: seq<Vec>, k: nat)
    requires |file| == 1536 && IsData(X) && k < 3 && file[..384] == Mean(X)
    ensures CoordinateSum(file, X, k, |X|) == 0.0
  {
    var axis := file[(k + 1) * 384..(k + 2) * 384];
    CoordinateSumIsDot(file, X, k, |X|);
    CenteredColumnsSumToZero(X);
    ZeroDot(axis);
  }

  /** The trainer's own data, projected through the file it wrote, is centred on every axis. */
  lemma TrainingSetProjectsToCentre(root: real -> real, X: seq<Vec>, k: nat)
    requires IsRoot(root) && IsData(X) && k < 3
    ensures CoordinateSum(Trained(root, X), X, k, |X|) == 0.0
  {
    TrainedStartsWithMean(root, X);
    ProjectionOfCentred(Trained(root, X), X, k);
  }

  lemma Blocks(m: Vec, a: Vec, b: Vec, c: Vec)
    requires |m| == |a| == |b| == |c| == 384
    ensures var file := m + (a + b + c);
      |file| == 1536 && file[384..768] == a && file[768..1152] == b && file[1152..1536] == c
  {
  }

  /** What is read back as the three components are the three axes found. */
  lemma ComponentsAreAxes(root: real -> real, X: seq<Vec>)
    requires IsRoot(root) && IsData(X)
    ensures var file, C := Trained(root, X), Center(X, Mean(X));
      file[384..768] == AxisK(root, C, 0) && file[768..1152] == AxisK(root, C, 1) && file[1152..1536] == AxisK(root, C, 2)
  {
    var C := Center(X, Mean(X));
    Blocks(Mean(X), AxisK(root, C, 0), AxisK(root, C, 1), AxisK(root, C, 2));
  }
}
