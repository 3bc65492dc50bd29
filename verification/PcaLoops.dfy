/** The trainer's loops on its flat array, each proved to compute its counterpart on rows. */
module PcaLoops {
  import opened Vectors
  import opened PcaTraining

  /** Row `i` of the flat data. */
  function RowOf(s: seq<real>, i: nat): (r: Vec)
    requires |s| == 768000 && i < 2000
    ensures |r| == 384
  {
    s[i * 384..i * 384 + 384]
  }

  function Rows(s: seq<real>): (X: seq<Vec>)
    requires |s| == 768000
    ensures IsData(X)
  {
    seq(2000, i requires 0 <= i < 2000 => RowOf(s, i))
  }

  lemma RowEntry(s: seq<real>, i: nat, j: nat)
    requires |s| == 768000 && i < 2000 && j < 384
    ensures Rows(s)[i][j] == s[i * 384 + j]
  {
  }

  method ComputeMean(data: array<real>) returns (m: array<real>)
    requires data.Length == 768000
    ensures fresh(m) && m[..] == Mean(Rows(data[..]))
  {
    ghost var X := Rows(data[..]);
    m := new real[384](_ => 0.0);
    for i := 0 to 2000
      invariant forall j :: 0 <= j < 384 ==> m[j] == MeanUpTo(X, i)[j]
    {
      for j := 0 to 384
        invariant forall c :: 0 <= c < j ==> m[c] == MeanUpTo(X, i + 1)[c]
        invariant forall c :: j <= c < 384 ==> m[c] == MeanUpTo(X, i)[c]
      {
        RowEntry(data[..], i, j);
        m[j] := m[j] + data[i * 384 + j] / 2000.0;
      }
    }
  }

  /** Flat index back to row and column. */
  lemma Unflatten(i: nat, j: nat)
    requires j < 384
    ensures (i * 384 + j) / 384 == i && (i * 384 + j) % 384 == j
  {
  }

  function FlatCentered(s: seq<real>, m: Vec): (t: seq<real>)
    requires |s| == 768000 && |m| == 384
    ensures |t| == 768000
  {
    seq(768000, p requires 0 <= p < 768000 => s[p] - m[p % 384])
  }

  lemma FlatCenteredIsCenter(s: seq<real>, m: Vec)
    requires |s| == 768000 && |m| == 384
    ensures Rows(FlatCentered(s, m)) == Center(Rows(s), m)
  {
    forall i: nat | i < 2000
      ensures Rows(FlatCentered(s, m))[i] == Center(Rows(s), m)[i]
    {
      forall j: nat | j < 384
        ensures Rows(FlatCentered(s, m))[i][j] == Center(Rows(s), m)[i][j]
      {
        Unflatten(i, j);
        RowEntry(FlatCentered(s, m), i, j);
        RowEntry(s, i, j);
      }
    }
  }

  method CenterData(data: array<real>, m: array<real>)
    requires data.Length == 768000 && m.Length == 384 && data != m
    modifies data
    ensures Rows(data[..]) == Center(Rows(old(data[..])), m[..])
  {
    ghost var was, goal := data[..], FlatCentered(data[..], m[..]);
    for i := 0 to 2000
      invariant Progress(data[..], was, goal, i * 384)
    {
      for j := 0 to 384
        invariant Progress(data[..], was, goal, i * 384 + j)
      {
        Unflatten(i, j);
        data[i * 384 + j] := data[i * 384 + j] - m[j];
      }
    }
    assert data[..] == goal;
    FlatCenteredIsCenter(was, m[..]);
  }

  /** The first `p` numbers are already those of `goal`, the others still those of `was`. */
  ghost predicate Progress(now: seq<real>, was: seq<real>, goal: seq<real>, p: int)
    requires |now| == |was| == |goal| == 768000
  {
    && 0 <= p <= 768000
    && (forall q :: 0 <= q < p ==> now[q] == goal[q])
    && (forall q :: p <= q < 768000 ==> now[q] == was[q])
  }

  /** The inner loop that both the power step and the deflation run over a row. */
  method RowDot(data: array<real>, i: nat, v: array<real>) returns (dot: real)
    requires data.Length == 768000 && v.Length == 384 && i < 2000
    ensures dot == Dot(RowOf(data[..], i), v[..])
  {
    dot := 0.0;
    ghost var row := RowOf(data[..], i);
    for j := 0 to 384
      invariant dot == DotN(row, v[..], j)
    {
      dot := dot + data[i * 384 + j] * v[j];
    }
  }

  /** next = X^T (X v), one row at a time. */
  method GramStep(data: array<real>, v: array<real>) returns (next: array<real>)
    requires data.Length == 768000 && v.Length == 384
    ensures fresh(next) && next[..] == Gram(Rows(data[..]), v[..])
  {
    ghost var X, y := Rows(data[..]), Apply(Rows(data[..]), v[..]);
    next := new real[384](_ => 0.0);
    for i := 0 to 2000
      invariant next[..] == Comb(X, y, i, 384)
    {
      var dot := RowDot(data, i, v);
      AddRow(data, i, dot, next);
    }
    assert next[..] == Comb(X, y, 2000, 384);
  }

  /** The loop that adds a multiple of a row. */
  method AddRow(data: array<real>, i: nat, dot: real, next: array<real>)
    requires data.Length == 768000 && next.Length == 384 && i < 2000 && data != next
    modifies next
    ensures next[..] == Add(old(next[..]), Scale(dot, RowOf(data[..], i)))
  {
    ghost var goal := Add(next[..], Scale(dot, RowOf(data[..], i)));
    for j := 0 to 384
      invariant forall c :: 0 <= c < j ==> next[c] == goal[c]
      invariant forall c :: j <= c < 384 ==> next[c] == old(next[c])
    {
      next[j] := next[j] + dot * data[i * 384 + j];
    }
  }

  /** v = next / (|next| + epsilon). */
  method Normalize(next: array<real>, v: array<real>, root: real -> real)
    requires IsRoot(root) && next.Length == 384 && v.Length == 384 && next != v
    modifies v
    ensures v[..] == Normalized(root, next[..])
  {
    var norm := 0.0;
    for j := 0 to 384
      invariant norm == DotN(next[..], next[..], j)
    {
      norm := norm + next[j] * next[j];
    }
    NormPositive(next[..]);
    norm := root(norm);
    for j := 0 to 384
      invariant forall c :: 0 <= c < j ==> v[c] == Normalized(root, next[..])[c]
    {
      v[j] := next[j] / (norm + EPSILON);
    }
  }

  /** Fifteen power iterations from the constant vector. */
  method FindAxis(data: array<real>, root: real -> real) returns (v: array<real>)
    requires IsRoot(root) && data.Length == 768000
    ensures fresh(v) && v[..] == Axis(root, Rows(data[..]))
  {
    v := new real[384](_ => 0.1);
    assert v[..] == StartAxis();
    for it := 0 to 15
      invariant fresh(v) && v.Length == 384
      invariant v[..] == Iterate(root, Rows(data[..]), it)
    {
      var next := GramStep(data, v);
      Normalize(next, v, root);
    }
  }

  function MinusMultiple(r: Vec, c: real, v: Vec): (d: Vec)
    requires |r| == |v|
    ensures |d| == |r|
  {
    seq(|r|, j requires 0 <= j < |r| => r[j] - c * v[j])
  }

  /** The loop that takes a multiple of `v` off row `i`. */
  method SubtractFromRow(data: array<real>, i: nat, dot: real, v: array<real>)
    requires data.Length == 768000 && v.Length == 384 && data != v && i < 2000
    modifies data
    ensures RowOf(data[..], i) == MinusMultiple(old(RowOf(data[..], i)), dot, v[..])
    ensures forall r: nat :: r < 2000 && r != i ==> RowOf(data[..], r) == old(RowOf(data[..], r))
  {
    ghost var was, goal := data[..], MinusMultiple(RowOf(data[..], i), dot, v[..]);
    for j := 0 to 384
      invariant forall c :: 0 <= c < j ==> data[i * 384 + c] == goal[c]
      invariant forall q :: 0 <= q < 768000 && !(i * 384 <= q < i * 384 + j) ==> data[q] == was[q]
    {
      data[i * 384 + j] := data[i * 384 + j] - dot * v[j];
    }
    assert forall c :: 0 <= c < 384 ==> RowOf(data[..], i)[c] == goal[c];
  }

  /** The rows before `i` are deflated, the others are not yet. */
  ghost predicate DeflatedBefore(now: seq<real>, was: seq<real>, v: Vec, i: nat)
    requires |now| == |was| == 768000 && |v| == 384
  {
    forall r: nat :: r < 2000 ==> RowOf(now, r) == if r < i then DeflateRow(RowOf(was, r), v) else RowOf(was, r)
  }

  method DeflateData(data: array<real>, v: array<real>)
    requires data.Length == 768000 && v.Length == 384 && data != v
    modifies data
    ensures Rows(data[..]) == Deflate(Rows(old(data[..])), v[..])
  {
    ghost var was := data[..];
    for i := 0 to 2000
      invariant DeflatedBefore(data[..], was, v[..], i)
    {
      var dot := RowDot(data, i, v);
      SubtractFromRow(data, i, dot, v);
    }
  }

  /** Copies `v` to position `at` of the result. */
  method Store(res: array<real>, at: nat, v: array<real>)
    requires at + v.Length <= res.Length && res != v
    modifies res
    ensures res[..] == old(res[..at]) + v[..] + old(res[at + v.Length..])
  {
    ghost var was := res[..];
    for j := 0 to v.Length
      invariant forall c :: 0 <= c < j ==> res[at + c] == v[c]
      invariant forall c :: 0 <= c < at || at + j <= c < res.Length ==> res[c] == was[c]
    {
      res[at + j] := v[j];
    }
    assert forall c :: at <= c < at + v.Length ==> res[c] == v[c - at];
  }

  /** The file after `k` axes. */
  function Written(root: real -> real, X: seq<Vec>, k: nat): (r: Vec)
    requires IsRoot(root) && IsData(X)
    ensures |r| == (k + 1) * 384
  {
    if k == 0 then Mean(X) else Written(root, X, k - 1) + AxisK(root, Center(X, Mean(X)), k - 1)
  }

  /** The state of the outer loop after `k` rounds. */
  ghost predicate RoundsDone(root: real -> real, X: seq<Vec>, data: seq<real>, res: seq<real>, k: nat)
    requires IsRoot(root) && IsData(X) && |data| == 768000 && |res| == 1536
  {
    && k <= 3
    && Rows(data) == Residual(root, Center(X, Mean(X)), k)
    && res[..(k + 1) * 384] == Written(root, X, k)
  }

  /** One round: find an axis, take it out, store it. */
  method Round(data: array<real>, res: array<real>, root: real -> real, k: nat, ghost X: seq<Vec>)
    requires IsRoot(root) && IsData(X) && data.Length == 768000 && res.Length == 1536 && data != res && k < 3
    requires RoundsDone(root, X, data[..], res[..], k)
    modifies data, res
    ensures RoundsDone(root, X, data[..], res[..], k + 1)
  {
    var v := FindAxis(data, root);
    DeflateData(data, v);
    Store(res, (k + 1) * 384, v);
  }

  lemma Regroup(m: Vec, a: Vec, b: Vec, c: Vec)
    ensures m + a + b + c == m + (a + b + c)
  {
  }

  /** The file after all rounds. */
  lemma WrittenAll(root: real -> real, X: seq<Vec>)
    requires IsRoot(root) && IsData(X)
    ensures Written(root, X, 3) == Trained(root, X)
  {
    var C := Center(X, Mean(X));
    assert Written(root, X, 1) == Mean(X) + AxisK(root, C, 0);
    assert Written(root, X, 2) == Mean(X) + AxisK(root, C, 0) + AxisK(root, C, 1);
    Regroup(Mean(X), AxisK(root, C, 0), AxisK(root, C, 1), AxisK(root, C, 2));
  }

  /** The mean is computed, taken off the data, and stored first. */
  method Begin(data: array<real>, ghost root: real -> real) returns (res: array<real>)
    requires IsRoot(root) && data.Length == 768000
    modifies data
    ensures fresh(res) && res.Length == 1536
    ensures RoundsDone(root, Rows(old(data[..])), data[..], res[..], 0)
  {
    var m := ComputeMean(data);
    CenterData(data, m);
    res := new real[1536];
    Store(res, 0, m);
  }

  /** The outer loop, for any number of rounds that the file has room for. */
  method Rounds(data: array<real>, res: array<real>, root: real -> real, rounds: nat, ghost X: seq<Vec>)
    requires IsRoot(root) && IsData(X) && data.Length == 768000 && res.Length == 1536 && data != res && rounds <= 3
    requires RoundsDone(root, X, data[..], res[..], 0)
    modifies data, res
    ensures res[..(rounds + 1) * 384] == Written(root, X, rounds)
  {
    var k := 0;
    while k < rounds
      invariant k <= rounds && RoundsDone(root, X, data[..], res[..], k)
    {
      Round(data, res, root, k, X);
      k := k + 1;
    }
  }

  lemma Whole(s: seq<real>, k: nat, w: seq<real>)
    requires k == |s| && s[..k] == w
    ensures s == w
  {
  }

  /** The whole training: mean, centring, three rounds. */
  method Train(data: array<real>, root: real -> real) returns (res: array<real>)
    requires IsRoot(root) && data.Length == 768000
    modifies data
    ensures fresh(res) && res[..] == Trained(root, Rows(old(data[..])))
  {
    ghost var X := Rows(data[..]);
    res := Begin(data, root);
    Rounds(data, res, root, 3, X);
    WrittenAll(root, X);
    Whole(res[..], 1536, Written(root, X, 3));
  }
}
