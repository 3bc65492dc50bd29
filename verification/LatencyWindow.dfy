/** The latency samples behind the dashboard: a window of the last 1000, and its percentiles. */
module Latency {

  const WINDOW := 1000

  function LastN(s: seq<real>, n: nat): seq<real> {
    if |s| <= n then s else s[|s| - n..]
  }

  /** The window holds the last 1000 samples, or all of them: counted from the end it is the recording. */
  lemma WindowIsLast(recorded: seq<real>, i: nat)
    ensures |LastN(recorded, WINDOW)| == if |recorded| < 1000 then |recorded| else 1000
    ensures i < |LastN(recorded, WINDOW)| ==>
      LastN(recorded, WINDOW)[|LastN(recorded, WINDOW)| - 1 - i] == recorded[|recorded| - 1 - i]
  {
  }

  // ---------- sorting, as the library promises it ----------

  predicate Ordered(s: seq<real>) {
    forall i, j :: 0 <= i < j < |s| ==> s[i] <= s[j]
  }

  function Insert(x: real, s: seq<real>): (r: seq<real>)
    requires Ordered(s)
    ensures Ordered(r) && |r| == |s| + 1
    ensures forall i :: 0 <= i < |r| ==> r[i] == x || r[i] in s
  {
    if s == [] then [x]
    else if s[|s| - 1] <= x then s + [x]
    else Insert(x, s[..|s| - 1]) + [s[|s| - 1]]
  }

  function Sort(s: seq<real>): (r: seq<real>)
    ensures Ordered(r) && |r| == |s|
    ensures forall i :: 0 <= i < |r| ==> r[i] in s
  {
    if s == [] then [] else Insert(s[|s| - 1], Sort(s[..|s| - 1]))
  }

  lemma {:induction false} InsertAdds(x: real, s: seq<real>)
    requires Ordered(s)
    ensures multiset(Insert(x, s)) == multiset(s) + multiset{x}
  {
    if s != [] && s[|s| - 1] > x {
      InsertAdds(x, s[..|s| - 1]);
      assert s == s[..|s| - 1] + [s[|s| - 1]];
    }
  }

  /** Sorting keeps every sample as often as it was there. */
  lemma {:induction false} SortKeepsSamples(s: seq<real>)
    ensures multiset(Sort(s)) == multiset(s)
  {
    if s != [] {
      SortKeepsSamples(s[..|s| - 1]);
      InsertAdds(s[|s| - 1], Sort(s[..|s| - 1]));
      assert s == s[..|s| - 1] + [s[|s| - 1]];
    }
  }

  // ---------- ranks ----------

  function AtMost(s: seq<real>, p: real): nat {
    if s == [] then 0 else AtMost(s[..|s| - 1], p) + if s[|s| - 1] <= p then 1 else 0
  }

  function AtLeast(s: seq<real>, p: real): nat {
    if s == [] then 0 else AtLeast(s[..|s| - 1], p) + if s[|s| - 1] >= p then 1 else 0
  }

  lemma SnocCounts(s: seq<real>, x: real, p: real)
    ensures AtMost(s + [x], p) == AtMost(s, p) + if x <= p then 1 else 0
    ensures AtLeast(s + [x], p) == AtLeast(s, p) + if x >= p then 1 else 0
  {
    assert (s + [x])[..|s|] == s;
  }

  lemma {:induction false} InsertCounts(x: real, s: seq<real>, p: real)
    requires Ordered(s)
    ensures AtMost(Insert(x, s), p) == AtMost(s, p) + if x <= p then 1 else 0
    ensures AtLeast(Insert(x, s), p) == AtLeast(s, p) + if x >= p then 1 else 0
  {
    if s == [] {
      SnocCounts([], x, p);
      assert [] + [x] == Insert(x, s);
    } else {
      var init, last := s[..|s| - 1], s[|s| - 1];
      SnocCounts(init, last, p);
      assert init + [last] == s;
      if last <= x {
        SnocCounts(s, x, p);
      } else {
        InsertCounts(x, init, p);
        SnocCounts(Insert(x, init), last, p);
      }
    }
  }

  /** Sorting changes no rank. */
  lemma {:induction false} SortCounts(s: seq<real>, p: real)
    ensures AtMost(Sort(s), p) == AtMost(s, p) && AtLeast(Sort(s), p) == AtLeast(s, p)
  {
    if s != [] {
      SortCounts(s[..|s| - 1], p);
      InsertCounts(s[|s| - 1], Sort(s[..|s| - 1]), p);
    }
  }

  lemma {:induction false} OrderedRanks(s: seq<real>, k: nat, p: real)
    requires Ordered(s)
    ensures k < |s| && s[k] <= p ==> AtMost(s, p) >= k + 1
    ensures k <= |s| && (k < |s| ==> s[k] >= p) ==> AtLeast(s, p) >= |s| - k
  {
    if s != [] {
      var n := |s| - 1;
      if k < n {
        OrderedRanks(s[..n], k, p);
      } else if k == n && n > 0 && s[k] <= p {
        OrderedRanks(s[..n], n - 1, p);
      }
    }
  }

  /** `p` cuts the samples at rank `k`: at least k + 1 are no larger and at least |s| - k no smaller. */
  predicate CutsAt(s: seq<real>, p: real, k: int) {
    p in s && AtMost(s, p) >= k + 1 && AtLeast(s, p) >= |s| - k
  }

  lemma SortedElementCuts(s: seq<real>, k: nat)
    requires k < |s|
    ensures CutsAt(s, Sort(s)[k], k)
  {
    SortCounts(s, Sort(s)[k]);
    OrderedRanks(Sort(s), k, Sort(s)[k]);
  }

  /** A cut is unique: the value at rank `k` is determined by the samples alone. */
  lemma {:induction false} CountsSplit(s: seq<real>, p: real, q: real)
    requires p < q
    ensures AtMost(s, p) + AtLeast(s, q) <= |s|
  {
    if s != [] {
      CountsSplit(s[..|s| - 1], p, q);
    }
  }

  lemma CutUnique(s: seq<real>, p: real, q: real, k: nat)
    requires k < |s| && CutsAt(s, p, k) && CutsAt(s, q, k)
    ensures p == q
  {
    if p < q {
      CountsSplit(s, p, q);
    } else if q < p {
      CountsSplit(s, q, p);
    }
  }

  class LatencyWindow {
    var latencySamples: seq<real>
    /** Every sample ever recorded. */
    ghost var recorded: seq<real>

    ghost predicate Valid()
      reads this
    {
      latencySamples == LastN(recorded, WINDOW)
    }

    constructor ()
      ensures Valid() && recorded == []
    {
      latencySamples := [];
      recorded := [];
    }

    method Record(sample: real)
      requires Valid()
      modifies this
      ensures Valid() && recorded == old(recorded) + [sample]
    {
      latencySamples := latencySamples + [sample];
      if |latencySamples| > 1000 {
        latencySamples := latencySamples[1..];
      }
      recorded := recorded + [sample];
    }

    method GetPercentiles() returns (p50: real, p99: real)
      requires Valid()
      ensures recorded == [] ==> p50 == 0.0 && p99 == 0.0
      ensures recorded != [] ==>
        var window := LastN(recorded, WINDOW);
        && CutsAt(window, p50, |window| / 2)
        && CutsAt(window, p99, |window| * 99 / 100)
        && p50 <= p99
    {
      if latencySamples == [] {
        return 0.0, 0.0;
      }
      var sorted := Sort(latencySamples);
      p50, p99 := sorted[|sorted| * 50 / 100], sorted[|sorted| * 99 / 100];
      SortedElementCuts(latencySamples, |sorted| * 50 / 100);
      SortedElementCuts(latencySamples, |sorted| * 99 / 100);
    }
  }
}
