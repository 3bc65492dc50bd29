/** What least-recently-used means for the cache, said by the history of uses alone: an entry is there
    exactly when fewer than `capacity` other signatures have been used since its own last use. */
module LruProofs {
  import opened Options
  import opened FuzzyCaching

  function Sigs(entries: seq<Entry>): (r: seq<nat>)
    ensures |r| == |entries|
    ensures forall i :: 0 <= i < |r| ==> r[i] == entries[i].sig
  {
    seq(|entries|, i requires 0 <= i < |entries| => entries[i].sig)
  }

  function Except(sigs: seq<nat>, sig: nat): seq<nat> {
    if sigs == [] then [] else (if sigs[0] == sig then [] else [sigs[0]]) + Except(sigs[1..], sig)
  }

  function ExceptAll(sigs: seq<nat>, others: seq<nat>): seq<nat> {
    if others == [] then sigs
    else
      var n := |others| - 1;
      Except(ExceptAll(sigs, others[..n]), others[n])
  }

  function UpTo(sigs: seq<nat>, k: nat): seq<nat> {
    if |sigs| <= k then sigs else sigs[..k]
  }

  /** The signatures used, the most recently used first. */
  function Recent(uses: seq<nat>): seq<nat> {
    if uses == [] then []
    else
      var n := |uses| - 1;
      [uses[n]] + Except(Recent(uses[..n]), uses[n])
  }

  function Distinct(uses: seq<nat>): set<nat> {
    set i | 0 <= i < |uses| :: uses[i]
  }

  // ---------- taking one signature out ----------

  lemma {:induction false} ExceptConcat(a: seq<nat>, b: seq<nat>, sig: nat)
    ensures Except(a + b, sig) == Except(a, sig) + Except(b, sig)
  {
    if a == [] {
      assert a + b == b;
    } else {
      ExceptConcat(a[1..], b, sig);
      assert (a + b)[1..] == a[1..] + b;
      Associates(if a[0] == sig then [] else [a[0]], Except(a[1..], sig), Except(b, sig));
    }
  }

  lemma {:induction false} ExceptMembers(sigs: seq<nat>, sig: nat)
    ensures forall x :: x in Except(sigs, sig) <==> x in sigs && x != sig
    ensures |Except(sigs, sig)| <= |sigs|
    ensures sig in sigs ==> |Except(sigs, sig)| < |sigs|
    ensures sig !in sigs ==> Except(sigs, sig) == sigs
  {
    if sigs != [] {
      ExceptMembers(sigs[1..], sig);
    }
  }

  predicate NoRepeat(sigs: seq<nat>) {
    forall i, j :: 0 <= i < j < |sigs| ==> sigs[i] != sigs[j]
  }

  lemma HeadNotAgain(x: nat, sigs: seq<nat>)
    ensures NoRepeat([x] + sigs) <==> x !in sigs && NoRepeat(sigs)
  {
    var all := [x] + sigs;
    if NoRepeat(all) {
      forall i, j | 0 <= i < j < |sigs|
        ensures sigs[i] != sigs[j]
      {
        assert all[i + 1] != all[j + 1];
      }
      forall i | 0 <= i < |sigs|
        ensures sigs[i] != x
      {
        assert all[0] != all[i + 1];
      }
    }
  }

  lemma {:induction false} ExceptNoRepeat(sigs: seq<nat>, sig: nat)
    requires NoRepeat(sigs)
    ensures NoRepeat(Except(sigs, sig))
  {
    if sigs != [] {
      assert [sigs[0]] + sigs[1..] == sigs;
      HeadNotAgain(sigs[0], sigs[1..]);
      ExceptNoRepeat(sigs[1..], sig);
      ExceptMembers(sigs[1..], sig);
      HeadNotAgain(sigs[0], Except(sigs[1..], sig));
    }
  }

  /** Taking a signature out of a list without repetition shortens it by at most one. */
  lemma {:induction false} ExceptOnce(sigs: seq<nat>, sig: nat)
    requires NoRepeat(sigs)
    ensures |Except(sigs, sig)| == |sigs| - if sig in sigs then 1 else 0
  {
    if sigs != [] {
      assert [sigs[0]] + sigs[1..] == sigs;
      HeadNotAgain(sigs[0], sigs[1..]);
      ExceptOnce(sigs[1..], sig);
    }
  }

  lemma {:induction false} SigsWithout(entries: seq<Entry>, sig: nat)
    ensures Sigs(Without(entries, sig)) == Except(Sigs(entries), sig)
  {
    if entries != [] {
      SigsWithout(entries[1..], sig);
      assert Sigs(entries)[1..] == Sigs(entries[1..]);
    }
  }

  // ---------- the recency list ----------

  lemma {:induction false} RecentOnce(uses: seq<nat>)
    ensures NoRepeat(Recent(uses))
    ensures forall x :: x in Recent(uses) <==> x in uses
    ensures |Recent(uses)| == |Distinct(uses)|
  {
    if uses != [] {
      var n := |uses| - 1;
      var before := uses[..n];
      RecentOnce(before);
      ExceptOnce(Recent(before), uses[n]);
      ExceptNoRepeat(Recent(before), uses[n]);
      ExceptMembers(Recent(before), uses[n]);
      HeadNotAgain(uses[n], Except(Recent(before), uses[n]));
      DistinctMore(uses);
    }
  }

  lemma DistinctMore(uses: seq<nat>)
    requires uses != []
    ensures Distinct(uses) == Distinct(uses[..|uses| - 1]) + {uses[|uses| - 1]}
    ensures uses[|uses| - 1] in Distinct(uses[..|uses| - 1]) <==> uses[|uses| - 1] in uses[..|uses| - 1]
  {
    var n := |uses| - 1;
    forall x | x in Distinct(uses)
      ensures x in Distinct(uses[..n]) + {uses[n]}
    {
      var i :| 0 <= i < |uses| && uses[i] == x;
      assert i < n ==> uses[..n][i] == x;
    }
    forall x | x in Distinct(uses[..n])
      ensures x in Distinct(uses)
    {
      var i :| 0 <= i < n && uses[..n][i] == x;
      assert uses[i] == x;
    }
  }

  lemma RecentMore(uses: seq<nat>, x: nat)
    ensures Recent(uses + [x]) == [x] + Except(Recent(uses), x)
  {
    assert (uses + [x])[..|uses|] == uses;
  }

  /** What was used later comes first; of what was used before only the rest remains. */
  lemma {:induction false} RecentConcat(u: seq<nat>, v: seq<nat>)
    ensures Recent(u + v) == Recent(v) + ExceptAll(Recent(u), v)
  {
    if v == [] {
      assert u + v == u;
    } else {
      var n := |v| - 1;
      var w, x := v[..n], v[n];
      var rest := ExceptAll(Recent(u), w);
      RecentConcat(u, w);
      assert u + v == (u + w) + [x] && v == w + [x];
      RecentMore(u + w, x);
      RecentMore(w, x);
      ExceptConcat(Recent(w), rest, x);
      Associates([x], Except(Recent(w), x), Except(rest, x));
    }
  }

  lemma {:induction false} HeadStays(sig: nat, rest: seq<nat>, v: seq<nat>) returns (tail: seq<nat>)
    requires sig !in v
    ensures ExceptAll([sig] + rest, v) == [sig] + tail
  {
    if v == [] {
      tail := rest;
    } else {
      var n := |v| - 1;
      var t := HeadStays(sig, rest, v[..n]);
      tail := Except(t, v[n]);
      assert ([sig] + t)[1..] == t;
    }
  }

  /** A signature last used before `v` stands behind exactly the signatures used in `v`. */
  lemma PlaceOfLastUse(u: seq<nat>, sig: nat, v: seq<nat>, k: nat)
    requires sig !in v
    ensures sig in UpTo(Recent(u + [sig] + v), k) <==> |Distinct(v)| < k
  {
    RecentConcat(u + [sig], v);
    assert (u + [sig])[..|u|] == u;
    var tail := HeadStays(sig, Except(Recent(u), sig), v);
    RecentOnce(v);
    RecentOnce(u + [sig] + v);
    var r := Recent(u + [sig] + v);
    assert r[|Recent(v)|] == sig;
    if |Recent(v)| < k {
      assert UpTo(r, k)[|Recent(v)|] == sig;
    }
    if sig in UpTo(r, k) {
      var i :| 0 <= i < |UpTo(r, k)| && UpTo(r, k)[i] == sig;
      assert r[i] == sig;
    }
  }

  // ---------- the cache follows the recency list ----------

  /** Cutting a recency list to the capacity before one more use or after it is the same. */
  lemma CutCommutes(r: seq<nat>, sig: nat, k: nat)
    requires NoRepeat(r)
    ensures UpTo([sig] + Except(UpTo(r, k), sig), k) == UpTo([sig] + Except(r, sig), k)
  {
    if |r| > k {
      ExceptConcat(r[..k], r[k..], sig);
      assert r[..k] + r[k..] == r;
      ExceptOnce(r[..k], sig);
    }
  }

  lemma SigsInFront(sig: nat, val: Spatial, rest: seq<Entry>)
    ensures Sigs([Entry(sig, val)] + rest) == [sig] + Sigs(rest)
  {
  }

  lemma PutIsUse(entries: seq<Entry>, sig: nat, val: Spatial, capacity: nat)
    ensures Sigs(Put(entries, sig, val, capacity)) == UpTo([sig] + Except(Sigs(entries), sig), capacity)
  {
    SigsWithout(entries, sig);
    var all := [Entry(sig, val)] + Without(entries, sig);
    SigsInFront(sig, val, Without(entries, sig));
    if |all| > capacity {
      assert Sigs(all[..capacity]) == Sigs(all)[..capacity];
    }
  }

  lemma TouchIsUse(entries: seq<Entry>, sig: nat, capacity: nat)
    requires Find(entries, sig).Some? && |entries| <= capacity
    ensures Sigs(Touch(entries, sig)) == UpTo([sig] + Except(Sigs(entries), sig), capacity)
  {
    SigsWithout(entries, sig);
    WithoutShorter(entries, sig);
    SigsInFront(sig, Find(entries, sig).value, Without(entries, sig));
  }

  /** One more use of a cache that follows the recency list. */
  lemma UseFollows(uses: seq<nat>, sig: nat, capacity: nat)
    ensures UpTo([sig] + Except(UpTo(Recent(uses), capacity), sig), capacity) == UpTo(Recent(uses + [sig]), capacity)
  {
    RecentOnce(uses);
    CutCommutes(Recent(uses), sig, capacity);
    RecentMore(uses, sig);
  }

  lemma {:induction false} FoundIsIn(entries: seq<Entry>, sig: nat)
    ensures Find(entries, sig).Some? <==> sig in Sigs(entries)
  {
    if entries != [] {
      FoundIsIn(entries[1..], sig);
      assert Sigs(entries) == [entries[0].sig] + Sigs(entries[1..]);
    }
  }
}
