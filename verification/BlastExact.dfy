/** Which event times let every run report the blast radius of the history: exactly those without a gap near ten minutes
    since the last clear break. For all others a run is built that reports wrongly. */
module BlastExact {
  import opened Options
  import opened RedisStore
  import opened FuzzyCaching
  import opened Incidents
  import opened Orchestration
  import opened BlastProofs

  // ---------- what is to be shown ----------

  predicate ClearNow(ts: seq<int>, now: int, delay: nat) {
    ts != [] ==> now - ts[|ts| - 1] < 600 || now - ts[|ts| - 1] >= 600 + delay
  }

  /** Some run reports a wrong radius for an incident with these event times, at a time that is not itself near ten
      minutes after the last of them. */
  ghost predicate ReportsWrong(ts: seq<int>, delay: nat, names: Names, capacity: nat, n: nat, r: Run, w: nat) {
    && IsRunWithin(names, capacity, n, delay, r.steps, r.states)
    && var s := Last(r);
       && CanStep(s, Work(w, CountPods))
       && var h := History(s.adds, Key(names, s.workers[w].val));
          Times(h) == ts && ClearNow(ts, s.now, delay) && Reported(s, w) != HistoryRadius(h, s.now)
  }

  datatype Run = Run(steps: seq<Step>, states: seq<State>)

  function Last(r: Run): State
    requires r.states != []
  {
    r.states[|r.states| - 1]
  }

  /** Times that a run can have. */
  predicate Timed(ts: seq<int>) {
    && (forall i :: 0 <= i < |ts| ==> ts[i] >= 0)
    && (forall i, j :: 0 <= i < j < |ts| ==> ts[i] <= ts[j])
  }

  // ---------- runs with one worker per event, each with its own pod ----------

  function Pod(i: nat): (s: string)
    ensures |s| == i
  {
    seq(i, _ => 'x')
  }

  function Pods(a: nat, b: nat): set<string> {
    set i | a <= i < b :: Pod(i)
  }

  lemma {:induction false} PodsCount(a: nat, b: nat)
    requires a <= b
    ensures |Pods(a, b)| == b - a
  {
    if a < b {
      PodsCount(a, b - 1);
      assert Pods(a, b) == Pods(a, b - 1) + {Pod(b - 1)};
      assert forall i :: a <= i < b - 1 ==> |Pod(i)| != |Pod(b - 1)|;
      assert Pod(b - 1) !in Pods(a, b - 1);
    }
  }

  const INCIDENT := "k"

  function OneIncident(): Names {
    Names(_ => INCIDENT, line => line)
  }

  function Embedded(): (v: Spatial)
    ensures |v.vector| == 384
  {
    Spatial(seq(384, _ => 0.0), 0.0, 0.0, 0.0)
  }

  function Hist(ts: seq<int>): (h: seq<(int, string)>)
    ensures |h| == |ts|
  {
    seq(|ts|, i requires 0 <= i < |ts| => (ts[i], Pod(i)))
  }

  /** The first `m` workers have added their pods at their times, and the first `e` of them have set the expiry. */
  ghost predicate Track(s: State, ts: seq<int>, m: nat, e: nat) {
    && e <= m <= |ts| == |s.workers|
    && s.names == OneIncident() && s.lru == [] && History(s.adds, INCIDENT) == Hist(ts)[..m]
    && (forall i :: 0 <= i < e ==> s.workers[i].KeyExpiring? && s.workers[i].val == Embedded())
    && (forall i :: e <= i < m ==> s.workers[i].PodAdded? && s.workers[i].val == Embedded() && s.workers[i].at == ts[i])
    && (forall i :: m <= i < |ts| ==> s.workers[i].Ready?)
  }

  ghost predicate Tracked(r: Run, ts: seq<int>, delay: nat, m: nat, e: nat) {
    IsRunWithin(OneIncident(), 0, |ts|, delay, r.steps, r.states) && Track(Last(r), ts, m, e)
  }

  /** Waiting until `now` is soon enough for all workers that have still to set the expiry. */
  predicate SoonEnough(ts: seq<int>, delay: nat, m: nat, e: nat, now: int)
    requires m <= |ts|
  {
    forall i :: e <= i < m ==> now <= ts[i] + delay
  }

  lemma Extend(names: Names, capacity: nat, n: nat, b: Run, step: Step) returns (r: Run)
    requires IsRun(names, capacity, n, b.steps, b.states) && CanStep(Last(b), step)
    ensures IsRun(names, capacity, n, r.steps, r.states) && r.states == b.states + [Do(Last(b), step)]
  {
    r := Run(b.steps + [step], b.states + [Do(Last(b), step)]);
    forall i | 0 <= i < |r.steps|
      ensures StepsTo(r.steps, r.states, i)
    {
      assert i < |b.steps| ==> StepsTo(b.steps, b.states, i);
    }
  }

  lemma Go(ts: seq<int>, delay: nat, b: Run, step: Step) returns (r: Run)
    requires IsRunWithin(OneIncident(), 0, |ts|, delay, b.steps, b.states)
    requires CanStep(Last(b), step) && Within(Do(Last(b), step), delay)
    ensures IsRunWithin(OneIncident(), 0, |ts|, delay, r.steps, r.states) && Last(r) == Do(Last(b), step)
  {
    r := Extend(OneIncident(), 0, |ts|, b, step);
    forall i | 0 <= i < |r.states|
      ensures Within(r.states[i], delay)
    {
      assert i < |b.states| ==> r.states[i] == b.states[i];
    }
  }

  lemma TrackWithin(s: State, ts: seq<int>, delay: nat, m: nat, e: nat)
    requires Track(s, ts, m, e) && SoonEnough(ts, delay, m, e, s.now)
    ensures Within(s, delay)
  {
  }

  lemma GoWait(ts: seq<int>, delay: nat, b: Run, m: nat, e: nat, now: int) returns (r: Run)
    requires Tracked(b, ts, delay, m, e) && Last(b).now <= now && SoonEnough(ts, delay, m, e, now)
    ensures Tracked(r, ts, delay, m, e)
    ensures Last(r) == Last(b).(now := now)
  {
    var s := Last(b).(now := now);
    TrackWithin(s, ts, delay, m, e);
    r := Go(ts, delay, b, Tick(now - Last(b).now));
  }

  /** Worker `m` comes and gets its embedding. */
  lemma GoHold(ts: seq<int>, delay: nat, b: Run, m: nat) returns (r: Run)
    requires IsRunWithin(OneIncident(), 0, |ts|, delay, b.steps, b.states) && Within(Last(b), delay)
    requires var s := Last(b); m < |s.workers| && s.workers[m].Ready? && s.lru == []
    ensures IsRunWithin(OneIncident(), 0, |ts|, delay, r.steps, r.states)
    ensures var s, s' := Last(b), Last(r);
      && s'.names == s.names && s'.now == s.now && s'.blast == s.blast && s'.adds == s.adds && s'.lru == []
      && s'.workers == s.workers[m := Holding(s.consumed, Pod(m), Embedded(), false)]
  {
    r := Go(ts, delay, b, Work(m, Take(Pod(m))));
    r := Go(ts, delay, r, Work(m, Answer(Some(Embedded()))));
  }

  /** And adds its pod now. */
  lemma GoAddNow(ts: seq<int>, delay: nat, b: Run, m: nat, e: nat) returns (r: Run)
    requires Tracked(b, ts, delay, m, e) && m < |ts| && Last(b).now == ts[m] && SoonEnough(ts, delay, m, e, ts[m])
    ensures Tracked(r, ts, delay, m + 1, e)
    ensures Last(r).now == ts[m] && Last(r).blast == Added(Last(b).blast, INCIDENT, Pod(m), ts[m])
  {
    TrackWithin(Last(b), ts, delay, m, e);
    r := GoHold(ts, delay, b, m);
    assert Hist(ts)[..m + 1] == Hist(ts)[..m] + [(ts[m], Pod(m))];
    r := Go(ts, delay, r, Work(m, AddPod(0.0)));
  }

  lemma GoAdd(ts: seq<int>, delay: nat, b: Run, m: nat, e: nat) returns (r: Run)
    requires Tracked(b, ts, delay, m, e) && m < |ts| && Last(b).now <= ts[m] && SoonEnough(ts, delay, m, e, ts[m])
    ensures Tracked(r, ts, delay, m + 1, e)
    ensures Last(r).now == ts[m] && Last(r).blast == Added(Last(b).blast, INCIDENT, Pod(m), ts[m])
  {
    r := GoWait(ts, delay, b, m, e, ts[m]);
    r := GoAddNow(ts, delay, r, m, e);
  }

  /** Worker `e` sets the expiry at `now`. */
  lemma GoExpire(ts: seq<int>, delay: nat, b: Run, m: nat, e: nat, now: int) returns (r: Run)
    requires Tracked(b, ts, delay, m, e) && e < m && Last(b).now <= now && SoonEnough(ts, delay, m, e, now)
    ensures Tracked(r, ts, delay, m, e + 1)
    ensures Last(r).now == now && Last(r).blast == Expiring(Last(b).blast, INCIDENT, now)
  {
    r := GoWait(ts, delay, b, m, e, now);
    r := Go(ts, delay, r, Work(e, SetExpiry));
  }

  lemma GoStart(ts: seq<int>, delay: nat) returns (r: Run)
    ensures Tracked(r, ts, delay, 0, 0) && Last(r).now == 0 && Last(r).blast == map[]
  {
    r := Run([], [Start(OneIncident(), 0, |ts|)]);
    assert Hist(ts)[..0] == [];
  }

  // ---------- what Redis holds along the way ----------

  /** The key is there with these pods and runs out at `d`. */
  predicate Holds(s: State, pods: set<string>, d: int) {
    INCIDENT in s.blast && s.blast[INCIDENT] == PodSet(pods, Some(d))
  }

  predicate RunsOut(s: State, d: int) {
    INCIDENT in s.blast && s.blast[INCIDENT].deadline == Some(d)
  }

  /** One event with its expiry set `x` later, while the key has not run out or after it has. */
  lemma GoEvent(ts: seq<int>, delay: nat, b: Run, m: nat, x: nat, pods: set<string>, d: int) returns (r: Run)
    requires Tracked(b, ts, delay, m, m) && m < |ts| && Last(b).now <= ts[m] && x <= delay
    requires Holds(Last(b), pods, d) && (ts[m] + x < d || d <= ts[m])
    ensures Tracked(r, ts, delay, m + 1, m + 1) && Last(r).now == ts[m] + x
    ensures Holds(Last(r), if ts[m] < d then pods + {Pod(m)} else {Pod(m)}, ts[m] + x + 600)
  {
    r := GoAdd(ts, delay, b, m, m);
    r := GoExpire(ts, delay, r, m + 1, m, ts[m] + x);
  }

  /** The first event, with its expiry set `x` later. */
  lemma GoFirst(ts: seq<int>, delay: nat, x: nat) returns (r: Run)
    requires Timed(ts) && ts != [] && x <= delay
    ensures Tracked(r, ts, delay, 1, 1) && Last(r).now == ts[0] + x
    ensures Holds(Last(r), {Pod(0)}, ts[0] + x + 600)
  {
    r := GoStart(ts, delay);
    r := GoAdd(ts, delay, r, 0, 0);
    r := GoExpire(ts, delay, r, 1, 0, ts[0] + x);
  }

  /** Any delay can be reached at event `i`: events before it are delayed just enough to keep the key until then. */
  lemma {:induction false} GoLate(ts: seq<int>, delay: nat, i: nat, x: nat) returns (r: Run, pods: set<string>)
    requires Timed(ts) && i < |ts| && x <= delay < 600
    ensures Tracked(r, ts, delay, i + 1, i + 1) && Last(r).now == ts[i] + x
    ensures Holds(Last(r), pods, ts[i] + x + 600) && Pod(i) in pods
  {
    if i == 0 {
      r := GoFirst(ts, delay, x);
      pods := {Pod(0)};
    } else {
      var gap := ts[i] - ts[i - 1];
      var y := if gap < 600 && gap + x >= 600 then gap + x - 599 else 0;
      r, pods := GoLate(ts, delay, i - 1, y);
      var d := ts[i - 1] + y + 600;
      r := GoEvent(ts, delay, r, i, x, pods, d);
      pods := if ts[i] < d then pods + {Pod(i)} else {Pod(i)};
    }
  }

  /** All gaps from event `m` on are below ten minutes. */
  predicate Close(ts: seq<int>, m: nat) {
    forall j :: m <= j < |ts| && j > 0 ==> ts[j] - ts[j - 1] < 600
  }

  /** The events from `m` on, each with its expiry set at once, join the key. */
  lemma {:induction false} GoFollow(ts: seq<int>, delay: nat, b: Run, m: nat, pods: set<string>, d: int) returns (r: Run)
    requires Timed(ts) && 0 < m <= |ts| && Tracked(b, ts, delay, m, m) && Close(ts, m + 1)
    requires Holds(Last(b), pods, d)
    requires m < |ts| ==> Last(b).now <= ts[m] < d
    requires m == |ts| ==> Last(b).now == ts[m - 1] < d
    ensures Tracked(r, ts, delay, |ts|, |ts|) && Last(r).now == ts[|ts| - 1]
    ensures exists d' :: d' > Last(r).now && Holds(Last(r), pods + Pods(m, |ts|), d')
    decreases |ts| - m
  {
    if m == |ts| {
      r := b;
      assert pods + Pods(m, m) == pods;
    } else {
      r := GoEvent(ts, delay, b, m, 0, pods, d);
      r := GoFollow(ts, delay, r, m + 1, pods + {Pod(m)}, ts[m] + 600);
      assert Pods(m, |ts|) == {Pod(m)} + Pods(m + 1, |ts|);
      assert pods + {Pod(m)} + Pods(m + 1, |ts|) == pods + Pods(m, |ts|);
    }
  }

  // ---------- the session of such a history ----------

  lemma SessionOfGap(ts: seq<int>, m: nat)
    requires 0 < m < |ts| && ts[m] - ts[m - 1] >= 600
    ensures SessionPods(Hist(ts)) <= Pods(m, |ts|)
  {
    var h := Hist(ts);
    forall p | p in SessionPods(h)
      ensures p in Pods(m, |ts|)
    {
      var i :| 0 <= i < |h| && InSession(h, i) && h[i].1 == p;
      assert h[m].0 - h[m - 1].0 >= 600;
      assert i >= m;
    }
  }

  lemma SessionOfClose(ts: seq<int>, m: nat)
    requires 0 < m < |ts| && Close(ts, m)
    ensures Pods(m - 1, |ts|) <= SessionPods(Hist(ts))
  {
    var h := Hist(ts);
    forall i | m - 1 <= i < |ts|
      ensures Pod(i) in SessionPods(h)
    {
      assert InSession(h, i) && h[i].1 == Pod(i);
    }
  }

  /** What the last worker reports. */
  lemma LastReports(ts: seq<int>, delay: nat, r: Run)
    requires ts != [] && Tracked(r, ts, delay, |ts|, |ts|)
    ensures CanStep(Last(r), Work(|ts| - 1, CountPods))
    ensures var s, w := Last(r), |ts| - 1;
      && Key(OneIncident(), s.workers[w].val) == INCIDENT && History(s.adds, INCIDENT) == Hist(ts)
      && Reported(s, w) == Radius(|Members(s.blast, INCIDENT, s.now)|)
  {
    assert Hist(ts)[..|ts|] == Hist(ts);
  }

  lemma IsWrong(ts: seq<int>, delay: nat, r: Run)
    requires ts != [] && Tracked(r, ts, delay, |ts|, |ts|) && ts[|ts| - 1] <= Last(r).now < ts[|ts| - 1] + 600
    requires Radius(|Members(Last(r).blast, INCIDENT, Last(r).now)|) != |SessionPods(Hist(ts))|
    ensures ReportsWrong(ts, delay, OneIncident(), 0, |ts|, r, |ts| - 1)
  {
    LastReports(ts, delay, r);
    assert Times(Hist(ts)) == ts;
  }

  // ---------- a gap of ten minutes or a little more ----------

  /** The event before the gap sets its expiry just late enough for the next one to join. */
  lemma LateGapWrong(ts: seq<int>, delay: nat, m: nat) returns (r: Run)
    requires Timed(ts) && delay < 600 && 0 < m < |ts| && Close(ts, m + 1)
    requires 600 <= ts[m] - ts[m - 1] < 600 + delay
    ensures ReportsWrong(ts, delay, OneIncident(), 0, |ts|, r, |ts| - 1)
  {
    var b, pods := GoLate(ts, delay, m - 1, ts[m] - ts[m - 1] - 599);
    r := GoFollow(ts, delay, b, m, pods, ts[m] + 1);
    var d :| d > Last(r).now && Holds(Last(r), pods + Pods(m, |ts|), d);
    var all := pods + Pods(m, |ts|);
    assert Members(Last(r).blast, INCIDENT, Last(r).now) == all;
    assert Pods(m - 1, |ts|) <= all;
    PodsCount(m - 1, |ts|);
    SubsetCard(Pods(m - 1, |ts|), all);
    SessionOfGap(ts, m);
    PodsCount(m, |ts|);
    SubsetCard(SessionPods(Hist(ts)), Pods(m, |ts|));
    IsWrong(ts, delay, r);
  }

  // ---------- a gap of a little less than ten minutes ----------

  /** The events from `m` on that come before the key runs out at `d` add their pods and wait with the expiry. */
  lemma {:induction false} GoPile(ts: seq<int>, delay: nat, b: Run, m: nat, e: nat, pods: set<string>, d: int)
    returns (r: Run, k: nat)
    requires Timed(ts) && e <= m <= |ts| && Tracked(b, ts, delay, m, e) && Holds(Last(b), pods, d)
    requires Last(b).now < d && (m < |ts| ==> Last(b).now <= ts[m])
    requires forall i :: e <= i < |ts| ==> d <= ts[i] + delay
    ensures m <= k <= |ts| && (forall i :: m <= i < k ==> ts[i] < d) && (k < |ts| ==> ts[k] >= d)
    ensures Tracked(r, ts, delay, k, e) && Last(r).now < d
    ensures RunsOut(Last(r), d)
    decreases |ts| - m
  {
    if m == |ts| || ts[m] >= d {
      r, k := b, m;
    } else {
      r := GoAdd(ts, delay, b, m, e);
      r, k := GoPile(ts, delay, r, m + 1, e, pods + {Pod(m)}, d);
    }
  }

  /** They all set it when the key has just run out, and so do nothing. */
  lemma {:induction false} GoMiss(ts: seq<int>, delay: nat, b: Run, m: nat, e: nat, d: int) returns (r: Run)
    requires e <= m <= |ts| && Tracked(b, ts, delay, m, e) && Last(b).now <= d
    requires RunsOut(Last(b), d)
    requires forall i :: e <= i < m ==> d <= ts[i] + delay
    ensures Tracked(r, ts, delay, m, m) && Last(r).now == d
    ensures RunsOut(Last(r), d)
    decreases m - e
  {
    if e == m {
      r := GoWait(ts, delay, b, m, e, d);
    } else {
      r := GoExpire(ts, delay, b, m, e, d);
      r := GoMiss(ts, delay, r, m, e + 1, d);
    }
  }

  /** All pods up to then are lost. */
  lemma GoLose(ts: seq<int>, delay: nat, m: nat) returns (r: Run, k: nat)
    requires Timed(ts) && delay < 600 && 0 < m < |ts| && 600 - delay <= ts[m] - ts[m - 1] < 600
    ensures m < k <= |ts| && Tracked(r, ts, delay, k, k) && Last(r).now == ts[m - 1] + 600
    ensures (forall i :: m <= i < k ==> ts[i] < ts[m - 1] + 600) && (k < |ts| ==> ts[k] >= ts[m - 1] + 600)
    ensures RunsOut(Last(r), ts[m - 1] + 600)
  {
    var d := ts[m - 1] + 600;
    var b, pods := GoLate(ts, delay, m - 1, 0);
    r, k := GoPile(ts, delay, b, m, m, pods, d);
    r := GoMiss(ts, delay, r, k, m, d);
  }

  /** After the loss only the pods from event `k` on are there. */
  lemma GoAfterLoss(ts: seq<int>, delay: nat, b: Run, k: nat, d: int) returns (r: Run)
    requires Timed(ts) && 0 < k < |ts| && Tracked(b, ts, delay, k, k) && Close(ts, k + 1)
    requires RunsOut(Last(b), d) && Last(b).now <= d <= ts[k]
    ensures Tracked(r, ts, delay, |ts|, |ts|) && Last(r).now == ts[|ts| - 1]
    ensures Members(Last(r).blast, INCIDENT, Last(r).now) == Pods(k, |ts|)
  {
    r := GoEvent(ts, delay, b, k, 0, Last(b).blast[INCIDENT].members, d);
    r := GoFollow(ts, delay, r, k + 1, {Pod(k)}, ts[k] + 600);
    var d' :| d' > Last(r).now && Holds(Last(r), {Pod(k)} + Pods(k + 1, |ts|), d');
    assert {Pod(k)} + Pods(k + 1, |ts|) == Pods(k, |ts|);
  }

  lemma StallGapWrong(ts: seq<int>, delay: nat, m: nat) returns (r: Run)
    requires Timed(ts) && delay < 600 && 0 < m < |ts| && Close(ts, m)
    requires 600 - delay <= ts[m] - ts[m - 1] < 600
    ensures ReportsWrong(ts, delay, OneIncident(), 0, |ts|, r, |ts| - 1)
  {
    var k;
    r, k := GoLose(ts, delay, m);
    SessionOfClose(ts, m);
    PodsCount(m - 1, |ts|);
    SubsetCard(Pods(m - 1, |ts|), SessionPods(Hist(ts)));
    if k == |ts| {
      assert Members(Last(r).blast, INCIDENT, Last(r).now) == {};
    } else {
      r := GoAfterLoss(ts, delay, r, k, ts[m - 1] + 600);
      PodsCount(k, |ts|);
    }
    IsWrong(ts, delay, r);
  }

  // ---------- exactly ----------

  /** Where recovery fails: a gap near ten minutes, and none of ten minutes after it. */
  lemma {:induction false} BadGap(ts: seq<int>, delay: nat) returns (m: nat)
    requires !Recovered(ts, delay)
    ensures 0 < m < |ts| && 600 - delay <= ts[m] - ts[m - 1] < 600 + delay && Close(ts, m + 1)
    decreases |ts|
  {
    var n := |ts| - 1;
    if ts[n] - ts[n - 1] < 600 - delay {
      m := BadGap(ts[..n], delay);
      forall j | m + 1 <= j < |ts|
        ensures ts[j] - ts[j - 1] < 600
      {
        assert j < n ==> ts[..n][j] - ts[..n][j - 1] < 600;
      }
    } else {
      m := n;
    }
  }

  lemma NotRecoveredWrong(ts: seq<int>, delay: nat) returns (r: Run)
    requires Timed(ts) && delay < 600 && !Recovered(ts, delay)
    ensures ReportsWrong(ts, delay, OneIncident(), 0, |ts|, r, |ts| - 1)
  {
    var m := BadGap(ts, delay);
    if ts[m] - ts[m - 1] >= 600 {
      r := LateGapWrong(ts, delay, m);
    } else {
      r := StallGapWrong(ts, delay, m);
    }
  }

  lemma RecoveredRight(ts: seq<int>, delay: nat, names: Names, capacity: nat, n: nat, r: Run, w: nat)
    requires Recovered(ts, delay)
    ensures !ReportsWrong(ts, delay, names, capacity, n, r, w)
  {
    if ReportsWrong(ts, delay, names, capacity, n, r, w) {
      BlastRefinesHistory(names, capacity, n, delay, r.steps, r.states, |r.states| - 1, w);
      assert false;
    }
  }

  /** For delays below ten minutes: event times are reported rightly by every run, for all pods, incidents, numbers of workers
      and interleavings, exactly when no gap since the last clear break is within the delay of ten minutes. */
  lemma RightExactlyWhenRecovered(ts: seq<int>, delay: nat)
    requires Timed(ts) && delay < 600
    ensures (forall names, capacity, n, r, w :: !ReportsWrong(ts, delay, names, capacity, n, r, w)) <==> Recovered(ts, delay)
  {
    if Recovered(ts, delay) {
      forall names, capacity, n, r, w
        ensures !ReportsWrong(ts, delay, names, capacity, n, r, w)
      {
        RecoveredRight(ts, delay, names, capacity, n, r, w);
      }
    } else {
      var r := NotRecoveredWrong(ts, delay);
    }
  }
}
