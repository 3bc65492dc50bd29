/** The blast radius against a definition by history alone: the distinct pods since the last gap. */
module BlastProofs {
  import opened Options
  import opened RedisStore
  import opened Incidents
  import opened Orchestration

  // ---------- the history definition ----------

  /** No gap of ten minutes or more between entry `i` and the end of the history. */
  predicate InSession(h: seq<(int, string)>, i: int) {
    0 <= i < |h| && forall k :: i < k < |h| ==> h[k].0 - h[k - 1].0 < 600
  }

  function SessionPods(h: seq<(int, string)>): set<string> {
    set i | 0 <= i < |h| && InSession(h, i) :: h[i].1
  }

  function LastTime(h: seq<(int, string)>): int
    requires h != []
  {
    h[|h| - 1].0
  }

  /** The distinct pods of the running session, or one when ten minutes have passed since its last event. */
  function HistoryRadius(h: seq<(int, string)>, now: int): nat {
    if h == [] || now - LastTime(h) >= 600 then 1 else |SessionPods(h)|
  }

  lemma SessionMore(h: seq<(int, string)>, t: int, pod: string)
    ensures forall i :: 0 <= i < |h| ==>
      (InSession(h + [(t, pod)], i) <==> InSession(h, i) && t - LastTime(h) < BLAST_TTL)
    ensures InSession(h + [(t, pod)], |h|)
  {
    var h' := h + [(t, pod)];
    forall i | 0 <= i < |h|
      ensures InSession(h', i) <==> InSession(h, i) && t - LastTime(h) < BLAST_TTL
    {
      if InSession(h', i) {
        assert h'[|h|].0 - h'[|h| - 1].0 < BLAST_TTL;
        assert forall k :: i < k < |h| ==> h[k].0 - h[k - 1].0 == h'[k].0 - h'[k - 1].0;
      }
    }
  }

  /** One more event joins the session or starts a new one. */
  lemma SessionPodsMore(h: seq<(int, string)>, t: int, pod: string)
    ensures SessionPods(h + [(t, pod)]) == if h != [] && t - LastTime(h) < BLAST_TTL then SessionPods(h) + {pod} else {pod}
  {
    var h' := h + [(t, pod)];
    SessionMore(h, t, pod);
    assert h'[|h|].1 == pod;
    forall p | p in SessionPods(h)
      ensures h != [] && t - LastTime(h) < BLAST_TTL ==> p in SessionPods(h')
    {
      var i :| 0 <= i < |h| && InSession(h, i) && h[i].1 == p;
      assert h'[i].1 == p;
    }
    forall p | p in SessionPods(h') && p != pod
      ensures h != [] && t - LastTime(h) < BLAST_TTL && p in SessionPods(h)
    {
      var i :| 0 <= i < |h'| && InSession(h', i) && h'[i].1 == p;
      assert h[i].1 == p;
    }
  }

  lemma {:induction false} SessionGrows(h: seq<(int, string)>, h': seq<(int, string)>)
    requires h != [] && h <= h' && InSession(h', |h| - 1)
    ensures SessionPods(h) <= SessionPods(h')
  {
    forall p | p in SessionPods(h)
      ensures p in SessionPods(h')
    {
      var i :| 0 <= i < |h| && InSession(h, i) && h[i].1 == p;
      assert h'[i].1 == p;
      forall k | i < k < |h'|
        ensures h'[k].0 - h'[k - 1].0 < BLAST_TTL
      {
        if k < |h| {
          assert h[k].0 - h[k - 1].0 < BLAST_TTL;
        }
      }
      assert InSession(h', i);
    }
  }

  lemma SubsetCard(a: set<string>, b: set<string>)
    requires a <= b
    ensures |a| <= |b|
  {
    assert b == a + (b - a);
  }

  // ---------- what a bounded delay between SADD and EXPIRE keeps ----------

  /** Worker `w` has added a pod under `key` and not yet set the key's expiry. */
  predicate Adding(s: State, w: int, key: string) {
    0 <= w < |s.workers| && s.workers[w].PodAdded? && Key(s.names, s.workers[w].val) == key
  }

  /** Nobody has been between adding a pod and setting the expiry for longer than `delay`. */
  predicate Within(s: State, delay: nat) {
    forall w :: 0 <= w < |s.workers| && s.workers[w].PodAdded? ==> s.now <= s.workers[w].at + delay
  }

  ghost predicate IsRunWithin(names: Names, capacity: nat, n: nat, delay: nat, steps: seq<Step>, states: seq<State>) {
    && IsRun(names, capacity, n, steps, states)
    && forall i :: 0 <= i < |states| ==> Within(states[i], delay)
  }

  function Times(h: seq<(int, string)>): (ts: seq<int>)
    ensures |ts| == |h|
  {
    seq(|h|, i requires 0 <= i < |h| => h[i].0)
  }

  /** No two neighbouring events are ten minutes apart give or take the delay, as far back as the last clear break:
      a gap that is longer for sure. */
  predicate Recovered(ts: seq<int>, delay: nat) {
    |ts| <= 1 ||
    var n := |ts| - 1;
    var gap := ts[n] - ts[n - 1];
    gap >= 600 + delay || (gap < 600 - delay && Recovered(ts[..n], delay))
  }

  lemma RecoveredMore(h: seq<(int, string)>, t: int, pod: string, delay: nat)
    ensures Recovered(Times(h + [(t, pod)]), delay) <==>
      h == [] || t - LastTime(h) >= 600 + delay || (t - LastTime(h) < 600 - delay && Recovered(Times(h), delay))
  {
    var ts := Times(h + [(t, pod)]);
    assert ts[..|h|] == Times(h);
  }

  /** A worker will set the expiry before the key can run out. */
  ghost predicate Refreshed(s: State, key: string, delay: nat)
    requires key in s.blast
  {
    exists w :: Adding(s, w, key) &&
      (s.blast[key].deadline.Some? ==> s.workers[w].at + delay < s.blast[key].deadline.value)
  }

  ghost predicate KeyInv(s: State, key: string, delay: nat) {
    var h := History(s.adds, key);
    if h == [] then key !in s.blast
    else
      && key in s.blast
      && LastTime(h) <= s.now
      && s.blast[key].members == SessionPods(h)
      && (s.blast[key].deadline.Some? ==> s.blast[key].deadline.value <= LastTime(h) + BLAST_TTL + delay)
      && ((s.blast[key].deadline.Some? && LastTime(h) + BLAST_TTL <= s.blast[key].deadline.value) || Refreshed(s, key, delay))
  }

  /** A worker that has added a pod finds it in the history. */
  ghost predicate AddedHaveHistory(s: State) {
    forall w :: 0 <= w < |s.workers| && s.workers[w].PodAdded? ==>
      var h := History(s.adds, Key(s.names, s.workers[w].val));
      h != [] && s.workers[w].at <= LastTime(h)
  }

  /** What holds of every key, whatever its gaps: it runs out in time, and only a worker that has still to set its
      expiry keeps it without one. */
  ghost predicate KeyEnds(s: State, key: string, delay: nat) {
    var h := History(s.adds, key);
    if h == [] then key !in s.blast
    else
      && key in s.blast
      && LastTime(h) <= s.now
      && (s.blast[key].deadline.Some? ==> s.blast[key].deadline.value <= LastTime(h) + BLAST_TTL + delay)
      && (s.blast[key].deadline.None? ==> exists w :: Adding(s, w, key))
  }

  ghost predicate BlastInv(s: State, delay: nat) {
    && (forall key: string :: KeyEnds(s, key, delay))
    && (forall key: string :: Recovered(Times(History(s.adds, key)), delay) ==> KeyInv(s, key, delay))
  }

  /** A key is gone after a clear break. */
  lemma EndsAfterBreak(s: State, key: string, delay: nat)
    requires KeyEnds(s, key, delay) && Within(s, delay) && AddedHaveHistory(s) && History(s.adds, key) != []
    ensures Live(s.blast[key], s.now) ==> s.now - LastTime(History(s.adds, key)) < BLAST_TTL + delay
  {
    if s.blast[key].deadline.None? {
      var w :| Adding(s, w, key);
      assert s.now <= s.workers[w].at + delay && s.workers[w].at <= LastTime(History(s.adds, key));
    }
  }

  /** Redis shows the key while the session runs, and stops showing it soon after. */
  lemma LiveIsSession(s: State, key: string, delay: nat)
    requires KeyInv(s, key, delay) && Within(s, delay) && AddedHaveHistory(s) && History(s.adds, key) != []
    ensures var gap := s.now - LastTime(History(s.adds, key));
      (gap < BLAST_TTL ==> Live(s.blast[key], s.now)) && (Live(s.blast[key], s.now) ==> gap < BLAST_TTL + delay)
    ensures Refreshed(s, key, delay) ==> Live(s.blast[key], s.now)
  {
    if Refreshed(s, key, delay) {
      var w :| Adding(s, w, key) && (s.blast[key].deadline.Some? ==> s.workers[w].at + delay < s.blast[key].deadline.value);
      assert s.now <= s.workers[w].at + delay && s.workers[w].at <= LastTime(History(s.adds, key));
    }
  }

  /** A promise to refresh outlives every turn but the one that fulfils it. */
  lemma RefreshedStays(s: State, s': State, w: nat, key: string, delay: nat)
    requires key in s.blast && key in s'.blast && s'.blast[key].deadline == s.blast[key].deadline
    requires w < |s.workers| == |s'.workers| && s'.names == s.names
    requires s'.workers == s.workers[w := s'.workers[w]] && !Adding(s, w, key)
    requires Refreshed(s, key, delay)
    ensures Refreshed(s', key, delay)
  {
    var v :| Adding(s, v, key) && (s.blast[key].deadline.Some? ==> s.workers[v].at + delay < s.blast[key].deadline.value);
    assert Adding(s', v, key);
  }

  /** SADD under the worker's own key. */
  lemma AddPodKeeps(s: State, w: nat, similarity: real, delay: nat)
    requires AddedHaveHistory(s) && Within(s, delay) && CanStep(s, Work(w, AddPod(similarity)))
    requires BlastInv(s, delay)
    requires Recovered(Times(History(Do(s, Work(w, AddPod(similarity))).adds, Key(s.names, s.workers[w].val))), delay)
    ensures KeyInv(Do(s, Work(w, AddPod(similarity))), Key(s.names, s.workers[w].val), delay)
  {
    var s', x := Do(s, Work(w, AddPod(similarity))), s.workers[w];
    var key, pod := Key(s.names, x.val), s.names.podOf(x.line);
    var h := History(s.adds, key);
    assert History(s'.adds, key) == h + [(s.now, pod)];
    RecoveredMore(h, s.now, pod, delay);
    SessionPodsMore(h, s.now, pod);
    assert KeyEnds(s, key, delay);
    assert Adding(s', w, key) && s'.workers[w].at == s.now;
    if h != [] {
      EndsAfterBreak(s, key, delay);
      if s.now - LastTime(h) < 600 - delay {
        JoinKeeps(s, w, similarity, delay);
      }
    }
  }

  /** SADD within a session that is known exactly. */
  lemma JoinKeeps(s: State, w: nat, similarity: real, delay: nat)
    requires AddedHaveHistory(s) && Within(s, delay) && CanStep(s, Work(w, AddPod(similarity)))
    requires var key := Key(s.names, s.workers[w].val);
      KeyInv(s, key, delay) && History(s.adds, key) != [] && s.now - LastTime(History(s.adds, key)) < 600 - delay
    ensures KeyInv(Do(s, Work(w, AddPod(similarity))), Key(s.names, s.workers[w].val), delay)
  {
    var s', x := Do(s, Work(w, AddPod(similarity))), s.workers[w];
    var key, pod := Key(s.names, x.val), s.names.podOf(x.line);
    SessionPodsMore(History(s.adds, key), s.now, pod);
    assert Adding(s', w, key) && s'.workers[w].at == s.now;
    LiveIsSession(s, key, delay);
    if Refreshed(s, key, delay) {
      RefreshedStays(s, s', w, key, delay);
    }
  }

  /** EXPIRE under the worker's own key. */
  lemma SetExpiryKeeps(s: State, w: nat, delay: nat)
    requires AddedHaveHistory(s) && Within(s, delay) && CanStep(s, Work(w, SetExpiry))
    requires KeyInv(s, Key(s.names, s.workers[w].val), delay)
    ensures KeyInv(Do(s, Work(w, SetExpiry)), Key(s.names, s.workers[w].val), delay)
  {
    LiveIsSession(s, Key(s.names, s.workers[w].val), delay);
  }

  /** A turn that is about another key, or neither adds a pod nor sets an expiry. */
  lemma OtherTurnKeeps(s: State, w: nat, turn: Turn, key: string, delay: nat)
    requires KeyInv(s, key, delay) && CanStep(s, Work(w, turn))
    requires turn.AddPod? || turn.SetExpiry? ==> Key(s.names, s.workers[w].val) != key
    ensures KeyInv(Do(s, Work(w, turn)), key, delay)
  {
    var s' := Do(s, Work(w, turn));
    TurnHistory(s, w, turn);
    TurnBlast(s, w, turn, key);
    if History(s.adds, key) != [] && Refreshed(s, key, delay) {
      RefreshedStays(s, s', w, key, delay);
    }
  }

  lemma TurnBlast(s: State, w: nat, turn: Turn, key: string)
    requires CanStep(s, Work(w, turn))
    requires turn.AddPod? || turn.SetExpiry? ==> Key(s.names, s.workers[w].val) != key
    ensures var s' := Do(s, Work(w, turn));
      (key in s'.blast <==> key in s.blast) && (key in s.blast ==> s'.blast[key] == s.blast[key]) && s'.now == s.now
  {
  }

  lemma TickKeeps(s: State, d: nat, key: string, delay: nat)
    requires KeyInv(s, key, delay)
    ensures KeyInv(Do(s, Tick(d)), key, delay)
  {
    var s' := Do(s, Tick(d));
    if History(s.adds, key) != [] && Refreshed(s, key, delay) {
      var v :| Adding(s, v, key) && (s.blast[key].deadline.Some? ==> s.workers[v].at + delay < s.blast[key].deadline.value);
      assert Adding(s', v, key);
    }
  }

  /** What a turn does to the history: only adding a pod extends it, and only under the worker's own key. */
  lemma TurnHistory(s: State, w: nat, turn: Turn)
    requires CanStep(s, Work(w, turn))
    ensures var s', x := Do(s, Work(w, turn)), s.workers[w];
      && s'.names == s.names && s'.workers == s.workers[w := Turned(s, x, turn)]
      && s'.adds == if turn.AddPod? then
          var key := Key(s.names, x.val);
          s.adds[key := History(s.adds, key) + [(s.now, s.names.podOf(x.line))]]
        else s.adds
  {
  }

  /** What is later in the history is not earlier in time. */
  ghost predicate Extends(h: seq<(int, string)>, h': seq<(int, string)>, now: int) {
    h <= h' && forall i :: |h| <= i < |h'| ==> h'[i].0 >= now
  }

  lemma StepExtends(s: State, step: Step, key: string)
    requires CanStep(s, step)
    ensures Extends(History(s.adds, key), History(Do(s, step).adds, key), s.now)
    ensures Do(s, step).names == s.names && |Do(s, step).workers| == |s.workers| && s.now <= Do(s, step).now
  {
    if step.Work? {
      TurnHistory(s, step.w, step.turn);
    }
  }

  ghost predicate PastOnly(s: State) {
    forall key :: History(s.adds, key) != [] ==> LastTime(History(s.adds, key)) <= s.now
  }

  lemma StepKeepsPast(s: State, step: Step)
    requires PastOnly(s) && CanStep(s, step)
    ensures PastOnly(Do(s, step))
  {
    var s' := Do(s, step);
    forall key | History(s'.adds, key) != []
      ensures LastTime(History(s'.adds, key)) <= s'.now
    {
      assert History(s.adds, key) != [] ==> LastTime(History(s.adds, key)) <= s.now;
      if step.Work? {
        TurnHistory(s, step.w, step.turn);
      }
    }
  }

  lemma StepKeepsAdded(s: State, step: Step)
    requires AddedHaveHistory(s) && PastOnly(s) && CanStep(s, step)
    ensures AddedHaveHistory(Do(s, step))
  {
    if step.Work? {
      TurnHistory(s, step.w, step.turn);
      var s' := Do(s, step);
      forall w | 0 <= w < |s'.workers| && s'.workers[w].PodAdded?
        ensures var h := History(s'.adds, Key(s'.names, s'.workers[w].val)); h != [] && s'.workers[w].at <= LastTime(h)
      {
        assert w != step.w ==> s.workers[w].PodAdded?;
      }
    }
  }

  /** Every key keeps running out in time. */
  lemma TurnKeepsEnds(s: State, w: nat, turn: Turn, key: string, delay: nat)
    requires KeyEnds(s, key, delay) && AddedHaveHistory(s) && Within(s, delay) && CanStep(s, Work(w, turn))
    ensures KeyEnds(Do(s, Work(w, turn)), key, delay)
  {
    var s' := Do(s, Work(w, turn));
    TurnHistory(s, w, turn);
    if turn.AddPod? && Key(s.names, s.workers[w].val) == key {
      assert Adding(s', w, key);
    } else if turn.SetExpiry? && Key(s.names, s.workers[w].val) == key {
      assert s.now <= s.workers[w].at + delay && s.workers[w].at <= LastTime(History(s.adds, key));
    } else {
      TurnBlast(s, w, turn, key);
      if v :| Adding(s, v, key) {
        assert Adding(s', v, key);
      }
    }
  }

  lemma TickKeepsEnds(s: State, d: nat, key: string, delay: nat)
    requires KeyEnds(s, key, delay)
    ensures KeyEnds(Do(s, Tick(d)), key, delay)
  {
    if v :| Adding(s, v, key) {
      assert Adding(Do(s, Tick(d)), v, key);
    }
  }

  lemma StepKeepsEnds(s: State, step: Step, key: string, delay: nat)
    requires KeyEnds(s, key, delay) && AddedHaveHistory(s) && Within(s, delay) && CanStep(s, step)
    ensures KeyEnds(Do(s, step), key, delay)
  {
    match step
    case Tick(d) => TickKeepsEnds(s, d, key, delay);
    case Work(w, turn) => TurnKeepsEnds(s, w, turn, key, delay);
  }

  lemma StepKeepsKey(s: State, step: Step, key: string, delay: nat)
    requires BlastInv(s, delay) && AddedHaveHistory(s) && Within(s, delay) && CanStep(s, step)
    requires Recovered(Times(History(Do(s, step).adds, key)), delay)
    ensures KeyInv(Do(s, step), key, delay)
  {
    match step
    case Tick(d) => TickKeeps(s, d, key, delay);
    case Work(w, turn) =>
      if turn.AddPod? && Key(s.names, s.workers[w].val) == key {
        AddPodKeeps(s, w, turn.similarity, delay);
      } else {
        TurnHistory(s, w, turn);
        assert KeyInv(s, key, delay);
        if turn.SetExpiry? && Key(s.names, s.workers[w].val) == key {
          SetExpiryKeeps(s, w, delay);
        } else {
          OtherTurnKeeps(s, w, turn, key, delay);
        }
      }
  }

  lemma StepKeepsBlast(s: State, step: Step, delay: nat)
    requires BlastInv(s, delay) && AddedHaveHistory(s) && Within(s, delay) && CanStep(s, step)
    ensures BlastInv(Do(s, step), delay)
  {
    forall key: string
      ensures KeyEnds(Do(s, step), key, delay)
    {
      StepKeepsEnds(s, step, key, delay);
    }
    forall key: string | Recovered(Times(History(Do(s, step).adds, key)), delay)
      ensures KeyInv(Do(s, step), key, delay)
    {
      StepKeepsKey(s, step, key, delay);
    }
  }

  lemma {:induction false} RunKeepsBlast(names: Names, capacity: nat, n: nat, delay: nat, steps: seq<Step>, states: seq<State>, k: nat)
    requires IsRunWithin(names, capacity, n, delay, steps, states) && k < |states|
    ensures BlastInv(states[k], delay) && AddedHaveHistory(states[k]) && PastOnly(states[k]) && states[k].names == names
  {
    if k > 0 {
      RunKeepsBlast(names, capacity, n, delay, steps, states, k - 1);
      assert StepsTo(steps, states, k - 1);
      StepKeepsBlast(states[k - 1], steps[k - 1], delay);
      StepKeepsAdded(states[k - 1], steps[k - 1]);
      StepKeepsPast(states[k - 1], steps[k - 1]);
      StepExtends(states[k - 1], steps[k - 1], "");
    }
  }

  // ---------- the theorems ----------

  /** What worker `w` is about to report as blast radius in state `s`. */
  function Reported(s: State, w: nat): nat
    requires CanStep(s, Work(w, CountPods))
  {
    Turned(s, s.workers[w], CountPods).radius
  }

  /** The delay cannot blur the radius: no gap back to the last clear break is near ten minutes, nor is the time since
      the last event. */
  ghost predicate Clear(h: seq<(int, string)>, now: int, delay: nat) {
    Recovered(Times(h), delay) && (h != [] ==> now - LastTime(h) < 600 || now - LastTime(h) >= 600 + delay)
  }

  lemma ReportIsHistory(s: State, w: nat, delay: nat)
    requires BlastInv(s, delay) && AddedHaveHistory(s) && Within(s, delay) && CanStep(s, Work(w, CountPods))
    requires Clear(History(s.adds, Key(s.names, s.workers[w].val)), s.now, delay)
    ensures Reported(s, w) == HistoryRadius(History(s.adds, Key(s.names, s.workers[w].val)), s.now) >= 1
  {
    var key := Key(s.names, s.workers[w].val);
    var h := History(s.adds, key);
    assert KeyInv(s, key, delay);
    if h != [] {
      LiveIsSession(s, key, delay);
      assert InSession(h, |h| - 1) && h[|h| - 1].1 in SessionPods(h);
    }
  }

  /** In every run, with `delay` the longest any worker takes from SADD to EXPIRE: the radius is the number of distinct
      pods since the last gap of ten minutes, unless a gap since the last clear break is within the delay of ten
      minutes. With no delay there is no such gap. */
  lemma BlastRefinesHistory(names: Names, capacity: nat, n: nat, delay: nat, steps: seq<Step>, states: seq<State>, k: nat, w: nat)
    requires IsRunWithin(names, capacity, n, delay, steps, states) && k < |states| && CanStep(states[k], Work(w, CountPods))
    requires Clear(History(states[k].adds, Key(names, states[k].workers[w].val)), states[k].now, delay)
    ensures var s := states[k];
      Reported(s, w) == HistoryRadius(History(s.adds, Key(names, s.workers[w].val)), s.now) >= 1
  {
    RunKeepsBlast(names, capacity, n, delay, steps, states, k);
    ReportIsHistory(states[k], w, delay);
  }

  lemma {:induction false} NoDelayRecovers(ts: seq<int>)
    ensures Recovered(ts, 0)
    decreases |ts|
  {
    if |ts| > 1 {
      NoDelayRecovers(ts[..|ts| - 1]);
    }
  }

  lemma NoDelayIsClear(h: seq<(int, string)>, now: int)
    ensures Clear(h, now, 0)
  {
    NoDelayRecovers(Times(h));
  }

  /** Within a session a recovered history has been recovered all along. */
  lemma {:induction false} RecoveredBack(h: seq<(int, string)>, m: nat, delay: nat)
    requires 0 < m <= |h| && InSession(h, m - 1) && Recovered(Times(h), delay)
    ensures Recovered(Times(h[..m]), delay)
    decreases |h|
  {
    var n := |h| - 1;
    if m == |h| {
      assert h[..m] == h;
    } else {
      assert Times(h)[..n] == Times(h[..n]);
      assert h[n].0 - h[n - 1].0 < 600;
      RecoveredBack(h[..n], m, delay);
      assert h[..n][..m] == h[..m];
    }
  }

  lemma {:induction false} HistoryOnlyGrows(names: Names, capacity: nat, n: nat, steps: seq<Step>, states: seq<State>, j: nat, k: nat, key: string)
    requires IsRun(names, capacity, n, steps, states) && j <= k < |states|
    ensures Extends(History(states[j].adds, key), History(states[k].adds, key), states[j].now)
    ensures states[j].now <= states[k].now
  {
    if j < k {
      HistoryOnlyGrows(names, capacity, n, steps, states, j, k - 1, key);
      assert StepsTo(steps, states, k - 1);
      StepExtends(states[k - 1], steps[k - 1], key);
      ExtendsChain(History(states[j].adds, key), History(states[k - 1].adds, key), History(states[k].adds, key),
        states[j].now, states[k - 1].now);
    }
  }

  lemma ExtendsChain(h: seq<(int, string)>, h': seq<(int, string)>, h'': seq<(int, string)>, t: int, t': int)
    requires Extends(h, h', t) && Extends(h', h'', t') && t <= t'
    ensures Extends(h, h'', t)
  {
    forall i | |h| <= i < |h''|
      ensures h''[i].0 >= t
    {
      if i < |h'| {
        assert h''[i] == h'[i];
      }
    }
  }

  /** Within one session the radius never falls, and so trust does not rise exactly when the radius is unchanged or
      the similarity, fixed, is not negative. */
  lemma TrustNeverRisesInSession(names: Names, capacity: nat, n: nat, delay: nat, steps: seq<Step>, states: seq<State>,
      j: nat, k: nat, v: nat, w: nat, key: string, similarity: real)
    requires IsRunWithin(names, capacity, n, delay, steps, states) && j <= k < |states|
    requires CanStep(states[j], Work(v, CountPods)) && Key(names, states[j].workers[v].val) == key
    requires CanStep(states[k], Work(w, CountPods)) && Key(names, states[k].workers[w].val) == key
    requires var h, h' := History(states[j].adds, key), History(states[k].adds, key);
      h != [] && |h| <= |h'| && InSession(h', |h| - 1) && Recovered(Times(h'), delay) && states[k].now - LastTime(h') < BLAST_TTL
    ensures 1 <= Reported(states[j], v) <= Reported(states[k], w)
    ensures TrustScore(similarity, Reported(states[k], w)) <= TrustScore(similarity, Reported(states[j], v)) <==>
      similarity >= 0.0 || Reported(states[k], w) == Reported(states[j], v)
  {
    HistoryOnlyGrows(names, capacity, n, steps, states, j, k, key);
    var h, h' := History(states[j].adds, key), History(states[k].adds, key);
    RecoveredBack(h', |h|, delay);
    assert h'[..|h|] == h;
    if |h| < |h'| {
      assert h'[|h|].0 - h'[|h| - 1].0 < BLAST_TTL && h'[|h|].0 >= states[j].now;
    }
    BlastRefinesHistory(names, capacity, n, delay, steps, states, j, v);
    BlastRefinesHistory(names, capacity, n, delay, steps, states, k, w);
    SessionGrows(h, h');
    SubsetCard(SessionPods(h), SessionPods(h'));
    if Reported(states[j], v) < Reported(states[k], w) {
      TrustFallsExactly(similarity, Reported(states[j], v), Reported(states[k], w));
    }
  }

  // ---------- one event, exactly ----------

  /** The key as Redis holds it with the pods of the session, whatever its deadline. */
  ghost predicate Held(blast: map<string, PodSet>, key: string, h: seq<(int, string)>, d: Option<int>) {
    if h == [] then key !in blast else key in blast && blast[key] == PodSet(SessionPods(h), d)
  }

  /** The radius reported after SADD at `t`, EXPIRE at `e` and SCARD at `c`. */
  function Report(blast: map<string, PodSet>, key: string, pod: string, t: int, e: int, c: int): nat {
    Radius(|Members(Expiring(Added(blast, key, pod, t), key, e), key, c)|)
  }

  /** One more event, whenever its three commands run and whatever deadline the key has: the radius is that of
      the history exactly when no other pod is concerned, or Redis joins and still shows the session
      at the count exactly when the history does. */
  lemma OneEventExactly(blast: map<string, PodSet>, key: string, h: seq<(int, string)>, d: Option<int>,
      pod: string, t: int, e: int, c: int)
    requires Held(blast, key, h, d) && (h != [] ==> LastTime(h) <= t) && t <= e <= c
    ensures Report(blast, key, pod, t, e, c) == HistoryRadius(h + [(t, pod)], c) <==>
      || SessionPods(h) + {pod} == {pod}
      || (((d.None? || e < d.value) && c < e + 600) <==> (h != [] && t < LastTime(h) + 600 && c < t + 600))
  {
    OnlyPod(SessionPods(h) + {pod}, pod);
    HistoryMore(h, t, pod, c);
    if h == [] {
      assert SessionPods(h) == {};
      FreshReport(blast, key, pod, t, e, c);
    } else {
      HeldReport(blast, key, SessionPods(h), d, pod, t, e, c);
    }
  }

  lemma FreshReport(blast: map<string, PodSet>, key: string, pod: string, t: int, e: int, c: int)
    requires key !in blast
    ensures Report(blast, key, pod, t, e, c) == 1
  {
  }

  /** Redis still shows the old pods when the expiry came before the old deadline and the count before the new one. */
  lemma HeldReport(blast: map<string, PodSet>, key: string, pods: set<string>, d: Option<int>, pod: string, t: int, e: int, c: int)
    requires key in blast && blast[key] == PodSet(pods, d) && t <= e <= c
    ensures Report(blast, key, pod, t, e, c) == if (d.None? || e < d.value) && c < e + 600 then |pods + {pod}| else 1
  {
    var added := Added(blast, key, pod, t);
    if d.None? || t < d.value {
      assert added[key] == PodSet(pods + {pod}, d);
      assert pod in pods + {pod};
    } else {
      assert added[key] == PodSet({pod}, None);
    }
  }

  lemma HistoryMore(h: seq<(int, string)>, t: int, pod: string, c: int)
    requires t <= c
    ensures HistoryRadius(h + [(t, pod)], c)
      == if h != [] && t < LastTime(h) + 600 && c < t + 600 then |SessionPods(h) + {pod}| else 1
  {
    SessionPodsMore(h, t, pod);
  }

  lemma OnlyPod(pods: set<string>, pod: string)
    requires pod in pods
    ensures |pods| == 1 <==> pods == {pod}
  {
    if |pods| == 1 {
      assert |pods - {pod}| == 0;
    }
  }

  // ---------- two events, exactly ----------

  /** The radius reported for pod `b` at `gap` after pod `a` at 0, with the expiries set at `e` and `e'`. */
  function SecondReport(key: string, a: string, b: string, gap: int, e: int, e': int, c: int): nat {
    Report(Expiring(Added(map[], key, a, 0), key, e), key, b, gap, e', c)
  }

  /** Command times with delays of at most `delay` and a count that is not itself near ten minutes late. */
  predicate InTime(gap: int, delay: nat, e: int, e': int, c: int) {
    && 0 <= e <= gap && e <= delay
    && gap <= e' <= gap + delay && e' <= c
    && (c < gap + 600 || c >= gap + 600 + delay)
  }

  lemma SessionOfOne(a: string)
    ensures SessionPods([(0, a)]) == {a}
  {
    assert [(0, a)] == [] + [(0, a)];
    SessionPodsMore([], 0, a);
  }

  /** When the second report is that of the history. */
  lemma SecondExactly(key: string, a: string, b: string, gap: int, e: int, e': int, c: int)
    requires a != b && 0 <= e <= gap <= e' <= c
    ensures SecondReport(key, a, b, gap, e, e', c) == HistoryRadius([(0, a), (gap, b)], c) <==>
      ((e' < e + 600 && c < e' + 600) <==> (gap < 600 && c < gap + 600))
  {
    var blast := Expiring(Added(map[], key, a, 0), key, e);
    SessionOfOne(a);
    assert blast[key] == PodSet({a}, Some(e + 600));
    assert [(0, a)] + [(gap, b)] == [(0, a), (gap, b)];
    OneEventExactly(blast, key, [(0, a)], Some(e + 600), b, gap, e', c);
    assert a in {a} + {b};
  }

  /** The gaps that `Clear` excludes are exactly the harmful ones: two pods that are `gap` seconds apart are reported
      rightly under all delays of at most `delay` if and only if the gap is not within the delay of ten minutes. */
  lemma GapHarmlessExactly(key: string, a: string, b: string, gap: int, delay: nat)
    requires a != b && gap > 0
    ensures (forall e, e', c :: InTime(gap, delay, e, e', c) ==>
        SecondReport(key, a, b, gap, e, e', c) == HistoryRadius([(0, a), (gap, b)], c))
      <==> gap < 600 - delay || gap >= 600 + delay
  {
    if gap < 600 - delay || gap >= 600 + delay {
      forall e, e', c | InTime(gap, delay, e, e', c)
        ensures SecondReport(key, a, b, gap, e, e', c) == HistoryRadius([(0, a), (gap, b)], c)
      {
        SecondExactly(key, a, b, gap, e, e', c);
      }
    } else if gap < 600 {
      SecondExactly(key, a, b, gap, 0, 600, 600);
      assert InTime(gap, delay, 0, 600, 600);
    } else {
      SecondExactly(key, a, b, gap, gap - 599, gap, gap);
      assert InTime(gap, delay, gap - 599, gap, gap);
    }
  }

  /** A stall that loses pods: a worker that sets the expiry only when the old deadline has come sees
      an empty set although two pods were added within ten minutes. */
  lemma StallLosesPods(key: string)
    ensures SecondReport(key, "a", "b", 599, 0, 600, 600) == 1
    ensures HistoryRadius([(0, "a"), (599, "b")], 600) == 2
  {
    TwoPods(599, 600);
    SecondExactly(key, "a", "b", 599, 0, 600, 600);
    assert Radius(0) == 1;
  }

  /** And one that keeps them: an expiry set two seconds late still shows a pod of ten minutes and a second ago. */
  lemma LateExpiryKeepsPods(key: string)
    ensures SecondReport(key, "a", "b", 601, 2, 601, 601) == 2
    ensures HistoryRadius([(0, "a"), (601, "b")], 601) == 1
  {
    TwoPods(601, 601);
    assert "a"[0] != "b"[0];
    assert |{"a", "b"}| == 2;
    assert {"a"} + {"b"} == {"a", "b"};
  }

  /** Two pods count as two within ten minutes and as one after that. */
  lemma TwoPods(gap: int, c: int)
    requires 0 < gap <= c < gap + 600
    ensures HistoryRadius([(0, "a"), (gap, "b")], c) == if gap < 600 then 2 else 1
  {
    SessionOfOne("a");
    assert [(0, "a")] + [(gap, "b")] == [(0, "a"), (gap, "b")];
    SessionPodsMore([(0, "a")], gap, "b");
    assert "a"[0] != "b"[0];
    assert |{"a"} + {"b"}| == 2;
  }
}
