/** Throttling and outcomes, for every run and every interleaving of the workers. */
module AlertProofs {
  import opened Options
  import opened Text
  import opened RedisStore
  import opened Incidents
  import opened Orchestration

  // ---------- every log ends once ----------

  /** Whether a worker still has to end log `id`. */
  function Holds(x: Worker, id: nat): nat {
    match x
    case Looked(i, _, _) => if i == id then 1 else 0
    case Holding(i, _, _, _) => if i == id then 1 else 0
    case PodAdded(i, _, _, _, _, _) => if i == id then 1 else 0
    case KeyExpiring(i, _, _, _, _) => if i == id then 1 else 0
    case Counted(i, _, _, _, _, _) => if i == id then 1 else 0
    case _ => 0
  }

  function HeldBy(ws: seq<Worker>, id: nat): nat {
    if ws == [] then 0 else HeldBy(ws[..|ws| - 1], id) + Holds(ws[|ws| - 1], id)
  }

  lemma {:induction false} HeldByUpdate(ws: seq<Worker>, w: nat, x: Worker, id: nat)
    requires w < |ws|
    ensures HeldBy(ws[w := x], id) + Holds(ws[w], id) == HeldBy(ws, id) + Holds(x, id)
    ensures Holds(ws[w], id) <= HeldBy(ws, id)
  {
    var n := |ws| - 1;
    if w < n {
      HeldByUpdate(ws[..n], w, x, id);
      assert ws[w := x][..n] == ws[..n][w := x];
    } else {
      assert ws[w := x][..n] == ws[..n];
    }
  }

  /** Log `id` is with exactly one worker or has exactly one outcome, once it has been consumed. */
  predicate OnceOnly(s: State, id: nat) {
    HeldBy(s.workers, id) + (if id in s.outcomes then 1 else 0) == if id < s.consumed then 1 else 0
  }

  /** What a turn does to log `id`: it is taken on, kept, or ended. */
  lemma TurnBalance(s: State, x: Worker, turn: Turn, id: nat)
    requires CanTurn(x, turn)
    ensures Holds(Turned(s, x, turn), id) + (if Ending(s, x, turn).Some? then Holds(x, id) else 0)
      == Holds(x, id) + if turn.Take? && id == s.consumed then 1 else 0
    ensures Ending(s, x, turn).Some? ==> (Holds(x, id) == 1 <==> x.id == id)
  {
  }

  /** What a turn changes of the books: only the outcome of the log it ends, only the count of logs consumed. */
  lemma TurnBooks(s: State, w: nat, turn: Turn)
    requires CanStep(s, Work(w, turn))
    ensures var s', x := Do(s, Work(w, turn)), s.workers[w];
      && s'.workers == s.workers[w := Turned(s, x, turn)]
      && s'.outcomes == (if Ending(s, x, turn).Some? then s.outcomes[x.id := Ending(s, x, turn).value] else s.outcomes)
      && s'.consumed == s.consumed + if turn.Take? then 1 else 0
  {
  }

  lemma StepKeepsOnce(s: State, step: Step, id: nat)
    requires OnceOnly(s, id) && CanStep(s, step)
    ensures OnceOnly(Do(s, step), id)
    ensures id in s.outcomes ==> id in Do(s, step).outcomes && Do(s, step).outcomes[id] == s.outcomes[id]
  {
    if step.Work? {
      var x := s.workers[step.w];
      TurnBooks(s, step.w, step.turn);
      TurnBalance(s, x, step.turn, id);
      HeldByUpdate(s.workers, step.w, Turned(s, x, step.turn), id);
    }
  }

  lemma {:induction false} NobodyHolds(n: nat, id: nat)
    ensures HeldBy(seq(n, _ => Ready), id) == 0
  {
    if n > 0 {
      assert seq(n, _ => Ready)[..n - 1] == seq(n - 1, _ => Ready);
      NobodyHolds(n - 1, id);
    }
  }

  /** In every state of every run each consumed log is with one worker or has one of the five outcomes. */
  lemma {:induction false} EveryLogEndsOnce(names: Names, capacity: nat, n: nat, steps: seq<Step>, states: seq<State>, k: nat, id: nat)
    requires IsRun(names, capacity, n, steps, states) && k < |states|
    ensures OnceOnly(states[k], id)
  {
    if k == 0 {
      NobodyHolds(n, id);
    } else {
      EveryLogEndsOnce(names, capacity, n, steps, states, k - 1, id);
      assert StepsTo(steps, states, k - 1);
      StepKeepsOnce(states[k - 1], steps[k - 1], id);
    }
  }

  /** An outcome, once given, never changes. */
  lemma {:induction false} OutcomeIsFinal(names: Names, capacity: nat, n: nat, steps: seq<Step>, states: seq<State>, j: nat, k: nat, id: nat)
    requires IsRun(names, capacity, n, steps, states) && j <= k < |states| && id in states[j].outcomes
    ensures id in states[k].outcomes && states[k].outcomes[id] == states[j].outcomes[id]
  {
    if j < k {
      OutcomeIsFinal(names, capacity, n, steps, states, j, k - 1, id);
      EveryLogEndsOnce(names, capacity, n, steps, states, k - 1, id);
      assert StepsTo(steps, states, k - 1);
      StepKeepsOnce(states[k - 1], steps[k - 1], id);
    }
  }

  // ---------- and can end ----------

  /** Worker `w` alone takes `turns` from `s` and gets to `t`. */
  ghost predicate Alone(s: State, w: nat, turns: seq<Turn>, t: State)
    decreases |turns|
  {
    if turns == [] then s == t
    else CanStep(s, Work(w, turns[0])) && Alone(Do(s, Work(w, turns[0])), w, turns[1..], t)
  }

  function TurnsLeft(x: Worker): nat {
    match x
    case Ready => 0
    case Storing(_, _) => 1
    case Counted(_, _, _, _, _, _) => 2
    case KeyExpiring(_, _, _, _, _) => 3
    case PodAdded(_, _, _, _, _, _) => 4
    case Holding(_, _, _, _) => 5
    case Looked(_, _, _) => 6
  }

  /** A turn that brings the worker on. */
  function SomeTurn(x: Worker): Turn {
    match x
    case Looked(_, _, hit) => if hit.Some? then UseHit else Answer(None)
    case Holding(_, _, _, _) => AddPod(0.0)
    case PodAdded(_, _, _, _, _, _) => SetExpiry
    case KeyExpiring(_, _, _, _, _) => CountPods
    case Counted(_, _, _, _, _, _) => TryAlert
    case Storing(_, _) => Store
    case Ready => Take("")
  }

  /** Wherever a worker stands and whatever the others are doing: by at most six turns of its own its log ends and it is ready
      for any next line. */
  lemma {:induction false} LogCanEnd(s: State, w: nat) returns (turns: seq<Turn>, t: State)
    requires w < |s.workers|
    ensures Alone(s, w, turns, t) && |turns| <= 6
    ensures !s.workers[w].Ready? && !s.workers[w].Storing? ==> s.workers[w].id in t.outcomes
    ensures forall id :: id in s.outcomes ==> id in t.outcomes
    ensures forall line :: CanStep(t, Work(w, Take(line)))
    ensures |turns| <= TurnsLeft(s.workers[w])
    decreases TurnsLeft(s.workers[w])
  {
    var x := s.workers[w];
    if x.Ready? {
      turns, t := [], s;
    } else {
      var s' := Do(s, Work(w, SomeTurn(x)));
      TurnBooks(s, w, SomeTurn(x));
      var rest;
      rest, t := LogCanEnd(s', w);
      turns := [SomeTurn(x)] + rest;
      assert turns[1..] == rest;
    }
  }

  // ---------- the throttle ----------

  /** Any two admissions of one incident are at least the time to live apart. */
  ghost predicate Spaced(admissions: seq<(string, int)>) {
    forall i, j :: 0 <= i < j < |admissions| && admissions[i].0 == admissions[j].0 ==>
      admissions[i].1 + THROTTLE_TTL <= admissions[j].1
  }

  ghost predicate ThrottleInv(s: State) {
    && Spaced(s.admissions)
    && (forall i :: 0 <= i < |s.admissions| ==>
          && s.admissions[i].1 <= s.now
          && s.admissions[i].0 in s.throttle
          && s.admissions[i].1 + THROTTLE_TTL <= s.throttle[s.admissions[i].0])
  }

  lemma AlertKeepsThrottle(s: State, w: nat)
    requires ThrottleInv(s) && CanStep(s, Work(w, TryAlert))
    ensures ThrottleInv(Do(s, Work(w, TryAlert)))
  {
    var s' := Do(s, Work(w, TryAlert));
    var key := Key(s.names, s.workers[w].val);
    if MaySet(s.throttle, key, s.now) {
      assert s'.admissions == s.admissions + [(key, s.now)];
      assert s'.throttle == s.throttle[key := s.now + THROTTLE_TTL];
    }
  }

  lemma StepKeepsThrottle(s: State, step: Step)
    requires ThrottleInv(s) && CanStep(s, step)
    ensures ThrottleInv(Do(s, step))
  {
    if step.Work? && step.turn.TryAlert? {
      AlertKeepsThrottle(s, step.w);
    } else {
      var s' := Do(s, step);
      assert s'.admissions == s.admissions && s'.throttle == s.throttle && s'.now >= s.now;
    }
  }

  lemma {:induction false} AdmissionsSpaced(names: Names, capacity: nat, n: nat, steps: seq<Step>, states: seq<State>, k: nat)
    requires IsRun(names, capacity, n, steps, states) && k < |states|
    ensures ThrottleInv(states[k])
    ensures forall i, j :: 0 <= i < j < |states[k].admissions| && states[k].admissions[i].0 == states[k].admissions[j].0 ==>
      states[k].admissions[i].1 + 300 <= states[k].admissions[j].1
  {
    if k > 0 {
      AdmissionsSpaced(names, capacity, n, steps, states, k - 1);
      assert StepsTo(steps, states, k - 1);
      StepKeepsThrottle(states[k - 1], steps[k - 1]);
    }
  }

  // ---------- what gets through ----------

  /** A key in Redis is there because of an admission five minutes before the key's deadline. */
  ghost predicate KeysAdmitted(s: State) {
    forall key :: key in s.throttle ==> (key, s.throttle[key] - THROTTLE_TTL) in s.admissions
  }

  lemma AlertKeepsAdmitted(s: State, w: nat)
    requires KeysAdmitted(s) && CanStep(s, Work(w, TryAlert))
    ensures KeysAdmitted(Do(s, Work(w, TryAlert)))
  {
    var s' := Do(s, Work(w, TryAlert));
    var key := Key(s.names, s.workers[w].val);
    if MaySet(s.throttle, key, s.now) {
      assert s'.admissions == s.admissions + [(key, s.now)];
      assert (key, s.now) in s'.admissions;
      assert s'.throttle == s.throttle[key := s.now + THROTTLE_TTL];
    }
  }

  lemma StepKeepsAdmitted(s: State, step: Step)
    requires KeysAdmitted(s) && CanStep(s, step)
    ensures KeysAdmitted(Do(s, step)) && Do(s, step).names == s.names
  {
    if step.Work? && step.turn.TryAlert? {
      AlertKeepsAdmitted(s, step.w);
    } else {
      assert Do(s, step).admissions == s.admissions && Do(s, step).throttle == s.throttle;
    }
  }

  lemma {:induction false} RunKeepsAdmitted(names: Names, capacity: nat, n: nat, steps: seq<Step>, states: seq<State>, k: nat)
    requires IsRun(names, capacity, n, steps, states) && k < |states|
    ensures KeysAdmitted(states[k]) && states[k].names == names
  {
    if k > 0 {
      RunKeepsAdmitted(names, capacity, n, steps, states, k - 1);
      assert StepsTo(steps, states, k - 1);
      StepKeepsAdmitted(states[k - 1], steps[k - 1]);
    }
  }

  /** An alert of the incident got through less than five minutes ago. */
  ghost predicate Throttling(admissions: seq<(string, int)>, key: string, now: int) {
    exists i :: 0 <= i < |admissions| && admissions[i].0 == key && now < admissions[i].1 + 300
  }

  lemma MaySetExactly(s: State, key: string)
    requires ThrottleInv(s) && KeysAdmitted(s)
    ensures MaySet(s.throttle, key, s.now) <==> !Throttling(s.admissions, key, s.now)
  {
    if key in s.throttle {
      var i :| 0 <= i < |s.admissions| && s.admissions[i] == (key, s.throttle[key] - THROTTLE_TTL);
      assert s.admissions[i].0 == key;
    }
  }

  /** In every state of every run, whoever is about to call SetNX: the alert gets through exactly when none of its
      incident did in the last five minutes, and if not its log ends as throttled. */
  lemma PassesExactly(names: Names, capacity: nat, n: nat, steps: seq<Step>, states: seq<State>, k: nat, w: nat)
    requires IsRun(names, capacity, n, steps, states) && k < |states| && CanStep(states[k], Work(w, TryAlert))
    ensures var s, s', x := states[k], Do(states[k], Work(w, TryAlert)), states[k].workers[w];
      var throttling := Throttling(s.admissions, names.incident(x.val.vector), s.now);
      && s'.admissions == s.admissions + (if throttling then [] else [(names.incident(x.val.vector), s.now)])
      && x.id in s'.outcomes && (s'.outcomes[x.id] == Throttled <==> throttling)
  {
    AdmissionsSpaced(names, capacity, n, steps, states, k);
    RunKeepsAdmitted(names, capacity, n, steps, states, k);
    MaySetExactly(states[k], Key(names, states[k].workers[w].val));
  }

  // ---------- which log a worker holds, and how it ends ----------

  /** The lines taken by the steps: log `id` is the one at `id`. */
  function Logs(steps: seq<Step>): seq<string> {
    if steps == [] then []
    else
      var n := |steps| - 1;
      Logs(steps[..n]) + if steps[n].Work? && steps[n].turn.Take? then [steps[n].turn.line] else []
  }

  ghost predicate OwnLog(x: Worker, logs: seq<string>) {
    x.Ready? || x.Storing? || (x.id < |logs| && logs[x.id] == x.line)
  }

  ghost predicate OwnLogs(s: State, logs: seq<string>) {
    && s.consumed == |logs|
    && forall w :: 0 <= w < |s.workers| ==> OwnLog(s.workers[w], logs)
  }

  lemma StepKeepsOwnLogs(s: State, step: Step, logs: seq<string>, logs': seq<string>)
    requires OwnLogs(s, logs) && CanStep(s, step)
    requires logs' == logs + if step.Work? && step.turn.Take? then [step.turn.line] else []
    ensures OwnLogs(Do(s, step), logs')
  {
    var s' := Do(s, step);
    if step.Work? {
      TurnBooks(s, step.w, step.turn);
      assert OwnLog(Turned(s, s.workers[step.w], step.turn), logs');
    }
    forall w | 0 <= w < |s'.workers|
      ensures OwnLog(s'.workers[w], logs')
    {
      assert OwnLog(s.workers[w], logs);
    }
  }

  /** In every state of every run whoever is at work on log `id` has the line that was taken as number `id`. */
  lemma {:induction false} WorkersHoldOwnLogs(names: Names, capacity: nat, n: nat, steps: seq<Step>, states: seq<State>, k: nat)
    requires IsRun(names, capacity, n, steps, states) && k < |states|
    ensures OwnLogs(states[k], Logs(steps[..k]))
  {
    if k > 0 {
      WorkersHoldOwnLogs(names, capacity, n, steps, states, k - 1);
      assert StepsTo(steps, states, k - 1);
      assert steps[..k][..k - 1] == steps[..k - 1];
      StepKeepsOwnLogs(states[k - 1], steps[k - 1], Logs(steps[..k - 1]), Logs(steps[..k]));
    }
  }

  /** An error level, or a similarity in the band that is worth an investigation. */
  ghost predicate Suspicious(line: string, similarity: real) {
    || (exists a, b :: line == a + "LEVEL=ERROR" + b)
    || (exists a, b :: line == a + "LEVEL=FATAL" + b)
    || 0.85 <= similarity <= 0.98
  }

  lemma ClassifiedExactly(line: string, similarity: real)
    ensures Classify(line, similarity) == Agent <==> Suspicious(line, similarity)
    ensures Classify(line, similarity) == Duplicate <==> !Suspicious(line, similarity) && similarity > 0.99
    ensures Classify(line, similarity) == NewEvent <==> !Suspicious(line, similarity) && similarity <= 0.99
  {
    ContainsExactly(line, "LEVEL=ERROR");
    ContainsExactly(line, "LEVEL=FATAL");
  }

  /** In every run, when SetNX is called for a log and none of its incident got through in the last five minutes: the
      log ends, in every later state, with the agent exactly when its line has an error level or its similarity is in
      the band, else as a duplicate exactly above 0.99, else as new. */
  lemma PassedEndsRightly(names: Names, capacity: nat, n: nat, steps: seq<Step>, states: seq<State>, k: nat, w: nat, j: nat)
    requires IsRun(names, capacity, n, steps, states) && k < j < |states|
    requires CanStep(states[k], steps[k]) && steps[k] == Work(w, TryAlert)
    requires !Throttling(states[k].admissions, names.incident(states[k].workers[w].val.vector), states[k].now)
    ensures var x := states[k].workers[w];
      && x.id < |Logs(steps)| && x.id in states[j].outcomes
      && states[j].outcomes[x.id] ==
        if Suspicious(Logs(steps)[x.id], x.similarity) then Agent else if x.similarity > 0.99 then Duplicate else NewEvent
  {
    var x := states[k].workers[w];
    assert StepsTo(steps, states, k);
    PassesExactly(names, capacity, n, steps, states, k, w);
    WorkersHoldOwnLogs(names, capacity, n, steps, states, k);
    LogsGrow(steps, k);
    assert OwnLog(x, Logs(steps[..k]));
    ClassifiedExactly(x.line, x.similarity);
    OutcomeIsFinal(names, capacity, n, steps, states, k + 1, j, x.id);
  }

  lemma {:induction false} LogsGrow(steps: seq<Step>, k: nat)
    requires k <= |steps|
    ensures Logs(steps[..k]) <= Logs(steps)
  {
    if k < |steps| {
      LogsGrow(steps[..|steps| - 1], k);
      assert steps[..|steps| - 1][..k] == steps[..k];
    } else {
      assert steps[..k] == steps;
    }
  }

  /** So in every run a log of an error level that passes SetNX gets the agent, whatever its similarity. */
  lemma ErrorLogGetsAgent(names: Names, capacity: nat, n: nat, steps: seq<Step>, states: seq<State>, k: nat, w: nat, j: nat,
      a: string, level: string, b: string)
    requires IsRun(names, capacity, n, steps, states) && k < j < |states|
    requires CanStep(states[k], steps[k]) && steps[k] == Work(w, TryAlert)
    requires !Throttling(states[k].admissions, names.incident(states[k].workers[w].val.vector), states[k].now)
    requires level == "LEVEL=ERROR" || level == "LEVEL=FATAL"
    requires states[k].workers[w].line == a + level + b
    ensures states[k].workers[w].id in states[j].outcomes && states[j].outcomes[states[k].workers[w].id] == Agent
  {
    PassedEndsRightly(names, capacity, n, steps, states, k, w, j);
    WorkersHoldOwnLogs(names, capacity, n, steps, states, k);
    LogsGrow(steps, k);
    assert OwnLog(states[k].workers[w], Logs(steps[..k]));
  }

  // ---------- the rate ----------

  /** How many admissions of `key` fall into the interval from `a` to `b`, both included. */
  function AdmittedIn(admissions: seq<(string, int)>, key: string, a: int, b: int): nat {
    if admissions == [] then 0
    else
      var n := |admissions| - 1;
      AdmittedIn(admissions[..n], key, a, b) + if admissions[n].0 == key && a <= admissions[n].1 <= b then 1 else 0
  }

  lemma {:induction false} SpacedCount(admissions: seq<(string, int)>, key: string, a: int, b: int)
    requires Spaced(admissions)
    ensures a <= b ==> AdmittedIn(admissions, key, a, b) <= (b - a) / THROTTLE_TTL + 1
    ensures a > b ==> AdmittedIn(admissions, key, a, b) == 0
    decreases |admissions|
  {
    if admissions != [] {
      var n := |admissions| - 1;
      var (k, t) := admissions[n];
      if k == key && a <= t <= b {
        EarlierOnly(admissions, n, key, a, b, t - THROTTLE_TTL);
        SpacedCount(admissions[..n], key, a, t - THROTTLE_TTL);
        OneMoreInterval(a, b, t);
      } else {
        SpacedCount(admissions[..n], key, a, b);
      }
    }
  }

  lemma OneMoreInterval(a: int, b: int, t: int)
    requires a <= t <= b
    ensures t - THROTTLE_TTL >= a ==> (t - THROTTLE_TTL - a) / THROTTLE_TTL + 1 <= (b - a) / THROTTLE_TTL
    ensures (b - a) / THROTTLE_TTL >= 0
  {
  }

  /** Before an admission at `t` all others of its incident lie at or before `end`, which is `t` less the spacing. */
  lemma {:induction false} EarlierOnly(admissions: seq<(string, int)>, m: nat, key: string, a: int, b: int, end: int)
    requires m < |admissions| && end <= b
    requires forall i :: 0 <= i < m && admissions[i].0 == key ==> admissions[i].1 <= end
    ensures AdmittedIn(admissions[..m], key, a, b) == AdmittedIn(admissions[..m], key, a, end)
  {
    if m > 0 {
      EarlierOnly(admissions, m - 1, key, a, b, end);
      assert admissions[..m][..m - 1] == admissions[..m - 1];
    }
  }

  /** In any interval of length T at most floor(T / 5 min) + 1 alerts of one incident get through, in every run. */
  lemma ThrottleRate(names: Names, capacity: nat, n: nat, steps: seq<Step>, states: seq<State>, k: nat, key: string, a: int, length: nat)
    requires IsRun(names, capacity, n, steps, states) && k < |states|
    ensures AdmittedIn(states[k].admissions, key, a, a + length) <= length / 300 + 1
  {
    AdmissionsSpaced(names, capacity, n, steps, states, k);
    SpacedCount(states[k].admissions, key, a, a + length);
  }

  // ---------- what passes the throttle ----------

  /** The logs whose alert got through. */
  function Passed(outcomes: map<nat, Outcome>): set<nat> {
    set id | id in outcomes && (outcomes[id].Agent? || outcomes[id].Duplicate? || outcomes[id].NewEvent?)
  }

  lemma PassedMore(outcomes: map<nat, Outcome>, id: nat, o: Outcome)
    requires id !in outcomes
    ensures |Passed(outcomes[id := o])| == |Passed(outcomes)| + if o.Failed? || o.Throttled? then 0 else 1
  {
    assert Passed(outcomes[id := o]) == Passed(outcomes) + if o.Failed? || o.Throttled? then {} else {id};
  }

  lemma StepCountsPassed(s: State, step: Step)
    requires CanStep(s, step) && |Passed(s.outcomes)| == |s.admissions|
    requires step.Work? && Ending(s, s.workers[step.w], step.turn).Some? ==> OnceOnly(s, s.workers[step.w].id)
    ensures |Passed(Do(s, step).outcomes)| == |Do(s, step).admissions|
  {
    if step.Work? && Ending(s, s.workers[step.w], step.turn).Some? {
      var x := s.workers[step.w];
      HeldByUpdate(s.workers, step.w, x, x.id);
      PassedMore(s.outcomes, x.id, Ending(s, x, step.turn).value);
    }
  }

  /** In every state of every run: the logs that ended agent, duplicate or new are as many as the alerts that
      passed SetNX, so a throttled log has done nothing. */
  lemma {:induction false} PassedAreAdmitted(names: Names, capacity: nat, n: nat, steps: seq<Step>, states: seq<State>, k: nat)
    requires IsRun(names, capacity, n, steps, states) && k < |states|
    ensures |Passed(states[k].outcomes)| == |states[k].admissions|
  {
    if k > 0 {
      PassedAreAdmitted(names, capacity, n, steps, states, k - 1);
      assert StepsTo(steps, states, k - 1);
      var s, step := states[k - 1], steps[k - 1];
      if step.Work? && Ending(s, s.workers[step.w], step.turn).Some? {
        EveryLogEndsOnce(names, capacity, n, steps, states, k - 1, s.workers[step.w].id);
      }
      StepCountsPassed(s, step);
    }
  }

  // ---------- the step system and the straight-line code ----------

  /** The four turns of worker `w` over its embedding, with nobody and no time in between. */
  function Undisturbed(s: State, w: nat, similarity: real): seq<State>
    requires w < |s.workers| && s.workers[w].Holding?
  {
    var s1 := Do(s, Work(w, AddPod(similarity)));
    var s2 := Do(s1, Work(w, SetExpiry));
    var s3 := Do(s2, Work(w, CountPods));
    [s1, s2, s3, Do(s3, Work(w, TryAlert))]
  }

  lemma PodThenExpiry(s: State, w: nat, similarity: real)
    requires w < |s.workers| && s.workers[w].Holding?
    ensures var x, s2 := s.workers[w], Undisturbed(s, w, similarity)[1];
      var key, pod := Key(s.names, x.val), s.names.podOf(x.line);
      && s2 == s.(blast := Expiring(Added(s.blast, key, pod, s.now), key, s.now), adds := s2.adds,
          workers := s.workers[w := KeyExpiring(x.id, x.line, x.val, x.cached, similarity)])
      && Members(s2.blast, key, s.now) == Members(s.blast, key, s.now) + {pod}
  {
  }

  /** Undisturbed, a worker's turns do to Redis what the straight-line code does, and end the log the same way. */
  lemma UndisturbedIsAlert(s: State, w: nat, similarity: real)
    requires w < |s.workers| && s.workers[w].Holding? && LongEnough(s.workers[w].val)
    ensures var x, run := s.workers[w], Undisturbed(s, w, similarity);
      var a := AlertFor(s.blast, s.throttle, s.names, x.line, x.val, similarity, s.now);
      && run[3].blast == a.blast && run[3].throttle == a.throttle
      && run[2].workers[w].radius == a.radius
      && run[3].outcomes == s.outcomes[x.id := a.outcome]
  {
    PodThenExpiry(s, w, similarity);
    var x := s.workers[w];
    assert s.names.podOf(x.line) in Members(Undisturbed(s, w, similarity)[1].blast, Key(s.names, x.val), s.now);
  }
}
