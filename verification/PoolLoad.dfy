/** Load and telemetry: how far the admission check can be overrun, and that the counters
    account for every reply although they are bumped and reset without a lock. */
module PoolLoad {
  import opened Queueing
  import opened Batching
  import opened Pool
  import opened PoolShape
  import opened PoolPromises
  import opened PoolShutdown

  // ---------- admission ----------

  /** Client requests in the queue, and handlers that have passed the check and will still push. */
  function Pending(s: State): int {
    |s.q.items| - Pills(s.q.items)
  }

  function Coming(s: State): nat {
    |s.handlers.admitted| + |s.handlers.ready|
  }

  predicate WithinLimit(s: State) {
    Pending(s) + Coming(s) <= MAX_DEPTH + s.cfg.maxHandlers
  }

  lemma LastIsPill(items: seq<ClientRequest>)
    requires items != [] && IsPill(items[|items| - 1])
    ensures Pills(items) >= 1
  {
  }

  /** The depth a handler reads may miss the item being pushed, but that item's handler is still active. */
  lemma DepthNearlyRight(s: State)
    requires HandlersFormed(s) && QueueFormed(s)
    ensures Pending(s) <= s.q.depth + if s.handlers.waiting != {} then 1 else 0
  {
    var lock := s.q.lock;
    if lock.Pushing? && !lock.counted {
      assert Known(s, s.q.items[|s.q.items| - 1]);
      if lock.item.promise.None? {
        LastIsPill(s.q.items);
      }
    }
  }

  lemma AdmitWithinLimit(s: State, h: nat)
    requires Formed(s) && WithinLimit(s) && CanHandle(s, CheckDepth(h))
    ensures WithinLimit(Handle(s, CheckDepth(h)))
  {
    DepthNearlyRight(s);
    var hs := s.handlers;
    assert |hs.arrived - {h}| == |hs.arrived| - 1;
    if hs.waiting != {} {
      assert |hs.waiting| >= 1;
    }
  }

  lemma HandleWithinLimit(s: State, step: HandlerStep)
    requires Formed(s) && WithinLimit(s) && CanHandle(s, step)
    ensures WithinLimit(Handle(s, step))
  {
    match step
    case CheckDepth(h) => AdmitWithinLimit(s, h);
    case Build(h, modelId, line) => BuildIsComing(s.handlers, h, BuildRequest(s.cfg, h, modelId, line, s.now));
    case LockAndPush(h) => PushWithinLimit(s, h);
    case _ =>
  }

  lemma BuildIsComing(hs: Handlers, h: nat, r: ClientRequest)
    requires h in hs.admitted
    ensures |hs.admitted - {h}| + |hs.ready[h := r]| <= |hs.admitted| + |hs.ready|
  {
    assert (hs.ready[h := r]).Keys == hs.ready.Keys + {h};
    assert |hs.admitted - {h}| == |hs.admitted| - 1;
  }

  lemma PushWithinLimit(s: State, h: nat)
    requires Formed(s) && WithinLimit(s) && CanHandle(s, LockAndPush(h))
    ensures WithinLimit(Handle(s, LockAndPush(h)))
  {
    var hs := s.handlers;
    assert (hs.ready - {h}).Keys == hs.ready.Keys - {h};
    PushPills(s.q.items, hs.ready[h]);
  }

  lemma PopWithinLimit(s: State)
    requires CanStep(s, Holder(PopOne))
    ensures Pending(Do(s, Holder(PopOne))) <= Pending(s)
  {
    var x, rest := s.q.items[0], s.q.items[1..];
    assert s.q.items == [x] + rest;
    PillsConcat([x], rest);
    PillsOne(x);
  }

  lemma StepWithinLimit(s: State, step: Step)
    requires Formed(s) && WithinLimit(s) && CanStep(s, step)
    ensures WithinLimit(Do(s, step))
  {
    if step.Handler? {
      HandleWithinLimit(s, step.hstep);
    } else {
      OthersWithinLimit(s, step);
    }
  }

  /** Nobody but a handler adds client requests or admits handlers. */
  lemma OthersWithinLimit(s: State, step: Step)
    requires !step.Handler? && CanStep(s, step) && (s.pill.Some? ==> PillShaped(s.pill.value))
    ensures Pending(Do(s, step)) <= Pending(s)
    ensures Do(s, step).handlers == s.handlers && Do(s, step).cfg == s.cfg
  {
    match step
    case Holder(qstep) => if qstep.PopOne? { PopWithinLimit(s); }
    case PushPill => PushPills(s.q.items, s.pill.value);
    case _ =>
  }

  /** In every state of every run at most 500 + H client requests are pending, H being the number
      of handlers that may be active at once, although check and push are not one atomic step. */
  lemma {:induction false} AdmissionBound(cfg: Config, n: nat, steps: seq<Step>, states: seq<State>, k: nat)
    requires IsServerRun(cfg, n, steps, states) && k < |states|
    ensures WithinLimit(states[k]) && states[k].cfg == cfg
    ensures Pending(states[k]) <= 500 + cfg.maxHandlers
  {
    if k > 0 {
      AdmissionBound(cfg, n, steps, states, k - 1);
      RunKeepsPromises(cfg, n, steps, states, k - 1);
      assert StepsTo(steps, states, k - 1);
      RequestsGrow(states[k - 1], steps[k - 1]);
      StepWithinLimit(states[k - 1], steps[k - 1]);
    }
  }

  // ---------- telemetry ----------

  /** The batch size of a worker that has bumped the window but not yet the total. */
  function Between(x: Worker): nat {
    if x.Counting? && x.inWindow then |x.valid| else 0
  }

  /** The replies that a worker has counted but not yet sent. */
  function RowsOwed(x: Worker): int {
    if x.Replying? then |x.valid| - x.next else 0
  }

  function BetweenAll(ws: seq<Worker>): nat {
    if ws == [] then 0 else BetweenAll(ws[..|ws| - 1]) + Between(ws[|ws| - 1])
  }

  function RowsOwedAll(ws: seq<Worker>): int {
    if ws == [] then 0 else RowsOwedAll(ws[..|ws| - 1]) + RowsOwed(ws[|ws| - 1])
  }

  lemma {:induction false} SumsUpdate(ws: seq<Worker>, w: nat, x: Worker)
    requires w < |ws|
    ensures BetweenAll(ws[w := x]) == BetweenAll(ws) - Between(ws[w]) + Between(x)
    ensures RowsOwedAll(ws[w := x]) == RowsOwedAll(ws) - RowsOwed(ws[w]) + RowsOwed(x)
  {
    var n := |ws| - 1;
    if w < n {
      SumsUpdate(ws[..n], w, x);
      assert ws[w := x][..n] == ws[..n][w := x];
    } else {
      assert ws[w := x][..n] == ws[..n];
    }
  }

  function FreshIds(verdicts: map<nat, Verdict>): set<nat> {
    set h | h in verdicts && verdicts[h].Fresh?
  }

  function StaleIds(verdicts: map<nat, Verdict>): set<nat> {
    set h | h in verdicts && verdicts[h].Stale?
  }

  /** Snapshots and the live window account for all tasks processed; tasks processed are replies sent or
      owed; snapshots and the live count of drops account for all stale decisions. */
  ghost predicate CountersAgree(s: State) {
    var t := s.telemetry;
    && t.snapshots + t.window == t.total + BetweenAll(s.workers)
    && t.total == |FreshIds(s.verdicts)| + RowsOwedAll(s.workers)
    && t.droppedSnapshots + t.dropped == |StaleIds(s.verdicts)| + t.stalePills
  }

  /** Ending requests that had no verdict adds them to the set of their kind. */
  lemma SettleKinds(verdicts: map<nat, Verdict>, rs: seq<ClientRequest>, v: Verdict)
    requires forall h :: h in Ids(rs) ==> h !in verdicts
    ensures FreshIds(Settle(verdicts, rs, v)) == FreshIds(verdicts) + if v.Fresh? then Ids(rs) else {}
    ensures StaleIds(Settle(verdicts, rs, v)) == StaleIds(verdicts) + if v.Stale? then Ids(rs) else {}
  {
  }

  lemma IdsOfOne(r: ClientRequest)
    ensures Ids([r]) == if r.promise.Some? then {r.promise.value} else {}
  {
    if r.promise.Some? {
      assert [r][0].promise.Some?;
    }
  }

  /** A request that gets a fresh reply has a promise: no pill gets that far. */
  lemma FreshIsClient(s: State, x: Worker)
    requires HandlersFormed(s) && WorkerFormed(s, x) && CanWork(s, x, SendReply)
    ensures x.batch[x.valid[x.next]].promise.Some?
  {
    FitMeansNoFreshPill(s, x.batch, x.at);
    assert Known(s, x.batch[x.valid[x.next]]);
  }

  lemma EndsNew(s: State, w: nat, step: WorkerStep)
    requires Conserved(s) && CanStep(s, Work(w, step))
    ensures forall h :: h in Ids(Ended(s, s.workers[w], step).0) ==> h !in s.verdicts
  {
    forall h | h in Ids(Ended(s, s.workers[w], step).0)
      ensures h !in s.verdicts
    {
      assert Places(s, h) <= 1;
      WorkConserves(s, w, step, h);
    }
  }

  /** What a worker's step adds to the counters, given what it changes about the worker. */
  lemma CountedBalance(t: Telemetry, s: State, x: Worker, step: WorkerStep)
    requires CanWork(s, x, step)
    ensures var t' := Counted(t, s, x, step);
      && t'.snapshots + t'.window - t'.total - Between(Moved(s, x, step)) == t.snapshots + t.window - t.total - Between(x)
      && t'.total - RowsOwed(Moved(s, x, step)) == t.total - RowsOwed(x) + (if step.SendReply? then 1 else 0)
      && t'.droppedSnapshots == t.droppedSnapshots
      && t'.dropped - t'.stalePills == t.dropped - t.stalePills + |Ids(StaleEnds(s, x, step))|
  {
    match step
    case Filter => IdsOfOne(x.batch[x.next]);
    case _ =>
  }

  /** The requests that a step ends as stale. */
  function StaleEnds(s: State, x: Worker, step: WorkerStep): (rs: seq<ClientRequest>)
    requires CanWork(s, x, step)
    ensures step.Filter? ==> rs == Ended(s, x, step).0 && Ended(s, x, step).1.Stale?
  {
    if step.Filter? && IsStale(x.batch[x.next], x.at) then [x.batch[x.next]] else []
  }

  lemma SettleCounts(verdicts: map<nat, Verdict>, rs: seq<ClientRequest>, v: Verdict)
    requires forall h :: h in Ids(rs) ==> h !in verdicts
    ensures |FreshIds(Settle(verdicts, rs, v))| == |FreshIds(verdicts)| + if v.Fresh? then |Ids(rs)| else 0
    ensures |StaleIds(Settle(verdicts, rs, v))| == |StaleIds(verdicts)| + if v.Stale? then |Ids(rs)| else 0
  {
    SettleKinds(verdicts, rs, v);
    assert FreshIds(verdicts) !! Ids(rs) && StaleIds(verdicts) !! Ids(rs);
  }

  lemma EndedKinds(s: State, x: Worker, step: WorkerStep)
    requires HandlersFormed(s) && WorkerFormed(s, x) && CanWork(s, x, step)
    ensures var (rs, v) := Ended(s, x, step);
      && (if v.Fresh? then |Ids(rs)| else 0) == (if step.SendReply? then 1 else 0)
      && (if v.Stale? then |Ids(rs)| else 0) == |Ids(StaleEnds(s, x, step))|
  {
    if step.SendReply? {
      FreshIsClient(s, x);
      IdsOfOne(x.batch[x.valid[x.next]]);
    }
  }

  /** How many verdicts of each kind a worker's step adds. */
  lemma KindsGrow(s: State, w: nat, step: WorkerStep)
    requires HandlersFormed(s) && Conserved(s) && CanStep(s, Work(w, step)) && WorkerFormed(s, s.workers[w])
    ensures var verdicts' := Do(s, Work(w, step)).verdicts;
      && |FreshIds(verdicts')| == |FreshIds(s.verdicts)| + (if step.SendReply? then 1 else 0)
      && |StaleIds(verdicts')| == |StaleIds(s.verdicts)| + |Ids(StaleEnds(s, s.workers[w], step))|
  {
    var (rs, v) := Ended(s, s.workers[w], step);
    EndsNew(s, w, step);
    SettleCounts(s.verdicts, rs, v);
    EndedKinds(s, s.workers[w], step);
  }

  lemma WorkAgrees(s: State, w: nat, step: WorkerStep)
    requires HandlersFormed(s) && Conserved(s) && CountersAgree(s) && CanStep(s, Work(w, step)) && WorkerFormed(s, s.workers[w])
    ensures CountersAgree(Do(s, Work(w, step)))
  {
    SumsUpdate(s.workers, w, Moved(s, s.workers[w], step));
    CountedBalance(s.telemetry, s, s.workers[w], step);
    KindsGrow(s, w, step);
  }

  lemma StepKeepsCounters(s: State, step: Step)
    requires Formed(s) && Conserved(s) && CountersAgree(s) && CanStep(s, step)
    ensures CountersAgree(Do(s, step))
  {
    match step
    case Work(w, wstep) => WorkAgrees(s, w, wstep);
    case _ => OthersAgree(s, step);
  }

  lemma OthersAgree(s: State, step: Step)
    requires CountersAgree(s) && CanStep(s, step) && !step.Work?
    ensures CountersAgree(Do(s, step))
  {
    assert Do(s, step).verdicts == s.verdicts && Do(s, step).workers == s.workers;
  }

  lemma {:induction false} IdlersCountNothing(n: nat)
    ensures BetweenAll(seq(n, _ => Idle)) == 0 && RowsOwedAll(seq(n, _ => Idle)) == 0
  {
    if n > 0 {
      assert seq(n, _ => Idle)[..n - 1] == seq(n - 1, _ => Idle);
      IdlersCountNothing(n - 1);
    }
  }

  /** In every state of every run the counters add up: exchange-and-reset loses nothing. */
  lemma {:induction false} TelemetryConserved(cfg: Config, n: nat, steps: seq<Step>, states: seq<State>, k: nat)
    requires IsServerRun(cfg, n, steps, states) && k < |states|
    ensures CountersAgree(states[k])
  {
    if k == 0 {
      IdlersCountNothing(n);
    } else {
      TelemetryConserved(cfg, n, steps, states, k - 1);
      RunKeepsPromises(cfg, n, steps, states, k - 1);
      assert StepsTo(steps, states, k - 1);
      StepKeepsCounters(states[k - 1], steps[k - 1]);
    }
  }
}
