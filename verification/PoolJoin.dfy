/** When the destructor joins for sure: exactly what the state in which it starts must be like for every
    continuation to lose no pill, when no client pushes any more. */
module PoolJoin {
  import opened Options
  import opened Queueing
  import opened Batching
  import opened Pool
  import opened PoolShape
  import opened PoolShutdown

  /** What every step keeps from `j` on holds at `k`. */
  lemma {:induction false} Onwards(p: State -> bool, states: seq<State>, j: nat, k: nat)
    requires j <= k < |states| && p(states[j])
    requires forall i :: j <= i < k && p(states[i]) ==> p(states[i + 1])
    ensures p(states[k])
  {
    if j < k {
      Onwards(p, states, j, k - 1);
    }
  }

  // ---------- a swallowed pill is one too many ----------

  lemma {:induction false} PillsPositive(rs: seq<ClientRequest>)
    ensures Pills(rs) == 0 <==> forall i :: 0 <= i < |rs| ==> !IsPill(rs[i])
  {
    if rs != [] {
      var n := |rs| - 1;
      PillsPositive(rs[..n]);
      assert forall i :: 0 <= i < n ==> rs[..n][i] == rs[i];
    }
  }

  lemma BehindGrows(batch: seq<ClientRequest>, r: ClientRequest)
    ensures Behind(batch + [r]) >= Behind(batch)
  {
    if batch != [] {
      assert (batch + [r])[1..] == batch[1..] + [r];
      PillsConcat(batch[1..], [r]);
    }
  }

  lemma SwallowedMore(batches: seq<seq<ClientRequest>>, batch: seq<ClientRequest>)
    ensures Swallowed(batches + [batch]) == Swallowed(batches) + Behind(batch)
  {
    assert (batches + [batch])[..|batches|] == batches;
  }

  lemma SwallowedStays(s: State, step: Step)
    requires CanStep(s, step)
    ensures AllSwallowed(Do(s, step)) >= AllSwallowed(s)
  {
    var moves, qstep := QueueMoves(s, step);
    if moves {
      QueueSwallows(s.q, qstep);
    }
  }

  lemma QueueSwallows(q: QueueState<ClientRequest>, qstep: QueueStep<ClientRequest>)
    requires Enabled(q, qstep)
    ensures var q' := Apply(q, qstep);
      Swallowed(q'.batches) + Behind(InHand(q')) >= Swallowed(q.batches) + Behind(InHand(q))
  {
    match qstep
    case PopOne => BehindGrows(q.lock.batch, q.items[0]);
    case EndPop => SwallowedMore(q.batches, q.lock.batch);
    case _ =>
  }

  lemma SwallowedNext(cfg: Config, n: nat, steps: seq<Step>, states: seq<State>, k: nat)
    requires IsServerRun(cfg, n, steps, states) && k < |steps|
    ensures AllSwallowed(states[k + 1]) >= AllSwallowed(states[k])
  {
    assert StepsTo(steps, states, k);
    SwallowedStays(states[k], steps[k]);
  }

  lemma SwallowedLater(cfg: Config, n: nat, steps: seq<Step>, states: seq<State>, j: nat, k: nat)
    requires IsServerRun(cfg, n, steps, states) && j <= k < |states|
    ensures AllSwallowed(states[k]) >= AllSwallowed(states[j])
  {
    ghost var least := AllSwallowed(states[j]);
    ghost var p := (s: State) => AllSwallowed(s) >= least;
    forall i | j <= i < k && p(states[i])
      ensures p(states[i + 1])
    {
      SwallowedNext(cfg, n, steps, states, i);
    }
    Onwards(p, states, j, k);
  }

  /** Once a pill has been swallowed, some worker is alive in every later state: the join never returns. */
  lemma SwallowedNeverJoins(cfg: Config, n: nat, steps: seq<Step>, states: seq<State>, j: nat, k: nat)
    requires IsServerRun(cfg, n, steps, states) && j <= k < |states| && AllSwallowed(states[j]) > 0
    ensures exists w :: 0 <= w < |states[k].workers| && !states[k].workers[w].Stopped?
  {
    SwallowedLater(cfg, n, steps, states, j, k);
    PillsExact(cfg, n, steps, states, k);
    NoneLive(states[k].workers);
  }

  // ---------- one worker and full batches: nothing is swallowed ----------

  predicate NoClientPush(step: Step) {
    !(step.Handler? && step.hstep.LockAndPush?)
  }

  /** No client pushes from step `j` on. */
  predicate Quiet(steps: seq<Step>, j: nat) {
    forall i {:trigger steps[i]} :: j <= i < |steps| ==> NoClientPush(steps[i])
  }

  /** All that is still to come out of the queue, in order: the batch in hand and the items. */
  function Line(q: QueueState<ClientRequest>): seq<ClientRequest> {
    InHand(q) + q.items
  }

  /** How many items the pop in progress will still take. */
  function Take(q: QueueState<ClientRequest>): (k: nat)
    ensures k <= |q.items|
  {
    if q.lock.Popping? && |q.lock.batch| < 32 then Min(|q.items|, 32 - |q.lock.batch|) else 0
  }

  /** The batch that the pop in progress will hand out, and what it will leave in the queue. */
  function WillTake(q: QueueState<ClientRequest>): seq<ClientRequest> {
    InHand(q) + q.items[..Take(q)]
  }

  function WillLeave(q: QueueState<ClientRequest>): seq<ClientRequest> {
    if q.lock.Popping? then q.items[Take(q)..] else q.items
  }

  /** The only pill, if there is one, is the last and follows full batches of clients. */
  predicate AlignedLine(z: seq<ClientRequest>) {
    && (forall i :: 0 <= i < |z| - 1 ==> !IsPill(z[i]))
    && |z| % 32 == (if z != [] && IsPill(z[|z| - 1]) then 1 else 0)
  }

  predicate Aligned(q: QueueState<ClientRequest>) {
    && AlignedLine(WillLeave(q)) && Behind(WillTake(q)) == 0
    && (q.lock.Popping? ==> q.lock.limit == 32 && |q.lock.batch| <= 32)
    && Swallowed(q.batches) == 0
  }

  lemma BehindOfFront(front: seq<ClientRequest>, rest: seq<ClientRequest>)
    requires Behind(front + rest) == 0
    ensures Behind(front) == 0
  {
    if front != [] {
      assert (front + rest)[1..] == front[1..] + rest;
      PillsConcat(front[1..], rest);
    }
  }

  lemma AlignedSwallowsNone(q: QueueState<ClientRequest>)
    requires Aligned(q)
    ensures Behind(InHand(q)) == 0
  {
    BehindOfFront(InHand(q), q.items[..Take(q)]);
  }

  /** Cutting a batch off an aligned line. */
  lemma AlignedCut(z: seq<ClientRequest>)
    requires AlignedLine(z)
    ensures Behind(z[..Min(|z|, 32)]) == 0 && AlignedLine(z[Min(|z|, 32)..])
  {
    var batch, rest := z[..Min(|z|, 32)], z[Min(|z|, 32)..];
    if batch != [] {
      forall i | 0 <= i < |batch[1..]|
        ensures !IsPill(batch[1..][i])
      {
        assert batch[1..][i] == z[i + 1];
      }
      PillsPositive(batch[1..]);
    }
    if rest != [] {
      assert forall i :: 0 <= i < |rest| ==> rest[i] == z[32 + i];
    }
  }

  lemma AlignedWithPill(z: seq<ClientRequest>, r: ClientRequest)
    requires AlignedLine(z) && Pills(z) == 0 && IsPill(r)
    ensures AlignedLine(z + [r])
  {
    PillsPositive(z);
  }

  /** Taking one item is part of the plan. */
  lemma PopOneAligned(q: QueueState<ClientRequest>)
    requires Aligned(q) && Enabled(q, PopOne)
    ensures Aligned(Apply(q, PopOne))
  {
    var q' := Apply(q, PopOne);
    TakeSplit(q.lock.batch, q.items, Take(q));
    assert WillTake(q') == WillTake(q) && WillLeave(q') == WillLeave(q);
  }

  lemma TakeSplit<T>(batch: seq<T>, items: seq<T>, k: nat)
    requires 0 < k <= |items|
    ensures batch + items[..k] == (batch + [items[0]]) + items[1..][..k - 1]
    ensures items[1..][k - 1..] == items[k..]
  {
  }

  lemma EndPopAligned(q: QueueState<ClientRequest>)
    requires Aligned(q) && Enabled(q, EndPop)
    ensures Aligned(Apply(q, EndPop))
  {
    AlignedSwallowsNone(q);
    SwallowedMore(q.batches, q.lock.batch);
    assert WillLeave(Apply(q, EndPop)) == q.items == WillLeave(q);
  }

  lemma StartPopAligned(q: QueueState<ClientRequest>)
    requires Aligned(q) && q.lock.Free?
    ensures Aligned(Apply(q, StartPop(32)))
  {
    assert WillLeave(q) == q.items;
    AlignedCut(q.items);
    assert WillTake(Apply(q, StartPop(32))) == q.items[..Min(|q.items|, 32)];
  }

  lemma PushPillAligned(q: QueueState<ClientRequest>, r: ClientRequest)
    requires Aligned(q) && q.lock.Free? && Pills(q.items) == 0 && IsPill(r)
    ensures Aligned(Apply(q, PushItem(r)))
  {
    assert WillLeave(q) == q.items && WillLeave(Apply(q, PushItem(r))) == q.items + [r];
    AlignedWithPill(q.items, r);
  }

  /** At most one pill is still to be pushed or to come out. */
  predicate LastPill(s: State) {
    s.pillsLeft + Pills(Line(s.q)) <= 1
  }

  lemma StepKeepsLast(s: State, step: Step)
    requires HandlersFormed(s) && LastPill(s) && CanStep(s, step) && NoClientPush(step)
    ensures LastPill(Do(s, step))
  {
    match step
    case PushPill => PushKeepsLast(s);
    case Holder(qstep) => HolderKeepsLine(s.q, qstep);
    case Work(w, wstep) => WorkKeepsLast(s, w, wstep);
    case Handler(hstep) => HandleLeavesWorkers(s, hstep);
    case _ =>
  }

  lemma PushKeepsLast(s: State)
    requires LastPill(s) && CanStep(s, PushPill)
    ensures LastPill(Do(s, PushPill))
  {
    assert Line(s.q) == s.q.items && Line(Do(s, PushPill).q) == s.q.items + [s.pill.value];
    PushPills(s.q.items, s.pill.value);
  }

  /** Whoever holds the lock moves items along the line. */
  lemma HolderKeepsLine(q: QueueState<ClientRequest>, qstep: QueueStep<ClientRequest>)
    requires Enabled(q, qstep) && (qstep.CountPush? || qstep.EndPush? || qstep.PopOne? || qstep.CountPop?)
    ensures Line(Apply(q, qstep)) == Line(q)
  {
    if qstep.PopOne? {
      Shift(q.lock.batch, q.items[0], q.items[1..]);
      assert q.items == [q.items[0]] + q.items[1..];
    }
  }

  lemma WorkKeepsLast(s: State, w: nat, step: WorkerStep)
    requires LastPill(s) && CanStep(s, Work(w, step))
    ensures LastPill(Do(s, Work(w, step)))
  {
    LineShrinks(s, s.workers[w], step);
    PillsConcat(InHand(s.q), s.q.items);
    PillsConcat(InHand(Do(s, Work(w, step)).q), s.q.items);
  }

  lemma LineShrinks(s: State, x: Worker, step: WorkerStep)
    requires CanWork(s, x, step)
    ensures Queued(s, x, step).items == s.q.items && Pills(InHand(Queued(s, x, step))) <= Pills(InHand(s.q))
  {
  }

  lemma OnlyPillsPushed(s: State, r: ClientRequest)
    requires HandlersFormed(s) && LastPill(s) && Aligned(s.q) && CanStep(s, PushPill) && r == s.pill.value
    ensures Aligned(Apply(s.q, PushItem(r)))
  {
    assert Line(s.q) == s.q.items;
    PushPillAligned(s.q, r);
  }

  lemma StepKeepsAligned(s: State, step: Step)
    requires HandlersFormed(s) && LastPill(s) && Aligned(s.q) && CanStep(s, step) && NoClientPush(step)
    ensures Aligned(Do(s, step).q)
  {
    match step
    case PushPill => OnlyPillsPushed(s, s.pill.value);
    case Holder(qstep) => HolderKeepsAligned(s.q, qstep);
    case Work(w, wstep) => WorkKeepsAligned(s, s.workers[w], wstep);
    case Handler(hstep) => HandleLeavesWorkers(s, hstep);
    case _ =>
  }

  lemma HolderKeepsAligned(q: QueueState<ClientRequest>, qstep: QueueStep<ClientRequest>)
    requires Aligned(q) && Enabled(q, qstep)
    requires qstep.CountPush? || qstep.EndPush? || qstep.PopOne? || qstep.CountPop?
    ensures Aligned(Apply(q, qstep))
  {
    if qstep.PopOne? {
      PopOneAligned(q);
    } else {
      var q' := Apply(q, qstep);
      assert WillTake(q') == WillTake(q) && WillLeave(q') == WillLeave(q);
    }
  }

  lemma WorkKeepsAligned(s: State, x: Worker, step: WorkerStep)
    requires Aligned(s.q) && CanWork(s, x, step)
    ensures Aligned(Queued(s, x, step))
  {
    match step
    case BeginPop => StartPopAligned(s.q);
    case FinishPop => EndPopAligned(s.q);
    case _ =>
  }

  /** At the start of the destructor, when no pill has been pushed, there is none anywhere. */
  lemma NoPillsYet(cfg: Config, n: nat, steps: seq<Step>, states: seq<State>, j: nat)
    requires IsServerRun(cfg, n, steps, states) && j < |states| && states[j].pillsLeft == n
    ensures Pills(Line(states[j].q)) == 0 && AllSwallowed(states[j]) == 0
    ensures forall i :: 0 <= i < |Line(states[j].q)| ==> !IsPill(Line(states[j].q)[i])
  {
    var s := states[j];
    PillsExact(cfg, n, steps, states, j);
    WorkersStay(cfg, n, steps, states, j);
    LiveAtMost(s.workers);
    PillsConcat(InHand(s.q), s.q.items);
    BatchPills(InHand(s.q));
    PillsPositive(Line(s.q));
  }

  lemma {:induction false} LiveAtMost(ws: seq<Worker>)
    ensures Live(ws) <= |ws|
  {
    if ws != [] {
      LiveAtMost(ws[..|ws| - 1]);
    }
  }

  lemma StepKeepsWorkerCount(s: State, step: Step)
    requires CanStep(s, step)
    ensures |Do(s, step).workers| == |s.workers|
  {
  }

  /** What the queue of every run looks like while popping, and the number of workers. */
  lemma {:induction false} WorkersStay(cfg: Config, n: nat, steps: seq<Step>, states: seq<State>, k: nat)
    requires IsServerRun(cfg, n, steps, states) && k < |states|
    ensures |states[k].workers| == n
    ensures states[k].q.lock.Popping? ==> states[k].q.lock.limit == 32
  {
    if k > 0 {
      WorkersStay(cfg, n, steps, states, k - 1);
      assert StepsTo(steps, states, k - 1);
      var step := steps[k - 1];
      StepKeepsWorkerCount(states[k - 1], step);
      StepKeepsLimit(states[k - 1], step);
    }
  }

  lemma StepKeepsLimit(s: State, step: Step)
    requires CanStep(s, step) && (s.q.lock.Popping? ==> s.q.lock.limit == 32)
    ensures Do(s, step).q.lock.Popping? ==> Do(s, step).q.lock.limit == 32
  {
  }

  /** The destructor starts with at most one worker, and full batches ahead of its pill once the pop in progress is over. */
  predicate FullBatches(s: State, n: nat) {
    n == 0 || (n == 1 && |WillLeave(s.q)| % 32 == 0)
  }

  lemma LineSplits(q: QueueState<ClientRequest>)
    ensures Line(q) == WillTake(q) + WillLeave(q)
  {
    var k := Take(q);
    assert q.items == q.items[..k] + q.items[k..];
    Associates(InHand(q), q.items[..k], q.items[k..]);
  }

  lemma NoPillsAligned(q: QueueState<ClientRequest>)
    requires Pills(Line(q)) == 0 && |WillLeave(q)| % 32 == 0
    ensures AlignedLine(WillLeave(q)) && Behind(WillTake(q)) == 0
  {
    LineSplits(q);
    PillsConcat(WillTake(q), WillLeave(q));
    BatchPills(WillTake(q));
    PillsPositive(WillLeave(q));
  }

  lemma StartsAligned(cfg: Config, n: nat, steps: seq<Step>, states: seq<State>, j: nat)
    requires IsServerRun(cfg, n, steps, states) && j < |states| && states[j].pillsLeft == n && n == 1
    requires FullBatches(states[j], n)
    ensures LastPill(states[j]) && Aligned(states[j].q)
  {
    NoPillsYet(cfg, n, steps, states, j);
    NoPillsAligned(states[j].q);
    WorkersStay(cfg, n, steps, states, j);
    PillsExact(cfg, n, steps, states, j);
  }

  lemma NextAligned(cfg: Config, n: nat, steps: seq<Step>, states: seq<State>, j: nat, k: nat)
    requires IsServerRun(cfg, n, steps, states) && j <= k < |steps| && Quiet(steps, j)
    requires LastPill(states[k]) && Aligned(states[k].q)
    ensures LastPill(states[k + 1]) && Aligned(states[k + 1].q)
  {
    assert StepsTo(steps, states, k);
    var step := steps[k];
    PillsExact(cfg, n, steps, states, k);
    StepKeepsLast(states[k], step);
    StepKeepsAligned(states[k], step);
  }

  lemma StaysAligned(cfg: Config, n: nat, steps: seq<Step>, states: seq<State>, j: nat, k: nat)
    requires IsServerRun(cfg, n, steps, states) && j <= k < |states| && Quiet(steps, j)
    requires LastPill(states[j]) && Aligned(states[j].q)
    ensures LastPill(states[k]) && Aligned(states[k].q)
  {
    ghost var p := (s: State) => LastPill(s) && Aligned(s.q);
    forall i | j <= i < k && p(states[i])
      ensures p(states[i + 1])
    {
      NextAligned(cfg, n, steps, states, j, i);
    }
    Onwards(p, states, j, k);
  }

  /** Then no pill is swallowed, whatever happens afterwards short of a client pushing. */
  lemma FullBatchesLoseNone(cfg: Config, n: nat, steps: seq<Step>, states: seq<State>, j: nat, k: nat)
    requires IsServerRun(cfg, n, steps, states) && j <= k < |states| && Quiet(steps, j)
    requires states[j].pillsLeft == n && FullBatches(states[j], n)
    ensures AllSwallowed(states[k]) == 0
  {
    if n == 0 {
      PillsExact(cfg, n, steps, states, k);
      WorkersStay(cfg, n, steps, states, k);
      LiveAtMost(states[k].workers);
    } else {
      StartsAligned(cfg, n, steps, states, j);
      StaysAligned(cfg, n, steps, states, j, k);
      AlignedSwallowsNone(states[k].q);
    }
  }

  // ---------- otherwise one can be swallowed ----------

  /** Steps and the states they lead through. */
  datatype Run = Run(steps: seq<Step>, states: seq<State>)

  ghost predicate Valid(cfg: Config, n: nat, r: Run) {
    IsServerRun(cfg, n, r.steps, r.states)
  }

  function Last(r: Run): State
    requires |r.states| > 0
  {
    r.states[|r.states| - 1]
  }

  /** `b` goes on from `a` without any client pushing. */
  ghost predicate GoesOn(cfg: Config, n: nat, a: Run, b: Run) {
    Valid(cfg, n, b) && a.steps <= b.steps && Quiet(b.steps, |a.steps|)
  }

  lemma Go(cfg: Config, n: nat, a: Run, b: Run, step: Step) returns (r: Run)
    requires GoesOn(cfg, n, a, b) && CanStep(Last(b), step) && NoClientPush(step)
    ensures GoesOn(cfg, n, a, r) && Last(r) == Do(Last(b), step)
  {
    var steps, states := Extend(cfg, n, b.steps, b.states, step);
    r := Run(steps, states);
  }

  /** The destructor makes a pill, unless it has made one already. */
  lemma GoMakePill(cfg: Config, n: nat, a: Run, b: Run) returns (r: Run)
    requires GoesOn(cfg, n, a, b) && Last(b).pillsLeft > 0
    ensures GoesOn(cfg, n, a, r)
    ensures Last(r).pill.Some? && IsPill(Last(r).pill.value) && Last(r) == Last(b).(pill := Last(r).pill)
  {
    if Last(b).pill.None? {
      r := Go(cfg, n, a, b, MakePill);
    } else {
      PillsExact(cfg, n, b.steps, b.states, |b.steps|);
      r := b;
    }
  }

  lemma GoPush(cfg: Config, n: nat, a: Run, b: Run) returns (r: Run)
    requires GoesOn(cfg, n, a, b) && Last(b).pillsLeft > 0 && Last(b).q.lock.Free?
    ensures GoesOn(cfg, n, a, r)
    ensures var s, s' := Last(b), Last(r);
      && s' == s.(pillsLeft := s.pillsLeft - 1, pill := None, q := s'.q) && s'.q.lock.Free? && s'.q.batches == s.q.batches
      && |s'.q.items| == |s.q.items| + 1 && s'.q.items[..|s.q.items|] == s.q.items && IsPill(s'.q.items[|s.q.items|])
  {
    r := GoMakePill(cfg, n, a, b);
    r := GoPushMade(cfg, n, a, r);
  }

  lemma GoPushMade(cfg: Config, n: nat, a: Run, b: Run) returns (r: Run)
    requires GoesOn(cfg, n, a, b) && Last(b).pillsLeft > 0 && Last(b).q.lock.Free? && Last(b).pill.Some?
    ensures GoesOn(cfg, n, a, r)
    ensures var s, s' := Last(b), Last(r);
      && s' == s.(pillsLeft := s.pillsLeft - 1, pill := None, q := s'.q) && s'.q.lock.Free? && s'.q.batches == s.q.batches
      && s'.q.items == s.q.items + [s.pill.value]
  {
    r := Go(cfg, n, a, b, PushPill);
    r := Go(cfg, n, a, r, Holder(CountPush));
    r := Go(cfg, n, a, r, Holder(EndPush));
  }

  lemma GoTake(cfg: Config, n: nat, a: Run, b: Run) returns (r: Run)
    requires GoesOn(cfg, n, a, b) && Enabled(Last(b).q, PopOne)
    ensures GoesOn(cfg, n, a, r)
    ensures var s, s' := Last(b), Last(r);
      && s' == s.(q := s'.q) && s'.q.batches == s.q.batches && s'.q.items == s.q.items[1..]
      && s'.q.lock == Lock.Popping(s.q.lock.limit, s.q.lock.atStart, s.q.lock.batch + [s.q.items[0]], true)
  {
    r := Go(cfg, n, a, b, Holder(PopOne));
    r := Go(cfg, n, a, r, Holder(CountPop));
  }

  /** Whoever pops takes all it may. */
  lemma {:induction false} GoTakeAll(cfg: Config, n: nat, a: Run, b: Run, k: nat) returns (r: Run)
    requires GoesOn(cfg, n, a, b) && k <= |Last(b).q.items|
    requires var lock := Last(b).q.lock; lock.Popping? && lock.counted && |lock.batch| + k <= lock.limit
    ensures GoesOn(cfg, n, a, r)
    ensures var s, s' := Last(b), Last(r);
      && s' == s.(q := s'.q) && s'.q.batches == s.q.batches && s'.q.items == s.q.items[k..]
      && s'.q.lock == Lock.Popping(s.q.lock.limit, s.q.lock.atStart, s.q.lock.batch + s.q.items[..k], true)
    decreases k
  {
    var q := Last(b).q;
    if k == 0 {
      r := b;
      assert q.items[..0] == [] && q.lock.batch + [] == q.lock.batch;
    } else {
      r := GoTake(cfg, n, a, b);
      r := GoTakeAll(cfg, n, a, r, k - 1);
      TakeSplit(q.lock.batch, q.items, k);
    }
  }

  /** An idle worker pops a batch. */
  lemma GoPop(cfg: Config, n: nat, a: Run, b: Run, w: nat) returns (r: Run)
    requires GoesOn(cfg, n, a, b) && w < |Last(b).workers| && Last(b).workers[w].Idle?
    requires Last(b).q.lock.Free? && Last(b).q.items != []
    ensures GoesOn(cfg, n, a, r)
    ensures var s, s', k := Last(b), Last(r), Min(|Last(b).q.items|, 32);
      && s' == s.(q := s'.q, workers := s.workers[w := Have(s.q.items[..k])]) && s'.q.lock.Free?
      && s'.q.items == s.q.items[k..] && s'.q.batches == s.q.batches + [s.q.items[..k]]
  {
    var s, k := Last(b), Min(|Last(b).q.items|, 32);
    r := Go(cfg, n, a, b, Work(w, BeginPop));
    r := GoTakeAll(cfg, n, a, r, k);
    assert [] + s.q.items[..k] == s.q.items[..k];
    r := Go(cfg, n, a, r, Work(w, FinishPop));
  }

  /** Nothing has changed but worker `w`, and what it told the outside. */
  predicate OnlyWorker(s: State, s': State, w: nat) {
    && s'.q == s.q && s'.pill == s.pill && s'.pillsLeft == s.pillsLeft
    && w < |s.workers| == |s'.workers|
    && s'.workers == s.workers[w := s'.workers[w]]
  }

  lemma OnlyWorkerTwice(s: State, s': State, s'': State, w: nat)
    requires OnlyWorker(s, s', w) && OnlyWorker(s', s'', w)
    ensures OnlyWorker(s, s'', w)
  {
  }

  lemma GoWork(cfg: Config, n: nat, a: Run, b: Run, w: nat, step: WorkerStep) returns (r: Run)
    requires GoesOn(cfg, n, a, b) && w < |Last(b).workers| && CanWork(Last(b), Last(b).workers[w], step)
    requires !step.BeginPop? && !step.FinishPop?
    ensures GoesOn(cfg, n, a, r) && OnlyWorker(Last(b), Last(r), w)
    ensures Last(r).workers[w] == Moved(Last(b), Last(b).workers[w], step)
  {
    r := Go(cfg, n, a, b, Work(w, step));
  }

  lemma {:induction false} GoFilter(cfg: Config, n: nat, a: Run, b: Run, w: nat) returns (r: Run)
    requires GoesOn(cfg, n, a, b) && w < |Last(b).workers|
    requires var x := Last(b).workers[w]; x.Filtering? && x.next <= |x.batch|
    ensures GoesOn(cfg, n, a, r) && OnlyWorker(Last(b), Last(r), w)
    ensures var x := Last(r).workers[w];
      x.Filtering? && x.batch == Last(b).workers[w].batch && x.next == |x.batch|
    decreases |Last(b).workers[w].batch| - Last(b).workers[w].next
  {
    var x := Last(b).workers[w];
    if x.next == |x.batch| {
      r := b;
    } else {
      var c := GoWork(cfg, n, a, b, w, Filter);
      r := GoFilter(cfg, n, a, c, w);
      OnlyWorkerTwice(Last(b), Last(c), Last(r), w);
    }
  }

  /** A filtering worker gets rid of its batch: the stale requests are answered, and the run for the others throws. */
  lemma GoFinishFiltering(cfg: Config, n: nat, a: Run, b: Run, w: nat) returns (r: Run)
    requires GoesOn(cfg, n, a, b) && w < |Last(b).workers|
    requires var x := Last(b).workers[w]; x.Filtering? && x.next <= |x.batch| && x.batch != []
    ensures GoesOn(cfg, n, a, r) && OnlyWorker(Last(b), Last(r), w) && Last(r).workers[w].Idle?
  {
    var e := GoFilter(cfg, n, a, b, w);
    r := GoWork(cfg, n, a, e, w, EndFilter);
    OnlyWorkerTwice(Last(b), Last(e), Last(r), w);
    if !Last(r).workers[w].Idle? {
      var f := r;
      r := GoWork(cfg, n, a, f, w, Throw);
      OnlyWorkerTwice(Last(b), Last(f), Last(r), w);
    }
  }

  lemma GoFinish(cfg: Config, n: nat, a: Run, b: Run, w: nat) returns (r: Run)
    requires GoesOn(cfg, n, a, b) && w < |Last(b).workers|
    requires var x := Last(b).workers[w]; x.Have? && x.batch != [] && !IsPill(x.batch[0])
    ensures GoesOn(cfg, n, a, r) && OnlyWorker(Last(b), Last(r), w) && Last(r).workers[w].Idle?
  {
    var c := GoWork(cfg, n, a, b, w, Inspect);
    r := GoFinishFiltering(cfg, n, a, c, w);
    OnlyWorkerTwice(Last(b), Last(c), Last(r), w);
  }

  lemma FormedWorker(cfg: Config, n: nat, r: Run, w: nat)
    requires Valid(cfg, n, r) && w < |Last(r).workers|
    ensures WorkerFormed(Last(r), Last(r).workers[w])
  {
    PillsExact(cfg, n, r.steps, r.states, |r.steps|);
    assert WorkersFormed(Last(r));
  }

  lemma GoReplyOne(cfg: Config, n: nat, a: Run, b: Run, w: nat) returns (r: Run)
    requires GoesOn(cfg, n, a, b) && w < |Last(b).workers| && Last(b).workers[w].Replying?
    requires WorkerFormed(Last(b), Last(b).workers[w]) && Last(b).workers[w].next < |Last(b).workers[w].valid|
    ensures GoesOn(cfg, n, a, r) && OnlyWorker(Last(b), Last(r), w) && WorkerFormed(Last(r), Last(r).workers[w])
    ensures var x, y := Last(b).workers[w], Last(r).workers[w]; y.Replying? && y.valid == x.valid && y.next == x.next + 1
  {
    r := GoWork(cfg, n, a, b, w, SendReply);
    FormedWorker(cfg, n, r, w);
  }

  /** A worker that has the output sends its replies. */
  lemma {:induction false} GoReply(cfg: Config, n: nat, a: Run, b: Run, w: nat) returns (r: Run)
    requires GoesOn(cfg, n, a, b) && w < |Last(b).workers| && Last(b).workers[w].Replying?
    requires WorkerFormed(Last(b), Last(b).workers[w])
    ensures GoesOn(cfg, n, a, r) && OnlyWorker(Last(b), Last(r), w) && Last(r).workers[w].Idle?
    decreases |Last(b).workers[w].valid| - Last(b).workers[w].next
  {
    var x := Last(b).workers[w];
    if x.next == |x.valid| {
      r := GoWork(cfg, n, a, b, w, EndReplies);
    } else {
      var c := GoReplyOne(cfg, n, a, b, w);
      r := GoReply(cfg, n, a, c, w);
      OnlyWorkerTwice(Last(b), Last(c), Last(r), w);
    }
  }

  lemma GoCount(cfg: Config, n: nat, a: Run, b: Run, w: nat) returns (r: Run)
    requires GoesOn(cfg, n, a, b) && w < |Last(b).workers| && Last(b).workers[w].Counting?
    ensures GoesOn(cfg, n, a, r) && OnlyWorker(Last(b), Last(r), w) && Last(r).workers[w].Idle?
  {
    var c := b;
    if !Last(c).workers[w].inWindow {
      c := GoWork(cfg, n, a, b, w, AddToWindow);
    }
    var e := GoWork(cfg, n, a, c, w, AddToTotal);
    OnlyWorkerTwice(Last(b), Last(c), Last(e), w);
    FormedWorker(cfg, n, e, w);
    r := GoReply(cfg, n, a, e, w);
    OnlyWorkerTwice(Last(b), Last(e), Last(r), w);
  }

  lemma {:induction false} NobodyAbout(ws: seq<Worker>, w: nat)
    requires AboutToStop(ws) == 0 && w < |ws| && ws[w].Have?
    ensures HeadPills(ws[w].batch) == 0
  {
    var n := |ws| - 1;
    if w < n {
      NobodyAbout(ws[..n], w);
    }
  }

  /** Whatever a worker outside the queue is doing, it can become idle. */
  lemma GoIdle(cfg: Config, n: nat, a: Run, b: Run, w: nat) returns (r: Run)
    requires GoesOn(cfg, n, a, b) && w < |Last(b).workers| && AboutToStop(Last(b).workers) == 0
    requires !Last(b).workers[w].Popping? && !Last(b).workers[w].Stopped?
    ensures GoesOn(cfg, n, a, r) && OnlyWorker(Last(b), Last(r), w) && Last(r).workers[w].Idle?
  {
    FormedWorker(cfg, n, b, w);
    match Last(b).workers[w]
    case Have(_) =>
      NobodyAbout(Last(b).workers, w);
      r := GoFinish(cfg, n, a, b, w);
    case Filtering(_, _, _, _) => r := GoFinishFiltering(cfg, n, a, b, w);
    case Inferring(_, _, _) => r := GoWork(cfg, n, a, b, w, Throw);
    case Counting(_, _, _, _) => r := GoCount(cfg, n, a, b, w);
    case Replying(_, _, _, _) => r := GoReply(cfg, n, a, b, w);
    case _ => r := b;
  }

  // ---------- whoever holds the lock lets go ----------

  predicate IsPopping(s: State, w: int) {
    0 <= w < |s.workers| && s.workers[w].Popping?
  }

  /** Exactly one worker is popping while the lock is taken for a pop, and none otherwise. */
  ghost predicate OnePopper(s: State) {
    && (s.q.lock.Popping? <==> exists w :: IsPopping(s, w))
    && (forall v, w :: IsPopping(s, v) && IsPopping(s, w) ==> v == w)
  }

  lemma WorkKeepsPopper(s: State, w: nat, step: WorkerStep)
    requires OnePopper(s) && CanStep(s, Work(w, step))
    ensures OnePopper(Do(s, Work(w, step)))
  {
    var s' := Do(s, Work(w, step));
    assert forall v :: v != w ==> (IsPopping(s', v) <==> IsPopping(s, v));
    assert IsPopping(s', w) <==> step.BeginPop?;
    assert step.FinishPop? ==> IsPopping(s, w);
    assert !step.BeginPop? && !step.FinishPop? ==> !IsPopping(s, w);
  }

  lemma StepKeepsPopper(s: State, step: Step)
    requires OnePopper(s) && CanStep(s, step)
    ensures OnePopper(Do(s, step))
  {
    if step.Work? {
      WorkKeepsPopper(s, step.w, step.wstep);
    } else {
      OthersLeavePopper(s, step);
      var s' := Do(s, step);
      assert forall w :: IsPopping(s', w) <==> IsPopping(s, w);
    }
  }

  lemma OthersLeavePopper(s: State, step: Step)
    requires CanStep(s, step) && !step.Work?
    ensures Do(s, step).workers == s.workers && (Do(s, step).q.lock.Popping? <==> s.q.lock.Popping?)
  {
  }

  lemma PopperAt(cfg: Config, n: nat, steps: seq<Step>, states: seq<State>, k: nat)
    requires IsServerRun(cfg, n, steps, states) && k < |states|
    ensures OnePopper(states[k])
  {
    forall i | 0 <= i < |steps| && OnePopper(states[i])
      ensures OnePopper(states[i + 1])
    {
      assert StepsTo(steps, states, i);
      var step := steps[i];
      StepKeepsPopper(states[i], step);
    }
    ghost var p := (s: State) => OnePopper(s);
    Onwards(p, states, 0, k);
  }

  lemma PopperAlways(cfg: Config, n: nat, r: Run)
    requires Valid(cfg, n, r)
    ensures OnePopper(Last(r))
  {
    PopperAt(cfg, n, r.steps, r.states, |r.steps|);
  }

  /** What letting go of the lock leaves: the items, and the workers but for the one that was popping. */
  predicate Unlocked(s: State, s': State) {
    && s'.q.lock.Free? && s'.q.items == WillLeave(s.q) && s'.pill == s.pill && s'.pillsLeft == s.pillsLeft
    && SameStopped(s, s')
  }

  predicate SameStopped(s: State, s': State) {
    && |s'.workers| == |s.workers|
    && forall w :: 0 <= w < |s.workers| ==> (s'.workers[w].Stopped? <==> s.workers[w].Stopped?)
  }

  lemma GoUnlock(cfg: Config, n: nat, a: Run, b: Run) returns (r: Run)
    requires GoesOn(cfg, n, a, b)
    ensures GoesOn(cfg, n, a, r) && Unlocked(Last(b), Last(r))
  {
    if Last(b).q.lock.Popping? {
      r := GoUnpop(cfg, n, a, b);
    } else if Last(b).q.lock.Pushing? {
      r := GoUnpush(cfg, n, a, b);
    } else {
        r := b;
    }
  }

  lemma GoUnpush(cfg: Config, n: nat, a: Run, b: Run) returns (r: Run)
    requires GoesOn(cfg, n, a, b) && Last(b).q.lock.Pushing?
    ensures GoesOn(cfg, n, a, r) && Unlocked(Last(b), Last(r))
  {
    r := b;
    if !Last(b).q.lock.counted {
      r := Go(cfg, n, a, b, Holder(CountPush));
    }
    r := Go(cfg, n, a, r, Holder(EndPush));
  }

  /** The pop in progress takes what it still will. */
  lemma GoTakeRest(cfg: Config, n: nat, a: Run, b: Run) returns (r: Run)
    requires GoesOn(cfg, n, a, b) && Last(b).q.lock.Popping?
    ensures GoesOn(cfg, n, a, r)
    ensures Last(r).workers == Last(b).workers && Last(r).pill == Last(b).pill && Last(r).pillsLeft == Last(b).pillsLeft
    ensures Last(r).q.items == WillLeave(Last(b).q) && Enabled(Last(r).q, EndPop)
  {
    WorkersStay(cfg, n, b.steps, b.states, |b.steps|);
    PillsExact(cfg, n, b.steps, b.states, |b.steps|);
    r := b;
    if !Last(b).q.lock.counted {
      r := Go(cfg, n, a, b, Holder(CountPop));
    }
    r := GoTakeAll(cfg, n, a, r, Take(Last(b).q));
  }

  lemma GoUnpop(cfg: Config, n: nat, a: Run, b: Run) returns (r: Run)
    requires GoesOn(cfg, n, a, b) && Last(b).q.lock.Popping?
    ensures GoesOn(cfg, n, a, r) && Unlocked(Last(b), Last(r))
  {
    PopperAlways(cfg, n, b);
    var w: nat :| IsPopping(Last(b), w);
    var c := GoTakeRest(cfg, n, a, b);
    r := GoHandOut(cfg, n, a, c, w);
  }

  lemma GoHandOut(cfg: Config, n: nat, a: Run, b: Run, w: nat) returns (r: Run)
    requires GoesOn(cfg, n, a, b) && IsPopping(Last(b), w) && Enabled(Last(b).q, EndPop)
    ensures GoesOn(cfg, n, a, r)
    ensures var s, s' := Last(b), Last(r);
      s'.q.lock.Free? && s'.q.items == s.q.items && s'.pill == s.pill && s'.pillsLeft == s.pillsLeft && SameStopped(s, s')
  {
    r := Go(cfg, n, a, b, Work(w, FinishPop));
  }

  /** Nobody is using the queue, and worker `w` is idle. */
  predicate AtRest(s: State, w: nat) {
    s.q.lock.Free? && w < |s.workers| && s.workers[w].Idle?
  }

  /** From anywhere, with no pill handed out unnoticed: the queue comes to rest and a live worker becomes idle. */
  lemma GoRest(cfg: Config, n: nat, a: Run, b: Run, w: nat) returns (r: Run)
    requires GoesOn(cfg, n, a, b) && w < |Last(b).workers| && !Last(b).workers[w].Stopped?
    requires Live(Last(b).workers) == Last(b).pillsLeft
    ensures GoesOn(cfg, n, a, r) && Unlocked(Last(b), Last(r)) && AtRest(Last(r), w)
  {
    var c := GoUnlock(cfg, n, a, b);
    SameLive(Last(b).workers, Last(c).workers);
    NoPillsWhileLive(cfg, n, c);
    PopperAlways(cfg, n, c);
    assert !IsPopping(Last(c), w);
    r := GoIdle(cfg, n, a, c, w);
  }

  lemma {:induction false} SameLive(ws: seq<Worker>, ws': seq<Worker>)
    requires |ws'| == |ws| && forall w :: 0 <= w < |ws| ==> (ws'[w].Stopped? <==> ws[w].Stopped?)
    ensures Live(ws') == Live(ws)
  {
    if ws != [] {
      SameLive(ws[..|ws| - 1], ws'[..|ws| - 1]);
    }
  }

  /** Worker `w` takes full batches of clients until fewer than 32 are left. */
  lemma {:induction false} GoDrain(cfg: Config, n: nat, a: Run, b: Run, w: nat) returns (r: Run)
    requires GoesOn(cfg, n, a, b) && AtRest(Last(b), w)
    requires forall i :: 0 <= i < |Last(b).q.items| ==> !IsPill(Last(b).q.items[i])
    ensures GoesOn(cfg, n, a, r) && AtRest(Last(r), w) && Last(r).pillsLeft == Last(b).pillsLeft
    ensures SameStopped(Last(b), Last(r))
    ensures |Last(r).q.items| == |Last(b).q.items| % 32
    ensures forall i :: 0 <= i < |Last(r).q.items| ==> !IsPill(Last(r).q.items[i])
    decreases |Last(b).q.items|
  {
    var items := Last(b).q.items;
    if |items| < 32 {
      r := b;
    } else {
      r := GoPop(cfg, n, a, b, w);
      assert !IsPill(items[..32][0]);
      r := GoFinish(cfg, n, a, r, w);
      assert Last(r).q.items == items[32..];
      r := GoDrain(cfg, n, a, r, w);
    }
  }

  /** A batch with a pill behind its head swallows it. */
  lemma GoSwallow(cfg: Config, n: nat, a: Run, b: Run, w: nat) returns (r: Run)
    requires GoesOn(cfg, n, a, b) && AtRest(Last(b), w)
    requires var items := Last(b).q.items; 2 <= |items| <= 32 && IsPill(items[|items| - 1])
    ensures GoesOn(cfg, n, a, r) && AllSwallowed(Last(r)) > 0
  {
    var items := Last(b).q.items;
    r := GoPop(cfg, n, a, b, w);
    assert items[..|items|] == items;
    SwallowedMore(Last(b).q.batches, items);
    PillsPositive(items[1..]);
    assert items[1..][|items| - 2] == items[|items| - 1];
  }

  lemma CanSwallow(cfg: Config, n: nat, a: Run) returns (r: Run)
    requires Valid(cfg, n, a) && Last(a).pillsLeft == n && !FullBatches(Last(a), n)
    ensures GoesOn(cfg, n, a, r) && AllSwallowed(Last(r)) > 0
  {
    AllStillLive(cfg, n, a);
    var w := 0;
    r := GoRest(cfg, n, a, a, w);
    NoPillsYet(cfg, n, r.steps, r.states, |r.steps|);
    assert Line(Last(r).q) == Last(r).q.items;
    r := GoDrain(cfg, n, a, r, w);
    var items := Last(r).q.items;
    r := GoPush(cfg, n, a, r);
    if items == [] {
      r := GoPush(cfg, n, a, r);
    }
    r := GoSwallow(cfg, n, a, r, w);
  }

  /** Before the first pill all workers are alive. */
  lemma AllStillLive(cfg: Config, n: nat, a: Run)
    requires Valid(cfg, n, a) && Last(a).pillsLeft == n
    ensures |Last(a).workers| == n && Live(Last(a).workers) == n
    ensures forall w :: 0 <= w < n ==> !Last(a).workers[w].Stopped?
  {
    PillsExact(cfg, n, a.steps, a.states, |a.steps|);
    WorkersStay(cfg, n, a.steps, a.states, |a.steps|);
    LiveAtMost(Last(a).workers);
    AllLive(Last(a).workers);
  }

  lemma {:induction false} AllLive(ws: seq<Worker>)
    ensures Live(ws) == |ws| <==> forall w :: 0 <= w < |ws| ==> !ws[w].Stopped?
  {
    if ws != [] {
      var n := |ws| - 1;
      AllLive(ws[..n]);
      LiveAtMost(ws[..n]);
      assert forall w :: 0 <= w < n ==> ws[..n][w] == ws[w];
    }
  }

  /** The destructor starts in the last state of `a`, whatever anyone is in the middle of. If no client pushes any more, some
      continuation swallows a pill, and so never joins, exactly when there are two workers or more, or one worker
      and clients that will be left in the queue and do not fill its batches. */
  lemma LosesPillExactly(cfg: Config, n: nat, a: Run)
    requires Valid(cfg, n, a) && Last(a).pillsLeft == n
    ensures (exists r :: GoesOn(cfg, n, a, r) && AllSwallowed(Last(r)) > 0) <==>
      n >= 2 || (n == 1 && |WillLeave(Last(a).q)| % 32 != 0)
  {
    if FullBatches(Last(a), n) {
      forall r | GoesOn(cfg, n, a, r)
        ensures AllSwallowed(Last(r)) == 0
      {
        SamePast(cfg, n, a, r, |a.steps|);
        FullBatchesLoseNone(cfg, n, r.steps, r.states, |a.steps|, |r.steps|);
      }
    } else {
      var r := CanSwallow(cfg, n, a);
    }
  }

  // ---------- and joining is always possible ----------

  /** The workers before `w` have stopped and the others have not. */
  predicate StoppedUpTo(ws: seq<Worker>, w: nat) {
    w <= |ws| && forall i :: 0 <= i < |ws| ==> (ws[i].Stopped? <==> i < w)
  }

  lemma {:induction false} LiveAfter(ws: seq<Worker>, w: nat)
    requires StoppedUpTo(ws, w)
    ensures Live(ws) == |ws| - w
  {
    if ws != [] {
      var n := |ws| - 1;
      LiveAfter(ws[..n], if w <= n then w else n);
    }
  }

  /** Worker `w` empties the queue of clients. */
  lemma GoEmpty(cfg: Config, n: nat, a: Run, b: Run, w: nat) returns (r: Run)
    requires GoesOn(cfg, n, a, b) && AtRest(Last(b), w)
    requires forall i :: 0 <= i < |Last(b).q.items| ==> !IsPill(Last(b).q.items[i])
    ensures GoesOn(cfg, n, a, r) && AtRest(Last(r), w) && Last(r).pillsLeft == Last(b).pillsLeft
    ensures SameStopped(Last(b), Last(r)) && Last(r).q.items == []
  {
    r := GoDrain(cfg, n, a, b, w);
    if Last(r).q.items != [] {
      var items := Last(r).q.items;
      assert items[..|items|] == items;
      r := GoPop(cfg, n, a, r, w);
      r := GoFinish(cfg, n, a, r, w);
    }
  }

  /** A worker at rest with an empty queue takes a pill alone and stops. */
  lemma GoStop(cfg: Config, n: nat, a: Run, b: Run, w: nat) returns (r: Run)
    requires GoesOn(cfg, n, a, b) && AtRest(Last(b), w) && Last(b).q.items == [] && Last(b).pillsLeft > 0
    ensures GoesOn(cfg, n, a, r) && Last(r).pillsLeft == Last(b).pillsLeft - 1
    ensures |Last(r).workers| == |Last(b).workers| && Last(r).workers[w].Stopped?
    ensures forall v :: 0 <= v < |Last(b).workers| && v != w ==> Last(r).workers[v] == Last(b).workers[v]
  {
    r := GoPush(cfg, n, a, b);
    var items := Last(r).q.items;
    assert items[..1] == items;
    r := GoPop(cfg, n, a, r, w);
    r := GoWork(cfg, n, a, r, w, Inspect);
  }

  lemma NoPillsWhileLive(cfg: Config, n: nat, r: Run)
    requires Valid(cfg, n, r) && Live(Last(r).workers) == Last(r).pillsLeft
    ensures AboutToStop(Last(r).workers) == 0
    ensures forall i :: 0 <= i < |Last(r).q.items| ==> !IsPill(Last(r).q.items[i])
  {
    PillsExact(cfg, n, r.steps, r.states, |r.steps|);
    PillsPositive(Last(r).q.items);
  }

  /** The next worker stops. */
  lemma GoStopNext(cfg: Config, n: nat, a: Run, b: Run, w: nat) returns (r: Run)
    requires GoesOn(cfg, n, a, b) && |Last(b).workers| == n && w < n && StoppedUpTo(Last(b).workers, w)
    requires Last(b).pillsLeft == n - w
    ensures GoesOn(cfg, n, a, r) && |Last(r).workers| == n && StoppedUpTo(Last(r).workers, w + 1)
    ensures Last(r).pillsLeft == n - w - 1
  {
    LiveAfter(Last(b).workers, w);
    r := GoRest(cfg, n, a, b, w);
    SameLive(Last(b).workers, Last(r).workers);
    NoPillsWhileLive(cfg, n, r);
    r := GoEmpty(cfg, n, a, r, w);
    r := GoStop(cfg, n, a, r, w);
  }

  /** The workers stop one after the other. */
  lemma {:induction false} GoStopAll(cfg: Config, n: nat, a: Run, b: Run, w: nat) returns (r: Run)
    requires GoesOn(cfg, n, a, b) && |Last(b).workers| == n && w <= n && StoppedUpTo(Last(b).workers, w)
    requires Last(b).pillsLeft == n - w
    ensures GoesOn(cfg, n, a, r) && |Last(r).workers| == n && StoppedUpTo(Last(r).workers, n)
    decreases n - w
  {
    if w == n {
      r := b;
    } else {
      r := GoStopNext(cfg, n, a, b, w);
      r := GoStopAll(cfg, n, a, r, w + 1);
    }
  }

  /** Wherever the destructor starts, some continuation stops all workers, without any client pushing. */
  lemma CanAlwaysJoin(cfg: Config, n: nat, a: Run) returns (r: Run)
    requires Valid(cfg, n, a) && Last(a).pillsLeft == n
    ensures GoesOn(cfg, n, a, r) && forall w :: 0 <= w < |Last(r).workers| ==> Last(r).workers[w].Stopped?
  {
    AllStillLive(cfg, n, a);
    r := GoStopAll(cfg, n, a, a, 0);
  }

  /** Steps determine states. */
  lemma {:induction false} SamePast(cfg: Config, n: nat, a: Run, b: Run, k: nat)
    requires Valid(cfg, n, a) && Valid(cfg, n, b) && a.steps <= b.steps && k <= |a.steps|
    ensures a.states[k] == b.states[k]
  {
    if k > 0 {
      SamePast(cfg, n, a, b, k - 1);
      assert StepsTo(a.steps, a.states, k - 1) && StepsTo(b.steps, b.states, k - 1);
      assert a.steps[k - 1] == b.steps[k - 1];
    }
  }

  // ---------- a client before the pill ----------

  /** One worker is enough for the destructor to hang: a client that is popped together with the pill swallows it. */
  lemma ClientSwallowsPill(cfg: Config, modelId: string, line: string)
    requires cfg.maxHandlers > 0
    ensures exists steps, states: seq<State> ::
      IsServerRun(cfg, 1, steps, states) && AllSwallowed(states[|steps|]) > 0
  {
    var r := OneClientQueued(cfg, modelId, line);
    var s := CanSwallow(cfg, 1, r);
    assert IsServerRun(cfg, 1, s.steps, s.states);
  }

  lemma OneClientQueued(cfg: Config, modelId: string, line: string) returns (r: Run)
    requires cfg.maxHandlers > 0
    ensures Valid(cfg, 1, r) && AtRest(Last(r), 0) && Last(r).pillsLeft == 1 && |Last(r).q.items| == 1
  {
    var steps, states := [], [Start(cfg, 1)];
    steps, states := Extend(cfg, 1, steps, states, Handler(Arrive));
    steps, states := Extend(cfg, 1, steps, states, Handler(CheckDepth(0)));
    steps, states := Extend(cfg, 1, steps, states, Handler(Build(0, modelId, line)));
    steps, states := Extend(cfg, 1, steps, states, Handler(LockAndPush(0)));
    steps, states := Extend(cfg, 1, steps, states, Holder(CountPush));
    steps, states := Extend(cfg, 1, steps, states, Holder(EndPush));
    r := Run(steps, states);
  }
}
