/** Shutting down: one pill per worker is pushed, but a worker stops only on a pill at the head of
    its batch. The count of live workers is exact in every state, and so is when joining succeeds. */
module PoolShutdown {
  import opened Queueing
  import opened Batching
  import opened Pool
  import opened PoolShape

  function Pills(rs: seq<ClientRequest>): nat {
    if rs == [] then 0
    else
      var n := |rs| - 1;
      Pills(rs[..n]) + if IsPill(rs[n]) then 1 else 0
  }

  lemma {:induction false} PillsConcat(a: seq<ClientRequest>, b: seq<ClientRequest>)
    ensures Pills(a + b) == Pills(a) + Pills(b)
  {
    if b == [] {
      assert a + b == a;
    } else {
      var n := |b| - 1;
      PillsConcat(a, b[..n]);
      assert (a + b)[..|a| + n] == a + b[..n];
    }
  }

  lemma PillsOne(r: ClientRequest)
    ensures Pills([r]) == if IsPill(r) then 1 else 0
  {
    assert [r][..0] == [];
  }

  /** 1 when the head of the batch is a pill. */
  function HeadPills(batch: seq<ClientRequest>): nat {
    if batch != [] && IsPill(batch[0]) then 1 else 0
  }

  /** The pills that stop nobody: those behind the head. */
  function Behind(batch: seq<ClientRequest>): nat {
    if batch == [] then 0 else Pills(batch[1..])
  }

  lemma BatchPills(batch: seq<ClientRequest>)
    ensures Pills(batch) == HeadPills(batch) + Behind(batch)
  {
    if batch != [] {
      assert batch == [batch[0]] + batch[1..];
      PillsConcat([batch[0]], batch[1..]);
      PillsOne(batch[0]);
    }
  }

  /** Over the whole history: pills swallowed in batches already handed out. */
  function Swallowed(batches: seq<seq<ClientRequest>>): nat {
    if batches == [] then 0
    else
      var n := |batches| - 1;
      Swallowed(batches[..n]) + Behind(batches[n])
  }

  function Live(ws: seq<Worker>): nat {
    if ws == [] then 0
    else
      var n := |ws| - 1;
      Live(ws[..n]) + Alive(ws[n])
  }

  /** Workers that hold a batch with a pill at its head and have not looked yet. */
  function AboutToStop(ws: seq<Worker>): nat {
    if ws == [] then 0
    else
      var n := |ws| - 1;
      AboutToStop(ws[..n]) + About(ws[n])
  }

  lemma {:induction false} LiveUpdate(ws: seq<Worker>, w: nat, x: Worker)
    requires w < |ws|
    ensures Live(ws[w := x]) + Alive(ws[w]) == Live(ws) + Alive(x)
    ensures AboutToStop(ws[w := x]) + About(ws[w]) == AboutToStop(ws) + About(x)
  {
    var n := |ws| - 1;
    if w < n {
      LiveUpdate(ws[..n], w, x);
      assert ws[w := x][..n] == ws[..n][w := x];
    } else {
      assert ws[w := x][..n] == ws[..n];
    }
  }

  /** Pills that can still stop a worker: not yet pushed, queued, or at the head of a batch. */
  function Effective(s: State): nat {
    s.pillsLeft + Pills(s.q.items) + HeadPills(InHand(s.q)) + AboutToStop(s.workers)
  }

  /** Pills behind the head of a batch, of any batch so far. */
  function AllSwallowed(s: State): nat {
    Swallowed(s.q.batches) + Behind(InHand(s.q))
  }

  ghost predicate PillsConserved(s: State) {
    Live(s.workers) == Effective(s) + AllSwallowed(s)
  }

  lemma PopOnePills(s: State)
    requires CanStep(s, Holder(PopOne))
    ensures var s' := Do(s, Holder(PopOne));
      Pills(s'.q.items) + HeadPills(InHand(s'.q)) + Behind(InHand(s'.q))
        == Pills(s.q.items) + HeadPills(InHand(s.q)) + Behind(InHand(s.q))
  {
    var x, rest, batch := s.q.items[0], s.q.items[1..], s.q.lock.batch;
    assert s.q.items == [x] + rest;
    PillsConcat([x], rest);
    PillsConcat(batch, [x]);
    BatchPills(batch);
    BatchPills(batch + [x]);
  }

  lemma PushPills(items: seq<ClientRequest>, r: ClientRequest)
    ensures Pills(items + [r]) == Pills(items) + if IsPill(r) then 1 else 0
  {
    PillsConcat(items, [r]);
    PillsOne(r);
  }

  function Alive(x: Worker): nat {
    if x.Stopped? then 0 else 1
  }

  function About(x: Worker): nat {
    if x.Have? then HeadPills(x.batch) else 0
  }

  /** A worker stops exactly on the pill it was about to stop on, and takes such a pill only from the lock. */
  lemma MovedPills(s: State, x: Worker, step: WorkerStep)
    requires CanWork(s, x, step)
    ensures Alive(Moved(s, x, step)) - About(Moved(s, x, step))
      == Alive(x) - About(x) - if step.FinishPop? then HeadPills(InHand(s.q)) else 0
  {
  }

  /** What leaves the lock with a batch: its head to the worker, the pills behind it to the swallowed ones. */
  lemma QueuedPills(s: State, x: Worker, step: WorkerStep)
    requires CanWork(s, x, step)
    ensures var q := Queued(s, x, step);
      && q.items == s.q.items
      && HeadPills(InHand(q)) == (if step.FinishPop? then 0 else HeadPills(InHand(s.q)))
      && Swallowed(q.batches) + Behind(InHand(q)) == Swallowed(s.q.batches) + Behind(InHand(s.q))
  {
    if step.FinishPop? {
      var batches := s.q.batches;
      assert (batches + [s.q.lock.batch])[..|batches|] == batches;
    }
  }

  lemma WorkPills(s: State, w: nat, step: WorkerStep)
    requires PillsConserved(s) && CanStep(s, Work(w, step))
    ensures PillsConserved(Do(s, Work(w, step)))
  {
    var x := s.workers[w];
    LiveUpdate(s.workers, w, Moved(s, x, step));
    MovedPills(s, x, step);
    QueuedPills(s, x, step);
  }

  lemma StepKeepsPills(s: State, step: Step)
    requires HandlersFormed(s) && PillsConserved(s) && CanStep(s, step)
    ensures PillsConserved(Do(s, step))
  {
    match step
    case Work(w, wstep) => WorkPills(s, w, wstep);
    case Holder(qstep) => HolderPills(s, qstep);
    case PushPill => PushPills(s.q.items, s.pill.value);
    case Handler(hstep) => HandlePills(s, hstep);
    case _ =>
  }

  lemma HolderPills(s: State, qstep: QueueStep<ClientRequest>)
    requires PillsConserved(s) && CanStep(s, Holder(qstep))
    ensures PillsConserved(Do(s, Holder(qstep)))
  {
    if qstep.PopOne? {
      PopOnePills(s);
    }
  }

  lemma ClientPushPills(q: QueueState<ClientRequest>, r: ClientRequest)
    requires q.lock.Free? && !IsPill(r)
    ensures Pills(Apply(q, PushItem(r)).items) == Pills(q.items)
    ensures InHand(Apply(q, PushItem(r))) == InHand(q) && Apply(q, PushItem(r)).batches == q.batches
  {
    PushPills(q.items, r);
  }

  /** A client request is never a pill, so a handler adds none. */
  lemma HandlePills(s: State, step: HandlerStep)
    requires HandlersFormed(s) && CanHandle(s, step)
    ensures Effective(Handle(s, step)) == Effective(s) && AllSwallowed(Handle(s, step)) == AllSwallowed(s)
    ensures Handle(s, step).workers == s.workers
  {
    HandleLeavesWorkers(s, step);
    if step.LockAndPush? {
      assert ClientShaped(s.handlers.ready[step.h], step.h);
      ClientPushPills(s.q, s.handlers.ready[step.h]);
    }
  }

  lemma HandleLeavesWorkers(s: State, step: HandlerStep)
    requires CanHandle(s, step)
    ensures Handle(s, step).workers == s.workers && Handle(s, step).pillsLeft == s.pillsLeft
    ensures Handle(s, step).q == if step.LockAndPush? then Apply(s.q, PushItem(s.handlers.ready[step.h])) else s.q
  {
  }

  lemma {:induction false} AllAlive(n: nat)
    ensures Live(seq(n, _ => Idle)) == n && AboutToStop(seq(n, _ => Idle)) == 0
  {
    if n > 0 {
      assert seq(n, _ => Idle)[..n - 1] == seq(n - 1, _ => Idle);
      AllAlive(n - 1);
    }
  }

  /** In every state of every run: live workers = pills that can still stop one + pills swallowed. */
  lemma {:induction false} PillsExact(cfg: Config, n: nat, steps: seq<Step>, states: seq<State>, k: nat)
    requires IsServerRun(cfg, n, steps, states) && k < |states|
    ensures Formed(states[k])
    ensures Live(states[k].workers) == Effective(states[k]) + AllSwallowed(states[k])
  {
    if k == 0 {
      StartFormed(cfg, n);
      AllAlive(n);
    } else {
      PillsExact(cfg, n, steps, states, k - 1);
      assert StepsTo(steps, states, k - 1);
      StepKeepsFormed(states[k - 1], steps[k - 1]);
      StepKeepsPills(states[k - 1], steps[k - 1]);
    }
  }

  /** Once no pill can stop anyone any more, joining all workers succeeds exactly when none was swallowed. */
  lemma JoinsExactlyWhenNoneSwallowed(cfg: Config, n: nat, steps: seq<Step>, states: seq<State>, k: nat)
    requires IsServerRun(cfg, n, steps, states) && k < |states| && Effective(states[k]) == 0
    ensures (forall w :: 0 <= w < |states[k].workers| ==> states[k].workers[w].Stopped?) <==> AllSwallowed(states[k]) == 0
  {
    PillsExact(cfg, n, steps, states, k);
    NoneLive(states[k].workers);
  }

  lemma {:induction false} NoneLive(ws: seq<Worker>)
    ensures Live(ws) == 0 <==> forall w :: 0 <= w < |ws| ==> ws[w].Stopped?
  {
    if ws != [] {
      var n := |ws| - 1;
      NoneLive(ws[..n]);
      assert forall w :: 0 <= w < n ==> ws[..n][w] == ws[w];
    }
  }

  // ---------- a pill is swallowed ----------

  lemma Extend(cfg: Config, n: nat, steps: seq<Step>, states: seq<State>, step: Step)
    returns (steps': seq<Step>, states': seq<State>)
    requires IsServerRun(cfg, n, steps, states) && CanStep(states[|steps|], step)
    ensures IsServerRun(cfg, n, steps', states')
    ensures steps' == steps + [step] && states'[|steps'|] == Do(states[|steps|], step)
  {
    steps' := steps + [step];
    states' := states + [Do(states[|steps|], step)];
    forall i | 0 <= i < |steps'|
      ensures StepsTo(steps', states', i)
    {
      assert i < |steps| ==> StepsTo(steps, states, i);
    }
  }

  /** The destructor pushes one pill, undisturbed. */
  lemma PushOnePill(cfg: Config, n: nat, steps: seq<Step>, states: seq<State>)
    returns (steps': seq<Step>, states': seq<State>)
    requires IsServerRun(cfg, n, steps, states)
    requires var s := states[|steps|]; s.pill.None? && s.pillsLeft > 0 && s.q.lock.Free?
    ensures IsServerRun(cfg, n, steps', states')
    ensures var s := states[|steps|];
      states'[|steps'|] == s.(pillsLeft := s.pillsLeft - 1,
        q := s.q.(items := s.q.items + [Pill(s.now)], pushed := s.q.pushed + [Pill(s.now)], depth := s.q.depth + 1))
  {
    steps', states' := Extend(cfg, n, steps, states, MakePill);
    steps', states' := Extend(cfg, n, steps', states', PushPill);
    steps', states' := Extend(cfg, n, steps', states', Holder(CountPush));
    steps', states' := Extend(cfg, n, steps', states', Holder(EndPush));
  }

  /** Whoever pops takes one more item. */
  lemma TakeOne(cfg: Config, n: nat, steps: seq<Step>, states: seq<State>)
    returns (steps': seq<Step>, states': seq<State>)
    requires IsServerRun(cfg, n, steps, states) && Enabled(states[|steps|].q, PopOne)
    ensures IsServerRun(cfg, n, steps', states')
    ensures var s := states[|steps|];
      states'[|steps'|] == s.(q := s.q.(items := s.q.items[1..], depth := s.q.depth - 1,
        lock := Lock.Popping(s.q.lock.limit, s.q.lock.atStart, s.q.lock.batch + [s.q.items[0]], true)))
  {
    steps', states' := Extend(cfg, n, steps, states, Holder(PopOne));
    steps', states' := Extend(cfg, n, steps', states', Holder(CountPop));
  }

  const TWO_PILLS: seq<ClientRequest> := [Pill(0), Pill(0)]

  function BothQueued(cfg: Config): State {
    Start(cfg, 2).(pillsLeft := 0, q := QueueState(TWO_PILLS, 2, Free, TWO_PILLS, []))
  }

  function BothStopOne(cfg: Config): State {
    BothQueued(cfg).(q := QueueState([], 0, Free, TWO_PILLS, [TWO_PILLS]), workers := [Stopped, Idle])
  }

  lemma QueueBoth(cfg: Config) returns (steps: seq<Step>, states: seq<State>)
    ensures IsServerRun(cfg, 2, steps, states) && states[|steps|] == BothQueued(cfg)
  {
    steps, states := PushOnePill(cfg, 2, [], [Start(cfg, 2)]);
    steps, states := PushOnePill(cfg, 2, steps, states);
    assert [Pill(0)] + [Pill(0)] == TWO_PILLS;
  }

  lemma TakeBoth(cfg: Config) returns (steps: seq<Step>, states: seq<State>)
    ensures IsServerRun(cfg, 2, steps, states)
    ensures states[|steps|] == BothQueued(cfg).(
      q := QueueState([], 0, Lock.Popping(BATCH_SIZE, TWO_PILLS, TWO_PILLS, true), TWO_PILLS, []), workers := [Worker.Popping, Idle])
  {
    steps, states := QueueBoth(cfg);
    assert BothQueued(cfg).workers[0 := Worker.Popping] == [Worker.Popping, Idle];
    steps, states := Extend(cfg, 2, steps, states, Work(0, BeginPop));
    steps, states := TakeOne(cfg, 2, steps, states);
    steps, states := TakeOne(cfg, 2, steps, states);
    var q := states[|steps|].q;
    assert q.items == [] && q.lock.batch == TWO_PILLS && q.lock.atStart == TWO_PILLS;
  }

  lemma StopOne(cfg: Config) returns (steps: seq<Step>, states: seq<State>)
    ensures IsServerRun(cfg, 2, steps, states) && states[|steps|] == BothStopOne(cfg)
  {
    steps, states := TakeBoth(cfg);
    steps, states := Extend(cfg, 2, steps, states, Work(0, FinishPop));
    steps, states := Extend(cfg, 2, steps, states, Work(0, Inspect));
    assert Ids(TWO_PILLS) == {};
    assert states[|steps|].workers == [Stopped, Idle];
    assert states[|steps|].q.batches == [TWO_PILLS];
  }

  /** It happens: with two workers, one of them can take both pills in one batch. */
  lemma TwoPillsOneBatch(cfg: Config)
    ensures exists steps, states: seq<State> ::
      && IsServerRun(cfg, 2, steps, states)
      && Effective(states[|steps|]) == 0 && AllSwallowed(states[|steps|]) == 1
      && states[|steps|].workers == [Stopped, Idle]
  {
    var steps, states := StopOne(cfg);
    var s := states[|steps|];
    assert TWO_PILLS[1..] == [Pill(0)];
    PillsOne(Pill(0));
    assert s.q.batches[..0] == [];
    assert Swallowed(s.q.batches) == 1;
    assert s.workers[..1][..0] == [];
    assert AboutToStop(s.workers[..1]) == 0;
    assert Effective(s) == 0;
  }
}
