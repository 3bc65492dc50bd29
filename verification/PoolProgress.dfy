/** No worker is ever stuck: which steps it can take, in every state that a run can reach. */
module PoolProgress {
  import opened Queueing
  import opened Pool
  import opened PoolShape
  import opened PoolPromises
  import opened PoolShutdown
  import opened PoolJoin
  import opened PoolRequests

  /** What a worker can do next, in words of its batch. Whoever pops is served by the holder's steps until the queue is
      empty or the batch has 32 requests. */
  ghost predicate Possible(s: State, x: Worker, step: WorkerStep) {
    match x
    case Idle => step.BeginPop? && s.q.lock.Free?
    case Popping => step.FinishPop? && s.q.lock.Popping? && s.q.lock.counted && (s.q.items == [] || |s.q.lock.batch| == 32)
    case Stopped => false
    case Have(_) => step.Inspect?
    case Filtering(batch, _, next, _) => if next < |batch| then step.Filter? else step.EndFilter?
    case Inferring(batch, at, _) => step.Throw? || (step.RunReturns? && !FreshPill(batch, at) && batch != [] && batch[0].modelId in s.cfg.model.loaded)
    case Counting(_, _, _, inWindow) => if inWindow then step.AddToTotal? else step.AddToWindow?
    case Replying(_, _, valid, next) => if next < |valid| then step.SendReply? else step.EndReplies?
  }

  lemma PossibleExactly(s: State, x: Worker, step: WorkerStep)
    requires HandlersFormed(s) && QueueFormed(s) && WorkerFormed(s, x)
    requires x.Popping? ==> s.q.lock.Popping? && s.q.lock.limit == 32
    ensures CanWork(s, x, step) <==> Possible(s, x, step)
  {
    match x
    case Inferring(_, _, _) => InferringExactly(s, x, step);
    case Replying(_, _, _, _) => ReplyingExactly(s, x, step);
    case _ =>
  }

  lemma InferringExactly(s: State, x: Worker, step: WorkerStep)
    requires HandlersFormed(s) && x.Inferring? && WorkerFormed(s, x)
    ensures CanWork(s, x, step) <==> Possible(s, x, step)
  {
    FitMeansNoFreshPill(s, x.batch, x.at);
  }

  lemma ReplyingExactly(s: State, x: Worker, step: WorkerStep)
    requires x.Replying? && WorkerFormed(s, x)
    ensures CanWork(s, x, step) <==> Possible(s, x, step)
  {
  }

  lemma StepsExactly(s: State, w: nat, step: WorkerStep)
    requires Formed(s) && w < |s.workers|
    requires s.workers[w].Popping? ==> s.q.lock.Popping? && s.q.lock.limit == 32
    ensures CanStep(s, Work(w, step)) <==> Possible(s, s.workers[w], step)
  {
    assert WorkerFormed(s, s.workers[w]);
    PossibleExactly(s, s.workers[w], step);
  }

  lemma PopperHoldsLock(cfg: Config, n: nat, steps: seq<Step>, states: seq<State>, k: nat, w: nat)
    requires IsServerRun(cfg, n, steps, states) && k < |states| && w < |states[k].workers| && states[k].workers[w].Popping?
    ensures states[k].q.lock.Popping? && states[k].q.lock.limit == 32 && |states[k].q.lock.batch| <= 32
  {
    RunKeepsPromises(cfg, n, steps, states, k);
    WorkersStay(cfg, n, steps, states, k);
    PopperAt(cfg, n, steps, states, k);
    assert IsPopping(states[k], w);
  }

  /** In every state of every run the steps that a worker can take are exactly the possible ones. */
  lemma WorkerStepsExactly(cfg: Config, n: nat, steps: seq<Step>, states: seq<State>, k: nat, w: nat, step: WorkerStep)
    requires IsServerRun(cfg, n, steps, states) && k < |states| && w < |states[k].workers|
    ensures states[k].workers[w].Popping? ==> states[k].q.lock.Popping?
    ensures CanStep(states[k], Work(w, step)) <==> Possible(states[k], states[k].workers[w], step)
  {
    if states[k].workers[w].Popping? {
      PopperHoldsLock(cfg, n, steps, states, k, w);
    }
    RunKeepsPromises(cfg, n, steps, states, k);
    StepsExactly(states[k], w, step);
  }

  /** So a worker is never stuck: it has stopped, waits for the lock, or can step, if need be after a step that its own pop makes
      while it holds the lock. */
  lemma NeverStuck(cfg: Config, n: nat, steps: seq<Step>, states: seq<State>, k: nat, w: nat) returns (step: Step)
    requires IsServerRun(cfg, n, steps, states) && k < |states| && w < |states[k].workers|
    requires !states[k].workers[w].Stopped? && (states[k].workers[w].Idle? ==> states[k].q.lock.Free?)
    ensures CanStep(states[k], step)
    ensures (step.Work? && step.w == w) || (states[k].workers[w].Popping? && step.Holder?)
  {
    var s, x := states[k], states[k].workers[w];
    var own := match x
      case Idle => BeginPop
      case Have(_) => Inspect
      case Filtering(batch, _, next, _) => if next < |batch| then Filter else EndFilter
      case Inferring(_, _, _) => Throw
      case Counting(_, _, _, inWindow) => if inWindow then AddToTotal else AddToWindow
      case Replying(_, _, valid, next) => if next < |valid| then SendReply else EndReplies
      case _ => FinishPop;
    WorkerStepsExactly(cfg, n, steps, states, k, w, own);
    step := Work(w, own);
    if x.Popping? && !Possible(s, x, FinishPop) {
      PopperHoldsLock(cfg, n, steps, states, k, w);
      step := Holder(if s.q.lock.counted then PopOne else CountPop);
    }
  }

  // ---------- the destructor and the reader ----------

  /** Pills pushed and pills still to be pushed make up one for each worker, and a pill in hand is one still to be pushed. */
  ghost predicate PillsMadeUp(s: State, n: nat) {
    Pills(s.q.pushed) + s.pillsLeft == n && (s.pill.Some? ==> s.pillsLeft > 0)
  }

  lemma StepPillsLeft(s: State, step: Step)
    requires CanStep(s, step)
    ensures Do(s, step).pillsLeft == s.pillsLeft - if step.PushPill? then 1 else 0
    ensures Do(s, step).pill.Some? ==> !step.PushPill? && (s.pill.Some? || s.pillsLeft > 0)
  {
  }

  lemma StepKeepsMadeUp(s: State, step: Step, n: nat)
    requires HandlersFormed(s) && CanStep(s, step) && PillsMadeUp(s, n)
    ensures PillsMadeUp(Do(s, step), n)
  {
    StepPillsLeft(s, step);
    PushedOne(s, step);
    match step
    case PushPill => PushPills(s.q.pushed, s.pill.value);
    case Handler(hstep) => if hstep.LockAndPush? { PushPills(s.q.pushed, s.handlers.ready[hstep.h]); }
    case _ =>
  }

  lemma {:induction false} MadeUpAlways(cfg: Config, n: nat, steps: seq<Step>, states: seq<State>, k: nat)
    requires IsServerRun(cfg, n, steps, states) && k < |states|
    ensures PillsMadeUp(states[k], n)
  {
    if k > 0 {
      MadeUpAlways(cfg, n, steps, states, k - 1);
      RunKeepsPromises(cfg, n, steps, states, k - 1);
      assert StepsTo(steps, states, k - 1);
      StepKeepsMadeUp(states[k - 1], steps[k - 1], n);
    }
  }

  /** In every state of every run: the destructor makes a pill exactly while it has none in hand and has pushed fewer than there are
      workers, and pushes it exactly when the lock is free. Time can always pass, and the reader can always take what there is. */
  lemma OthersStepExactly(cfg: Config, n: nat, steps: seq<Step>, states: seq<State>, k: nat, d: nat)
    requires IsServerRun(cfg, n, steps, states) && k < |states|
    ensures CanStep(states[k], MakePill) <==> states[k].pill.None? && Pills(states[k].q.pushed) < n
    ensures CanStep(states[k], PushPill) <==> states[k].pill.Some? && states[k].q.lock.Free?
    ensures CanStep(states[k], Tick(d)) && CanStep(states[k], TakeWindow) && CanStep(states[k], TakeDropped)
  {
    MadeUpAlways(cfg, n, steps, states, k);
  }
}
