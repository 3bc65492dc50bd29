/** What every reachable state of the server looks like: who holds which request, and that every
    request is either a 128-token client or a pill. */
module PoolShape {
  import opened Options
  import opened Tokenizing
  import opened TokenizingProofs
  import opened Queueing
  import opened Batching
  import opened Pool

  /** A request met anywhere is a pill without promise or the request its promise belongs to. */
  predicate Known(s: State, r: ClientRequest) {
    match r.promise
    case None => PillShaped(r)
    case Some(h) => h in s.requests && s.requests[h] == r
  }

  ghost predicate AllKnown(s: State, rs: seq<ClientRequest>) {
    forall i :: 0 <= i < |rs| ==> Known(s, rs[i])
  }

  predicate ClientShaped(r: ClientRequest, h: nat) {
    Shaped(r) && r.tokens[0] == CLS && r.promise == Some(h)
  }

  ghost predicate HandlersFormed(s: State) {
    var hs := s.handlers;
    && (forall h :: h in s.requests ==> ClientShaped(s.requests[h], h) && h < hs.next)
    && (forall h :: h in hs.ready ==> ClientShaped(hs.ready[h], h) && h < hs.next && h !in s.requests)
    && (forall h :: h in hs.admitted ==> h < hs.next && h !in s.requests && h !in hs.ready)
    && (forall h :: h in hs.arrived ==> h < hs.next && h !in s.requests && h !in hs.ready && h !in hs.admitted)
    && (s.q.lock.Pushing? && s.q.lock.item.promise.Some? ==> s.q.lock.item.promise.value in hs.waiting)
    && (s.pill.Some? ==> PillShaped(s.pill.value) && s.pill.value.promise.None?)
  }

  predicate Bounded(s: State) {
    Active(s.handlers) <= s.cfg.maxHandlers
  }

  ghost predicate QueueFormed(s: State) {
    QueueInv(s.q) && AllKnown(s, s.q.items) && AllKnown(s, InHand(s.q))
  }

  ghost predicate WorkerFormed(s: State, x: Worker) {
    match x
    case Have(batch) => batch != [] && AllKnown(s, batch)
    case Filtering(batch, at, next, valid) =>
      && batch != [] && !IsPill(batch[0]) && AllKnown(s, batch)
      && next <= |batch| && valid == ValidIndices(batch[..next], at)
    case Inferring(batch, at, valid) =>
      batch != [] && !IsPill(batch[0]) && AllKnown(s, batch) && valid == ValidIndices(batch, at) && valid != []
    case Counting(batch, at, valid, _) =>
      && batch != [] && !IsPill(batch[0]) && AllKnown(s, batch) && valid == ValidIndices(batch, at)
      && TensorsFit(batch, at) && batch[0].modelId in s.cfg.model.loaded && valid != []
    case Replying(batch, at, valid, next) =>
      && batch != [] && !IsPill(batch[0]) && AllKnown(s, batch) && valid == ValidIndices(batch, at)
      && TensorsFit(batch, at) && batch[0].modelId in s.cfg.model.loaded && valid != [] && next <= |valid|
    case _ => true
  }

  ghost predicate WorkersFormed(s: State) {
    forall w :: 0 <= w < |s.workers| ==> WorkerFormed(s, s.workers[w])
  }

  predicate HasBatch(x: Worker) {
    !x.Idle? && !x.Popping? && !x.Stopped?
  }

  /** What a worker works on is a batch that the queue has handed out. */
  ghost predicate BatchesFormed(s: State) {
    forall w :: 0 <= w < |s.workers| && HasBatch(s.workers[w]) ==> s.workers[w].batch in s.q.batches
  }

  ghost predicate Formed(s: State) {
    Bounded(s) && HandlersFormed(s) && QueueFormed(s) && WorkersFormed(s) && BatchesFormed(s)
  }

  // ---------- the fixed shape reaches the pool ----------

  /** Tokenizing with the default length gives 128 ids that start with [CLS], so no client is a pill. */
  lemma BuiltRequestShaped(cfg: Config, h: nat, modelId: string, line: string, now: int)
    ensures ClientShaped(BuildRequest(cfg, h, modelId, line, now), h)
    ensures !IsPill(BuildRequest(cfg, h, modelId, line, now))
  {
    FixedShape(cfg.vocab, line, 128);
  }

  lemma KnownIsPillOrShaped(s: State, r: ClientRequest)
    requires HandlersFormed(s) && Known(s, r)
    ensures Shaped(r) || PillShaped(r)
    ensures IsPill(r) <==> r.promise.None?
  {
  }

  // ---------- one step ----------

  lemma BuildKeepsHandlers(s: State, h: nat, r: ClientRequest)
    requires HandlersFormed(s) && h in s.handlers.admitted && ClientShaped(r, h)
    ensures var hs := s.handlers;
      HandlersFormed(s.(handlers := hs.(admitted := hs.admitted - {h}, ready := hs.ready[h := r])))
  {
  }

  lemma PushKeepsHandlers(s: State, h: nat)
    requires HandlersFormed(s) && CanHandle(s, LockAndPush(h))
    ensures HandlersFormed(Handle(s, LockAndPush(h)))
  {
  }

  lemma ArriveKeepsHandlers(s: State)
    requires HandlersFormed(s) && CanHandle(s, Arrive)
    ensures HandlersFormed(Handle(s, Arrive))
  {
  }

  lemma RefuseKeepsHandlers(s: State, h: nat)
    requires HandlersFormed(s)
    ensures HandlersFormed(s.(handlers := s.handlers.(arrived := s.handlers.arrived - {h})))
  {
  }

  lemma AdmitKeepsHandlers(s: State, h: nat)
    requires HandlersFormed(s) && h in s.handlers.arrived
    ensures HandlersFormed(s.(handlers := s.handlers.(arrived := s.handlers.arrived - {h}, admitted := s.handlers.admitted + {h})))
  {
  }

  lemma CheckKeepsHandlers(s: State, h: nat)
    requires HandlersFormed(s) && CanHandle(s, CheckDepth(h))
    ensures HandlersFormed(Handle(s, CheckDepth(h)))
  {
    RefuseKeepsHandlers(s, h);
    AdmitKeepsHandlers(s, h);
  }

  lemma LeaveKeepsHandlers(s: State, h: nat)
    requires HandlersFormed(s) && CanHandle(s, Leave(h))
    ensures HandlersFormed(Handle(s, Leave(h)))
  {
  }

  lemma HandleKeepsHandlers(s: State, step: HandlerStep)
    requires HandlersFormed(s) && CanHandle(s, step)
    ensures HandlersFormed(Handle(s, step))
  {
    match step
    case Arrive => ArriveKeepsHandlers(s);
    case CheckDepth(h) => CheckKeepsHandlers(s, h);
    case Build(h, modelId, line) =>
      BuiltRequestShaped(s.cfg, h, modelId, line, s.now);
      BuildKeepsHandlers(s, h, BuildRequest(s.cfg, h, modelId, line, s.now));
    case LockAndPush(h) => PushKeepsHandlers(s, h);
    case Leave(h) => LeaveKeepsHandlers(s, h);
  }

  lemma StepKeepsBound(s: State, step: Step)
    requires Bounded(s) && HandlersFormed(s) && CanStep(s, step)
    ensures Bounded(Do(s, step))
  {
    match step
    case Handler(hstep) => HandleKeepsBound(s, hstep);
    case _ =>
  }

  lemma HandleKeepsBound(s: State, step: HandlerStep)
    requires Bounded(s) && HandlersFormed(s) && CanHandle(s, step)
    ensures Bounded(Handle(s, step))
  {
    match step
    case Arrive => Grows(s.handlers.arrived, s.handlers.next);
    case CheckDepth(h) => CheckKeepsBound(s.handlers, h);
    case Build(h, modelId, line) => BuildKeepsBound(s.handlers, h, BuildRequest(s.cfg, h, modelId, line, s.now));
    case LockAndPush(h) => PushKeepsBound(s.handlers, h);
    case Leave(h) => Shrinks(s.handlers.waiting, h);
  }

  lemma CheckKeepsBound(hs: Handlers, h: nat)
    requires h in hs.arrived
    ensures Active(hs.(arrived := hs.arrived - {h})) <= Active(hs)
    ensures Active(hs.(arrived := hs.arrived - {h}, admitted := hs.admitted + {h})) <= Active(hs)
  {
    Shrinks(hs.arrived, h);
    Grows(hs.admitted, h);
  }

  lemma BuildKeepsBound(hs: Handlers, h: nat, r: ClientRequest)
    requires h in hs.admitted
    ensures Active(hs.(admitted := hs.admitted - {h}, ready := hs.ready[h := r])) <= Active(hs)
  {
    Shrinks(hs.admitted, h);
    Grows(hs.ready.Keys, h);
    assert hs.ready[h := r].Keys == hs.ready.Keys + {h};
  }

  lemma PushKeepsBound(hs: Handlers, h: nat)
    requires h in hs.ready
    ensures Active(hs.(ready := hs.ready - {h}, waiting := hs.waiting + {h})) <= Active(hs)
  {
    Shrinks(hs.ready.Keys, h);
    Grows(hs.waiting, h);
    assert (hs.ready - {h}).Keys == hs.ready.Keys - {h};
  }

  lemma Grows(a: set<nat>, h: nat)
    ensures |a + {h}| <= |a| + 1
  {
  }

  lemma Shrinks(a: set<nat>, h: nat)
    requires h in a
    ensures |a - {h}| == |a| - 1
  {
  }

  lemma StepKeepsHandlers(s: State, step: Step)
    requires HandlersFormed(s) && CanStep(s, step)
    ensures HandlersFormed(Do(s, step))
  {
    if step.Handler? {
      HandleKeepsHandlers(s, step.hstep);
    } else {
      OthersLeaveHandlers(s, step);
      SameHandlers(s, Do(s, step));
    }
  }

  /** Nobody but a handler touches the handlers; the lock is never left to a client, and the pill is a pill. */
  lemma OthersLeaveHandlers(s: State, step: Step)
    requires CanStep(s, step) && !step.Handler? && HandlersFormed(s)
    ensures Do(s, step).requests == s.requests && Do(s, step).handlers == s.handlers
    ensures var lock := Do(s, step).q.lock;
      lock.Pushing? ==> lock.item.promise.None? || (s.q.lock.Pushing? && lock.item == s.q.lock.item)
    ensures Do(s, step).pill.Some? ==> PillShaped(Do(s, step).pill.value) && Do(s, step).pill.value.promise.None?
  {
  }

  lemma SameHandlers(s: State, s': State)
    requires HandlersFormed(s) && s'.requests == s.requests && s'.handlers == s.handlers
    requires s'.q.lock.Pushing? ==> s'.q.lock.item.promise.None? || (s.q.lock.Pushing? && s'.q.lock.item == s.q.lock.item)
    requires s'.pill.Some? ==> PillShaped(s'.pill.value) && s'.pill.value.promise.None?
    ensures HandlersFormed(s')
  {
  }

  /** No step takes a request back. */
  lemma RequestsStay(s: State, step: Step)
    requires HandlersFormed(s) && CanStep(s, step)
    ensures Do(s, step).cfg == s.cfg
    ensures forall g :: g in s.requests ==> g in Do(s, step).requests && Do(s, step).requests[g] == s.requests[g]
  {
    if step.Handler? && step.hstep.LockAndPush? {
      assert step.hstep.h !in s.requests;
    }
  }

  /** So a promise keeps its request. */
  lemma RequestsGrow(s: State, step: Step)
    requires HandlersFormed(s) && CanStep(s, step)
    ensures Do(s, step).cfg == s.cfg
    ensures forall r :: Known(s, r) ==> Known(Do(s, step), r)
  {
    RequestsStay(s, step);
  }

  /** The queue operations that a step can make, as operations of the queue alone. */
  lemma QueueMoves(s: State, step: Step) returns (moves: bool, qstep: QueueStep<ClientRequest>)
    requires CanStep(s, step)
    ensures if moves then Enabled(s.q, qstep) && Do(s, step).q == Apply(s.q, qstep) else Do(s, step).q == s.q
    ensures moves && qstep.PushItem? ==>
      || (s.pill.Some? && qstep.item == s.pill.value && step.PushPill?)
      || (step.Handler? && step.hstep.LockAndPush? && step.hstep.h in s.handlers.ready && qstep.item == s.handlers.ready[step.hstep.h])
  {
    moves, qstep := true, EndPop;
    match step
    case Handler(hstep) =>
      if hstep.LockAndPush? { qstep := PushItem(s.handlers.ready[hstep.h]); } else { moves := false; }
    case PushPill => qstep := PushItem(s.pill.value);
    case Holder(q) => qstep := q;
    case Work(w, wstep) =>
      if wstep.BeginPop? { qstep := StartPop(BATCH_SIZE); } else { moves := wstep.FinishPop?; }
    case _ => moves := false;
  }

  lemma ApplyKeepsKnown(s: State, q: QueueState<ClientRequest>, qstep: QueueStep<ClientRequest>)
    requires AllKnown(s, q.items) && AllKnown(s, InHand(q)) && Enabled(q, qstep)
    requires qstep.PushItem? ==> Known(s, qstep.item)
    ensures AllKnown(s, Apply(q, qstep).items) && AllKnown(s, InHand(Apply(q, qstep)))
  {
  }

  lemma StepKeepsQueue(s: State, step: Step)
    requires HandlersFormed(s) && QueueFormed(s) && CanStep(s, step)
    ensures QueueFormed(Do(s, step))
  {
    RequestsGrow(s, step);
    var moves, qstep := QueueMoves(s, step);
    if moves {
      StepKeepsQueueInv(s.q, qstep);
      ApplyKeepsKnown(Do(s, step), s.q, qstep);
    }
  }

  lemma FilterOne(batch: seq<ClientRequest>, at: int, next: nat)
    requires next < |batch|
    ensures ValidIndices(batch[..next + 1], at)
      == ValidIndices(batch[..next], at) + if IsStale(batch[next], at) then [] else [next]
  {
    assert batch[..next + 1][..next] == batch[..next];
  }

  /** The worker that moves stays formed. */
  lemma MovedFormed(s: State, x: Worker, step: WorkerStep)
    requires QueueFormed(s) && WorkerFormed(s, x) && CanWork(s, x, step)
    ensures WorkerFormed(s, Moved(s, x, step))
  {
    match step
    case Filter => FilterFormed(s, x);
    case EndFilter => assert x.batch[..|x.batch|] == x.batch;
    case Inspect => assert x.batch[..0] == [];
    case _ =>
  }

  lemma FilterFormed(s: State, x: Worker)
    requires WorkerFormed(s, x) && CanWork(s, x, Filter)
    ensures WorkerFormed(s, Moved(s, x, Filter))
  {
    FilterOne(x.batch, x.at, x.next);
    var y := Moved(s, x, Filter);
    assert y.valid == ValidIndices(x.batch[..x.next + 1], x.at);
  }

  lemma WorkersAfter(s: State, step: Step)
    requires CanStep(s, step)
    ensures Do(s, step).workers == if step.Work? then s.workers[step.w := Moved(s, s.workers[step.w], step.wstep)] else s.workers
  {
  }

  lemma NextWorkerFormed(s: State, step: Step, w: nat)
    requires WorkersFormed(s) && QueueFormed(s) && CanStep(s, step) && w < |Do(s, step).workers|
    ensures WorkerFormed(s, Do(s, step).workers[w])
  {
    WorkersAfter(s, step);
    assert WorkerFormed(s, s.workers[w]);
    if step.Work? && step.w == w {
      MovedFormed(s, s.workers[w], step.wstep);
    }
  }

  lemma StepKeepsWorkers(s: State, step: Step)
    requires Formed(s) && CanStep(s, step)
    ensures WorkersFormed(Do(s, step))
  {
    var s' := Do(s, step);
    RequestsGrow(s, step);
    forall w | 0 <= w < |s'.workers|
      ensures WorkerFormed(s', s'.workers[w])
    {
      NextWorkerFormed(s, step, w);
      StaysFormed(s, s', s'.workers[w]);
    }
  }

  lemma StaysFormed(s: State, s': State, x: Worker)
    requires WorkerFormed(s, x) && s'.cfg == s.cfg
    requires forall r :: Known(s, r) ==> Known(s', r)
    ensures WorkerFormed(s', x)
  {
  }

  /** No batch handed out is forgotten. */
  lemma BatchesGrow(s: State, step: Step)
    requires CanStep(s, step)
    ensures s.q.batches <= Do(s, step).q.batches
  {
  }

  lemma MovedBatch(s: State, x: Worker, step: WorkerStep)
    requires CanWork(s, x, step) && HasBatch(Moved(s, x, step))
    ensures if step.FinishPop? then Moved(s, x, step).batch == s.q.lock.batch && Queued(s, x, step).batches == s.q.batches + [s.q.lock.batch]
      else HasBatch(x) && Moved(s, x, step).batch == x.batch
  {
  }

  lemma StepKeepsBatches(s: State, step: Step)
    requires BatchesFormed(s) && CanStep(s, step)
    ensures BatchesFormed(Do(s, step))
  {
    BatchesGrow(s, step);
    var s' := Do(s, step);
    if step.Work? {
      var x := s.workers[step.w];
      if HasBatch(Moved(s, x, step.wstep)) {
        MovedBatch(s, x, step.wstep);
        assert step.wstep.FinishPop? ==> s'.q.batches[|s.q.batches|] == s.q.lock.batch;
        assert Moved(s, x, step.wstep).batch in s'.q.batches;
      }
    }
  }

  lemma StepKeepsFormed(s: State, step: Step)
    requires Formed(s) && CanStep(s, step)
    ensures Formed(Do(s, step))
  {
    StepKeepsBound(s, step);
    StepKeepsHandlers(s, step);
    StepKeepsQueue(s, step);
    StepKeepsWorkers(s, step);
    StepKeepsBatches(s, step);
  }

  lemma StartFormed(cfg: Config, n: nat)
    ensures Formed(Start(cfg, n))
  {
  }
}
