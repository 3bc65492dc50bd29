/** One clock reading for a whole batch: requests that were popped together are judged stale or fresh by the same time. */
module PoolReadings {
  import opened Options
  import opened Queueing
  import opened Batching
  import opened Pool
  import opened PoolShape
  import opened PoolPromises

  // ---------- every client is in one batch ----------

  ghost predicate PushedOnce(s: State) {
    forall h: nat :: Count(s.q.pushed, h) == if h in s.requests then 1 else 0
  }

  lemma StepKeepsPushedOnce(s: State, step: Step)
    requires HandlersFormed(s) && PushedOnce(s) && CanStep(s, step)
    ensures PushedOnce(Do(s, step))
  {
    forall h: nat
      ensures Count(Do(s, step).q.pushed, h) == if h in Do(s, step).requests then 1 else 0
    {
      StepCountsPushed(s, step, h);
    }
  }

  lemma StepCountsPushed(s: State, step: Step, h: nat)
    requires HandlersFormed(s) && CanStep(s, step)
    requires Count(s.q.pushed, h) == if h in s.requests then 1 else 0
    ensures Count(Do(s, step).q.pushed, h) == if h in Do(s, step).requests then 1 else 0
  {
    match step
    case Handler(hstep) => HandleCountsPushed(s, hstep, h);
    case PushPill => CountMore(s.q.pushed, s.pill.value, h);
    case _ =>
  }

  lemma HandleCountsPushed(s: State, step: HandlerStep, h: nat)
    requires HandlersFormed(s) && CanHandle(s, step)
    requires Count(s.q.pushed, h) == if h in s.requests then 1 else 0
    ensures Count(Handle(s, step).q.pushed, h) == if h in Handle(s, step).requests then 1 else 0
  {
    if step.LockAndPush? {
      CountMore(s.q.pushed, s.handlers.ready[step.h], h);
    } else {
      OtherHandlesKeep(s, step);
    }
  }

  lemma CountMore(rs: seq<ClientRequest>, r: ClientRequest, h: nat)
    ensures Count(rs + [r], h) == Count(rs, h) + if r.promise == Some(h) then 1 else 0
  {
    CountConcat(rs, [r], h);
    CountOne(r, h);
  }

  lemma {:induction false} CountMember(rs: seq<ClientRequest>, i: nat, h: nat)
    requires i < |rs| && rs[i].promise == Some(h)
    ensures Count(rs, h) > 0
  {
    var n := |rs| - 1;
    if i < n {
      CountMember(rs[..n], i, h);
    }
  }

  lemma {:induction false} CountFlatten(batches: seq<seq<ClientRequest>>, j: nat, h: nat)
    requires j < |batches|
    ensures Count(Flatten(batches), h) >= Count(batches[j], h)
  {
    var n := |batches| - 1;
    CountConcat(Flatten(batches[..n]), batches[n], h);
    if j < n {
      CountFlatten(batches[..n], j, h);
    }
  }

  /** Two batches handed out cannot both hold client `h`. */
  lemma {:induction false} CountTwo(batches: seq<seq<ClientRequest>>, i: nat, j: nat, h: nat)
    requires i < j < |batches|
    ensures Count(Flatten(batches), h) >= Count(batches[i], h) + Count(batches[j], h)
  {
    var n := |batches| - 1;
    CountConcat(Flatten(batches[..n]), batches[n], h);
    if j < n {
      CountTwo(batches[..n], i, j, h);
    } else {
      CountFlatten(batches[..n], i, h);
    }
  }

  lemma SameBatch(s: State, r: ClientRequest, b: seq<ClientRequest>, c: seq<ClientRequest>)
    requires PushedOnce(s) && QueueInv(s.q) && r.promise.Some? && r in b && r in c && b in s.q.batches && c in s.q.batches
    ensures b == c
  {
    var h := r.promise.value;
    var i :| 0 <= i < |s.q.batches| && s.q.batches[i] == b;
    var j :| 0 <= j < |s.q.batches| && s.q.batches[j] == c;
    var k :| 0 <= k < |b| && b[k] == r;
    var l :| 0 <= l < |c| && c[l] == r;
    CountMember(b, k, h);
    CountMember(c, l, h);
    CountConcat(Flatten(s.q.batches), InHand(s.q), h);
    CountConcat(Flatten(s.q.batches) + InHand(s.q), s.q.items, h);
    if i < j {
      CountTwo(s.q.batches, i, j, h);
    } else if j < i {
      CountTwo(s.q.batches, j, i, h);
    }
  }

  // ---------- a batch is read once ----------

  function Unread(x: Worker): seq<ClientRequest> {
    if x.Have? then x.batch else []
  }

  function UnreadCount(ws: seq<Worker>, h: nat): nat {
    if ws == [] then 0 else UnreadCount(ws[..|ws| - 1], h) + Count(Unread(ws[|ws| - 1]), h)
  }

  lemma {:induction false} UnreadUpdate(ws: seq<Worker>, w: nat, x: Worker, h: nat)
    requires w < |ws|
    ensures UnreadCount(ws[w := x], h) + Count(Unread(ws[w]), h) == UnreadCount(ws, h) + Count(Unread(x), h)
    ensures Count(Unread(ws[w]), h) <= UnreadCount(ws, h)
  {
    var n := |ws| - 1;
    if w < n {
      UnreadUpdate(ws[..n], w, x, h);
      assert ws[w := x][..n] == ws[..n][w := x];
    } else {
      assert ws[w := x][..n] == ws[..n];
    }
  }

  lemma {:induction false} UnreadIsOwed(ws: seq<Worker>, h: nat)
    ensures UnreadCount(ws, h) <= OwedCount(ws, h)
  {
    if ws != [] {
      UnreadIsOwed(ws[..|ws| - 1], h);
    }
  }

  /** How often client `h` is still waiting for the clock to be read. */
  function Waiting(s: State, h: nat): nat {
    Count(s.q.items, h) + Count(InHand(s.q), h) + UnreadCount(s.workers, h)
  }

  /** What a worker's step does to those that wait. */
  lemma WorkWaits(s: State, w: nat, step: WorkerStep, h: nat)
    requires CanStep(s, Work(w, step))
    ensures var s' := Do(s, Work(w, step));
      if step.Inspect? then Waiting(s', h) == Waiting(s, h) - Count(s.workers[w].batch, h) else Waiting(s', h) == Waiting(s, h)
  {
    var x := s.workers[w];
    UnreadUpdate(s.workers, w, Moved(s, x, step), h);
    TakenLeavesLock(s, x, step);
    UnreadMoved(s, x, step);
  }

  lemma UnreadMoved(s: State, x: Worker, step: WorkerStep)
    requires CanWork(s, x, step)
    ensures Unread(x) == if step.Inspect? then x.batch else []
    ensures Unread(Moved(s, x, step)) == Taken(s, step)
  {
  }

  lemma HolderWaits(q: QueueState<ClientRequest>, qstep: QueueStep<ClientRequest>, h: nat)
    requires Enabled(q, qstep) && (qstep.CountPush? || qstep.EndPush? || qstep.PopOne? || qstep.CountPop?)
    ensures Count(Apply(q, qstep).items, h) + Count(InHand(Apply(q, qstep)), h) == Count(q.items, h) + Count(InHand(q), h)
  {
    if qstep.PopOne? {
      var x, rest := q.items[0], q.items[1..];
      assert q.items == [x] + rest;
      CountConcat([x], rest, h);
      CountConcat(q.lock.batch, [x], h);
    }
  }

  lemma PushPillWaits(s: State, h: nat)
    requires HandlersFormed(s) && CanStep(s, PushPill)
    ensures Waiting(Do(s, PushPill), h) == Waiting(s, h)
  {
    CountMore(s.q.items, s.pill.value, h);
  }

  /** Nobody who has pushed starts to wait again. */
  lemma StepWaits(s: State, step: Step, h: nat)
    requires HandlersFormed(s) && CanStep(s, step) && h in s.requests
    ensures Waiting(Do(s, step), h) <= Waiting(s, h)
  {
    match step
    case Work(w, wstep) => WorkWaits(s, w, wstep, h);
    case Holder(qstep) => HolderWaits(s.q, qstep, h);
    case Handler(hstep) => HandleWaits(s, hstep, h);
    case PushPill => PushPillWaits(s, h);
    case _ =>
  }

  lemma HandleWaits(s: State, step: HandlerStep, h: nat)
    requires HandlersFormed(s) && CanHandle(s, step) && h in s.requests
    ensures Waiting(Handle(s, step), h) == Waiting(s, h)
  {
    if step.LockAndPush? {
      CountMore(s.q.items, s.handlers.ready[step.h], h);
    } else {
      OtherHandlesKeep(s, step);
    }
  }

  /** No client of a batch that has been read is waiting. */
  ghost predicate ReadOnce(s: State) {
    forall b: seq<ClientRequest>, i: nat :: b in s.readings && i < |b| && b[i].promise.Some? ==>
      b[i].promise.value in s.requests && Waiting(s, b[i].promise.value) == 0
  }

  /** The batch that a worker is about to read has not been read, and its clients wait nowhere else. */
  lemma NotReadYet(s: State, w: nat)
    requires Formed(s) && Conserved(s) && ReadOnce(s) && CanStep(s, Work(w, Inspect)) && !IsPill(s.workers[w].batch[0])
    ensures s.workers[w].batch !in s.readings
  {
    var batch := s.workers[w].batch;
    assert WorkerFormed(s, s.workers[w]);
    assert Known(s, batch[0]);
    KnownIsPillOrShaped(s, batch[0]);
    CountMember(batch, 0, batch[0].promise.value);
    UnreadUpdate(s.workers, w, Idle, batch[0].promise.value);
  }

  lemma InspectWaits(s: State, w: nat, i: nat)
    requires Formed(s) && Conserved(s) && CanStep(s, Work(w, Inspect))
    requires i < |s.workers[w].batch| && s.workers[w].batch[i].promise.Some?
    ensures var h := s.workers[w].batch[i].promise.value;
      h in s.requests && Waiting(Do(s, Work(w, Inspect)), h) == 0
  {
    var batch := s.workers[w].batch;
    var h := batch[i].promise.value;
    assert WorkerFormed(s, s.workers[w]);
    assert Known(s, batch[i]);
    assert Places(s, h) == 1;
    CountMember(batch, i, h);
    UnreadIsOwed(s.workers, h);
    WorkWaits(s, w, Inspect, h);
  }

  lemma StepKeepsReadOnce(s: State, step: Step)
    requires Formed(s) && Conserved(s) && ReadOnce(s) && CanStep(s, step)
    ensures ReadOnce(Do(s, step))
  {
    var s' := Do(s, step);
    RequestsStay(s, step);
    forall b: seq<ClientRequest>, i: nat | b in s'.readings && i < |b| && b[i].promise.Some?
      ensures b[i].promise.value in s'.requests && Waiting(s', b[i].promise.value) == 0
    {
      if b in s.readings {
        StepWaits(s, step, b[i].promise.value);
      } else {
        NewReading(s, step, b);
        InspectWaits(s, step.w, i);
      }
    }
  }

  lemma NewReading(s: State, step: Step, b: seq<ClientRequest>)
    requires CanStep(s, step) && b in Do(s, step).readings && b !in s.readings
    ensures step.Work? && step.wstep.Inspect? && s.workers[step.w].batch == b && !IsPill(b[0])
  {
  }

  // ---------- who judges by which reading ----------

  predicate Judging(x: Worker) {
    x.Filtering? || x.Inferring? || x.Counting? || x.Replying?
  }

  /** The batch and the reading that a verdict was given by; a pill at the head stops a worker before it reads the clock. */
  function ReadBy(v: Verdict): Option<(seq<ClientRequest>, int)> {
    match v
    case Stale(at, batch) => Some((batch, at))
    case Fresh(at, batch, _) => Some((batch, at))
    case Abandoned(batch, why) => if why.HeadPill? then None else Some((batch, why.at))
  }

  predicate ByReading(s: State, v: Verdict) {
    ReadBy(v).Some? ==> ReadBy(v).value.0 in s.readings && s.readings[ReadBy(v).value.0] == ReadBy(v).value.1
  }

  ghost predicate AllByReading(s: State) {
    && (forall w :: 0 <= w < |s.workers| && Judging(s.workers[w]) ==>
          s.workers[w].batch in s.readings && s.readings[s.workers[w].batch] == s.workers[w].at)
    && (forall h :: h in s.verdicts ==> ByReading(s, s.verdicts[h]))
  }

  lemma ReadingsAfter(s: State, step: Step)
    requires CanStep(s, step)
    ensures Do(s, step).readings == if step.Work? then Read(s, s.workers[step.w], step.wstep) else s.readings
  {
  }

  /** Readings are never taken back. */
  lemma ReadingsStay(s: State, step: Step)
    requires Formed(s) && Conserved(s) && ReadOnce(s) && CanStep(s, step)
    ensures forall b :: b in s.readings ==> b in Do(s, step).readings && Do(s, step).readings[b] == s.readings[b]
  {
    ReadingsAfter(s, step);
    if step.Work? && step.wstep.Inspect? && !IsPill(s.workers[step.w].batch[0]) {
      NotReadYet(s, step.w);
    }
  }

  lemma MovedByReading(s: State, x: Worker, step: WorkerStep)
    requires CanWork(s, x, step) && Judging(Moved(s, x, step))
    ensures if step.Inspect? then
        Read(s, x, step) == s.readings[x.batch := s.now] && Moved(s, x, step).batch == x.batch && Moved(s, x, step).at == s.now
      else Judging(x) && Moved(s, x, step).batch == x.batch && Moved(s, x, step).at == x.at
  {
  }

  lemma EndedByReading(s: State, x: Worker, step: WorkerStep, h: nat)
    requires CanWork(s, x, step) && h in Ids(Ended(s, x, step).0)
    requires Judging(x) ==> x.batch in s.readings && s.readings[x.batch] == x.at
    ensures ByReading(s, Ended(s, x, step).1)
  {
  }

  lemma WorkersByReading(s: State, step: Step, w: nat)
    requires AllByReading(s) && CanStep(s, step) && w < |Do(s, step).workers| && Judging(Do(s, step).workers[w])
    requires forall b :: b in s.readings ==> b in Do(s, step).readings && Do(s, step).readings[b] == s.readings[b]
    ensures var s' := Do(s, step); s'.workers[w].batch in s'.readings && s'.readings[s'.workers[w].batch] == s'.workers[w].at
  {
    ReadingsAfter(s, step);
    WorkersAfter(s, step);
    if step.Work? && step.w == w {
      MovedByReading(s, s.workers[w], step.wstep);
    }
  }

  lemma VerdictsByReading(s: State, step: Step, h: nat)
    requires AllByReading(s) && CanStep(s, step) && h in Do(s, step).verdicts
    ensures ByReading(s, Do(s, step).verdicts[h])
  {
    VerdictComesFrom(s, step, h);
    if Gives(s, step, h) {
      EndedByReading(s, s.workers[step.w], step.wstep, h);
    }
  }

  lemma StepKeepsByReading(s: State, step: Step)
    requires Formed(s) && Conserved(s) && ReadOnce(s) && AllByReading(s) && CanStep(s, step)
    ensures AllByReading(Do(s, step))
  {
    var s' := Do(s, step);
    ReadingsStay(s, step);
    forall w | 0 <= w < |s'.workers| && Judging(s'.workers[w])
      ensures s'.workers[w].batch in s'.readings && s'.readings[s'.workers[w].batch] == s'.workers[w].at
    {
      WorkersByReading(s, step, w);
    }
    forall h | h in s'.verdicts
      ensures ByReading(s', s'.verdicts[h])
    {
      VerdictsByReading(s, step, h);
    }
  }

  // ---------- every run ----------

  ghost predicate Readable(s: State) {
    PushedOnce(s) && ReadOnce(s) && AllByReading(s)
  }

  lemma {:induction false} RunKeepsReadings(cfg: Config, n: nat, steps: seq<Step>, states: seq<State>, k: nat)
    requires IsServerRun(cfg, n, steps, states) && k < |states|
    ensures Readable(states[k])
  {
    if k > 0 {
      RunKeepsReadings(cfg, n, steps, states, k - 1);
      RunKeepsPromises(cfg, n, steps, states, k - 1);
      assert StepsTo(steps, states, k - 1);
      var step := steps[k - 1];
      StepKeepsPushedOnce(states[k - 1], step);
      StepKeepsReadOnce(states[k - 1], step);
      StepKeepsByReading(states[k - 1], step);
    }
  }

  /** In every run, requests popped together are judged together: if the batch of one verdict holds the request of another,
      both verdicts name the same batch and, unless a pill at its head ended it unread, the same clock reading. */
  lemma OneReadingPerBatch(cfg: Config, n: nat, steps: seq<Step>, states: seq<State>, k: nat, g: nat, h: nat)
    requires IsServerRun(cfg, n, steps, states) && k < |states| && g in states[k].verdicts && h in states[k].verdicts
    requires g in states[k].requests && states[k].requests[g] in states[k].verdicts[h].batch
    ensures states[k].verdicts[g].batch == states[k].verdicts[h].batch
    ensures ReadBy(states[k].verdicts[g]).Some? && ReadBy(states[k].verdicts[h]).Some? ==>
      ReadBy(states[k].verdicts[g]) == ReadBy(states[k].verdicts[h])
  {
    var s := states[k];
    RunKeepsPromises(cfg, n, steps, states, k);
    RunKeepsReadings(cfg, n, steps, states, k);
    assert Justified(s, g, s.verdicts[g]) && Justified(s, h, s.verdicts[h]);
    SameBatch(s, s.requests[g], s.verdicts[g].batch, s.verdicts[h].batch);
    assert ByReading(s, s.verdicts[g]) && ByReading(s, s.verdicts[h]);
  }
}
