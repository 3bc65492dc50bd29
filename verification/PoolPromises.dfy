/** Promises: in every state of every run each pushed request is in exactly one place, is ended at
    most once, and what its promise was given is what it should have been given. */
module PoolPromises {
  import opened Options
  import opened Queueing
  import opened Batching
  import opened Pool
  import opened PoolShape

  // ---------- counting promises ----------

  /** How many requests of `rs` have promise `h`. */
  function Count(rs: seq<ClientRequest>, h: nat): nat {
    if rs == [] then 0
    else
      var n := |rs| - 1;
      Count(rs[..n], h) + if rs[n].promise == Some(h) then 1 else 0
  }

  lemma {:induction false} CountConcat(a: seq<ClientRequest>, b: seq<ClientRequest>, h: nat)
    ensures Count(a + b, h) == Count(a, h) + Count(b, h)
  {
    if b == [] {
      assert a + b == a;
    } else {
      var n := |b| - 1;
      CountConcat(a, b[..n], h);
      assert (a + b)[..|a| + n] == a + b[..n];
    }
  }

  lemma CountOne(r: ClientRequest, h: nat)
    ensures Count([r], h) == if r.promise == Some(h) then 1 else 0
  {
    assert [r][..0] == [];
  }

  lemma {:induction false} CountPositive(rs: seq<ClientRequest>, h: nat)
    ensures h in Ids(rs) <==> Count(rs, h) > 0
  {
    if rs != [] {
      var n := |rs| - 1;
      CountPositive(rs[..n], h);
      if i :| 0 <= i < n && rs[..n][i].promise == Some(h) {
        assert rs[i].promise == Some(h);
      }
      if i :| 0 <= i < |rs| && rs[i].promise == Some(h) {
        assert i == n || rs[..n][i].promise == Some(h);
      }
    }
  }

  lemma {:induction false} PickConcat(batch: seq<ClientRequest>, a: seq<nat>, b: seq<nat>)
    ensures Pick(batch, a + b) == Pick(batch, a) + Pick(batch, b)
  {
    if b == [] {
      assert a + b == a;
    } else {
      var n := |b| - 1;
      PickConcat(batch, a, b[..n]);
      assert (a + b)[..|a| + n] == a + b[..n];
      Associates(Pick(batch, a), Pick(batch, b[..n]), if b[n] < |batch| then [batch[b[n]]] else []);
    }
  }

  lemma PickOne(batch: seq<ClientRequest>, i: nat)
    requires i < |batch|
    ensures Pick(batch, [i]) == [batch[i]]
  {
    assert [i][..0] == [];
  }

  /** How many requests with promise `h` the workers owe an answer. */
  function OwedCount(ws: seq<Worker>, h: nat): nat {
    if ws == [] then 0
    else
      var n := |ws| - 1;
      OwedCount(ws[..n], h) + Count(Owed(ws[n]), h)
  }

  lemma {:induction false} OwedCountUpdate(ws: seq<Worker>, w: nat, x: Worker, h: nat)
    requires w < |ws|
    ensures OwedCount(ws[w := x], h) + Count(Owed(ws[w]), h) == OwedCount(ws, h) + Count(Owed(x), h)
  {
    var n := |ws| - 1;
    if w < n {
      OwedCountUpdate(ws[..n], w, x, h);
      assert ws[w := x][..n] == ws[..n][w := x];
    } else {
      assert ws[w := x][..n] == ws[..n];
    }
  }

  // ---------- conservation ----------

  /** In how many places request `h` is: queue, batch being popped, workers, ended ones. */
  function Places(s: State, h: nat): nat {
    Count(s.q.items, h) + Count(InHand(s.q), h) + OwedCount(s.workers, h) + if h in s.verdicts then 1 else 0
  }

  ghost predicate Conserved(s: State) {
    forall h: nat :: Places(s, h) == if h in s.requests then 1 else 0
  }

  /** What a worker takes over from the lock. */
  function Taken(s: State, step: WorkerStep): seq<ClientRequest> {
    if step.FinishPop? then InHand(s.q) else []
  }

  /** Deciding on request `next`: what a filtering worker owed is ended when stale and owed as before when fresh. */
  lemma DecideNext(batch: seq<ClientRequest>, valid: seq<nat>, next: nat, h: nat)
    requires next < |batch|
    ensures Count(Pick(batch, valid) + batch[next..], h)
      == Count(Pick(batch, valid) + batch[next + 1..], h) + Count([batch[next]], h)
    ensures Count(Pick(batch, valid) + batch[next..], h) == Count(Pick(batch, valid + [next]) + batch[next + 1..], h)
  {
    var kept, r, rest := Pick(batch, valid), batch[next], batch[next + 1..];
    assert batch[next..] == [r] + rest;
    CountConcat(kept, [r] + rest, h);
    CountConcat([r], rest, h);
    CountConcat(kept, rest, h);
    PickConcat(batch, valid, [next]);
    PickOne(batch, next);
    Shift(kept, r, rest);
  }

  /** The same, for what was owed before, what is owed after, and what is ended. */
  lemma SplitNext(batch: seq<ClientRequest>, valid: seq<nat>, next: nat, stale: bool,
      before: seq<ClientRequest>, after: seq<ClientRequest>, ended: seq<ClientRequest>, h: nat)
    requires next < |batch| && before == Pick(batch, valid) + batch[next..]
    requires stale ==> after == Pick(batch, valid) + batch[next + 1..] && ended == [batch[next]]
    requires !stale ==> after == Pick(batch, valid + [next]) + batch[next + 1..] && ended == []
    ensures Count(before, h) == Count(after, h) + Count(ended, h)
  {
    DecideNext(batch, valid, next, h);
  }

  lemma FilterMoves(s: State, x: Worker)
    requires CanWork(s, x, Filter)
    ensures Owed(x) == Pick(x.batch, x.valid) + x.batch[x.next..]
    ensures IsStale(x.batch[x.next], x.at) ==>
      Owed(Moved(s, x, Filter)) == Pick(x.batch, x.valid) + x.batch[x.next + 1..] && Ended(s, x, Filter).0 == [x.batch[x.next]]
    ensures !IsStale(x.batch[x.next], x.at) ==>
      Owed(Moved(s, x, Filter)) == Pick(x.batch, x.valid + [x.next]) + x.batch[x.next + 1..] && Ended(s, x, Filter).0 == []
  {
  }

  lemma FilterBalance(s: State, x: Worker, h: nat)
    requires CanWork(s, x, Filter)
    ensures Count(Owed(x), h) == Count(Owed(Moved(s, x, Filter)), h) + Count(Ended(s, x, Filter).0, h)
  {
    FilterMoves(s, x);
    SplitNext(x.batch, x.valid, x.next, IsStale(x.batch[x.next], x.at), Owed(x), Owed(Moved(s, x, Filter)), Ended(s, x, Filter).0, h);
  }

  lemma ReplyMoves(s: State, x: Worker)
    requires CanWork(s, x, SendReply)
    ensures Owed(x) == Pick(x.batch, x.valid[x.next..])
    ensures Owed(Moved(s, x, SendReply)) == Pick(x.batch, x.valid[x.next + 1..])
    ensures Ended(s, x, SendReply).0 == [x.batch[x.valid[x.next]]]
  {
  }

  lemma ReplyBalance(s: State, x: Worker, h: nat)
    requires CanWork(s, x, SendReply)
    ensures Count(Owed(x), h) == Count(Owed(Moved(s, x, SendReply)), h) + Count(Ended(s, x, SendReply).0, h)
  {
    ReplyMoves(s, x);
    FirstOwed(x.batch, x.valid, x.next, h);
  }

  lemma FirstOwed(batch: seq<ClientRequest>, valid: seq<nat>, next: nat, h: nat)
    requires next < |valid| && valid[next] < |batch|
    ensures Count(Pick(batch, valid[next..]), h) == Count([batch[valid[next]]], h) + Count(Pick(batch, valid[next + 1..]), h)
  {
    assert valid[next..] == [valid[next]] + valid[next + 1..];
    PickFirst(batch, valid[next], valid[next + 1..], h);
  }

  lemma PickFirst(batch: seq<ClientRequest>, i: nat, rest: seq<nat>, h: nat)
    requires i < |batch|
    ensures Count(Pick(batch, [i] + rest), h) == Count([batch[i]], h) + Count(Pick(batch, rest), h)
  {
    PickConcat(batch, [i], rest);
    PickOne(batch, i);
    CountConcat([batch[i]], Pick(batch, rest), h);
  }

  /** A worker's step loses and invents nothing: what it owed is still owed or ended. */
  lemma WorkBalance(s: State, x: Worker, step: WorkerStep, h: nat)
    requires CanWork(s, x, step)
    ensures Count(Owed(x), h) + Count(Taken(s, step), h)
      == Count(Owed(Moved(s, x, step)), h) + Count(Ended(s, x, step).0, h)
  {
    match step
    case Filter => FilterBalance(s, x, h);
    case SendReply => ReplyBalance(s, x, h);
    case _ => QuietBalance(s, x, step, h);
  }

  /** The steps that end all or nothing of what the worker owes. */
  lemma QuietBalance(s: State, x: Worker, step: WorkerStep, h: nat)
    requires CanWork(s, x, step) && !step.Filter? && !step.SendReply?
    ensures Count(Owed(x), h) + Count(Taken(s, step), h)
      == Count(Owed(Moved(s, x, step)), h) + Count(Ended(s, x, step).0, h)
  {
    if step.FinishPop? {
      assert Owed(x) == [] && Owed(Moved(s, x, step)) == Taken(s, step);
    } else {
      QuietOwed(s, x, step);
    }
  }

  lemma QuietOwed(s: State, x: Worker, step: WorkerStep)
    requires CanWork(s, x, step) && !step.Filter? && !step.SendReply? && !step.FinishPop?
    ensures (Owed(Moved(s, x, step)) == Owed(x) && Ended(s, x, step).0 == [])
      || (Owed(Moved(s, x, step)) == [] && Ended(s, x, step).0 == Owed(x))
  {
    match step
    case Inspect => InspectOwed(s, x);
    case EndFilter => EndFilterOwed(s, x);
    case AddToTotal => AddToTotalOwed(s, x);
    case EndReplies => EndRepliesOwed(s, x);
    case _ =>
  }

  lemma InspectOwed(s: State, x: Worker)
    requires CanWork(s, x, Inspect)
    ensures Owed(x) == x.batch
    ensures IsPill(x.batch[0]) ==> Owed(Moved(s, x, Inspect)) == []
    ensures !IsPill(x.batch[0]) ==> Owed(Moved(s, x, Inspect)) == x.batch
  {
    assert [] + x.batch[0..] == x.batch;
  }

  lemma EndFilterOwed(s: State, x: Worker)
    requires CanWork(s, x, EndFilter)
    ensures Owed(Moved(s, x, EndFilter)) == Owed(x)
  {
    assert Owed(x) == Pick(x.batch, x.valid) + [];
  }

  lemma AddToTotalOwed(s: State, x: Worker)
    requires CanWork(s, x, AddToTotal)
    ensures Owed(Moved(s, x, AddToTotal)) == Owed(x)
  {
    assert x.valid[0..] == x.valid;
  }

  lemma EndRepliesOwed(s: State, x: Worker)
    requires CanWork(s, x, EndReplies)
    ensures Owed(x) == []
  {
    assert x.valid[x.next..] == [];
  }

  lemma TakenLeavesLock(s: State, x: Worker, step: WorkerStep)
    requires CanWork(s, x, step)
    ensures Queued(s, x, step).items == s.q.items
    ensures forall h :: Count(InHand(s.q), h) == Count(Taken(s, step), h) + Count(InHand(Queued(s, x, step)), h)
  {
  }

  lemma PlacesAfterWork(s: State, w: nat, step: WorkerStep, h: nat)
    requires CanStep(s, Work(w, step))
    ensures var s', rs := Do(s, Work(w, step)), Ended(s, s.workers[w], step).0;
      && s'.workers == s.workers[w := Moved(s, s.workers[w], step)] && s'.q == Queued(s, s.workers[w], step)
      && (h in s'.verdicts <==> h in s.verdicts || h in Ids(rs))
  {
  }

  /** A worker's step keeps the number of places of every request, and ends none that had been ended. */
  lemma WorkConserves(s: State, w: nat, step: WorkerStep, h: nat)
    requires CanStep(s, Work(w, step))
    requires Places(s, h) <= 1
    ensures Places(Do(s, Work(w, step)), h) == Places(s, h)
    ensures h in Ids(Ended(s, s.workers[w], step).0) ==> h !in s.verdicts
  {
    var x := s.workers[w];
    var rs := Ended(s, x, step).0;
    PlacesAfterWork(s, w, step, h);
    WorkBalance(s, x, step, h);
    OwedCountUpdate(s.workers, w, Moved(s, x, step), h);
    TakenLeavesLock(s, x, step);
    CountPositive(rs, h);
    OwedHasOwn(s.workers, w, h);
  }

  lemma OwedHasOwn(ws: seq<Worker>, w: nat, h: nat)
    requires w < |ws|
    ensures Count(Owed(ws[w]), h) <= OwedCount(ws, h)
  {
    OwedCountUpdate(ws, w, Idle, h);
  }

  lemma PopOneConserves(s: State, h: nat)
    requires CanStep(s, Holder(PopOne))
    ensures Places(Do(s, Holder(PopOne)), h) == Places(s, h)
  {
    var x, rest := s.q.items[0], s.q.items[1..];
    assert s.q.items == [x] + rest;
    CountConcat([x], rest, h);
    CountConcat(s.q.lock.batch, [x], h);
  }

  lemma PushConserves(s: State, r: ClientRequest, h: nat)
    ensures Count(s.q.items + [r], h) == Count(s.q.items, h) + if r.promise == Some(h) then 1 else 0
  {
    CountConcat(s.q.items, [r], h);
    CountOne(r, h);
  }

  lemma HandleConserves(s: State, step: HandlerStep, h: nat)
    requires HandlersFormed(s) && CanHandle(s, step)
    requires Places(s, h) == if h in s.requests then 1 else 0
    ensures Places(Handle(s, step), h) == if h in Handle(s, step).requests then 1 else 0
  {
    if step.LockAndPush? {
      PushConserves(s, s.handlers.ready[step.h], h);
    } else {
      OtherHandlesKeep(s, step);
    }
  }

  lemma OtherHandlesKeep(s: State, step: HandlerStep)
    requires CanHandle(s, step) && !step.LockAndPush?
    ensures var s' := Handle(s, step);
      s'.q == s.q && s'.workers == s.workers && s'.verdicts == s.verdicts && s'.requests == s.requests
  {
  }

  lemma StepConservesOne(s: State, step: Step, h: nat)
    requires HandlersFormed(s) && CanStep(s, step)
    requires Places(s, h) == if h in s.requests then 1 else 0
    ensures Places(Do(s, step), h) == if h in Do(s, step).requests then 1 else 0
  {
    match step
    case Work(w, wstep) => WorkConserves(s, w, wstep, h);
    case Handler(hstep) => HandleConserves(s, hstep, h);
    case Holder(qstep) => if qstep.PopOne? { PopOneConserves(s, h); }
    case PushPill => PushConserves(s, s.pill.value, h);
    case _ =>
  }

  lemma StepKeepsVerdict(s: State, step: Step, h: nat)
    requires CanStep(s, step) && Places(s, h) <= 1 && h in s.verdicts
    ensures h in Do(s, step).verdicts && Do(s, step).verdicts[h] == s.verdicts[h]
  {
    if step.Work? {
      WorkConserves(s, step.w, step.wstep, h);
    }
  }

  lemma StepConserves(s: State, step: Step)
    requires HandlersFormed(s) && Conserved(s) && CanStep(s, step)
    ensures Conserved(Do(s, step))
    ensures forall h :: h in s.verdicts ==> h in Do(s, step).verdicts && Do(s, step).verdicts[h] == s.verdicts[h]
  {
    forall h: nat
      ensures Places(Do(s, step), h) == if h in Do(s, step).requests then 1 else 0
      ensures h in s.verdicts ==> h in Do(s, step).verdicts && Do(s, step).verdicts[h] == s.verdicts[h]
    {
      StepConservesOne(s, step, h);
      if h in s.verdicts {
        StepKeepsVerdict(s, step, h);
      }
    }
  }

  lemma {:induction false} IdlersOweNothing(n: nat, h: nat)
    ensures OwedCount(seq(n, _ => Idle), h) == 0
  {
    if n > 0 {
      assert seq(n, _ => Idle)[..n - 1] == seq(n - 1, _ => Idle);
      IdlersOweNothing(n - 1, h);
    }
  }

  // ---------- the right answers ----------

  /** Why the end of request `h` is right, by the batch it was popped in and that batch's one clock reading. */
  ghost predicate Justified(s: State, h: nat, v: Verdict) {
    && h in s.requests
    && var r := s.requests[h];
       match v
       case Stale(at, batch) => r in batch && batch in s.q.batches && IsStale(r, at)
       case Fresh(at, batch, embedding) =>
         && r in batch && batch in s.q.batches && !IsStale(r, at)
         && Known(s, batch[0]) && !IsPill(batch[0])
         && batch[0].modelId in s.cfg.model.loaded
         && embedding == HiddenMean(s.cfg.model, batch[0].modelId, r.tokens, r.masks)
       case Abandoned(batch, why) => r in batch && batch in s.q.batches && Excused(s.cfg, r, batch, why)
  }

  /** What must have happened for a request of the batch to get no answer. */
  ghost predicate Excused(cfg: Config, r: ClientRequest, batch: seq<ClientRequest>, why: Why)
    requires batch != []
  {
    match why
    case HeadPill => IsPill(batch[0])
    case BadShape(at) => !IsStale(r, at) && FreshPill(batch, at)
    case UnknownModel(at) => !IsStale(r, at) && !FreshPill(batch, at) && batch[0].modelId !in cfg.model.loaded
    case RunThrew(at) => !IsStale(r, at) && !FreshPill(batch, at) && batch[0].modelId in cfg.model.loaded
  }

  predicate FreshPill(batch: seq<ClientRequest>, at: int) {
    exists i :: 0 <= i < |batch| && IsPill(batch[i]) && !IsStale(batch[i], at)
  }

  ghost predicate AllJustified(s: State) {
    forall h :: h in s.verdicts ==> Justified(s, h, s.verdicts[h])
  }

  /** What is picked by valid indices is in the batch and fresh. */
  lemma {:induction false} PickedAreFresh(batch: seq<ClientRequest>, valid: seq<nat>, at: int)
    requires forall b :: 0 <= b < |valid| ==> valid[b] < |batch| && !IsStale(batch[valid[b]], at)
    ensures forall i :: 0 <= i < |Pick(batch, valid)| ==> Pick(batch, valid)[i] in batch && !IsStale(Pick(batch, valid)[i], at)
  {
    if valid != [] {
      PickedAreFresh(batch, valid[..|valid| - 1], at);
    }
  }

  lemma AllShaped(s: State, batch: seq<ClientRequest>)
    requires HandlersFormed(s) && AllKnown(s, batch)
    ensures forall i :: 0 <= i < |batch| ==> (Shaped(batch[i]) || PillShaped(batch[i])) && (IsPill(batch[i]) <==> PillShaped(batch[i]))
  {
    forall i | 0 <= i < |batch|
      ensures (Shaped(batch[i]) || PillShaped(batch[i])) && (IsPill(batch[i]) <==> PillShaped(batch[i]))
    {
      assert Known(s, batch[i]);
      KnownIsPillOrShaped(s, batch[i]);
    }
  }

  /** The tensors of a batch can be made exactly when it holds no fresh pill. */
  lemma FitMeansNoFreshPill(s: State, batch: seq<ClientRequest>, at: int)
    requires HandlersFormed(s) && AllKnown(s, batch)
    ensures TensorsFit(batch, at) <==> !FreshPill(batch, at)
    ensures TensorsFit(batch, at) <==> FreshShaped(batch, at)
  {
    AllShaped(s, batch);
    FitIffNoFreshPill(batch, at);
  }

  lemma ReplyJustified(s: State, x: Worker)
    requires HandlersFormed(s) && WorkerFormed(s, x) && CanWork(s, x, SendReply) && x.batch in s.q.batches
    ensures var (rs, v) := Ended(s, x, SendReply);
      rs[0].promise.Some? ==> Justified(s, rs[0].promise.value, v)
  {
    FitMeansNoFreshPill(s, x.batch, x.at);
    BatchRefinesSingle(s.cfg.model, x.batch, x.at, x.next);
    assert Known(s, x.batch[x.valid[x.next]]);
  }

  /** The machine's replies are those of the worker's loops: the promise of the request at each valid index
      gets the value that the loops would set. */
  lemma RepliesAsInLoops(s: State, x: Worker)
    requires WorkerFormed(s, x) && CanWork(s, x, SendReply)
    ensures var i := x.valid[x.next];
      Reply(s.cfg.model, x.batch, x.at, false, i) == Some(InferenceResult(Ended(s, x, SendReply).1.embedding, false))
  {
    RankOfValid(x.batch, x.at, x.next);
  }

  lemma ThrowJustified(s: State, x: Worker, r: ClientRequest)
    requires HandlersFormed(s) && WorkerFormed(s, x) && CanWork(s, x, Throw) && x.batch in s.q.batches
    requires r in x.batch && r.promise.Some? && !IsStale(r, x.at)
    ensures Justified(s, r.promise.value, Ended(s, x, Throw).1)
  {
    var i :| 0 <= i < |x.batch| && x.batch[i] == r;
    assert Known(s, x.batch[i]);
    FitMeansNoFreshPill(s, x.batch, x.at);
  }

  /** Everything a worker's step ends, it ends for the right reason. */
  lemma EndedJustified(s: State, x: Worker, step: WorkerStep, h: nat)
    requires HandlersFormed(s) && WorkerFormed(s, x) && CanWork(s, x, step) && (HasBatch(x) ==> x.batch in s.q.batches)
    requires h in Ids(Ended(s, x, step).0)
    ensures Justified(s, h, Ended(s, x, step).1)
  {
    var (rs, v) := Ended(s, x, step);
    var i :| 0 <= i < |rs| && rs[i].promise == Some(h);
    match step
    case Inspect => assert Known(s, x.batch[i]);
    case Filter => assert Known(s, x.batch[x.next]);
    case Throw =>
      PickedAreFresh(x.batch, x.valid, x.at);
      ThrowJustified(s, x, rs[i]);
    case SendReply => ReplyJustified(s, x);
    case _ =>
  }

  lemma JustifiedStays(s: State, s': State, h: nat, v: Verdict)
    requires Justified(s, h, v) && s'.cfg == s.cfg && s.q.batches <= s'.q.batches
    requires forall g :: g in s.requests ==> g in s'.requests && s'.requests[g] == s.requests[g]
    ensures Justified(s', h, v)
  {
  }

  predicate Gives(s: State, step: Step, h: nat)
    requires CanStep(s, step)
  {
    step.Work? && h in Ids(Ended(s, s.workers[step.w], step.wstep).0)
  }

  /** Where a verdict of the next state comes from: given by this step, or there before. */
  lemma VerdictComesFrom(s: State, step: Step, h: nat)
    requires CanStep(s, step) && h in Do(s, step).verdicts
    ensures Gives(s, step, h) ==> Do(s, step).verdicts[h] == Ended(s, s.workers[step.w], step.wstep).1
    ensures !Gives(s, step, h) ==> h in s.verdicts && Do(s, step).verdicts[h] == s.verdicts[h]
  {
  }

  lemma NextJustified(s: State, step: Step, h: nat)
    requires Formed(s) && AllJustified(s) && CanStep(s, step) && h in Do(s, step).verdicts
    ensures Justified(s, h, Do(s, step).verdicts[h])
  {
    VerdictComesFrom(s, step, h);
    if Gives(s, step, h) {
      var x := s.workers[step.w];
      assert WorkerFormed(s, x);
      EndedJustified(s, x, step.wstep, h);
    }
  }

  lemma StepKeepsJustified(s: State, step: Step)
    requires Formed(s) && AllJustified(s) && CanStep(s, step)
    ensures AllJustified(Do(s, step))
  {
    var s' := Do(s, step);
    RequestsStay(s, step);
    BatchesGrow(s, step);
    forall h | h in s'.verdicts
      ensures Justified(s', h, s'.verdicts[h])
    {
      NextJustified(s, step, h);
      JustifiedStays(s, s', h, s'.verdicts[h]);
    }
  }

  // ---------- every run ----------

  lemma {:induction false} RunKeepsPromises(cfg: Config, n: nat, steps: seq<Step>, states: seq<State>, k: nat)
    requires IsServerRun(cfg, n, steps, states) && k < |states|
    ensures Formed(states[k]) && Conserved(states[k]) && AllJustified(states[k]) && states[k].cfg == cfg
  {
    if k == 0 {
      StartFormed(cfg, n);
      forall h: nat ensures Places(states[0], h) == 0 { IdlersOweNothing(n, h); }
    } else {
      RunKeepsPromises(cfg, n, steps, states, k - 1);
      assert StepsTo(steps, states, k - 1);
      var s, step := states[k - 1], steps[k - 1];
      RequestsGrow(s, step);
      StepKeepsFormed(s, step);
      StepConserves(s, step);
      StepKeepsJustified(s, step);
    }
  }

  /** In every state of every run, each pushed request is in exactly one place: still queued or in a
      batch or owed by a worker, or ended, and never two of these. */
  lemma ExactlyOnePlace(cfg: Config, n: nat, steps: seq<Step>, states: seq<State>, k: nat, h: nat)
    requires IsServerRun(cfg, n, steps, states) && k < |states| && h in states[k].requests
    ensures var s := states[k];
      Count(s.q.items, h) + Count(InHand(s.q), h) + OwedCount(s.workers, h) + (if h in s.verdicts then 1 else 0) == 1
  {
    RunKeepsPromises(cfg, n, steps, states, k);
    assert Places(states[k], h) == 1;
  }

  lemma EndedStays(cfg: Config, n: nat, steps: seq<Step>, states: seq<State>, k: nat, h: nat)
    requires IsServerRun(cfg, n, steps, states) && k < |steps| && h in states[k].verdicts
    ensures h in states[k + 1].verdicts && states[k + 1].verdicts[h] == states[k].verdicts[h]
  {
    RunKeepsPromises(cfg, n, steps, states, k);
    assert StepsTo(steps, states, k);
    StepConserves(states[k], steps[k]);
  }

  /** Once ended, a request keeps its end: a promise is never set twice in any run. */
  lemma {:induction false} EndedOnce(cfg: Config, n: nat, steps: seq<Step>, states: seq<State>, j: nat, k: nat, h: nat)
    requires IsServerRun(cfg, n, steps, states) && j <= k < |states| && h in states[j].verdicts
    ensures h in states[k].verdicts && states[k].verdicts[h] == states[j].verdicts[h]
  {
    if j < k {
      EndedOnce(cfg, n, steps, states, j, k - 1, h);
      EndedStays(cfg, n, steps, states, k - 1, h);
    }
  }

  /** Every fresh reply of every run is what the request would have got alone from the model that the first request
      of its batch names; so it is its own model's when those two names agree. */
  lemma FreshIsOwnMean(cfg: Config, n: nat, steps: seq<Step>, states: seq<State>, k: nat, h: nat)
    requires IsServerRun(cfg, n, steps, states) && k < |states|
    requires h in states[k].verdicts && states[k].verdicts[h].Fresh?
    ensures h in states[k].requests
    ensures var r, v := states[k].requests[h], states[k].verdicts[h];
      && r in v.batch && v.batch in states[k].q.batches
      && v.embedding == HiddenMean(cfg.model, v.batch[0].modelId, r.tokens, r.masks)
  {
    RunKeepsPromises(cfg, n, steps, states, k);
    assert Justified(states[k], h, states[k].verdicts[h]);
  }

  /** When all requests name one model, every fresh reply is what the request would have got alone. */
  lemma OneModelServesOwn(cfg: Config, n: nat, steps: seq<Step>, states: seq<State>, k: nat, h: nat, modelId: string)
    requires IsServerRun(cfg, n, steps, states) && k < |states|
    requires forall g :: g in states[k].requests ==> states[k].requests[g].modelId == modelId
    requires h in states[k].verdicts && states[k].verdicts[h].Fresh?
    ensures h in states[k].requests
    ensures var r := states[k].requests[h];
      states[k].verdicts[h].embedding == HiddenMean(cfg.model, r.modelId, r.tokens, r.masks)
  {
    FreshIsOwnMean(cfg, n, steps, states, k, h);
    RunKeepsPromises(cfg, n, steps, states, k);
    var head := states[k].verdicts[h].batch[0];
    assert Justified(states[k], h, states[k].verdicts[h]);
    KnownIsPillOrShaped(states[k], head);
  }
}
