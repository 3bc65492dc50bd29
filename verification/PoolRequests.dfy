/** A call from its arrival to its reply: who is admitted, what is asked on its behalf, by which clock it is
    judged, and when its handler may leave. */
module PoolRequests {
  import opened Options
  import opened Tokenizing
  import opened Queueing
  import opened Batching
  import opened Pool
  import opened PoolShape
  import opened PoolPromises
  import opened PoolReadings

  // ---------- admission ----------

  /** In every state of every run, for a handler about to read the depth: it goes on if the counter shows at most 500, and
      else its call ends. The counter being within one of the truth, whoever goes on saw at most 501 items in the queue
      and whoever is refused at least 500. */
  lemma AdmittedExactly(cfg: Config, n: nat, steps: seq<Step>, states: seq<State>, k: nat, h: nat)
    requires IsServerRun(cfg, n, steps, states) && k < |states| && CanStep(states[k], Handler(CheckDepth(h)))
    ensures var s, hs := states[k], Do(states[k], Handler(CheckDepth(h))).handlers;
      && (h in hs.admitted <==> s.q.depth <= 500)
      && h !in hs.arrived && h !in hs.ready && h !in s.requests
      && (h in hs.admitted ==> |s.q.items| <= 501)
      && (h !in hs.admitted ==> |s.q.items| >= 500)
  {
    RunKeepsPromises(cfg, n, steps, states, k);
  }

  // ---------- what is asked on behalf of a call ----------

  lemma FormedAt(cfg: Config, n: nat, steps: seq<Step>, states: seq<State>, k: nat)
    requires IsServerRun(cfg, n, steps, states) && k < |states|
    ensures HandlersFormed(states[k]) && states[k].cfg == cfg
  {
    RunKeepsPromises(cfg, n, steps, states, k);
  }

  /** At step `j` handler `h` builds its request from `line`. */
  predicate BuildsAt(steps: seq<Step>, j: nat, h: nat, modelId: string, line: string) {
    j < |steps| && steps[j] == Handler(Build(h, modelId, line))
  }

  /** `r` is the request that handler `h` built before step `k`: its line, tokenized to 128 ids, with a mask of ones and
      the time of the building. */
  ghost predicate BuiltBefore(cfg: Config, steps: seq<Step>, states: seq<State>, k: nat, h: nat, r: ClientRequest)
    requires |steps| < |states|
  {
    exists j: nat, modelId, line :: j < k && BuildsAt(steps, j, h, modelId, line)
      && Encode(cfg.vocab, line, 128).Some?
      && r == Request(modelId, Encode(cfg.vocab, line, 128).value, seq(128, _ => 1), states[j].now, Some(h))
  }

  ghost predicate AllBuilt(cfg: Config, steps: seq<Step>, states: seq<State>, k: nat)
    requires |steps| < |states| && k < |states|
  {
    && (forall h :: h in states[k].requests ==> BuiltBefore(cfg, steps, states, k, h, states[k].requests[h]))
    && (forall h :: h in states[k].handlers.ready ==> BuiltBefore(cfg, steps, states, k, h, states[k].handlers.ready[h]))
    && (forall h :: h in states[k].handlers.waiting ==> h in states[k].requests)
  }

  lemma BuiltStays(cfg: Config, steps: seq<Step>, states: seq<State>, k: nat, h: nat, r: ClientRequest)
    requires |steps| < |states| && BuiltBefore(cfg, steps, states, k, h, r)
    ensures BuiltBefore(cfg, steps, states, k + 1, h, r)
  {
    var j: nat, modelId, line :| j < k && BuildsAt(steps, j, h, modelId, line)
      && Encode(cfg.vocab, line, 128).Some?
      && r == Request(modelId, Encode(cfg.vocab, line, 128).value, seq(128, _ => 1), states[j].now, Some(h));
    assert j < k + 1 && BuildsAt(steps, j, h, modelId, line);
  }

  lemma BuildIsBuilt(cfg: Config, steps: seq<Step>, states: seq<State>, k: nat, h: nat, modelId: string, line: string)
    requires |steps| < |states| && BuildsAt(steps, k, h, modelId, line)
    ensures BuiltBefore(cfg, steps, states, k + 1, h, BuildRequest(cfg, h, modelId, line, states[k].now))
  {
    BuiltRequestShaped(cfg, h, modelId, line, states[k].now);
    assert Ones(128) == seq(128, _ => 1);
  }

  /** Where a request comes from: it was there, its handler had it ready, or its handler builds it now. */
  lemma HandleBuilds(s: State, step: HandlerStep, h: nat)
    requires CanHandle(s, step)
    ensures h in Handle(s, step).requests && !(h in s.requests && Handle(s, step).requests[h] == s.requests[h]) ==>
      h in s.handlers.ready && Handle(s, step).requests[h] == s.handlers.ready[h]
    ensures h in Handle(s, step).handlers.waiting && h !in s.handlers.waiting ==> h in Handle(s, step).requests
  {
  }

  lemma HandleReadies(s: State, step: HandlerStep, h: nat)
    requires CanHandle(s, step) && h in Handle(s, step).handlers.ready
    requires !(h in s.handlers.ready && Handle(s, step).handlers.ready[h] == s.handlers.ready[h])
    ensures step.Build? && step.h == h
    ensures Handle(s, step).handlers.ready[h] == BuildRequest(s.cfg, h, step.modelId, step.line, s.now)
  {
  }

  lemma NextBuilt(cfg: Config, steps: seq<Step>, states: seq<State>, k: nat, h: nat)
    requires |steps| + 1 == |states| && k < |steps| && StepsTo(steps, states, k) && states[k].cfg == cfg
    requires AllBuilt(cfg, steps, states, k) && HandlersFormed(states[k])
    ensures h in states[k + 1].requests ==> BuiltBefore(cfg, steps, states, k + 1, h, states[k + 1].requests[h])
    ensures h in states[k + 1].handlers.ready ==> BuiltBefore(cfg, steps, states, k + 1, h, states[k + 1].handlers.ready[h])
    ensures h in states[k + 1].handlers.waiting ==> h in states[k + 1].requests
  {
    var s, s', step := states[k], states[k + 1], steps[k];
    RequestsStay(s, step);
    if step.Handler? {
      HandleBuilds(s, step.hstep, h);
    } else {
      OthersLeaveHandlers(s, step);
    }
    if h in s'.requests {
      BuiltStays(cfg, steps, states, k, h, s'.requests[h]);
    }
    if h in s'.handlers.ready {
      if h in s.handlers.ready && s'.handlers.ready[h] == s.handlers.ready[h] {
        BuiltStays(cfg, steps, states, k, h, s.handlers.ready[h]);
      } else {
        HandleReadies(s, step.hstep, h);
        BuildIsBuilt(cfg, steps, states, k, h, step.hstep.modelId, step.hstep.line);
      }
    }
  }

  lemma AllNextBuilt(cfg: Config, steps: seq<Step>, states: seq<State>, k: nat)
    requires |steps| + 1 == |states| && k < |steps| && StepsTo(steps, states, k) && states[k].cfg == cfg
    requires AllBuilt(cfg, steps, states, k) && HandlersFormed(states[k])
    ensures AllBuilt(cfg, steps, states, k + 1)
  {
    var s' := states[k + 1];
    forall h: nat
      ensures h in s'.requests ==> BuiltBefore(cfg, steps, states, k + 1, h, s'.requests[h])
      ensures h in s'.handlers.ready ==> BuiltBefore(cfg, steps, states, k + 1, h, s'.handlers.ready[h])
      ensures h in s'.handlers.waiting ==> h in s'.requests
    {
      NextBuilt(cfg, steps, states, k, h);
    }
  }

  /** In every state of every run each request is the one its handler built from its line. */
  lemma {:induction false} RequestsAreBuilt(cfg: Config, n: nat, steps: seq<Step>, states: seq<State>, k: nat)
    requires IsServerRun(cfg, n, steps, states) && k < |states|
    ensures AllBuilt(cfg, steps, states, k)
  {
    if k > 0 {
      RequestsAreBuilt(cfg, n, steps, states, k - 1);
      FormedAt(cfg, n, steps, states, k - 1);
      assert StepsTo(steps, states, k - 1);
      AllNextBuilt(cfg, steps, states, k - 1);
    }
  }

  /** End to end, in every run: a fresh reply is the mean of the 128 hidden states that the model named by the first request
      of the batch computes for the tokens of the very line that the handler was called with. */
  lemma FreshIsOwnLine(cfg: Config, n: nat, steps: seq<Step>, states: seq<State>, k: nat, h: nat) returns (j: nat, line: string)
    requires IsServerRun(cfg, n, steps, states) && k < |states|
    requires h in states[k].verdicts && states[k].verdicts[h].Fresh?
    ensures j < k && j < |steps| && steps[j].Handler? && steps[j].hstep.Build?
    ensures steps[j].hstep.h == h && steps[j].hstep.line == line
    ensures Encode(cfg.vocab, line, 128).Some?
    ensures var v := states[k].verdicts[h];
      && v.batch != []
      && v.embedding == HiddenMean(cfg.model, v.batch[0].modelId, Encode(cfg.vocab, line, 128).value, seq(128, _ => 1))
      && v.at - states[j].now < 101_000_000
  {
    FreshIsOwnMean(cfg, n, steps, states, k, h);
    RunKeepsPromises(cfg, n, steps, states, k);
    assert Justified(states[k], h, states[k].verdicts[h]);
    RequestsAreBuilt(cfg, n, steps, states, k);
    var r := states[k].requests[h];
    assert BuiltBefore(cfg, steps, states, k, h, r);
    var i: nat, modelId, text :| i < k && BuildsAt(steps, i, h, modelId, text)
      && Encode(cfg.vocab, text, 128).Some?
      && r == Request(modelId, Encode(cfg.vocab, text, 128).value, seq(128, _ => 1), states[i].now, Some(h));
    j, line := i, text;
    StaleFrom101Ms(r, states[k].verdicts[h].at);
  }

  /** The destructor makes pill `r` before step `k`. */
  ghost predicate MadeBefore(steps: seq<Step>, states: seq<State>, k: nat, r: ClientRequest)
    requires |steps| < |states|
  {
    exists j: nat :: j < k && j < |steps| && steps[j].MakePill? && r == Request("", [-1], [0], states[j].now, None)
  }

  /** What has been pushed was built by a handler or made by the destructor. */
  ghost predicate AllPushed(steps: seq<Step>, states: seq<State>, k: nat)
    requires |steps| < |states| && k < |states|
  {
    && (forall i :: 0 <= i < |states[k].q.pushed| ==> Origin(steps, states, k, states[k].q.pushed[i]))
    && (states[k].pill.Some? ==> MadeBefore(steps, states, k, states[k].pill.value))
  }

  ghost predicate Origin(steps: seq<Step>, states: seq<State>, k: nat, r: ClientRequest)
    requires |steps| < |states| && k < |states|
  {
    match r.promise
    case Some(h) => h in states[k].requests && states[k].requests[h] == r
    case None => MadeBefore(steps, states, k, r)
  }

  lemma OriginStays(steps: seq<Step>, states: seq<State>, k: nat, r: ClientRequest)
    requires |steps| + 1 == |states| && k < |steps| && StepsTo(steps, states, k) && HandlersFormed(states[k])
    requires Origin(steps, states, k, r)
    ensures Origin(steps, states, k + 1, r)
  {
    RequestsStay(states[k], steps[k]);
    if r.promise.None? {
      var j: nat :| j < k && j < |steps| && steps[j].MakePill? && r == Request("", [-1], [0], states[j].now, None);
      assert j < k + 1;
    }
  }

  /** What has been pushed after a step. */
  lemma PushedOne(s: State, step: Step)
    requires CanStep(s, step)
    ensures Do(s, step).q.pushed ==
      if step.PushPill? then s.q.pushed + [s.pill.value]
      else if step.Handler? && step.hstep.LockAndPush? then s.q.pushed + [s.handlers.ready[step.hstep.h]]
      else s.q.pushed
  {
  }

  lemma PillMade(s: State, step: Step)
    requires CanStep(s, step) && Do(s, step).pill.Some?
    ensures Do(s, step).pill == s.pill || (step.MakePill? && Do(s, step).pill == Some(Pill(s.now)))
  {
  }

  lemma NextPushed(steps: seq<Step>, states: seq<State>, k: nat, i: nat)
    requires |steps| + 1 == |states| && k < |steps| && StepsTo(steps, states, k) && HandlersFormed(states[k])
    requires AllPushed(steps, states, k) && i < |states[k + 1].q.pushed|
    ensures Origin(steps, states, k + 1, states[k + 1].q.pushed[i])
  {
    var s, step := states[k], steps[k];
    PushedOne(s, step);
    if i < |s.q.pushed| {
      OriginStays(steps, states, k, s.q.pushed[i]);
    } else if step.PushPill? {
      OriginStays(steps, states, k, s.pill.value);
    } else {
      RequestsStay(s, step);
    }
  }

  lemma NextPill(steps: seq<Step>, states: seq<State>, k: nat)
    requires |steps| + 1 == |states| && k < |steps| && StepsTo(steps, states, k) && HandlersFormed(states[k])
    requires AllPushed(steps, states, k)
    ensures states[k + 1].pill.Some? ==> MadeBefore(steps, states, k + 1, states[k + 1].pill.value)
  {
    if states[k + 1].pill.Some? {
      PillMade(states[k], steps[k]);
    }
    if states[k].pill.Some? {
      OriginStays(steps, states, k, states[k].pill.value);
    }
  }

  lemma AllNextPushed(steps: seq<Step>, states: seq<State>, k: nat)
    requires |steps| + 1 == |states| && k < |steps| && StepsTo(steps, states, k) && HandlersFormed(states[k])
    requires AllPushed(steps, states, k)
    ensures AllPushed(steps, states, k + 1)
  {
    var pushed := states[k + 1].q.pushed;
    forall i: nat | i < |pushed|
      ensures Origin(steps, states, k + 1, pushed[i])
    {
      NextPushed(steps, states, k, i);
    }
    NextPill(steps, states, k);
  }

  /** In every state of every run each request ever pushed is its handler's own, or a pill with the time at which the
      destructor made it. */
  lemma {:induction false} PushedHasOrigin(cfg: Config, n: nat, steps: seq<Step>, states: seq<State>, k: nat)
    requires IsServerRun(cfg, n, steps, states) && k < |states|
    ensures AllPushed(steps, states, k)
  {
    if k > 0 {
      PushedHasOrigin(cfg, n, steps, states, k - 1);
      FormedAt(cfg, n, steps, states, k - 1);
      assert StepsTo(steps, states, k - 1);
      AllNextPushed(steps, states, k - 1);
    }
  }

  // ---------- by which clock ----------

  /** At step `j` a worker looks at `batch` and reads the clock. */
  ghost predicate ReadsAt(steps: seq<Step>, states: seq<State>, j: nat, batch: seq<ClientRequest>)
    requires |steps| < |states|
  {
    && j < |steps| && steps[j].Work? && steps[j].wstep.Inspect?
    && steps[j].w < |states[j].workers| && states[j].workers[steps[j].w] == Have(batch)
  }

  ghost predicate ReadBefore(steps: seq<Step>, states: seq<State>, k: nat, batch: seq<ClientRequest>, at: int)
    requires |steps| < |states|
  {
    exists j: nat :: j < k && ReadsAt(steps, states, j, batch) && states[j].now == at
  }

  lemma ReadStays(steps: seq<Step>, states: seq<State>, k: nat, batch: seq<ClientRequest>, at: int)
    requires |steps| < |states| && ReadBefore(steps, states, k, batch, at)
    ensures ReadBefore(steps, states, k + 1, batch, at)
  {
    var j: nat :| j < k && ReadsAt(steps, states, j, batch) && states[j].now == at;
    assert j < k + 1 && ReadsAt(steps, states, j, batch);
  }

  lemma StepReads(s: State, step: Step, batch: seq<ClientRequest>)
    requires CanStep(s, step) && batch in Do(s, step).readings
    ensures (batch in s.readings && Do(s, step).readings[batch] == s.readings[batch])
      || (step.Work? && step.wstep.Inspect? && s.workers[step.w] == Have(batch) && Do(s, step).readings[batch] == s.now)
  {
  }

  /** In every state of every run the reading kept for a batch is the clock at the moment a worker looked at it. */
  lemma {:induction false} ReadingsAreClock(cfg: Config, n: nat, steps: seq<Step>, states: seq<State>, k: nat, batch: seq<ClientRequest>)
    requires IsServerRun(cfg, n, steps, states) && k < |states| && batch in states[k].readings
    ensures ReadBefore(steps, states, k, batch, states[k].readings[batch])
  {
    if k > 0 {
      assert StepsTo(steps, states, k - 1);
      StepReads(states[k - 1], steps[k - 1], batch);
      if batch in states[k - 1].readings && states[k].readings[batch] == states[k - 1].readings[batch] {
        ReadingsAreClock(cfg, n, steps, states, k - 1, batch);
        ReadStays(steps, states, k - 1, batch, states[k].readings[batch]);
      } else {
        assert ReadsAt(steps, states, k - 1, batch);
      }
    }
  }

  /** So in every run a request is answered as stale exactly when, at the moment a worker looked at its batch, it had
      waited 101 milliseconds, and with an embedding only when it had not. */
  lemma JudgedByClock(cfg: Config, n: nat, steps: seq<Step>, states: seq<State>, k: nat, h: nat) returns (j: nat)
    requires IsServerRun(cfg, n, steps, states) && k < |states|
    requires h in states[k].verdicts && !states[k].verdicts[h].Abandoned?
    ensures h in states[k].requests
    ensures j < k && j < |steps| && ReadsAt(steps, states, j, states[k].verdicts[h].batch)
    ensures states[k].requests[h] in states[k].verdicts[h].batch
    ensures states[k].verdicts[h].Stale? <==> states[j].now - states[k].requests[h].arrival >= 101_000_000
  {
    var v := states[k].verdicts[h];
    RunKeepsPromises(cfg, n, steps, states, k);
    assert Justified(states[k], h, v);
    RunKeepsReadings(cfg, n, steps, states, k);
    assert ByReading(states[k], v);
    ReadingsAreClock(cfg, n, steps, states, k, v.batch);
    var i: nat :| i < k && ReadsAt(steps, states, i, v.batch) && states[i].now == v.at;
    j := i;
    StaleFrom101Ms(states[k].requests[h], v.at);
  }

  // ---------- when a handler leaves ----------

  /** In every state of every run, once its push is over: a waiting handler may leave exactly when its promise has been set, or
      five seconds have passed since it built its request. */
  lemma LeavesExactly(cfg: Config, n: nat, steps: seq<Step>, states: seq<State>, k: nat, h: nat)
    requires IsServerRun(cfg, n, steps, states) && k < |states| && h in states[k].handlers.waiting
    requires states[k].q.lock.Pushing? ==> states[k].q.lock.item.promise != Some(h)
    ensures h in states[k].requests
    ensures var s := states[k];
      && BuiltBefore(cfg, steps, states, k, h, s.requests[h])
      && (CanStep(s, Handler(Leave(h))) <==>
            (h in s.verdicts && (s.verdicts[h].Stale? || s.verdicts[h].Fresh?))
            || s.now - s.requests[h].arrival >= 5_000_000_000)
  {
    RequestsAreBuilt(cfg, n, steps, states, k);
  }
}
