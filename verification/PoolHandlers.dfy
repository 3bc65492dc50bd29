/** The life of a handler: which steps it can take, where each one takes it, and that it never waits longer than its deadline. */
module PoolHandlers {
  import opened Options
  import opened Tokenizing
  import opened Queueing
  import opened Batching
  import opened Pool
  import opened PoolShape
  import opened PoolPromises
  import opened PoolRequests

  datatype Place = NotYet | AtDoor | Admitted | Ready | Waiting | Gone

  function PlaceOf(hs: Handlers, g: nat): Place {
    if g >= hs.next then NotYet
    else if g in hs.arrived then AtDoor
    else if g in hs.admitted then Admitted
    else if g in hs.ready then Ready
    else if g in hs.waiting then Waiting
    else Gone
  }

  /** No handler is in two places. */
  ghost predicate Apart(hs: Handlers) {
    && (forall g :: g in hs.arrived ==> g < hs.next && g !in hs.admitted && g !in hs.ready && g !in hs.waiting)
    && (forall g :: g in hs.admitted ==> g < hs.next && g !in hs.ready && g !in hs.waiting)
    && (forall g :: g in hs.ready ==> g < hs.next && g !in hs.waiting)
    && (forall g :: g in hs.waiting ==> g < hs.next)
  }

  lemma HandlersApart(cfg: Config, n: nat, steps: seq<Step>, states: seq<State>, k: nat)
    requires IsServerRun(cfg, n, steps, states) && k < |states|
    ensures Apart(states[k].handlers)
  {
    FormedAt(cfg, n, steps, states, k);
    RequestsAreBuilt(cfg, n, steps, states, k);
    FormedApart(states[k]);
  }

  lemma FormedApart(s: State)
    requires HandlersFormed(s) && forall h :: h in s.handlers.waiting ==> h in s.requests
    ensures Apart(s.handlers)
  {
  }

  /** The handlers between their arrival and their end. */
  function Inside(hs: Handlers): set<nat> {
    set g | 0 <= g < hs.next && PlaceOf(hs, g) != Gone
  }

  lemma InsideIs(hs: Handlers)
    requires Apart(hs)
    ensures Inside(hs) == (hs.arrived + hs.admitted) + (hs.ready.Keys + hs.waiting)
  {
  }

  lemma Disjoint(a: set<nat>, b: set<nat>)
    requires a !! b
    ensures |a + b| == |a| + |b|
  {
  }

  lemma InsideIsActive(hs: Handlers)
    requires Apart(hs)
    ensures |Inside(hs)| == Active(hs)
  {
    var atDoor, inService := hs.arrived + hs.admitted, hs.ready.Keys + hs.waiting;
    InsideIs(hs);
    Disjoint(hs.arrived, hs.admitted);
    Disjoint(hs.ready.Keys, hs.waiting);
    Disjoint(atDoor, inService);
  }

  /** What a handler can do, by its place. */
  ghost predicate CanByPlace(s: State, h: nat, step: HandlerStep) {
    var place := PlaceOf(s.handlers, h);
    match step
    case Arrive => |Inside(s.handlers)| < s.cfg.maxHandlers
    case CheckDepth(_) => place == AtDoor
    case Build(_, _, _) => place == Admitted
    case LockAndPush(_) => place == Ready && s.q.lock.Free?
    case Leave(_) => place == Waiting && CanHandle(s, step)
  }

  lemma CanExactly(s: State, step: HandlerStep, h: nat)
    requires Apart(s.handlers) && (!step.Arrive? ==> step.h == h)
    ensures CanHandle(s, step) <==> CanByPlace(s, h, step)
  {
    InsideIsActive(s.handlers);
  }

  /** In every state of every run: a new call is taken on exactly while fewer than H handlers are inside, and a handler can take
      exactly the step of its place, for its push when the lock is free. (`LeavesExactly` is about the last step.) */
  lemma HandlerStepsExactly(cfg: Config, n: nat, steps: seq<Step>, states: seq<State>, k: nat, step: HandlerStep, h: nat)
    requires IsServerRun(cfg, n, steps, states) && k < |states| && (!step.Arrive? ==> step.h == h)
    ensures CanStep(states[k], Handler(step)) <==> CanByPlace(states[k], h, step)
  {
    HandlersApart(cfg, n, steps, states, k);
    CanExactly(states[k], step, h);
  }

  /** Whom a step is about. */
  function Subject(hs: Handlers, step: HandlerStep): nat {
    if step.Arrive? then hs.next else step.h
  }

  /** Where the step takes its handler. */
  function Onto(s: State, step: HandlerStep): Place {
    match step
    case Arrive => AtDoor
    case CheckDepth(_) => if s.q.depth <= 500 then Admitted else Gone
    case Build(_, _, _) => Ready
    case LockAndPush(_) => Waiting
    case Leave(_) => Gone
  }

  lemma CheckMoves(hs: Handlers, h: nat, admitted: bool, g: nat)
    requires Apart(hs) && h in hs.arrived
    ensures var hs' := if admitted then hs.(arrived := hs.arrived - {h}, admitted := hs.admitted + {h}) else hs.(arrived := hs.arrived - {h});
      PlaceOf(hs', g) == if g == h then (if admitted then Admitted else Gone) else PlaceOf(hs, g)
  {
  }

  lemma BuildMoves(hs: Handlers, h: nat, r: ClientRequest, g: nat)
    requires Apart(hs) && h in hs.admitted
    ensures PlaceOf(hs.(admitted := hs.admitted - {h}, ready := hs.ready[h := r]), g) == if g == h then Ready else PlaceOf(hs, g)
  {
  }

  lemma PushMoves(hs: Handlers, h: nat, g: nat)
    requires Apart(hs) && h in hs.ready
    ensures PlaceOf(hs.(ready := hs.ready - {h}, waiting := hs.waiting + {h}), g) == if g == h then Waiting else PlaceOf(hs, g)
  {
  }

  lemma LeaveMoves(hs: Handlers, h: nat, g: nat)
    requires Apart(hs) && h in hs.waiting
    ensures PlaceOf(hs.(waiting := hs.waiting - {h}), g) == if g == h then Gone else PlaceOf(hs, g)
  {
  }

  lemma DoorMoves(s: State, h: nat, g: nat)
    requires Apart(s.handlers) && CanHandle(s, CheckDepth(h))
    ensures PlaceOf(Handle(s, CheckDepth(h)).handlers, g) ==
      if g == h then (if s.q.depth <= 500 then Admitted else Gone) else PlaceOf(s.handlers, g)
  {
    CheckMoves(s.handlers, h, s.q.depth <= 500, g);
  }

  lemma HandlerMoves(s: State, step: HandlerStep, g: nat)
    requires Apart(s.handlers) && CanHandle(s, step)
    ensures PlaceOf(Handle(s, step).handlers, g) == if g == Subject(s.handlers, step) then Onto(s, step) else PlaceOf(s.handlers, g)
  {
    var hs := s.handlers;
    match step
    case Arrive =>
    case CheckDepth(h) => DoorMoves(s, h, g);
    case Build(h, modelId, line) => BuildMoves(hs, h, BuildRequest(s.cfg, h, modelId, line, s.now), g);
    case LockAndPush(h) => PushMoves(hs, h, g);
    case Leave(h) => LeaveMoves(hs, h, g);
  }

  /** In every run a step of a handler moves that handler on by one place, and no step moves any other. */
  lemma StepMovesOne(cfg: Config, n: nat, steps: seq<Step>, states: seq<State>, k: nat, g: nat)
    requires IsServerRun(cfg, n, steps, states) && k < |steps|
    ensures PlaceOf(states[k + 1].handlers, g) ==
      if steps[k].Handler? && g == Subject(states[k].handlers, steps[k].hstep) then Onto(states[k], steps[k].hstep)
      else PlaceOf(states[k].handlers, g)
  {
    assert StepsTo(steps, states, k);
    HandlersApart(cfg, n, steps, states, k);
    FormedAt(cfg, n, steps, states, k);
    if steps[k].Handler? {
      HandlerMoves(states[k], steps[k].hstep, g);
    } else {
      OthersLeaveHandlers(states[k], steps[k]);
    }
  }

  // ---------- time ----------

  lemma StepTime(s: State, step: Step)
    requires CanStep(s, step)
    ensures Do(s, step).now == s.now + if step.Tick? then step.d else 0
  {
  }

  lemma {:induction false} TimeForward(cfg: Config, n: nat, steps: seq<Step>, states: seq<State>, j: nat, k: nat)
    requires IsServerRun(cfg, n, steps, states) && j <= k < |states|
    ensures states[j].now <= states[k].now
  {
    if j < k {
      TimeForward(cfg, n, steps, states, j, k - 1);
      assert StepsTo(steps, states, k - 1);
      StepTime(states[k - 1], steps[k - 1]);
    }
  }

  /** In every state of every run: whatever becomes of its request, a handler whose push is over can leave after five more
      seconds. */
  lemma LeavesInTime(cfg: Config, n: nat, steps: seq<Step>, states: seq<State>, k: nat, h: nat)
    requires IsServerRun(cfg, n, steps, states) && k < |states| && h in states[k].handlers.waiting
    requires states[k].q.lock.Pushing? ==> states[k].q.lock.item.promise != Some(h)
    ensures CanStep(Do(states[k], Tick(5_000_000_000)), Handler(Leave(h)))
  {
    LeavesExactly(cfg, n, steps, states, k, h);
    var j := BuiltAt(cfg, steps, states, k, h, states[k].requests[h]);
    TimeForward(cfg, n, steps, states, j, k);
    StepTime(states[k], Tick(5_000_000_000));
  }

  lemma BuiltAt(cfg: Config, steps: seq<Step>, states: seq<State>, k: nat, h: nat, r: ClientRequest) returns (j: nat)
    requires |steps| < |states| && BuiltBefore(cfg, steps, states, k, h, r)
    ensures j < k && j < |steps| && r.arrival == states[j].now
  {
    var i: nat, modelId, line :| i < k && BuildsAt(steps, i, h, modelId, line)
      && Encode(cfg.vocab, line, 128).Some?
      && r == Request(modelId, Encode(cfg.vocab, line, 128).value, seq(128, _ => 1), states[i].now, Some(h));
    j := i;
  }
}
