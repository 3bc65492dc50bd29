/** The inference server as a step system: any number of handlers, the workers, the destructor and
    the telemetry reader, interleaved one shared-memory operation at a time. */
module Pool {
  import opened Options
  import opened Tokenizing
  import opened Queueing
  import opened Batching

  const MAX_DEPTH := 500
  const BATCH_SIZE := 32
  const DEADLINE_NS := 5_000_000_000

  type ClientRequest = Request<nat>

  /** What is fixed for a run: the model, the vocabulary, and how many handlers may be active at once. */
  datatype Config = Config(model: Model, vocab: map<string, int>, maxHandlers: nat)

  /** Handlers by what they are doing; handler `h` makes at most one request, whose promise is `h`. */
  datatype Handlers = Handlers(arrived: set<nat>, admitted: set<nat>, ready: map<nat, ClientRequest>, waiting: set<nat>, next: nat)

  datatype Worker =
    | Idle
    | Popping
    | Stopped
    | Have(batch: seq<ClientRequest>)
    | Filtering(batch: seq<ClientRequest>, at: int, next: nat, valid: seq<nat>)
    | Inferring(batch: seq<ClientRequest>, at: int, valid: seq<nat>)
    | Counting(batch: seq<ClientRequest>, at: int, valid: seq<nat>, inWindow: bool)
    | Replying(batch: seq<ClientRequest>, at: int, valid: seq<nat>, next: nat)

  /** Why a batch was not answered; `at` is the clock reading that decided which of its requests are stale. */
  datatype Why = HeadPill | BadShape(at: int) | UnknownModel(at: int) | RunThrew(at: int)

  /** How a request ended. An abandoned request's promise is never set: its handler waits out the deadline. */
  datatype Verdict =
    | Stale(at: int, batch: seq<ClientRequest>)
    | Fresh(at: int, batch: seq<ClientRequest>, embedding: seq<real>)
    | Abandoned(batch: seq<ClientRequest>, why: Why)

  /** `snapshots` and `droppedSnapshots` add up what the reader has taken; `stalePills` counts
      stale decisions about pills, which have no promise. */
  datatype Telemetry = Telemetry(window: nat, total: nat, snapshots: nat, dropped: nat, droppedSnapshots: nat, stalePills: nat)

  /** `requests` remembers every client request pushed, `readings` the clock reading by which each batch was filtered. */
  datatype State = State(
    cfg: Config,
    now: int,
    q: QueueState<ClientRequest>,
    handlers: Handlers,
    pillsLeft: nat,
    pill: Option<ClientRequest>,
    workers: seq<Worker>,
    requests: map<nat, ClientRequest>,
    verdicts: map<nat, Verdict>,
    telemetry: Telemetry,
    readings: map<seq<ClientRequest>, int>)

  datatype HandlerStep =
    | Arrive
    | CheckDepth(h: nat)
    | Build(h: nat, modelId: string, line: string)
    | LockAndPush(h: nat)
    | Leave(h: nat)

  datatype WorkerStep =
    | BeginPop
    | FinishPop
    | Inspect
    | Filter
    | EndFilter
    | RunReturns
    | Throw
    | AddToWindow
    | AddToTotal
    | SendReply
    | EndReplies

  /** `Holder` is a step of whoever holds the queue's lock. */
  datatype Step =
    | Tick(d: nat)
    | Handler(hstep: HandlerStep)
    | MakePill
    | PushPill
    | Holder(qstep: QueueStep<ClientRequest>)
    | Work(w: nat, wstep: WorkerStep)
    | TakeWindow
    | TakeDropped

  function Active(hs: Handlers): nat {
    |hs.arrived| + |hs.admitted| + |hs.ready| + |hs.waiting|
  }

  function Ones(n: nat): (r: seq<int>)
    ensures |r| == n
  {
    seq(n, _ => 1)
  }

  /** What a handler builds from a log line: 128 token ids, a mask of ones, the time it reads. */
  function BuildRequest(cfg: Config, h: nat, modelId: string, line: string, now: int): ClientRequest {
    var ids := Encode(cfg.vocab, line, 128);
    var tokens := if ids.Some? then ids.value else [];
    Request(modelId, tokens, Ones(|tokens|), now, Some(h))
  }

  function Pill(now: int): ClientRequest {
    Request("", [-1], [0], now, None)
  }

  // ---------- requests in a worker's hands ----------

  /** The requests of `batch` at the given indices. */
  function Pick(batch: seq<ClientRequest>, indices: seq<nat>): seq<ClientRequest> {
    if indices == [] then []
    else
      var n := |indices| - 1;
      Pick(batch, indices[..n]) + if indices[n] < |batch| then [batch[indices[n]]] else []
  }

  /** The requests a worker still owes an answer. */
  function Owed(w: Worker): seq<ClientRequest> {
    match w
    case Have(batch) => batch
    case Filtering(batch, _, next, valid) => Pick(batch, valid) + if next <= |batch| then batch[next..] else []
    case Inferring(batch, _, valid) => Pick(batch, valid)
    case Counting(batch, _, valid, _) => Pick(batch, valid)
    case Replying(batch, _, valid, next) => if next <= |valid| then Pick(batch, valid[next..]) else []
    case _ => []
  }

  /** The promises of the client requests in a list. */
  function Ids(rs: seq<ClientRequest>): set<nat> {
    set i | 0 <= i < |rs| && rs[i].promise.Some? :: rs[i].promise.value
  }

  /** Ends every request of `rs` in the same way. */
  function Settle(verdicts: map<nat, Verdict>, rs: seq<ClientRequest>, v: Verdict): map<nat, Verdict> {
    verdicts + map h | h in Ids(rs) :: v
  }

  function Reason(cfg: Config, batch: seq<ClientRequest>, at: int): Why
    requires batch != []
  {
    if !TensorsFit(batch, at) then BadShape(at)
    else if batch[0].modelId !in cfg.model.loaded then UnknownModel(at)
    else RunThrew(at)
  }

  // ---------- a handler ----------

  predicate CanHandle(s: State, step: HandlerStep) {
    match step
    case Arrive => Active(s.handlers) < s.cfg.maxHandlers
    case CheckDepth(h) => h in s.handlers.arrived
    case Build(h, _, _) => h in s.handlers.admitted
    case LockAndPush(h) => h in s.handlers.ready && s.q.lock.Free?
    case Leave(h) =>
      && h in s.handlers.waiting
      && !(s.q.lock.Pushing? && s.q.lock.item.promise == Some(h))
      && ((h in s.verdicts && !s.verdicts[h].Abandoned?)
          || (h in s.requests && s.now >= s.requests[h].arrival + DEADLINE_NS))
  }

  function Handle(s: State, step: HandlerStep): State
    requires CanHandle(s, step)
  {
    var hs := s.handlers;
    match step
    case Arrive => s.(handlers := hs.(arrived := hs.arrived + {hs.next}, next := hs.next + 1))
    case CheckDepth(h) =>
      if s.q.depth > MAX_DEPTH then s.(handlers := hs.(arrived := hs.arrived - {h}))
      else s.(handlers := hs.(arrived := hs.arrived - {h}, admitted := hs.admitted + {h}))
    case Build(h, modelId, line) =>
      s.(handlers := hs.(admitted := hs.admitted - {h}, ready := hs.ready[h := BuildRequest(s.cfg, h, modelId, line, s.now)]))
    case LockAndPush(h) =>
      s.(q := Apply(s.q, PushItem(hs.ready[h])),
         handlers := hs.(ready := hs.ready - {h}, waiting := hs.waiting + {h}),
         requests := s.requests[h := hs.ready[h]])
    case Leave(h) => s.(handlers := hs.(waiting := hs.waiting - {h}))
  }

  // ---------- a worker ----------

  predicate CanWork(s: State, x: Worker, step: WorkerStep) {
    match step
    case BeginPop => x.Idle? && s.q.lock.Free?
    case FinishPop => x.Popping? && Enabled(s.q, EndPop)
    case Inspect => x.Have? && x.batch != []
    case Filter => x.Filtering? && x.next < |x.batch|
    case EndFilter => x.Filtering? && x.next == |x.batch|
    case RunReturns =>
      x.Inferring? && x.batch != [] && TensorsFit(x.batch, x.at) && x.batch[0].modelId in s.cfg.model.loaded
    case Throw => x.Inferring? && x.batch != []
    case AddToWindow => x.Counting? && !x.inWindow
    case AddToTotal => x.Counting? && x.inWindow
    case SendReply =>
      && x.Replying? && x.next < |x.valid| && x.valid[x.next] < |x.batch|
      && TensorsFit(x.batch, x.at) && x.next < |ValidIndices(x.batch, x.at)|
    case EndReplies => x.Replying? && x.next == |x.valid|
  }

  /** What the worker itself becomes. */
  function Moved(s: State, x: Worker, step: WorkerStep): Worker
    requires CanWork(s, x, step)
  {
    match step
    case BeginPop => Worker.Popping
    case FinishPop => if s.q.lock.batch == [] then Idle else Have(s.q.lock.batch)
    case Inspect => if IsPill(x.batch[0]) then Stopped else Filtering(x.batch, s.now, 0, [])
    case Filter =>
      Filtering(x.batch, x.at, x.next + 1, if IsStale(x.batch[x.next], x.at) then x.valid else x.valid + [x.next])
    case EndFilter => if x.valid == [] then Idle else Inferring(x.batch, x.at, x.valid)
    case RunReturns => Counting(x.batch, x.at, x.valid, false)
    case Throw => Idle
    case AddToWindow => Counting(x.batch, x.at, x.valid, true)
    case AddToTotal => Replying(x.batch, x.at, x.valid, 0)
    case SendReply => Replying(x.batch, x.at, x.valid, x.next + 1)
    case EndReplies => Idle
  }

  /** The requests that the step ends, and how. */
  function Ended(s: State, x: Worker, step: WorkerStep): (r: (seq<ClientRequest>, Verdict))
    requires CanWork(s, x, step)
  {
    match step
    case Inspect => if IsPill(x.batch[0]) then (x.batch, Abandoned(x.batch, HeadPill)) else ([], Stale(s.now, x.batch))
    case Filter => (if IsStale(x.batch[x.next], x.at) then [x.batch[x.next]] else [], Stale(x.at, x.batch))
    case Throw => (Pick(x.batch, x.valid), Abandoned(x.batch, Reason(s.cfg, x.batch, x.at)))
    case SendReply =>
      ([x.batch[x.valid[x.next]]], Fresh(x.at, x.batch, Embedding(s.cfg.model, x.batch, x.at, x.next)))
    case _ => ([], Stale(s.now, []))
  }

  function Counted(t: Telemetry, s: State, x: Worker, step: WorkerStep): Telemetry
    requires CanWork(s, x, step)
  {
    match step
    case Filter =>
      var r := x.batch[x.next];
      if IsStale(r, x.at) then t.(dropped := t.dropped + 1, stalePills := t.stalePills + if r.promise.None? then 1 else 0)
      else t
    case AddToWindow => t.(window := t.window + |x.valid|)
    case AddToTotal => t.(total := t.total + |x.valid|)
    case _ => t
  }

  function Read(s: State, x: Worker, step: WorkerStep): map<seq<ClientRequest>, int>
    requires CanWork(s, x, step)
  {
    if step.Inspect? && !IsPill(x.batch[0]) then s.readings[x.batch := s.now] else s.readings
  }

  function Queued(s: State, x: Worker, step: WorkerStep): QueueState<ClientRequest>
    requires CanWork(s, x, step)
  {
    match step
    case BeginPop => Apply(s.q, StartPop(BATCH_SIZE))
    case FinishPop => Apply(s.q, EndPop)
    case _ => s.q
  }

  // ---------- the whole ----------

  predicate CanStep(s: State, step: Step) {
    match step
    case Tick(_) => true
    case Handler(hstep) => CanHandle(s, hstep)
    case MakePill => s.pill.None? && s.pillsLeft > 0
    case PushPill => s.pill.Some? && s.pillsLeft > 0 && s.q.lock.Free?
    case Holder(qstep) => (qstep.CountPush? || qstep.EndPush? || qstep.PopOne? || qstep.CountPop?) && Enabled(s.q, qstep)
    case Work(w, wstep) => w < |s.workers| && CanWork(s, s.workers[w], wstep)
    case TakeWindow => true
    case TakeDropped => true
  }

  function Do(s: State, step: Step): State
    requires CanStep(s, step)
  {
    match step
    case Tick(d) => s.(now := s.now + d)
    case Handler(hstep) => Handle(s, hstep)
    case MakePill => s.(pill := Some(Pill(s.now)))
    case PushPill => s.(q := Apply(s.q, PushItem(s.pill.value)), pill := None, pillsLeft := s.pillsLeft - 1)
    case Holder(qstep) => s.(q := Apply(s.q, qstep))
    case Work(w, wstep) =>
      var x := s.workers[w];
      var (rs, v) := Ended(s, x, wstep);
      s.(workers := s.workers[w := Moved(s, x, wstep)],
         q := Queued(s, x, wstep),
         verdicts := Settle(s.verdicts, rs, v),
         telemetry := Counted(s.telemetry, s, x, wstep),
         readings := Read(s, x, wstep))
    case TakeWindow => s.(telemetry := s.telemetry.(window := 0, snapshots := s.telemetry.snapshots + s.telemetry.window))
    case TakeDropped =>
      s.(telemetry := s.telemetry.(dropped := 0, droppedSnapshots := s.telemetry.droppedSnapshots + s.telemetry.dropped))
  }

  function Start(cfg: Config, n: nat): State {
    State(cfg, 0, Queueing.Empty(), Handlers({}, {}, map[], {}, 0), n, None, seq(n, _ => Idle), map[], map[], Telemetry(0, 0, 0, 0, 0, 0), map[])
  }

  /** Step `i` can be taken and leads to the next state. */
  ghost predicate StepsTo(steps: seq<Step>, states: seq<State>, i: nat)
    requires i < |steps| && i + 1 < |states|
  {
    CanStep(states[i], steps[i]) && states[i + 1] == Do(states[i], steps[i])
  }

  /** `states` is a run of the server with `n` workers. */
  ghost predicate IsServerRun(cfg: Config, n: nat, steps: seq<Step>, states: seq<State>) {
    && |states| == |steps| + 1
    && states[0] == Start(cfg, n)
    && forall i :: 0 <= i < |steps| ==> StepsTo(steps, states, i)
  }
}
