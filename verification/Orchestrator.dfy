/** The orchestrator as a step system: any number of workers over one cache and one Redis, one
    command at a time, with time passing in between. */
module Orchestration {
  import opened Options
  import opened RedisStore
  import opened FuzzyCaching
  import opened Incidents

  /** Where a worker stands with its log `id`; `at` is when it added the pod. */
  datatype Worker =
    | Ready
    | Looked(id: nat, line: string, hit: Option<Spatial>)
    | Holding(id: nat, line: string, val: Spatial, cached: bool)
    | PodAdded(id: nat, line: string, val: Spatial, cached: bool, similarity: real, at: int)
    | KeyExpiring(id: nat, line: string, val: Spatial, cached: bool, similarity: real)
    | Counted(id: nat, line: string, val: Spatial, cached: bool, similarity: real, radius: nat)
    | Storing(line: string, val: Spatial)

  /** The last five fields are histories: pods added per incident with their times, alerts let through
      with their times, inference answers, the latest value added per signature, and the signatures
      used, by a hit or an addition, in order. */
  datatype State = State(
    names: Names,
    capacity: nat,
    now: int,
    workers: seq<Worker>,
    blast: map<string, PodSet>,
    throttle: map<string, int>,
    lru: seq<Entry>,
    consumed: nat,
    outcomes: map<nat, Outcome>,
    adds: map<string, seq<(int, string)>>,
    admissions: seq<(string, int)>,
    answers: seq<(string, Spatial)>,
    latest: map<nat, Spatial>,
    uses: seq<nat>)

  datatype Turn =
    | Take(line: string)
    | UseHit
    | Answer(response: Option<Spatial>)
    | AddPod(similarity: real)
    | SetExpiry
    | CountPods
    | TryAlert
    | Store

  datatype Step = Tick(d: nat) | Work(w: nat, turn: Turn)

  predicate CanTurn(x: Worker, turn: Turn) {
    match turn
    case Take(_) => x.Ready?
    case UseHit => x.Looked? && x.hit.Some?
    case Answer(_) => x.Looked? && x.hit.None?
    case AddPod(_) => x.Holding?
    case SetExpiry => x.PodAdded?
    case CountPods => x.KeyExpiring?
    case TryAlert => x.Counted?
    case Store => x.Storing?
  }

  function Key(names: Names, val: Spatial): string {
    names.incident(val.vector)
  }

  predicate LongEnough(val: Spatial) {
    |val.vector| >= EMBEDDING_DIM
  }

  /** What the worker becomes. */
  function Turned(s: State, x: Worker, turn: Turn): Worker
    requires CanTurn(x, turn)
  {
    match turn
    case Take(line) => Looked(s.consumed, line, Find(s.lru, Signature(line)))
    case UseHit => if LongEnough(x.hit.value) then Holding(x.id, x.line, x.hit.value, true) else Ready
    case Answer(response) =>
      if response.Some? && LongEnough(response.value) then Holding(x.id, x.line, response.value, false) else Ready
    case AddPod(similarity) => PodAdded(x.id, x.line, x.val, x.cached, similarity, s.now)
    case SetExpiry => KeyExpiring(x.id, x.line, x.val, x.cached, x.similarity)
    case CountPods =>
      Counted(x.id, x.line, x.val, x.cached, x.similarity, Radius(|Members(s.blast, Key(s.names, x.val), s.now)|))
    case TryAlert => if x.cached then Ready else Storing(x.line, x.val)
    case Store => Ready
  }

  /** The outcome that the turn gives to the worker's log. */
  function Ending(s: State, x: Worker, turn: Turn): Option<Outcome>
    requires CanTurn(x, turn)
  {
    match turn
    case UseHit => if LongEnough(x.hit.value) then None else Some(Failed)
    case Answer(response) => if response.Some? && LongEnough(response.value) then None else Some(Failed)
    case TryAlert =>
      Some(if MaySet(s.throttle, Key(s.names, x.val), s.now) then Classify(x.line, x.similarity) else Throttled)
    case _ => None
  }

  function History(adds: map<string, seq<(int, string)>>, key: string): seq<(int, string)> {
    if key in adds then adds[key] else []
  }

  // ---------- what a turn does to Redis ----------

  function BlastAfter(s: State, x: Worker, turn: Turn): map<string, PodSet>
    requires CanTurn(x, turn)
  {
    match turn
    case AddPod(_) => Added(s.blast, Key(s.names, x.val), s.names.podOf(x.line), s.now)
    case SetExpiry => Expiring(s.blast, Key(s.names, x.val), s.now)
    case _ => s.blast
  }

  function ThrottleAfter(s: State, x: Worker, turn: Turn): map<string, int>
    requires CanTurn(x, turn)
  {
    if turn.TryAlert? then SetIfNew(s.throttle, Key(s.names, x.val), s.now) else s.throttle
  }

  function AddsAfter(s: State, x: Worker, turn: Turn): map<string, seq<(int, string)>>
    requires CanTurn(x, turn)
  {
    if turn.AddPod? then
      var key := Key(s.names, x.val);
      s.adds[key := History(s.adds, key) + [(s.now, s.names.podOf(x.line))]]
    else s.adds
  }

  function AdmissionsAfter(s: State, x: Worker, turn: Turn): seq<(string, int)>
    requires CanTurn(x, turn)
  {
    if turn.TryAlert? && MaySet(s.throttle, Key(s.names, x.val), s.now) then
      s.admissions + [(Key(s.names, x.val), s.now)]
    else s.admissions
  }

  // ---------- what a turn does to the cache ----------

  function LruAfter(s: State, x: Worker, turn: Turn): seq<Entry>
    requires CanTurn(x, turn)
  {
    match turn
    case Take(line) => Touch(s.lru, Signature(line))
    case Store => Put(s.lru, Signature(x.line), x.val, s.capacity)
    case _ => s.lru
  }

  function UsesAfter(s: State, x: Worker, turn: Turn): seq<nat>
    requires CanTurn(x, turn)
  {
    match turn
    case Take(line) => if Find(s.lru, Signature(line)).Some? then s.uses + [Signature(line)] else s.uses
    case Store => s.uses + [Signature(x.line)]
    case _ => s.uses
  }

  function LatestAfter(s: State, x: Worker, turn: Turn): map<nat, Spatial>
    requires CanTurn(x, turn)
  {
    if turn.Store? then s.latest[Signature(x.line) := x.val] else s.latest
  }

  function AnswersAfter(s: State, x: Worker, turn: Turn): seq<(string, Spatial)>
    requires CanTurn(x, turn)
  {
    if turn.Answer? && turn.response.Some? then s.answers + [(x.line, turn.response.value)] else s.answers
  }

  function OutcomesAfter(s: State, x: Worker, turn: Turn): map<nat, Outcome>
    requires CanTurn(x, turn)
  {
    if Ending(s, x, turn).Some? then s.outcomes[x.id := Ending(s, x, turn).value] else s.outcomes
  }

  // ---------- the whole ----------

  predicate CanStep(s: State, step: Step) {
    step.Work? ==> step.w < |s.workers| && CanTurn(s.workers[step.w], step.turn)
  }

  function Do(s: State, step: Step): State
    requires CanStep(s, step)
  {
    match step
    case Tick(d) => s.(now := s.now + d)
    case Work(w, turn) =>
      var x := s.workers[w];
      State(s.names, s.capacity, s.now, s.workers[w := Turned(s, x, turn)],
        BlastAfter(s, x, turn), ThrottleAfter(s, x, turn), LruAfter(s, x, turn),
        s.consumed + if turn.Take? then 1 else 0, OutcomesAfter(s, x, turn),
        AddsAfter(s, x, turn), AdmissionsAfter(s, x, turn), AnswersAfter(s, x, turn), LatestAfter(s, x, turn), UsesAfter(s, x, turn))
  }

  function Start(names: Names, capacity: nat, n: nat): State {
    State(names, capacity, 0, seq(n, _ => Ready), map[], map[], [], 0, map[], map[], [], [], map[], [])
  }

  /** Step `i` can be taken and leads to the next state. */
  ghost predicate StepsTo(steps: seq<Step>, states: seq<State>, i: nat)
    requires i < |steps| && i + 1 < |states|
  {
    CanStep(states[i], steps[i]) && states[i + 1] == Do(states[i], steps[i])
  }

  ghost predicate IsRun(names: Names, capacity: nat, n: nat, steps: seq<Step>, states: seq<State>) {
    && |states| == |steps| + 1
    && states[0] == Start(names, capacity, n)
    && forall i :: 0 <= i < |steps| ==> StepsTo(steps, states, i)
  }
}
