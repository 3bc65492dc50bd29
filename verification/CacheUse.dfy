/** What the workers make of the cache: a lookup is served from it or by inference, and what inference
    answered is stored. */
module CacheUse {
  import opened Options
  import opened FuzzyCaching
  import opened Incidents
  import opened Orchestration
  import opened LruProofs
  import opened CacheProofs

  // ---------- what a lookup gives ----------

  /** In every state of every run, for a line whose signature was last used just before `later`: a lookup gives the
      latest value added for it if fewer than `capacity` distinct signatures have been used since, else nothing. */
  lemma LookupByHistory(names: Names, capacity: nat, n: nat, steps: seq<Step>, states: seq<State>, k: nat, w: nat, line: string,
      earlier: seq<nat>, later: seq<nat>)
    requires IsRun(names, capacity, n, steps, states) && k < |states| && CanStep(states[k], Work(w, Take(line)))
    requires states[k].uses == earlier + [Signature(line)] + later && Signature(line) !in later
    ensures |Distinct(later)| < capacity ==> Signature(line) in states[k].latest
    ensures Do(states[k], Work(w, Take(line))).workers[w] == Looked(states[k].consumed, line,
      if |Distinct(later)| < capacity then Some(states[k].latest[Signature(line)]) else None)
  {
    EvictsLeastRecentlyUsed(names, capacity, n, steps, states, k, earlier, Signature(line), later);
    if |Distinct(later)| < capacity {
      HitIsLatest(names, capacity, n, steps, states, k, line);
    }
  }

  // ---------- the cache by the steps of a run alone ----------

  /** The signature that a step uses, by finding it in the cache or by an addition, and the value it has from then on. */
  function Use(s: State, step: Step): Option<Entry> {
    match step
    case Work(w, Take(line)) =>
      (match Find(s.lru, Signature(line))
       case None => None
       case Some(val) => Some(Entry(Signature(line), val)))
    case Work(w, Store) =>
      if w < |s.workers| && s.workers[w].Storing? then Some(Entry(Signature(s.workers[w].line), s.workers[w].val)) else None
    case _ => None
  }

  function SigOf(use: Option<Entry>): seq<nat> {
    if use.None? then [] else [use.value.sig]
  }

  /** The signatures used by the steps from `j` until before `k`. */
  function UsesIn(steps: seq<Step>, states: seq<State>, j: nat, k: nat): seq<nat>
    requires k <= |steps| < |states|
    decreases k
  {
    if k <= j then []
    else UsesIn(steps, states, j, k - 1) + SigOf(Use(states[k - 1], steps[k - 1]))
  }

  lemma StepUses(s: State, step: Step)
    requires CanStep(s, step)
    ensures Do(s, step).uses == s.uses + SigOf(Use(s, step))
  {
  }

  predicate UsesSig(s: State, step: Step, sig: nat) {
    sig in SigOf(Use(s, step))
  }

  lemma StepKeepsLatest(s: State, step: Step, sig: nat)
    requires CanStep(s, step) && !UsesSig(s, step, sig) && sig in s.latest
    ensures sig in Do(s, step).latest && Do(s, step).latest[sig] == s.latest[sig]
  {
  }

  lemma {:induction false} UsesAreSteps(names: Names, capacity: nat, n: nat, steps: seq<Step>, states: seq<State>, j: nat, k: nat)
    requires IsRun(names, capacity, n, steps, states) && j <= k <= |steps|
    ensures states[k].uses == states[j].uses + UsesIn(steps, states, j, k)
  {
    if j < k {
      UsesAreSteps(names, capacity, n, steps, states, j, k - 1);
      assert StepsTo(steps, states, k - 1);
      StepUses(states[k - 1], steps[k - 1]);
      Associates(states[j].uses, UsesIn(steps, states, j, k - 1), SigOf(Use(states[k - 1], steps[k - 1])));
    } else {
      assert states[j].uses + [] == states[j].uses;
    }
  }

  lemma UsesSince(names: Names, capacity: nat, n: nat, steps: seq<Step>, states: seq<State>, j: nat, k: nat)
    requires IsRun(names, capacity, n, steps, states) && j < k <= |steps| && Use(states[j], steps[j]).Some?
    ensures states[k].uses == states[j].uses + [Use(states[j], steps[j]).value.sig] + UsesIn(steps, states, j + 1, k)
  {
    assert StepsTo(steps, states, j);
    StepUses(states[j], steps[j]);
    UsesAreSteps(names, capacity, n, steps, states, j + 1, k);
  }

  /** No step from `j` until before `k` uses `sig`. */
  ghost predicate Unused(steps: seq<Step>, states: seq<State>, j: nat, k: nat, sig: nat)
    requires k <= |steps| < |states|
  {
    forall i :: j <= i < k ==> !UsesSig(states[i], steps[i], sig)
  }

  lemma NotInEither(a: seq<nat>, b: seq<nat>, x: nat)
    requires x !in a && x !in b
    ensures x !in a + b
  {
  }

  lemma {:induction false} UnusedIsNotIn(steps: seq<Step>, states: seq<State>, j: nat, k: nat, sig: nat)
    requires k <= |steps| < |states| && Unused(steps, states, j, k, sig)
    ensures sig !in UsesIn(steps, states, j, k)
    decreases k
  {
    if j < k {
      UnusedIsNotIn(steps, states, j, k - 1, sig);
      assert !UsesSig(states[k - 1], steps[k - 1], sig);
      NotInEither(UsesIn(steps, states, j, k - 1), SigOf(Use(states[k - 1], steps[k - 1])), sig);
    }
  }

  lemma LatestNext(steps: seq<Step>, states: seq<State>, k: nat, sig: nat)
    requires k < |steps| && |states| == |steps| + 1 && StepsTo(steps, states, k)
    requires !UsesSig(states[k], steps[k], sig) && sig in states[k].latest
    ensures sig in states[k + 1].latest && states[k + 1].latest[sig] == states[k].latest[sig]
  {
    StepKeepsLatest(states[k], steps[k], sig);
  }

  lemma {:induction false} LatestStays(steps: seq<Step>, states: seq<State>, j: nat, k: nat, sig: nat)
    requires j <= k <= |steps| && |states| == |steps| + 1
    requires forall i :: j <= i < k ==> StepsTo(steps, states, i)
    requires Unused(steps, states, j, k, sig) && sig in states[j].latest
    ensures sig in states[k].latest && states[k].latest[sig] == states[j].latest[sig]
  {
    if j < k {
      LatestStays(steps, states, j, k - 1, sig);
      assert !UsesSig(states[k - 1], steps[k - 1], sig);
      LatestNext(steps, states, k - 1, sig);
    }
  }

  /** The value of a use is the latest one from then on. */
  lemma UseIsLatest(names: Names, capacity: nat, n: nat, steps: seq<Step>, states: seq<State>, j: nat)
    requires IsRun(names, capacity, n, steps, states) && j < |steps| && Use(states[j], steps[j]).Some?
    ensures var e := Use(states[j], steps[j]).value;
      e.sig in states[j + 1].latest && states[j + 1].latest[e.sig] == e.val
  {
    assert StepsTo(steps, states, j);
    if steps[j].turn.Take? {
      HitIsLatest(names, capacity, n, steps, states, j, steps[j].turn.line);
    }
  }

  lemma ValueStays(names: Names, capacity: nat, n: nat, steps: seq<Step>, states: seq<State>, j: nat, k: nat)
    requires IsRun(names, capacity, n, steps, states) && j < k <= |steps| && Use(states[j], steps[j]).Some?
    requires Unused(steps, states, j + 1, k, Use(states[j], steps[j]).value.sig)
    ensures var e := Use(states[j], steps[j]).value;
      e.sig in states[k].latest && states[k].latest[e.sig] == e.val
  {
    UseIsLatest(names, capacity, n, steps, states, j);
    LatestStays(steps, states, j + 1, k, Use(states[j], steps[j]).value.sig);
  }

  /** In every run: a lookup gives the value of the last use of the line's signature, which was a find or an addition, if
      fewer than `capacity` distinct signatures have been used since. Otherwise it gives nothing. */
  lemma LookupBySteps(names: Names, capacity: nat, n: nat, steps: seq<Step>, states: seq<State>, j: nat, k: nat, w: nat, line: string)
    requires IsRun(names, capacity, n, steps, states) && j < k < |steps| && steps[k] == Work(w, Take(line))
    requires Use(states[j], steps[j]).Some? && Use(states[j], steps[j]).value.sig == Signature(line)
    requires Unused(steps, states, j + 1, k, Signature(line))
    ensures w < |states[k + 1].workers|
    ensures states[k + 1].workers[w] == Looked(states[k].consumed, line,
      if |Distinct(UsesIn(steps, states, j + 1, k))| < capacity then Some(Use(states[j], steps[j]).value.val) else None)
  {
    var sig := Signature(line);
    assert StepsTo(steps, states, k);
    UsesSince(names, capacity, n, steps, states, j, k);
    ValueStays(names, capacity, n, steps, states, j, k);
    UnusedIsNotIn(steps, states, j + 1, k, Signature(line));
    LookupByHistory(names, capacity, n, steps, states, k, w, line, states[j].uses, UsesIn(steps, states, j + 1, k));
  }

  /** A signature that no step has used is not found. */
  lemma NeverUsedIsMiss(names: Names, capacity: nat, n: nat, steps: seq<Step>, states: seq<State>, k: nat, w: nat, line: string)
    requires IsRun(names, capacity, n, steps, states) && k < |steps| && steps[k] == Work(w, Take(line))
    requires Unused(steps, states, 0, k, Signature(line))
    ensures w < |states[k + 1].workers| && states[k + 1].workers[w] == Looked(states[k].consumed, line, None)
  {
    assert StepsTo(steps, states, k);
    UsesAreSteps(names, capacity, n, steps, states, 0, k);
    assert [] + UsesIn(steps, states, 0, k) == UsesIn(steps, states, 0, k);
    UnusedIsNotIn(steps, states, 0, k, Signature(line));
    RunFollows(names, capacity, n, steps, states, k);
    UnusedNotFound(states[k], Signature(line));
  }

  lemma UnusedNotFound(s: State, sig: nat)
    requires Follows(s) && sig !in s.uses
    ensures Find(s.lru, sig).None?
  {
    RecentOnce(s.uses);
    FoundIsIn(s.lru, sig);
  }

  // ---------- what comes of it ----------

  /** Worker `w` takes no step from `j` until before `k`. */
  ghost predicate Untouched(steps: seq<Step>, j: nat, k: nat, w: nat)
    requires k <= |steps|
  {
    forall i :: j <= i < k && steps[i].Work? ==> steps[i].w != w
  }

  lemma {:induction false} WorkerWaits(names: Names, capacity: nat, n: nat, steps: seq<Step>, states: seq<State>, j: nat, k: nat, w: nat)
    requires IsRun(names, capacity, n, steps, states) && j <= k <= |steps|
    requires Untouched(steps, j, k, w) && w < |states[j].workers|
    ensures w < |states[k].workers| && states[k].workers[w] == states[j].workers[w]
  {
    if j < k {
      WorkerWaits(names, capacity, n, steps, states, j, k - 1, w);
      assert StepsTo(steps, states, k - 1);
    }
  }

  /** Steps `j` and `k` are one turn of worker `w` and its next. */
  ghost predicate NextTurn(steps: seq<Step>, j: nat, k: nat, w: nat) {
    && j < k < |steps|
    && steps[j].Work? && steps[j].w == w
    && steps[k].Work? && steps[k].w == w
    && Untouched(steps, j + 1, k, w)
  }

  /** A turn and the next one of the same worker: the second starts from what the first made of the worker. */
  lemma TurnThenTurn(names: Names, capacity: nat, n: nat, steps: seq<Step>, states: seq<State>, j: nat, k: nat, w: nat)
    requires IsRun(names, capacity, n, steps, states) && NextTurn(steps, j, k, w)
    ensures CanStep(states[j], steps[j]) && CanStep(states[k], steps[k])
    ensures states[j + 1] == Do(states[j], steps[j]) && states[k + 1] == Do(states[k], steps[k])
    ensures w < |states[k + 1].workers|
    ensures states[k].workers[w] == Turned(states[j], states[j].workers[w], steps[j].turn)
  {
    assert StepsTo(steps, states, j);
    assert StepsTo(steps, states, k);
    WorkerWaits(names, capacity, n, steps, states, j + 1, k, w);
  }

  /** In every run, whatever happens in between: a worker that finds its line in the cache goes on with the cached value
      and never asks inference. */
  lemma HitIsUsed(names: Names, capacity: nat, n: nat, steps: seq<Step>, states: seq<State>, j: nat, k: nat, w: nat, line: string)
    requires IsRun(names, capacity, n, steps, states) && NextTurn(steps, j, k, w) && steps[j].turn == Take(line)
    requires Find(states[j].lru, Signature(line)).Some?
    ensures steps[k].turn == UseHit && w < |states[k + 1].workers|
    ensures states[k + 1].workers[w] == Holding(states[j].consumed, line, Find(states[j].lru, Signature(line)).value, true)
  {
    TurnThenTurn(names, capacity, n, steps, states, j, k, w);
    CacheSound(names, capacity, n, steps, states, k);
    assert WorkerVouched(states[k], states[k].workers[w]);
  }

  /** One that does not find it asks inference, goes on with an answer of at least 384 numbers, and ends the log as
      failed without one. */
  lemma MissAsksInference(names: Names, capacity: nat, n: nat, steps: seq<Step>, states: seq<State>, j: nat, k: nat, w: nat, line: string)
    requires IsRun(names, capacity, n, steps, states) && NextTurn(steps, j, k, w) && steps[j].turn == Take(line)
    requires Find(states[j].lru, Signature(line)).None?
    ensures steps[k].turn.Answer? && w < |states[k + 1].workers|
    ensures var id, response := states[j].consumed, steps[k].turn.response;
      if response.Some? && |response.value.vector| >= 384 then states[k + 1].workers[w] == Holding(id, line, response.value, false)
      else states[k + 1].workers[w] == Ready && id in states[k + 1].outcomes && states[k + 1].outcomes[id] == Failed
  {
    TurnThenTurn(names, capacity, n, steps, states, j, k, w);
  }

  // ---------- what is stored ----------

  /** A new embedding is in the cache after its worker's turn that follows the alert, let through or not. */
  lemma NewEmbeddingIsStored(names: Names, capacity: nat, n: nat, steps: seq<Step>, states: seq<State>, j: nat, k: nat, w: nat)
    requires IsRun(names, capacity, n, steps, states) && NextTurn(steps, j, k, w) && steps[j].turn.TryAlert?
    requires w < |states[j].workers| && states[j].workers[w].Counted? && !states[j].workers[w].cached
    ensures var x := states[j].workers[w];
      && steps[k].turn == Store
      && states[k + 1].latest == states[k].latest[Signature(x.line) := x.val]
      && states[k + 1].uses == states[k].uses + [Signature(x.line)]
      && (capacity > 0 ==> Find(states[k + 1].lru, Signature(x.line)) == Some(x.val))
  {
    TurnThenTurn(names, capacity, n, steps, states, j, k, w);
    CacheSound(names, capacity, n, steps, states, k);
    var x := states[j].workers[w];
    PutKeeps(states[k].lru, Signature(x.line), x.val, capacity);
  }

  /** Whether a worker still has to store `val`, which inference answered for `line`. */
  function Carries(x: Worker, line: string, val: Spatial): nat {
    match x
    case Holding(_, l, v, cached) => if !cached && l == line && v == val then 1 else 0
    case PodAdded(_, l, v, cached, _, _) => if !cached && l == line && v == val then 1 else 0
    case KeyExpiring(_, l, v, cached, _) => if !cached && l == line && v == val then 1 else 0
    case Counted(_, l, v, cached, _, _) => if !cached && l == line && v == val then 1 else 0
    case Storing(l, v) => if l == line && v == val then 1 else 0
    case _ => 0
  }

  function CarriedBy(ws: seq<Worker>, line: string, val: Spatial): nat {
    if ws == [] then 0 else CarriedBy(ws[..|ws| - 1], line, val) + Carries(ws[|ws| - 1], line, val)
  }

  lemma {:induction false} CarriedByUpdate(ws: seq<Worker>, w: nat, x: Worker, line: string, val: Spatial)
    requires w < |ws|
    ensures CarriedBy(ws[w := x], line, val) + Carries(ws[w], line, val) == CarriedBy(ws, line, val) + Carries(x, line, val)
  {
    var n := |ws| - 1;
    if w < n {
      CarriedByUpdate(ws[..n], w, x, line, val);
      assert ws[w := x][..n] == ws[..n][w := x];
    } else {
      assert ws[w := x][..n] == ws[..n];
    }
  }

  /** How many steps are a turn in which inference answers `line` with `val`. */
  function Answered(s: State, step: Step, line: string, val: Spatial): nat {
    if step.Work? && step.w < |s.workers| && s.workers[step.w].Looked? && s.workers[step.w].line == line
      && step.turn == Answer(Some(val)) && |val.vector| >= 384 then 1 else 0
  }

  function Stored(s: State, step: Step, line: string, val: Spatial): nat {
    if step.Work? && step.w < |s.workers| && s.workers[step.w] == Storing(line, val) && step.turn == Store then 1 else 0
  }

  function AnsweredIn(steps: seq<Step>, states: seq<State>, line: string, val: Spatial): nat
    requires |steps| <= |states|
  {
    if steps == [] then 0
    else
      var n := |steps| - 1;
      AnsweredIn(steps[..n], states, line, val) + Answered(states[n], steps[n], line, val)
  }

  function StoredIn(steps: seq<Step>, states: seq<State>, line: string, val: Spatial): nat
    requires |steps| <= |states|
  {
    if steps == [] then 0
    else
      var n := |steps| - 1;
      StoredIn(steps[..n], states, line, val) + Stored(states[n], steps[n], line, val)
  }

  lemma TurnCarries(s: State, w: nat, turn: Turn, line: string, val: Spatial)
    requires CanStep(s, Work(w, turn))
    ensures Carries(Turned(s, s.workers[w], turn), line, val) + Stored(s, Work(w, turn), line, val)
      == Carries(s.workers[w], line, val) + Answered(s, Work(w, turn), line, val)
  {
  }

  lemma StepCarries(s: State, step: Step, line: string, val: Spatial)
    requires CanStep(s, step)
    ensures CarriedBy(Do(s, step).workers, line, val) + Stored(s, step, line, val)
      == CarriedBy(s.workers, line, val) + Answered(s, step, line, val)
  {
    if step.Work? {
      TurnCarries(s, step.w, step.turn, line, val);
      CarriedByUpdate(s.workers, step.w, Turned(s, s.workers[step.w], step.turn), line, val);
    }
  }

  lemma {:induction false} NobodyCarries(n: nat, line: string, val: Spatial)
    ensures CarriedBy(seq(n, _ => Ready), line, val) == 0
  {
    if n > 0 {
      assert seq(n, _ => Ready)[..n - 1] == seq(n - 1, _ => Ready);
      NobodyCarries(n - 1, line, val);
    }
  }

  /** In every state of every run each answer of inference that is long enough has been stored exactly once or is with
      exactly one worker, and nothing else is stored: a value from the cache is not stored again. */
  lemma {:induction false} AnswersStoredOnce(names: Names, capacity: nat, n: nat, steps: seq<Step>, states: seq<State>, k: nat,
      line: string, val: Spatial)
    requires IsRun(names, capacity, n, steps, states) && k < |states|
    ensures AnsweredIn(steps[..k], states, line, val) == StoredIn(steps[..k], states, line, val) + CarriedBy(states[k].workers, line, val)
  {
    if k == 0 {
      NobodyCarries(n, line, val);
    } else {
      AnswersStoredOnce(names, capacity, n, steps, states, k - 1, line, val);
      assert StepsTo(steps, states, k - 1);
      assert steps[..k][..k - 1] == steps[..k - 1];
      StepCarries(states[k - 1], steps[k - 1], line, val);
    }
  }
}
