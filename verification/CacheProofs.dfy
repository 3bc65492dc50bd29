/** What the shared cache keeps under any interleaving of lookups, inferences and additions. */
module CacheProofs {
  import opened Options
  import opened FuzzyCaching
  import opened Incidents
  import opened Orchestration
  import opened LruProofs

  /** `val` was answered by inference for some line with this signature, and is long enough to be kept. */
  ghost predicate Vouched(s: State, sig: nat, val: Spatial) {
    LongEnough(val) && exists i :: 0 <= i < |s.answers| && s.answers[i].1 == val && Signature(s.answers[i].0) == sig
  }

  ghost predicate EntryFormed(s: State, e: Entry) {
    Vouched(s, e.sig, e.val) && e.sig in s.latest && s.latest[e.sig] == e.val
  }

  ghost predicate WorkerVouched(s: State, x: Worker) {
    match x
    case Ready => true
    case Looked(_, line, hit) => hit.Some? ==> Vouched(s, Signature(line), hit.value)
    case Holding(_, line, val, _) => Vouched(s, Signature(line), val)
    case PodAdded(_, line, val, _, _, _) => Vouched(s, Signature(line), val)
    case KeyExpiring(_, line, val, _, _) => Vouched(s, Signature(line), val)
    case Counted(_, line, val, _, _, _) => Vouched(s, Signature(line), val)
    case Storing(line, val) => Vouched(s, Signature(line), val)
  }

  ghost predicate ListFormed(s: State) {
    && |s.lru| <= s.capacity
    && DistinctSigs(s.lru)
    && forall e :: e in s.lru ==> EntryFormed(s, e)
  }

  ghost predicate WorkersVouched(s: State) {
    forall w :: 0 <= w < |s.workers| ==> WorkerVouched(s, s.workers[w])
  }

  lemma AnswersGrow(s: State, step: Step)
    requires CanStep(s, step)
    ensures s.answers <= Do(s, step).answers
    ensures Do(s, step).capacity == s.capacity
  {
  }

  lemma VouchedStays(s: State, s': State, sig: nat, val: Spatial)
    requires Vouched(s, sig, val) && s.answers <= s'.answers
    ensures Vouched(s', sig, val)
  {
    var i :| 0 <= i < |s.answers| && s.answers[i].1 == val && Signature(s.answers[i].0) == sig;
    assert s'.answers[i].1 == val && Signature(s'.answers[i].0) == sig;
  }

  lemma WorkerStays(s: State, s': State, x: Worker)
    requires WorkerVouched(s, x) && s.answers <= s'.answers
    ensures WorkerVouched(s', x)
  {
    match x
    case Ready =>
    case Looked(_, line, hit) => if hit.Some? { VouchedStays(s, s', Signature(line), hit.value); }
    case Holding(_, line, val, _) => VouchedStays(s, s', Signature(line), val);
    case PodAdded(_, line, val, _, _, _) => VouchedStays(s, s', Signature(line), val);
    case KeyExpiring(_, line, val, _, _) => VouchedStays(s, s', Signature(line), val);
    case Counted(_, line, val, _, _, _) => VouchedStays(s, s', Signature(line), val);
    case Storing(line, val) => VouchedStays(s, s', Signature(line), val);
  }

  /** The worker that moves holds only vouched values, in the state it moves to. */
  lemma MoverVouched(s: State, w: nat, turn: Turn)
    requires ListFormed(s) && CanStep(s, Work(w, turn)) && WorkerVouched(s, s.workers[w])
    ensures WorkerVouched(Do(s, Work(w, turn)), Turned(s, s.workers[w], turn))
  {
    var s', x := Do(s, Work(w, turn)), s.workers[w];
    AnswersGrow(s, Work(w, turn));
    match turn
    case Take(line) =>
      var hit := Find(s.lru, Signature(line));
      if hit.Some? {
        assert EntryFormed(s, Entry(Signature(line), hit.value));
        VouchedStays(s, s', Signature(line), hit.value);
      }
    case Answer(response) =>
      if response.Some? {
        var n := |s.answers|;
        assert s'.answers[n].1 == response.value && s'.answers[n].0 == x.line;
      }
    case _ => WorkerStays(s, s', x);
  }

  lemma TouchKeeps(entries: seq<Entry>, sig: nat)
    requires DistinctSigs(entries)
    ensures DistinctSigs(Touch(entries, sig)) && |Touch(entries, sig)| <= |entries|
    ensures forall e :: e in Touch(entries, sig) <==> e in entries
  {
    WithoutKeeps(entries, sig);
    if Find(entries, sig).Some? {
      var val := Find(entries, sig).value;
      forall e | e in entries && e.sig == sig
        ensures e == Entry(sig, val)
      {
        var i :| 0 <= i < |entries| && entries[i] == e;
        var j :| 0 <= j < |entries| && entries[j] == Entry(sig, val);
        assert i == j;
      }
    }
  }

  lemma PutKeeps(entries: seq<Entry>, sig: nat, val: Spatial, capacity: nat)
    requires DistinctSigs(entries)
    ensures DistinctSigs(Put(entries, sig, val, capacity)) && |Put(entries, sig, val, capacity)| <= capacity
    ensures forall e :: e in Put(entries, sig, val, capacity) ==> e == Entry(sig, val) || (e in entries && e.sig != sig)
    ensures capacity > 0 ==> Find(Put(entries, sig, val, capacity), sig) == Some(val)
  {
    WithoutKeeps(entries, sig);
    var all := [Entry(sig, val)] + Without(entries, sig);
    assert DistinctSigs(all);
    assert forall e :: e in all ==> e == Entry(sig, val) || (e in entries && e.sig != sig);
  }

  lemma TakeKeepsList(s: State, w: nat, line: string)
    requires ListFormed(s) && CanStep(s, Work(w, Take(line)))
    ensures ListFormed(Do(s, Work(w, Take(line))))
  {
    TouchKeeps(s.lru, Signature(line));
    EntriesStay(s, Do(s, Work(w, Take(line))));
  }

  lemma StoreKeepsList(s: State, w: nat)
    requires ListFormed(s) && CanStep(s, Work(w, Store)) && WorkerVouched(s, s.workers[w])
    ensures ListFormed(Do(s, Work(w, Store)))
  {
    var s', x := Do(s, Work(w, Store)), s.workers[w];
    PutKeeps(s.lru, Signature(x.line), x.val, s.capacity);
    forall e | e in s'.lru
      ensures EntryFormed(s', e)
    {
      if e in s.lru && e.sig != Signature(x.line) {
        assert EntryFormed(s, e);
      }
      VouchedStays(s, s', e.sig, e.val);
    }
  }

  lemma EntriesStay(s: State, s': State)
    requires forall e :: e in s.lru ==> EntryFormed(s, e)
    requires s.answers <= s'.answers && s'.latest == s.latest
    ensures forall e :: e in s.lru ==> EntryFormed(s', e)
  {
    forall e | e in s.lru
      ensures EntryFormed(s', e)
    {
      VouchedStays(s, s', e.sig, e.val);
    }
  }

  lemma OtherKeepsList(s: State, step: Step)
    requires ListFormed(s) && CanStep(s, step)
    requires step.Work? ==> !step.turn.Take? && !step.turn.Store?
    ensures ListFormed(Do(s, step))
  {
    AnswersGrow(s, step);
    assert Do(s, step).lru == s.lru && Do(s, step).latest == s.latest;
    EntriesStay(s, Do(s, step));
  }

  lemma StepKeepsList(s: State, step: Step)
    requires ListFormed(s) && WorkersVouched(s) && CanStep(s, step)
    ensures ListFormed(Do(s, step))
  {
    if step.Work? && step.turn.Take? {
      TakeKeepsList(s, step.w, step.turn.line);
    } else if step.Work? && step.turn.Store? {
      StoreKeepsList(s, step.w);
    } else {
      OtherKeepsList(s, step);
    }
  }

  lemma StepKeepsVouched(s: State, step: Step)
    requires ListFormed(s) && WorkersVouched(s) && CanStep(s, step)
    ensures WorkersVouched(Do(s, step))
  {
    var s' := Do(s, step);
    AnswersGrow(s, step);
    if step.Work? {
      MoverVouched(s, step.w, step.turn);
      assert s'.workers == s.workers[step.w := Turned(s, s.workers[step.w], step.turn)];
    }
    forall w | 0 <= w < |s'.workers|
      ensures WorkerVouched(s', s'.workers[w])
    {
      if !step.Work? || w != step.w {
        WorkerStays(s, s', s.workers[w]);
      }
    }
  }

  /** In every state of every run: at most `capacity` entries, one per signature, each long enough,
      answered by inference for a line of that signature, and the latest value added for it. */
  lemma {:induction false} CacheSound(names: Names, capacity: nat, n: nat, steps: seq<Step>, states: seq<State>, k: nat)
    requires IsRun(names, capacity, n, steps, states) && k < |states|
    ensures ListFormed(states[k]) && WorkersVouched(states[k]) && states[k].capacity == capacity
  {
    if k > 0 {
      CacheSound(names, capacity, n, steps, states, k - 1);
      assert StepsTo(steps, states, k - 1);
      AnswersGrow(states[k - 1], steps[k - 1]);
      StepKeepsList(states[k - 1], steps[k - 1]);
      StepKeepsVouched(states[k - 1], steps[k - 1]);
    }
  }

  /** A hit returns the latest addition for the signature, and a cached embedding never fails the length check. */
  lemma HitIsLatest(names: Names, capacity: nat, n: nat, steps: seq<Step>, states: seq<State>, k: nat, line: string)
    requires IsRun(names, capacity, n, steps, states) && k < |states|
    requires Find(states[k].lru, Signature(line)).Some?
    ensures Signature(line) in states[k].latest
    ensures Find(states[k].lru, Signature(line)) == Some(states[k].latest[Signature(line)])
    ensures |Find(states[k].lru, Signature(line)).value.vector| >= 384
  {
    CacheSound(names, capacity, n, steps, states, k);
    assert EntryFormed(states[k], Entry(Signature(line), Find(states[k].lru, Signature(line)).value));
  }

  /** So a log that hits the cache never ends as failed. */
  lemma HitNeverFails(names: Names, capacity: nat, n: nat, steps: seq<Step>, states: seq<State>, k: nat, w: nat)
    requires IsRun(names, capacity, n, steps, states) && k < |states| && CanStep(states[k], Work(w, UseHit))
    ensures Ending(states[k], states[k].workers[w], UseHit).None?
  {
    CacheSound(names, capacity, n, steps, states, k);
    assert WorkerVouched(states[k], states[k].workers[w]);
  }

  // ---------- least recently used ----------

  /** The signatures cached are the most recently used ones, in order of use. */
  ghost predicate Follows(s: State) {
    Sigs(s.lru) == UpTo(Recent(s.uses), s.capacity)
  }

  lemma TakeFollows(s: State, w: nat, line: string)
    requires Follows(s) && CanStep(s, Work(w, Take(line)))
    ensures Follows(Do(s, Work(w, Take(line))))
  {
    if Find(s.lru, Signature(line)).Some? {
      TouchIsUse(s.lru, Signature(line), s.capacity);
      UseFollows(s.uses, Signature(line), s.capacity);
    }
  }

  lemma StoreFollows(s: State, w: nat)
    requires Follows(s) && CanStep(s, Work(w, Store))
    ensures Follows(Do(s, Work(w, Store)))
  {
    var x := s.workers[w];
    PutIsUse(s.lru, Signature(x.line), x.val, s.capacity);
    UseFollows(s.uses, Signature(x.line), s.capacity);
  }

  lemma StepFollows(s: State, step: Step)
    requires Follows(s) && CanStep(s, step)
    ensures Follows(Do(s, step)) && Do(s, step).capacity == s.capacity
  {
    if step.Work? && step.turn.Take? {
      TakeFollows(s, step.w, step.turn.line);
    } else if step.Work? && step.turn.Store? {
      StoreFollows(s, step.w);
    } else {
      assert Do(s, step).lru == s.lru && Do(s, step).uses == s.uses && Do(s, step).capacity == s.capacity;
    }
  }

  lemma {:induction false} RunFollows(names: Names, capacity: nat, n: nat, steps: seq<Step>, states: seq<State>, k: nat)
    requires IsRun(names, capacity, n, steps, states) && k < |states|
    ensures Follows(states[k]) && states[k].capacity == capacity
  {
    if k > 0 {
      RunFollows(names, capacity, n, steps, states, k - 1);
      assert StepsTo(steps, states, k - 1);
      StepFollows(states[k - 1], steps[k - 1]);
    }
  }

  /** In every state of every run, for a signature last used just before `later`: it is cached exactly when
      fewer than `capacity` distinct signatures have been used since. */
  lemma EvictsLeastRecentlyUsed(names: Names, capacity: nat, n: nat, steps: seq<Step>, states: seq<State>, k: nat,
      earlier: seq<nat>, sig: nat, later: seq<nat>)
    requires IsRun(names, capacity, n, steps, states) && k < |states|
    requires states[k].uses == earlier + [sig] + later && sig !in later
    ensures Find(states[k].lru, sig).Some? <==> |Distinct(later)| < capacity
  {
    RunFollows(names, capacity, n, steps, states, k);
    PlaceOfLastUse(earlier, sig, later, capacity);
    FoundIsIn(states[k].lru, sig);
  }
}
