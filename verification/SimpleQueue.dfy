/** The queue between the handlers and the workers: the class itself, and the same queue one
    memory operation at a time, as other threads see it while the lock is held. */
module Queueing {
  import opened Options

  class SimpleQueue<T> {
    var items: seq<T>
    var currentQueueDepth: int

    ghost predicate Valid()
      reads this
    {
      currentQueueDepth == |items|
    }

    constructor ()
      ensures Valid() && items == []
    {
      items := [];
      currentQueueDepth := 0;
    }

    method Push(item: T)
      requires Valid()
      modifies this
      ensures Valid() && items == old(items) + [item]
    {
      items := items + [item];
      currentQueueDepth := currentQueueDepth + 1;
    }

    /** The body of `pop_batch` once the wait is over and the lock is held again. */
    method PopBatch(batchSize: nat) returns (batch: seq<T>)
      requires Valid()
      modifies this
      ensures Valid() && batch + items == old(items)
      ensures |batch| == Min(|old(items)|, batchSize)
    {
      batch := [];
      while items != [] && |batch| < batchSize
        invariant Valid() && batch + items == old(items)
        invariant |batch| <= batchSize
        decreases |items|
      {
        batch := batch + [items[0]];
        items := items[1..];
        currentQueueDepth := currentQueueDepth - 1;
      }
    }

    /** Outside the lock's critical sections the depth is the true size. */
    function GetQueueDepth(): (depth: int)
      requires Valid()
      reads this
      ensures depth == |items|
    {
      currentQueueDepth
    }
  }

  // ---------- one memory operation at a time ----------

  /** Who holds the mutex and how far it has come. `counted` tells whether the depth counter
      has caught up with the last change of the queue. */
  datatype Lock<T> =
    | Free
    | Pushing(item: T, counted: bool)
    | Popping(limit: nat, atStart: seq<T>, batch: seq<T>, counted: bool)

  /** `pushed` and `batches` are histories, in the order of the lock. */
  datatype QueueState<T> = QueueState(items: seq<T>, depth: int, lock: Lock<T>, pushed: seq<T>, batches: seq<seq<T>>)

  datatype QueueStep<T> =
    | PushItem(item: T)
    | CountPush
    | EndPush
    | StartPop(limit: nat)
    | PopOne
    | CountPop
    | EndPop

  predicate Enabled<T>(q: QueueState<T>, step: QueueStep<T>) {
    match step
    case PushItem(_) => q.lock.Free?
    case CountPush => q.lock.Pushing? && !q.lock.counted
    case EndPush => q.lock.Pushing? && q.lock.counted
    case StartPop(_) => q.lock.Free?
    case PopOne => q.lock.Popping? && q.lock.counted && q.items != [] && |q.lock.batch| < q.lock.limit
    case CountPop => q.lock.Popping? && !q.lock.counted
    case EndPop => q.lock.Popping? && q.lock.counted && (q.items == [] || |q.lock.batch| >= q.lock.limit)
  }

  function Apply<T>(q: QueueState<T>, step: QueueStep<T>): QueueState<T>
    requires Enabled(q, step)
  {
    match step
    case PushItem(item) => q.(items := q.items + [item], pushed := q.pushed + [item], lock := Pushing(item, false))
    case CountPush => q.(depth := q.depth + 1, lock := Pushing(q.lock.item, true))
    case EndPush => q.(lock := Free)
    case StartPop(limit) => q.(lock := Popping(limit, q.items, [], true))
    case PopOne =>
      q.(items := q.items[1..], lock := Popping(q.lock.limit, q.lock.atStart, q.lock.batch + [q.items[0]], false))
    case CountPop => q.(depth := q.depth - 1, lock := Popping(q.lock.limit, q.lock.atStart, q.lock.batch, true))
    case EndPop => q.(lock := Free, batches := q.batches + [q.lock.batch])
  }

  function Flatten<T>(batches: seq<seq<T>>): seq<T> {
    if batches == [] then [] else Flatten(batches[..|batches| - 1]) + batches[|batches| - 1]
  }

  function InHand<T>(q: QueueState<T>): seq<T> {
    if q.lock.Popping? then q.lock.batch else []
  }

  /** What every step keeps. The counter is off by at most one, in the direction of the change in
      progress, and exact when the mutex is free; nothing is lost, duplicated or reordered. */
  ghost predicate QueueInv<T>(q: QueueState<T>) {
    && q.depth == |q.items|
        - (if q.lock.Pushing? && !q.lock.counted then 1 else 0)
        + (if q.lock.Popping? && !q.lock.counted then 1 else 0)
    && q.pushed == Flatten(q.batches) + InHand(q) + q.items
    && (q.lock.Pushing? ==> q.items != [] && q.items[|q.items| - 1] == q.lock.item)
    && (q.lock.Popping? ==>
          && q.lock.atStart == q.lock.batch + q.items
          && |q.lock.batch| <= q.lock.limit)
  }

  function Empty<T>(): (q: QueueState<T>)
    ensures QueueInv(q)
  {
    QueueState([], 0, Free, [], [])
  }

  lemma StepKeepsQueueInv<T>(q: QueueState<T>, step: QueueStep<T>)
    requires QueueInv(q) && Enabled(q, step)
    ensures QueueInv(Apply(q, step))
  {
    match step
    case PushItem(item) =>
      assert Flatten(q.batches) + [] + q.items + [item] == Flatten(q.batches) + [] + (q.items + [item]);
    case PopOne =>
      var batch, x := q.lock.batch, q.items[0];
      assert batch + q.items == (batch + [x]) + q.items[1..];
      assert Flatten(q.batches) + batch + q.items == Flatten(q.batches) + (batch + [x]) + q.items[1..];
    case EndPop =>
      var all := q.batches + [q.lock.batch];
      assert all[..|q.batches|] == q.batches;
      assert Flatten(all) + [] == Flatten(q.batches) + q.lock.batch;
    case StartPop(limit) =>
      assert [] + q.items == q.items;
    case CountPush =>
    case EndPush =>
    case CountPop =>
  }

  ghost predicate IsRun<T(!new)>(steps: seq<QueueStep<T>>, states: seq<QueueState<T>>) {
    && |states| == |steps| + 1
    && states[0] == Empty()
    && forall i :: 0 <= i < |steps| ==> Enabled(states[i], steps[i]) && states[i + 1] == Apply(states[i], steps[i])
  }

  /** In every state of every run: first in, first out, with an honest depth counter. */
  lemma {:induction false} QueueRefinement<T(!new)>(steps: seq<QueueStep<T>>, states: seq<QueueState<T>>, k: nat)
    requires IsRun(steps, states) && k < |states|
    ensures QueueInv(states[k])
    ensures -1 <= states[k].depth - |states[k].items| <= 1
    ensures states[k].lock.Free? ==>
      && states[k].depth == |states[k].items|
      && states[k].pushed == Flatten(states[k].batches) + states[k].items
  {
    if k > 0 {
      QueueRefinement(steps, states, k - 1);
      StepKeepsQueueInv(states[k - 1], steps[k - 1]);
    }
    var q := states[k];
    assert Flatten(q.batches) + [] == Flatten(q.batches);
  }

  /** A batch that is handed out is the front of what the queue held when the wait ended. */
  lemma BatchIsFront<T>(q: QueueState<T>)
    requires QueueInv(q) && Enabled(q, EndPop)
    ensures q.lock.batch == q.lock.atStart[..Min(|q.lock.atStart|, q.lock.limit)]
    ensures q.items == q.lock.atStart[|q.lock.batch|..]
  {
  }
}
