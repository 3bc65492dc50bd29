/** One turn of a worker: which requests of a batch are stale, how the rest are laid out in one
    tensor, how the model's output is averaged, and which promise gets which reply. */
module Batching {
  import opened Options
  import opened Queueing

  datatype Request<P> = Request(modelId: string, tokens: seq<int>, masks: seq<int>, arrival: int, promise: Option<P>)

  datatype InferenceResult = InferenceResult(embedding: seq<real>, isStale: bool)

  /** A request whose first token is -1 tells a worker to stop. */
  predicate IsPill<P>(r: Request<P>) {
    r.tokens != [] && r.tokens[0] == -1
  }

  /** Nanoseconds to whole milliseconds, truncating toward zero as `duration_cast` does. */
  function WaitMs(now: int, arrival: int): int {
    if now >= arrival then (now - arrival) / 1_000_000 else -((arrival - now) / 1_000_000)
  }

  predicate IsStale<P>(r: Request<P>, now: int) {
    WaitMs(now, r.arrival) > 100
  }

  /** Because of the truncation a request is stale from 101 milliseconds on, not from just over 100. */
  lemma StaleFrom101Ms<P>(r: Request<P>, now: int)
    ensures IsStale(r, now) <==> now - r.arrival >= 101_000_000
  {
  }

  // ---------- the stale filter ----------

  function ValidIndices<P>(rs: seq<Request<P>>, now: int): (valid: seq<nat>)
    ensures |valid| <= |rs|
    ensures forall b :: 0 <= b < |valid| ==> valid[b] < |rs| && !IsStale(rs[valid[b]], now)
  {
    if rs == [] then []
    else
      var n := |rs| - 1;
      ValidIndices(rs[..n], now) + if IsStale(rs[n], now) then [] else [n]
  }

  function FreshTokens<P>(rs: seq<Request<P>>, now: int): seq<int> {
    if rs == [] then []
    else
      var n := |rs| - 1;
      FreshTokens(rs[..n], now) + if IsStale(rs[n], now) then [] else rs[n].tokens
  }

  function FreshMasks<P>(rs: seq<Request<P>>, now: int): seq<int> {
    if rs == [] then []
    else
      var n := |rs| - 1;
      FreshMasks(rs[..n], now) + if IsStale(rs[n], now) then [] else rs[n].masks
  }

  lemma {:induction false} ValidIncreasing<P>(rs: seq<Request<P>>, now: int, a: nat, b: nat)
    requires a < b < |ValidIndices(rs, now)|
    ensures ValidIndices(rs, now)[a] < ValidIndices(rs, now)[b]
  {
    var n := |rs| - 1;
    if b < |ValidIndices(rs[..n], now)| {
      ValidIncreasing(rs[..n], now, a, b);
    }
  }

  lemma {:induction false} ValidIsFresh<P>(rs: seq<Request<P>>, now: int, i: nat)
    ensures i in ValidIndices(rs, now) <==> i < |rs| && !IsStale(rs[i], now)
  {
    if rs != [] {
      ValidIsFresh(rs[..|rs| - 1], now, i);
    }
  }

  /** The indices kept are exactly the fresh ones, in increasing order. */
  lemma {:induction false} ValidIndicesExact<P>(rs: seq<Request<P>>, now: int)
    ensures var valid := ValidIndices(rs, now);
      && (forall a, b :: 0 <= a < b < |valid| ==> valid[a] < valid[b])
      && (forall i: nat :: i in valid <==> i < |rs| && !IsStale(rs[i], now))
  {
    forall a: nat, b: nat | a < b < |ValidIndices(rs, now)|
      ensures ValidIndices(rs, now)[a] < ValidIndices(rs, now)[b]
    {
      ValidIncreasing(rs, now, a, b);
    }
    forall i: nat
      ensures i in ValidIndices(rs, now) <==> i < |rs| && !IsStale(rs[i], now)
    {
      ValidIsFresh(rs, now, i);
    }
  }

  // ---------- the model ----------

  /** The loaded models and, for each, the hidden state it computes for one request: a number per
      token position and dimension. */
  datatype Model = Model(loaded: set<string>, hidden: (string, seq<int>, seq<int>, nat, nat) -> real)

  /** A batch tensor can be made only when the flat data fills its shape. */
  predicate TensorsFit<P>(rs: seq<Request<P>>, now: int) {
    var k := |ValidIndices(rs, now)|;
    |FreshTokens(rs, now)| == k * 128 && |FreshMasks(rs, now)| == k * 128
  }

  /** Run on a whole batch, acting row by row; the output is flat. */
  function Output(m: Model, modelId: string, tokens: seq<int>, masks: seq<int>, k: nat): (out: seq<real>)
    requires |tokens| == k * 128 && |masks| == k * 128
    ensures |out| == k * 49152
  {
    seq(k * 49152, n requires 0 <= n < k * 49152 =>
      var b := n / 49152;
      m.hidden(modelId, tokens[b * 128..b * 128 + 128], masks[b * 128..b * 128 + 128], n % 49152 / 384, n % 384))
  }

  // ---------- mean pooling ----------

  /** What the pooling loop has added up after `t` positions of row `b`, by flat index. */
  function RowSum(out: seq<real>, b: nat, d: nat, t: nat): real
    requires b * 49152 + 49152 <= |out| && d < 384 && t <= 128
  {
    if t == 0 then 0.0 else RowSum(out, b, d, t - 1) + out[b * 49152 + (t - 1) * 384 + d]
  }

  function RowMean(out: seq<real>, b: nat): (e: seq<real>)
    requires b * 49152 + 49152 <= |out|
    ensures |e| == 384
  {
    seq(384, d requires 0 <= d < 384 => RowSum(out, b, d, 128) / 128.0)
  }

  /** One request on its own: the sum, then the mean, over its own 128 hidden states. */
  function HiddenSum(m: Model, modelId: string, tokens: seq<int>, masks: seq<int>, d: nat, t: nat): real {
    if t == 0 then 0.0
    else HiddenSum(m, modelId, tokens, masks, d, t - 1) + m.hidden(modelId, tokens, masks, t - 1, d)
  }

  function HiddenMean(m: Model, modelId: string, tokens: seq<int>, masks: seq<int>): (e: seq<real>)
    ensures |e| == 384
  {
    seq(384, d requires 0 <= d < 384 => HiddenSum(m, modelId, tokens, masks, d, 128) / 128.0)
  }

  /** The embedding the worker computes for the `b`-th fresh request of a batch. The session is
      looked up with the model name of the first request, whoever that is. */
  function Embedding<P>(m: Model, rs: seq<Request<P>>, now: int, b: nat): seq<real>
    requires rs != [] && TensorsFit(rs, now) && b < |ValidIndices(rs, now)|
  {
    RowMean(Output(m, rs[0].modelId, FreshTokens(rs, now), FreshMasks(rs, now), |ValidIndices(rs, now)|), b)
  }

  // ---------- batching refines one-at-a-time inference ----------

  predicate Shaped<P>(r: Request<P>) {
    |r.tokens| == 128 && |r.masks| == 128
  }

  /** Every request that is fresh at `now` has 128 tokens and 128 masks. */
  predicate FreshShaped<P>(rs: seq<Request<P>>, now: int) {
    forall i :: 0 <= i < |rs| && !IsStale(rs[i], now) ==> Shaped(rs[i])
  }

  lemma {:induction false} ShapedFit<P>(rs: seq<Request<P>>, now: int)
    requires FreshShaped(rs, now)
    ensures TensorsFit(rs, now)
  {
    if rs != [] {
      var n := |rs| - 1;
      assert forall i :: 0 <= i < n ==> rs[..n][i] == rs[i];
      ShapedFit(rs[..n], now);
    }
  }

  /** Row `b` of the token and mask tensors is the `b`-th fresh request's own. */
  lemma {:induction false} RowIsOwn<P>(rs: seq<Request<P>>, now: int, b: nat)
    requires FreshShaped(rs, now) && b < |ValidIndices(rs, now)|
    ensures TensorsFit(rs, now)
    ensures b * 128 + 128 <= |FreshTokens(rs, now)|
    ensures FreshTokens(rs, now)[b * 128..b * 128 + 128] == rs[ValidIndices(rs, now)[b]].tokens
    ensures FreshMasks(rs, now)[b * 128..b * 128 + 128] == rs[ValidIndices(rs, now)[b]].masks
  {
    ShapedFit(rs, now);
    var n := |rs| - 1;
    var init := rs[..n];
    assert forall i :: 0 <= i < n ==> init[i] == rs[i];
    ShapedFit(init, now);
    if b < |ValidIndices(init, now)| {
      RowIsOwn(init, now, b);
      if !IsStale(rs[n], now) {
        EarlierRow(FreshTokens(init, now), rs[n].tokens, b);
        EarlierRow(FreshMasks(init, now), rs[n].masks, b);
      }
    } else {
      LastRow(FreshTokens(init, now), rs[n].tokens, b);
      LastRow(FreshMasks(init, now), rs[n].masks, b);
    }
  }

  lemma EarlierRow(flat: seq<int>, row: seq<int>, b: nat)
    requires b * 128 + 128 <= |flat|
    ensures (flat + row)[b * 128..b * 128 + 128] == flat[b * 128..b * 128 + 128]
  {
  }

  lemma LastRow(flat: seq<int>, row: seq<int>, b: nat)
    requires |flat| == b * 128 && |row| == 128
    ensures (flat + row)[b * 128..b * 128 + 128] == row
  {
  }

  lemma {:induction false} RowSumIsHiddenSum(m: Model, modelId: string, tokens: seq<int>, masks: seq<int>, k: nat, b: nat, d: nat, t: nat)
    requires |tokens| == k * 128 && |masks| == k * 128
    requires b < k && d < 384 && t <= 128
    ensures RowSum(Output(m, modelId, tokens, masks, k), b, d, t)
      == HiddenSum(m, modelId, tokens[b * 128..b * 128 + 128], masks[b * 128..b * 128 + 128], d, t)
  {
    if t > 0 {
      RowSumIsHiddenSum(m, modelId, tokens, masks, k, b, d, t - 1);
      OutputAt(m, modelId, tokens, masks, k, b, t - 1, d);
    }
  }

  lemma OutputAt(m: Model, modelId: string, tokens: seq<int>, masks: seq<int>, k: nat, b: nat, t: nat, d: nat)
    requires |tokens| == k * 128 && |masks| == k * 128
    requires b < k && t < 128 && d < 384
    ensures Output(m, modelId, tokens, masks, k)[b * 49152 + t * 384 + d]
      == m.hidden(modelId, tokens[b * 128..b * 128 + 128], masks[b * 128..b * 128 + 128], t, d)
  {
    FlatIndex(b, t, d);
  }

  /** Unfolding a flat index gives back batch row, token position and dimension. */
  lemma FlatIndex(b: nat, t: nat, d: nat)
    requires t < 128 && d < 384
    ensures var n := b * 49152 + t * 384 + d;
      n / 49152 == b && n % 49152 / 384 == t && n % 384 == d
  {
  }

  /** Each fresh request of a shaped batch gets the mean of its own hidden states, as if it had
      been alone, under the model of the batch's first request. */
  lemma BatchRefinesSingle<P>(m: Model, rs: seq<Request<P>>, now: int, b: nat)
    requires FreshShaped(rs, now) && b < |ValidIndices(rs, now)|
    ensures TensorsFit(rs, now)
    ensures var r := rs[ValidIndices(rs, now)[b]];
      Embedding(m, rs, now, b) == HiddenMean(m, rs[0].modelId, r.tokens, r.masks)
  {
    RowIsOwn(rs, now, b);
    var r := rs[ValidIndices(rs, now)[b]];
    var tokens, masks, k := FreshTokens(rs, now), FreshMasks(rs, now), |ValidIndices(rs, now)|;
    forall d: nat | d < 384
      ensures Embedding(m, rs, now, b)[d] == HiddenMean(m, rs[0].modelId, r.tokens, r.masks)[d]
    {
      RowSumIsHiddenSum(m, rs[0].modelId, tokens, masks, k, b, d, 128);
    }
  }

  /** So under one model name a batch and a request on its own give the same embedding. */
  lemma BatchEqualsAlone<P>(m: Model, rs: seq<Request<P>>, now: int, b: nat)
    requires FreshShaped(rs, now) && b < |ValidIndices(rs, now)|
    requires rs[ValidIndices(rs, now)[b]].modelId == rs[0].modelId
    ensures var alone := [rs[ValidIndices(rs, now)[b]]];
      && TensorsFit(rs, now) && TensorsFit(alone, now) && |ValidIndices(alone, now)| == 1
      && Embedding(m, rs, now, b) == Embedding(m, alone, now, 0)
  {
    BatchRefinesSingle(m, rs, now, b);
    var alone := [rs[ValidIndices(rs, now)[b]]];
    assert alone[..0] == [];
    assert ValidIndices(alone, now) == [0];
    BatchRefinesSingle(m, alone, now, 0);
  }

  /** Whatever the loaded models compute, a fresh request is served by its own model exactly when its model name
      is that of the batch's first request. */
  lemma OwnModelExactlyWhenFirst<P>(rs: seq<Request<P>>, now: int, b: nat)
    requires FreshShaped(rs, now) && b < |ValidIndices(rs, now)|
    ensures TensorsFit(rs, now)
    ensures var r := rs[ValidIndices(rs, now)[b]];
      (forall m: Model :: rs[0].modelId in m.loaded ==> Embedding(m, rs, now, b) == HiddenMean(m, r.modelId, r.tokens, r.masks))
      <==> r.modelId == rs[0].modelId
  {
    ShapedFit(rs, now);
    var r := rs[ValidIndices(rs, now)[b]];
    forall m: Model
      ensures Embedding(m, rs, now, b) == HiddenMean(m, rs[0].modelId, r.tokens, r.masks)
    {
      BatchRefinesSingle(m, rs, now, b);
    }
    if r.modelId != rs[0].modelId {
      var m := Telling(r.modelId, {r.modelId, rs[0].modelId});
      ConstantHidden(m, r.modelId, r.tokens, r.masks, 1.0, 0, 128);
      ConstantHidden(m, rs[0].modelId, r.tokens, r.masks, 0.0, 0, 128);
      assert HiddenMean(m, r.modelId, r.tokens, r.masks)[0] == 1.0;
      assert HiddenMean(m, rs[0].modelId, r.tokens, r.masks)[0] == 0.0;
    }
  }

  /** Models that answer 1 under one name and 0 under all others. */
  function Telling(name: string, loaded: set<string>): Model {
    Model(loaded, (id: string, tokens: seq<int>, masks: seq<int>, t: nat, d: nat) => if id == name then 1.0 else 0.0)
  }

  lemma {:induction false} ConstantHidden(m: Model, id: string, tokens: seq<int>, masks: seq<int>, c: real, d: nat, t: nat)
    requires forall i: nat :: m.hidden(id, tokens, masks, i, d) == c
    ensures HiddenSum(m, id, tokens, masks, d, t) == c * t as real
  {
    if t > 0 {
      ConstantHidden(m, id, tokens, masks, c, d, t - 1);
      assert c * t as real == c * (t - 1) as real + c;
    }
  }

  // ---------- pills among clients ----------

  predicate PillShaped<P>(r: Request<P>) {
    r.tokens == [-1] && r.masks == [0]
  }

  /** With clients of 128 tokens and pills of one, the tensors can be made exactly when no fresh pill is in the batch. */
  lemma {:induction false} FitIffNoFreshPill<P>(rs: seq<Request<P>>, now: int)
    requires forall i :: 0 <= i < |rs| ==> Shaped(rs[i]) || PillShaped(rs[i])
    ensures |FreshTokens(rs, now)| == |FreshMasks(rs, now)| <= |ValidIndices(rs, now)| * 128
    ensures TensorsFit(rs, now) <==> FreshShaped(rs, now)
  {
    if rs != [] {
      var n := |rs| - 1;
      assert forall i :: 0 <= i < n ==> rs[..n][i] == rs[i];
      FitIffNoFreshPill(rs[..n], now);
      assert FreshShaped(rs, now) <==> FreshShaped(rs[..n], now) && (IsStale(rs[n], now) || Shaped(rs[n]));
    }
  }

  // ---------- the loops of the worker ----------

  /** A promise can be set once; setting it again is an error the worker swallows. */
  class Promise {
    var value: Option<InferenceResult>

    constructor ()
      ensures value == None
    {
      value := None;
    }

    method SetValue(v: InferenceResult) returns (ok: bool)
      modifies this
      ensures ok == old(value).None?
      ensures value == if old(value).Some? then old(value) else Some(v)
    {
      ok := value.None?;
      if ok {
        value := Some(v);
      }
    }
  }

  function Settled(before: Option<InferenceResult>, reply: Option<InferenceResult>): Option<InferenceResult> {
    if before.Some? then before else reply
  }

  const STALE_REPLY := InferenceResult([], true)

  predicate DistinctPromises(rs: seq<Request<Promise>>) {
    forall i, j :: 0 <= i < j < |rs| && rs[i].promise.Some? && rs[j].promise.Some? ==> rs[i].promise.value != rs[j].promise.value
  }

  ghost function Promises(rs: seq<Request<Promise>>): set<Promise> {
    set r | r in rs && r.promise.Some? :: r.promise.value
  }

  function StaleCount<P>(rs: seq<Request<P>>, now: int): nat {
    if rs == [] then 0
    else
      var n := |rs| - 1;
      StaleCount(rs[..n], now) + if IsStale(rs[n], now) then 1 else 0
  }

  /** The drops counted are the requests that have waited at least 101 milliseconds. */
  lemma {:induction false} StaleCounted<P>(rs: seq<Request<P>>, now: int)
    ensures StaleCount(rs, now) == |set i | 0 <= i < |rs| && now - rs[i].arrival >= 101_000_000|
    ensures StaleCount(rs, now) + |ValidIndices(rs, now)| == |rs|
  {
    var stale := set i | 0 <= i < |rs| && now - rs[i].arrival >= 101_000_000;
    if rs == [] {
      assert stale == {};
    } else {
      var n := |rs| - 1;
      StaleCounted(rs[..n], now);
      var before := set i | 0 <= i < n && now - rs[..n][i].arrival >= 101_000_000;
      StaleFrom101Ms(rs[n], now);
      if IsStale(rs[n], now) {
        assert stale == before + {n};
      } else {
        assert stale == before;
      }
    }
  }

  /** The filter loop: stale requests are answered at once, the rest are appended to the tensors. */
  method FilterBatch(requests: seq<Request<Promise>>, now: int)
    returns (batchTokens: seq<int>, batchMasks: seq<int>, validIndices: seq<nat>, dropped: nat)
    requires DistinctPromises(requests)
    modifies Promises(requests)
    ensures batchTokens == FreshTokens(requests, now) && batchMasks == FreshMasks(requests, now)
    ensures validIndices == ValidIndices(requests, now)
    ensures dropped == StaleCount(requests, now)
    ensures forall i :: 0 <= i < |requests| && requests[i].promise.Some? ==>
      requests[i].promise.value.value ==
        Settled(old(requests[i].promise.value.value), if IsStale(requests[i], now) then Some(STALE_REPLY) else None)
  {
    batchTokens, batchMasks, validIndices, dropped := [], [], [], 0;
    for i := 0 to |requests|
      invariant batchTokens == FreshTokens(requests[..i], now) && batchMasks == FreshMasks(requests[..i], now)
      invariant validIndices == ValidIndices(requests[..i], now)
      invariant dropped == StaleCount(requests[..i], now)
      invariant forall j :: 0 <= j < i && requests[j].promise.Some? ==>
        requests[j].promise.value.value ==
          Settled(old(requests[j].promise.value.value), if IsStale(requests[j], now) then Some(STALE_REPLY) else None)
      invariant forall j :: i <= j < |requests| && requests[j].promise.Some? ==>
        requests[j].promise.value.value == old(requests[j].promise.value.value)
    {
      assert requests[..i + 1][..i] == requests[..i];
      var r := requests[i];
      if IsStale(r, now) {
        dropped := dropped + 1;
        if r.promise.Some? {
          var _ := r.promise.value.SetValue(STALE_REPLY);
        }
      } else {
        batchTokens := batchTokens + r.tokens;
        batchMasks := batchMasks + r.masks;
        validIndices := validIndices + [i];
      }
    }
    assert requests[..|requests|] == requests;
  }

  /** The pooling loops for row `b`. */
  method PoolRow(output: array<real>, b: nat) returns (finalEmbedding: array<real>)
    requires b * 49152 + 49152 <= output.Length
    ensures fresh(finalEmbedding)
    ensures finalEmbedding[..] == RowMean(output[..], b)
  {
    finalEmbedding := new real[384](_ => 0.0);
    for t := 0 to 128
      invariant forall d :: 0 <= d < 384 ==> finalEmbedding[d] == RowSum(output[..], b, d, t)
    {
      for d := 0 to 384
        invariant forall d' :: 0 <= d' < d ==> finalEmbedding[d'] == RowSum(output[..], b, d', t + 1)
        invariant forall d' :: d <= d' < 384 ==> finalEmbedding[d'] == RowSum(output[..], b, d', t)
      {
        finalEmbedding[d] := finalEmbedding[d] + output[b * 128 * 384 + t * 384 + d];
      }
    }
    for d := 0 to 384
      invariant forall d' :: 0 <= d' < d ==> finalEmbedding[d'] == RowSum(output[..], b, d', 128) / 128.0
      invariant forall d' :: d <= d' < 384 ==> finalEmbedding[d'] == RowSum(output[..], b, d', 128)
    {
      finalEmbedding[d] := finalEmbedding[d] / 128.0;
    }
  }

  /** The model run: an array of flat hidden states. */
  method Run(m: Model, modelId: string, tokens: seq<int>, masks: seq<int>, k: nat) returns (output: array<real>)
    requires |tokens| == k * 128 && |masks| == k * 128
    ensures fresh(output) && output[..] == Output(m, modelId, tokens, masks, k)
  {
    ghost var all := Output(m, modelId, tokens, masks, k);
    output := new real[k * 49152](n requires 0 <= n < k * 49152 =>
      var b := n / 49152;
      m.hidden(modelId, tokens[b * 128..b * 128 + 128], masks[b * 128..b * 128 + 128], n % 49152 / 384, n % 384));
  }

  /** The position of a request among the fresh ones. */
  function Rank<P>(rs: seq<Request<P>>, now: int, i: nat): nat
    requires i <= |rs|
  {
    |ValidIndices(rs[..i], now)|
  }

  lemma {:induction false} RankOfFresh<P>(rs: seq<Request<P>>, now: int, i: nat)
    requires i < |rs| && !IsStale(rs[i], now)
    ensures Rank(rs, now, i) < |ValidIndices(rs, now)| && ValidIndices(rs, now)[Rank(rs, now, i)] == i
  {
    var n := |rs| - 1;
    if i < n {
      RankOfFresh(rs[..n], now, i);
      assert rs[..n][..i] == rs[..i];
    }
  }

  /** Whether the batch throws before any reply is sent. */
  predicate Throws<P>(m: Model, rs: seq<Request<P>>, now: int, runFails: bool)
    requires rs != []
  {
    !TensorsFit(rs, now) || rs[0].modelId !in m.loaded || runFails
  }

  /** What the promise of request `i` is given, if anything. */
  function Reply<P>(m: Model, rs: seq<Request<P>>, now: int, runFails: bool, i: nat): Option<InferenceResult>
    requires i < |rs|
  {
    if IsStale(rs[i], now) then Some(STALE_REPLY)
    else if Throws(m, rs, now, runFails) then None
    else
      RankOfFresh(rs, now, i);
      Some(InferenceResult(Embedding(m, rs, now, Rank(rs, now, i)), false))
  }

  /** What each request of a batch is told, when the fresh ones have 128 tokens: "stale" after 101 milliseconds, else the mean of
      its own hidden states if the model of the batch's first request is loaded and runs, else nothing. */
  lemma ReplyExactly<P>(m: Model, rs: seq<Request<P>>, now: int, runFails: bool, i: nat)
    requires FreshShaped(rs, now) && i < |rs|
    ensures Reply(m, rs, now, runFails, i) ==
      if now - rs[i].arrival >= 101_000_000 then Some(InferenceResult([], true))
      else if rs[0].modelId in m.loaded && !runFails then
        Some(InferenceResult(HiddenMean(m, rs[0].modelId, rs[i].tokens, rs[i].masks), false))
      else None
  {
    ShapedFit(rs, now);
    StaleFrom101Ms(rs[i], now);
    if !IsStale(rs[i], now) {
      RankOfFresh(rs, now, i);
      BatchRefinesSingle(m, rs, now, Rank(rs, now, i));
    }
  }

  /** The whole turn after the pill check: filter, tensors, run, pooling, replies. `runFails` is the
      outcome of the run itself. */
  method ProcessBatch(m: Model, requests: seq<Request<Promise>>, now: int, runFails: bool)
    returns (dropped: nat, processed: nat)
    requires requests != [] && DistinctPromises(requests)
    modifies Promises(requests)
    ensures dropped == StaleCount(requests, now)
    ensures processed == if Throws(m, requests, now, runFails) then 0 else |ValidIndices(requests, now)|
    ensures forall i :: 0 <= i < |requests| && requests[i].promise.Some? ==>
      requests[i].promise.value.value ==
        Settled(old(requests[i].promise.value.value), Reply(m, requests, now, runFails, i))
  {
    var tokens, masks, valid;
    tokens, masks, valid, dropped := FilterBatch(requests, now);
    processed := 0;
    if valid == [] {
      NoneFresh(requests, now);
      return;
    }
    if |tokens| != |valid| * 128 || |masks| != |valid| * 128 || requests[0].modelId !in m.loaded || runFails {
      return;
    }
    var output := Run(m, requests[0].modelId, tokens, masks, |valid|);
    processed := |valid|;
    ghost var was := seq(|requests|, i requires 0 <= i < |requests| reads Promises(requests) =>
      if requests[i].promise.Some? then requests[i].promise.value.value else None);
    SendReplies(m, requests, now, valid, output, was);
    forall i | 0 <= i < |requests| && requests[i].promise.Some? && !IsStale(requests[i], now)
      ensures requests[i].promise.value.value ==
        Settled(old(requests[i].promise.value.value), Reply(m, requests, now, runFails, i))
    {
      RankOfFresh(requests, now, i);
    }
  }

  lemma NoneFresh<P>(rs: seq<Request<P>>, now: int)
    requires ValidIndices(rs, now) == []
    ensures forall i :: 0 <= i < |rs| ==> IsStale(rs[i], now)
  {
    ValidIndicesExact(rs, now);
    forall i: nat | i < |rs| ensures IsStale(rs[i], now) {
      assert i !in ValidIndices(rs, now);
    }
  }

  lemma RankOfValid<P>(rs: seq<Request<P>>, now: int, b: nat)
    requires b < |ValidIndices(rs, now)|
    ensures Rank(rs, now, ValidIndices(rs, now)[b]) == b
    ensures forall i: nat :: i < |rs| && !IsStale(rs[i], now) && Rank(rs, now, i) == b ==> i == ValidIndices(rs, now)[b]
  {
    var valid := ValidIndices(rs, now);
    ValidIndicesExact(rs, now);
    RankOfFresh(rs, now, valid[b]);
    forall i: nat | i < |rs| && !IsStale(rs[i], now) && Rank(rs, now, i) == b
      ensures i == valid[b]
    {
      RankOfFresh(rs, now, i);
    }
  }

  /** The values after the first `b` fresh replies, from the values `was` before any of them. */
  ghost predicate Sent(m: Model, rs: seq<Request<Promise>>, now: int, was: seq<Option<InferenceResult>>, b: nat)
    requires rs != [] && TensorsFit(rs, now) && |was| == |rs|
    reads Promises(rs)
  {
    forall i :: 0 <= i < |rs| && rs[i].promise.Some? ==> rs[i].promise.value.value == AfterReplies(m, rs, now, was, b, i)
  }

  ghost function AfterReplies(m: Model, rs: seq<Request<Promise>>, now: int, was: seq<Option<InferenceResult>>, b: nat, i: nat)
    : Option<InferenceResult>
    requires rs != [] && TensorsFit(rs, now) && |was| == |rs| && i < |rs|
  {
    if IsStale(rs[i], now) || Rank(rs, now, i) >= b then was[i]
    else
      RankOfFresh(rs, now, i);
      Settled(was[i], Some(InferenceResult(Embedding(m, rs, now, Rank(rs, now, i)), false)))
  }

  /** The body of the reply loop: row `b` goes to the promise of request `valid[b]`. */
  method SendOne(m: Model, requests: seq<Request<Promise>>, now: int, valid: seq<nat>, output: array<real>, b: nat,
      ghost was: seq<Option<InferenceResult>>)
    requires requests != [] && DistinctPromises(requests) && |was| == |requests|
    requires valid == ValidIndices(requests, now) && TensorsFit(requests, now) && b < |valid|
    requires output[..] == Output(m, requests[0].modelId, FreshTokens(requests, now), FreshMasks(requests, now), |valid|)
    requires Sent(m, requests, now, was, b)
    modifies Promises(requests)
    ensures Sent(m, requests, now, was, b + 1)
  {
    var finalEmbedding := PoolRow(output, b);
    var originalIndex := valid[b];
    RankOfValid(requests, now, b);
    if requests[originalIndex].promise.Some? {
      var _ := requests[originalIndex].promise.value.SetValue(InferenceResult(finalEmbedding[..], false));
    }
  }

  method SendReplies(m: Model, requests: seq<Request<Promise>>, now: int, valid: seq<nat>, output: array<real>,
      ghost was: seq<Option<InferenceResult>>)
    requires requests != [] && DistinctPromises(requests) && |was| == |requests|
    requires valid == ValidIndices(requests, now) && TensorsFit(requests, now)
    requires output[..] == Output(m, requests[0].modelId, FreshTokens(requests, now), FreshMasks(requests, now), |valid|)
    requires Sent(m, requests, now, was, 0)
    modifies Promises(requests)
    ensures Sent(m, requests, now, was, |valid|)
  {
    for b := 0 to |valid|
      invariant Sent(m, requests, now, was, b)
    {
      SendOne(m, requests, now, valid, output, b, was);
    }
  }

  // ---------- one round of the worker's endless loop ----------

  /** What a round does with the promise of request `i` of its batch. */
  function RoundReply<P>(m: Model, batch: seq<Request<P>>, now: int, runFails: bool, i: nat): Option<InferenceResult>
    requires i < |batch|
  {
    if IsPill(batch[0]) then None else Reply(m, batch, now, runFails, i)
  }

  /** Pop a batch, stop on a pill at its head, else process it. Requests left in the queue are not touched. */
  method Round(queue: SimpleQueue<Request<Promise>>, m: Model, now: int, runFails: bool) returns (stop: bool)
    requires queue.Valid() && DistinctPromises(queue.items)
    modifies queue, Promises(queue.items)
    ensures queue.Valid() && queue.items == old(queue.items)[Min(|old(queue.items)|, 32)..]
    ensures stop <==> old(queue.items) != [] && IsPill(old(queue.items)[0])
    ensures var k := Min(|old(queue.items)|, 32);
      forall i :: 0 <= i < |old(queue.items)| && old(queue.items[i].promise.Some?) ==>
        old(queue.items[i].promise.value).value ==
          Settled(old(queue.items[i].promise.value.value),
            if i < k then RoundReply(m, old(queue.items)[..k], now, runFails, i) else None)
  {
    ghost var was := queue.items;
    var requests := queue.PopBatch(32);
    assert requests == was[..|requests|];
    stop := false;
    FrontAndRest(was, |requests|);
    if requests != [] {
      if requests[0].tokens != [] && requests[0].tokens[0] == -1 {
        stop := true;
      } else {
        var _, _ := ProcessBatch(m, requests, now, runFails);
      }
    }
  }

  lemma FrontAndRest(all: seq<Request<Promise>>, k: nat)
    requires DistinctPromises(all) && k <= |all|
    ensures DistinctPromises(all[..k]) && Promises(all[..k]) <= Promises(all)
    ensures forall i :: k <= i < |all| && all[i].promise.Some? ==> all[i].promise.value !in Promises(all[..k])
  {
  }
}
