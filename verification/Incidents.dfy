/** Handling one log: trust score, outcome, and the straight-line code of a worker. */
module Incidents {
  import opened Options
  import opened Text
  import opened RedisStore
  import opened FuzzyCaching

  datatype Outcome = Failed | Throttled | Agent | Duplicate | NewEvent

  const EMBEDDING_DIM := 384

  /** A set read as empty counts as one pod. */
  function Radius(members: nat): nat {
    if members == 0 then 1 else members
  }

  function TrustScore(similarity: real, radius: nat): real
    requires radius >= 1
  {
    if similarity == 0.0 then 1.0 / radius as real else similarity * 0.95 / radius as real
  }

  /** The trust times the radius: the similarity less five per cent, or one for a log without a neighbour. */
  lemma TrustTimesRadius(similarity: real, radius: nat)
    requires radius >= 1
    ensures TrustScore(similarity, radius) * radius as real == if similarity == 0.0 then 1.0 else similarity - similarity * 0.05
  {
  }

  /** Which way an alert that is not throttled goes. */
  function Classify(line: string, similarity: real): Outcome {
    if Contains(line, "LEVEL=ERROR") || Contains(line, "LEVEL=FATAL") || (0.85 <= similarity <= 0.98) then Agent
    else if similarity > 0.99 then Duplicate
    else NewEvent
  }

  /** For a fixed similarity that is not negative, a wider blast radius never raises trust. */
  lemma TrustFallsWithRadius(similarity: real, radius: nat, wider: nat)
    requires similarity >= 0.0 && 1 <= radius <= wider
    ensures TrustScore(similarity, wider) <= TrustScore(similarity, radius)
  {
    if radius < wider {
      TrustFallsExactly(similarity, radius, wider);
    }
  }

  /** A really wider radius does not raise trust exactly when the similarity is not negative, which a cosine score can be. */
  lemma TrustFallsExactly(similarity: real, radius: nat, wider: nat)
    requires 1 <= radius < wider
    ensures TrustScore(similarity, wider) <= TrustScore(similarity, radius) <==> similarity >= 0.0
  {
    var top := if similarity == 0.0 then 1.0 else similarity * 0.95;
    QuotientFalls(top, radius as real, wider as real);
  }

  lemma QuotientFalls(x: real, a: real, b: real)
    requires 0.0 < a < b
    ensures x / b <= x / a <==> x >= 0.0
  {
    var p, q := x / b, x / a;
    assert p * b == x && q * a == x;
    if x >= 0.0 && p > q {
      LargerProduct(p, q, b, a);
    }
    if x < 0.0 && p <= q {
      LargerProduct(-p, -q, b, a);
    }
  }

  lemma LargerProduct(p: real, q: real, b: real, a: real)
    requires p >= q && p > 0.0 && 0.0 < a < b
    ensures p * b > q * a
  {
    assert p * b > p * a;
    assert p * a >= q * a;
  }

  /** Between 0.98 and 0.99 a familiar log without error level is neither investigated nor a duplicate. */
  lemma SimilarityBands(line: string, similarity: real)
    requires !Contains(line, "LEVEL=ERROR") && !Contains(line, "LEVEL=FATAL")
    ensures Classify(line, similarity) == NewEvent <==> similarity < 0.85 || 0.98 < similarity <= 0.99
    ensures Classify(line, similarity) == Duplicate <==> similarity > 0.99
  {
  }

  /** What the caller supplies: the incident id of an embedding and the pod of a line. */
  datatype Names = Names(incident: seq<real> -> string, podOf: string -> string)

  /** What an alert does to Redis and how it ends, when its commands run at one clock reading. */
  datatype Alert = Alert(blast: map<string, PodSet>, throttle: map<string, int>, radius: nat, outcome: Outcome)

  function AlertFor(blast: map<string, PodSet>, throttle: map<string, int>, names: Names, line: string,
      embedding: Spatial, similarity: real, now: int): (a: Alert)
    ensures |embedding.vector| >= EMBEDDING_DIM ==> a.radius >= 1 && a.outcome != Failed
  {
    if |embedding.vector| < EMBEDDING_DIM then Alert(blast, throttle, 1, Failed)
    else
      var key, pod := names.incident(embedding.vector), names.podOf(line);
      Alert(Expiring(Added(blast, key, pod, now), key, now),
            SetIfNew(throttle, key, now),
            |Members(blast, key, now) + {pod}|,
            if MaySet(throttle, key, now) then Classify(line, similarity) else Throttled)
  }

  /** `processWithAI` once the embedding is in hand. */
  method ProcessEmbedding(redis: Redis, names: Names, line: string, embedding: Spatial, similarity: real, now: int)
    returns (outcome: Outcome, radius: nat, trust: real)
    modifies redis
    ensures var a := AlertFor(old(redis.blast), old(redis.throttle), names, line, embedding, similarity, now);
      && redis.blast == a.blast && redis.throttle == a.throttle && outcome == a.outcome && radius == a.radius
    ensures outcome != Failed ==> radius >= 1 && trust == TrustScore(similarity, radius)
  {
    radius, trust := 1, 0.0;
    if |embedding.vector| < EMBEDDING_DIM {
      return Failed, radius, trust;
    }
    var key, pod := names.incident(embedding.vector), names.podOf(line);
    redis.SAdd(key, pod, now);
    redis.Expire(key, now);
    radius := redis.SCard(key, now);
    if radius == 0 {
      radius := 1;
    }
    trust := similarity * 0.95 / radius as real;
    if similarity == 0.0 {
      trust := 1.0 / radius as real;
    }
    var isNewAlert := redis.SetNX(key, now);
    if !isNewAlert {
      outcome := Throttled;
    } else if Contains(line, "LEVEL=ERROR") || Contains(line, "LEVEL=FATAL") || (similarity >= 0.85 && similarity <= 0.98) {
      outcome := Agent;
    } else if similarity > 0.99 {
      outcome := Duplicate;
    } else {
      outcome := NewEvent;
    }
  }

  /** The body of a worker's loop for one line: cache first, then inference, then `cache.Add`.
      `response` is what the inference engine answers if asked. */
  method HandleLine(cache: ResilienceCache, redis: Redis, names: Names, line: string,
      response: Option<Spatial>, similarity: real, now: int) returns (outcome: Outcome)
    modifies cache, redis
    ensures var sig := Signature(line);
      var hit := Find(old(cache.lru), sig);
      var used := if hit.Some? then hit else response;
      match used
      case None =>
        outcome == Failed && cache.lru == old(cache.lru) && redis.blast == old(redis.blast) && redis.throttle == old(redis.throttle)
      case Some(val) =>
        var a := AlertFor(old(redis.blast), old(redis.throttle), names, line, val, similarity, now);
        && outcome == a.outcome && redis.blast == a.blast && redis.throttle == a.throttle
        && cache.lru == if hit.Some? then Touch(old(cache.lru), sig)
                        else if a.outcome == Failed then old(cache.lru)
                        else Put(old(cache.lru), sig, val, cache.capacity)
  {
    var radius, trust;
    var hit := cache.GetEmbedding(line);
    if hit.Some? {
      outcome, radius, trust := ProcessEmbedding(redis, names, line, hit.value, similarity, now);
      return;
    }
    if response.None? {
      return Failed;
    }
    outcome, radius, trust := ProcessEmbedding(redis, names, line, response.value, similarity, now);
    if |response.value.vector| >= EMBEDDING_DIM {
      cache.Add(line, response.value);
    }
  }
}
