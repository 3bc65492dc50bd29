/** The Redis commands the orchestrator uses, with an explicit clock in seconds: a key is gone from
    its deadline on, and a dead key is as good as absent. */
module RedisStore {
  import opened Options

  const BLAST_TTL := 600
  const THROTTLE_TTL := 300

  /** A set of pods; `None` means the key never expires. */
  datatype PodSet = PodSet(members: set<string>, deadline: Option<int>)

  predicate Live(p: PodSet, now: int) {
    p.deadline.None? || now < p.deadline.value
  }

  /** The members a reader sees. */
  function Members(blast: map<string, PodSet>, key: string, now: int): set<string> {
    if key in blast && Live(blast[key], now) then blast[key].members else {}
  }

  /** SADD keeps a live key's deadline and makes a new key without one. */
  function Added(blast: map<string, PodSet>, key: string, pod: string, now: int): map<string, PodSet> {
    if key in blast && Live(blast[key], now) then blast[key := PodSet(blast[key].members + {pod}, blast[key].deadline)]
    else blast[key := PodSet({pod}, None)]
  }

  /** EXPIRE does nothing to a key that is gone. */
  function Expiring(blast: map<string, PodSet>, key: string, now: int): map<string, PodSet> {
    if key in blast && Live(blast[key], now) then blast[key := PodSet(blast[key].members, Some(now + BLAST_TTL))]
    else blast
  }

  /** SETNX succeeds when the key is absent or gone. */
  predicate MaySet(throttle: map<string, int>, key: string, now: int) {
    key !in throttle || now >= throttle[key]
  }

  function SetIfNew(throttle: map<string, int>, key: string, now: int): map<string, int> {
    if MaySet(throttle, key, now) then throttle[key := now + THROTTLE_TTL] else throttle
  }

  class Redis {
    var blast: map<string, PodSet>
    var throttle: map<string, int>

    constructor ()
      ensures blast == map[] && throttle == map[]
    {
      blast, throttle := map[], map[];
    }

    method SAdd(key: string, pod: string, now: int)
      modifies this`blast
      ensures blast == Added(old(blast), key, pod, now)
    {
      if key in blast && Live(blast[key], now) {
        blast := blast[key := PodSet(blast[key].members + {pod}, blast[key].deadline)];
      } else {
        blast := blast[key := PodSet({pod}, None)];
      }
    }

    method Expire(key: string, now: int)
      modifies this`blast
      ensures blast == Expiring(old(blast), key, now)
    {
      if key in blast && Live(blast[key], now) {
        blast := blast[key := PodSet(blast[key].members, Some(now + BLAST_TTL))];
      }
    }

    method SCard(key: string, now: int) returns (n: nat)
      ensures n == |Members(blast, key, now)|
    {
      if key in blast && Live(blast[key], now) {
        n := |blast[key].members|;
      } else {
        n := 0;
      }
    }

    method SetNX(key: string, now: int) returns (ok: bool)
      modifies this`throttle
      ensures ok == MaySet(old(throttle), key, now)
      ensures throttle == SetIfNew(old(throttle), key, now)
    {
      ok := key !in throttle || now >= throttle[key];
      if ok {
        throttle := throttle[key := now + THROTTLE_TTL];
      }
    }
  }
}
