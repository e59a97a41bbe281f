/** Token bucket per sender with idle eviction (internal/gossip/ratelimit.go). Tokens are reals, times are seconds. */
module RateLimiters {
  import opened Crypto

  datatype Bucket = Bucket(tokens: real, lastCheck: real)

  type Senders = map<Id, Bucket>

  const IDLE_SECONDS := 300.0

  function Burst(rate: real): (b: real) {
    rate * 2.0
  }

  /** The tokens that `elapsed` seconds are worth. */
  function Credit(elapsed: real, rate: real): (tokens: real) {
    elapsed * rate
  }

  lemma CreditGrows(a: real, b: real, rate: real)
    requires a <= b && rate >= 0.0
    ensures Credit(a, rate) <= Credit(b, rate)
    ensures Credit(b, rate) == Credit(a, rate) + Credit(b - a, rate)
    ensures Credit(b - a, rate) >= 0.0
  {
    assert (b - a) * rate == b * rate - a * rate;
    assert (b - a) * rate >= 0.0;
  }

  /** The bucket's tokens once the time up to `now` has been credited. */
  function Refilled(b: Bucket, now: real, rate: real): (tokens: real)
    ensures tokens <= Burst(rate)
  {
    var t := b.tokens + Credit(now - b.lastCheck, rate);
    if t > Burst(rate) then Burst(rate) else t
  }

  /** A sender without a bucket is granted unconditionally. */
  predicate Grants(senders: Senders, id: Id, now: real, rate: real) {
    id !in senders || Refilled(senders[id], now, rate) >= 1.0
  }

  function Spent(senders: Senders, id: Id, now: real, rate: real): (r: Senders) {
    if id !in senders then senders[id := Bucket(Burst(rate) - 1.0, now)]
    else
      var t := Refilled(senders[id], now, rate);
      senders[id := Bucket(if t >= 1.0 then t - 1.0 else t, now)]
  }

  predicate Idle(b: Bucket, now: real) {
    b.lastCheck < now - IDLE_SECONDS
  }

  function Active(senders: Senders, now: real): (r: Senders) {
    map id | id in senders && !Idle(senders[id], now) :: senders[id]
  }

  class RateLimiter {
    var senders: Senders
    const maxPerSec: real
    const burst: real

    ghost predicate Valid() {
      burst == Burst(maxPerSec)
    }

    constructor (maxPerSec: real)
      ensures Valid() && this.maxPerSec == maxPerSec && senders == map[]
    {
      this.maxPerSec := maxPerSec;
      this.burst := maxPerSec * 2.0;
      senders := map[];
    }

    method Allow(id: Id, now: real) returns (ok: bool)
      requires Valid()
      modifies this
      ensures ok <==> Grants(old(senders), id, now, maxPerSec)
      ensures senders == Spent(old(senders), id, now, maxPerSec)
    {
      if id !in senders {
        senders := senders[id := Bucket(burst - 1.0, now)];
        return true;
      }
      var state := senders[id];
      var elapsed := now - state.lastCheck;
      var tokens := state.tokens + elapsed * maxPerSec;
      if tokens > burst {
        tokens := burst;
      }
      if tokens >= 1.0 {
        tokens := tokens - 1.0;
        ok := true;
      } else {
        ok := false;
      }
      senders := senders[id := Bucket(tokens, now)];
    }

    method Cleanup(now: real)
      modifies this
      ensures senders == Active(old(senders), now)
      ensures forall id :: id in senders <==> id in old(senders) && now - old(senders)[id].lastCheck <= 300.0
    {
      var cutoff := now - 5.0 * 60.0;
      var unvisited := senders.Keys;
      while unvisited != {}
        invariant unvisited <= senders.Keys <= old(senders).Keys
        invariant forall id :: id in senders ==> senders[id] == old(senders)[id]
        invariant forall id :: id in old(senders) && id !in unvisited ==>
                    (id in senders <==> !Idle(old(senders)[id], now))
        decreases unvisited
      {
        var id :| id in unvisited;
        unvisited := unvisited - {id};
        if senders[id].lastCheck < cutoff {
          senders := senders - {id};
        }
      }
    }
  }
}
