/**
 Dialing discovered peers (internal/transport/discovery.go) and reconnecting to bootstrap peers
 (internal/transport/manager.go): the backoff, one discovery loop, and the dial tasks it starts.
 */
module DialScheduler {
  import opened Arithmetic
  import opened ByteStrings
  import opened Crypto
  import opened Sequences
  import opened PeerTables

  // ---------- backoff ----------

  const MAX_BACKOFF_SECONDS := 30

  /** Seconds to wait after `failCount` failures in a row: min(2^(failCount - 1), 30). */
  function Backoff(failCount: int): (secs: nat) {
    if failCount <= 0 then 0
    else if Power(2, failCount - 1) < MAX_BACKOFF_SECONDS then Power(2, failCount - 1) else MAX_BACKOFF_SECONDS
  }

  lemma {:induction false} PowerGrows(n: nat, m: nat)
    requires n <= m
    ensures Power(2, n) <= Power(2, m)
  {
    if n < m {
      PowerGrows(n, m - 1);
    }
  }

  /** The closed form agrees with doubling up to the cap: what the k-th wait makes of the one before. */
  lemma BackoffDoubles(k: int)
    requires k >= 1
    ensures Backoff(1) == 1
    ensures Backoff(k + 1) == if 2 * Backoff(k) < MAX_BACKOFF_SECONDS then 2 * Backoff(k) else MAX_BACKOFF_SECONDS
  {
    assert Power(2, 0) == 1;
  }

  /** A dial connects and serves the connection to its end; or fails; or fails and the node stops during the wait. */
  datatype Dial = Served | Failed | FailedThenStopped

  /** How many dials in a row have failed, up to and including dial `i`. */
  function FailureStreak(dials: seq<Dial>, i: nat): (n: nat)
    requires i < |dials|
  {
    if dials[i].Served? then 0 else if i == 0 then 1 else 1 + FailureStreak(dials, i - 1)
  }

  /**
   The bootstrap loop: `dials` is what comes of its dials until the node stops before the next one. The wait after
   the k-th failure in a row is the backoff of k failures; a connection resets it, and is followed by a new dial at
   once; and the loop goes on exactly until the node stops.
   */
  method DialWithBackoff(dials: seq<Dial>) returns (waits: seq<nat>)
    ensures |waits| <= |dials|
    ensures |waits| < |dials| ==> dials[|waits|].FailedThenStopped?
    ensures forall i :: 0 <= i < |waits| ==>
              !dials[i].FailedThenStopped? && waits[i] == Backoff(FailureStreak(dials, i))
  {
    hide Backoff;
    FirstWaits();
    waits := [];
    var backoff := 1;
    ghost var streak := 0;
    for i := 0 to |dials|
      invariant |waits| == i
      invariant forall j :: 0 <= j < i ==> !dials[j].FailedThenStopped? && waits[j] == Backoff(FailureStreak(dials, j))
      invariant streak == if i == 0 then 0 else FailureStreak(dials, i - 1)
      invariant backoff == Backoff(1 + streak)
    {
      if !dials[i].Served? {
        if dials[i].FailedThenStopped? {
          return;
        }
        waits := waits + [backoff];
        BackoffDoubles(1 + streak);
        backoff := if backoff * 2 < MAX_BACKOFF_SECONDS then backoff * 2 else MAX_BACKOFF_SECONDS;
        streak := 1 + streak;
      } else {
        waits := waits + [0];
        backoff := 1;
        streak := 0;
      }
    }
  }

  lemma FirstWaits()
    ensures Backoff(0) == 0 && Backoff(1) == 1
  {
    assert Power(2, 0) == 1;
  }

  // ---------- selecting candidates ----------

  const MAX_DIALS_PER_TICK := 3

  /** The bootstrap addresses, which have a loop of their own, and the limit on peers; none if it is not positive. */
  datatype Config = Config(bootstrap: set<Bytes>, maxPeers: int)

  /** What the discovery loop sees when it holds the lock. */
  datatype View = View(self: Id, cfg: Config, known: Table, connected: set<Id>, dialing: set<Id>, now: real)

  predicate Full(v: View) {
    v.cfg.maxPeers > 0 && |v.connected| >= v.cfg.maxPeers
  }

  predicate BackoffElapsed(r: PeerRecord, now: real) {
    r.failCount > 0 ==> now >= r.lastFail as real + Backoff(r.failCount) as real
  }

  predicate Eligible(v: View, n: Id) {
    && n in v.known
    && n != v.self
    && v.known[n].reachable && v.known[n].addr != []
    && n !in v.connected && n !in v.dialing
    && v.known[n].addr !in v.cfg.bootstrap
    && BackoffElapsed(v.known[n], v.now)
  }

  function EligibleIds(v: View): (ids: set<Id>) {
    set n | n in v.known && Eligible(v, n)
  }

  function ChoiceSize(v: View): (n: nat) {
    if Full(v) then 0
    else if |EligibleIds(v)| < MAX_DIALS_PER_TICK then |EligibleIds(v)|
    else MAX_DIALS_PER_TICK
  }

  /** Any choice of distinct eligible peers, as many as the cap allows; none at capacity. */
  ghost predicate ValidChoice(v: View, chosen: seq<Id>) {
    Distinct(chosen) && Elements(chosen) <= EligibleIds(v) && |chosen| == ChoiceSize(v)
  }

  /** The checks on one record, in their order. */
  method Qualifies(v: View, n: Id) returns (ok: bool)
    requires n in v.known && v.known[n].nodeId == n
    ensures ok <==> Eligible(v, n)
  {
    var rec := v.known[n];
    if rec.nodeId == v.self {
      return false;
    }
    if !rec.reachable || rec.addr == [] {
      return false;
    }
    if rec.nodeId in v.connected {
      return false;
    }
    if rec.nodeId in v.dialing {
      return false;
    }
    if rec.addr in v.cfg.bootstrap {
      return false;
    }
    if rec.failCount > 0 {
      var backoffEnd := rec.lastFail as real + Backoff(rec.failCount) as real;
      if v.now < backoffEnd {
        return false;
      }
    }
    return true;
  }

  /** Scans the table in any order. */
  method ScanTable(v: View) returns (candidates: seq<Id>)
    requires forall n :: n in v.known ==> v.known[n].nodeId == n
    ensures Distinct(candidates) && Elements(candidates) == EligibleIds(v)
  {
    hide Eligible;
    candidates := [];
    var unvisited := v.known.Keys;
    while unvisited != {}
      invariant unvisited <= v.known.Keys
      invariant Distinct(candidates) && Elements(candidates) == EligibleIds(v) - unvisited
      decreases unvisited
    {
      var n :| n in unvisited;
      assert n !in Elements(candidates);
      ElementsAppend(candidates, n);
      unvisited := unvisited - {n};
      var ok := Qualifies(v, n);
      if ok {
        candidates := candidates + [n];
      }
    }
  }

  /** Nothing at capacity; otherwise shuffles what qualifies and keeps at most three. */
  method SelectCandidates(v: View) returns (chosen: seq<Id>)
    requires forall n :: n in v.known ==> v.known[n].nodeId == n
    ensures ValidChoice(v, chosen)
  {
    hide EligibleIds;
    if v.cfg.maxPeers > 0 && |v.connected| >= v.cfg.maxPeers {
      return [];
    }
    var candidates := ScanTable(v);
    DistinctCardinality(candidates);
    chosen := RandomChoice(candidates, MAX_DIALS_PER_TICK);
  }
}
