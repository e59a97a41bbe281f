/**
 The limiter under concurrent calls (internal/gossip/gossip.go, internal/gossip/ratelimit.go). A call spends its token
 before the test-and-set decides whether it is the first of its id, so overlapping copies of one message each spend
 one: what the limiter lets through is counted in calls, not in messages.
 */
module EngineLimiter {
  import opened Arithmetic
  import opened Crypto
  import opened Envelopes
  import opened KeyRings
  import opened RateLimiters
  import opened SeenCaches
  import TokenBucket
  import opened Gossip
  import opened EngineThreads

  // ---------- the limiter's trace ----------

  /** The buckets are what the trace makes of none, and the clock never went back between its entries. */
  ghost predicate Traced(p: Params, s: Shared, start: real) {
    && s.senders == TokenBucket.AfterAll(map[], s.trace, p.rate)
    && TokenBucket.Monotone(s.trace, start) && TokenBucket.LastTime(s.trace, start) <= s.now
  }

  lemma TracedStep(p: Params, s: Shared, ev: Event, start: real)
    requires Traced(p, s, start) && Enabled(s, ev)
    ensures Traced(p, Apply(p, s, ev), start)
  {
    hide NextCall, Spent, Active, Passes, Added, Marked, Unexpired, TokenBucket.Monotone, TokenBucket.AfterAll;
    var op := if ev.Advance? then TokenBucket.Allow(s.calls[ev.tid].env.senderId, s.now)
              else TokenBucket.Cleanup(s.now);
    TokenBucket.AfterAllAppend(map[], s.trace, op, p.rate);
    TokenBucket.MonotoneAppend(s.trace, start, op);
  }

  lemma {:induction false} TracedRun(p: Params, s: Shared, events: seq<Event>, start: real)
    requires Traced(p, s, start) && Legal(p, s, events)
    ensures Traced(p, Run(p, s, events), start)
    decreases |events|
  {
    hide Traced, Apply, Enabled;
    if events != [] {
      TracedStep(p, s, events[0], start);
      TracedRun(p, Apply(p, s, events[0]), events[1..], start);
    }
  }

  lemma ReachableTraced(p: Params, s: Shared) returns (start: real)
    requires Reachable(p, s)
    ensures Traced(p, s, start)
  {
    var s0, events :| Fresh(p, s0) && Legal(p, s0, events) && Run(p, s0, events) == s;
    start := s0.now;
    TracedRun(p, s0, events, start);
  }

  /**
   In any interleaving, the calls for messages of one sender that are granted a token between two of its answers number
   at most the burst plus the rate times the time between them.
   */
  lemma GrantsInAnyInterleaving(p: Params, s: Shared, i: nat, j: nat, sender: Id)
    requires Reachable(p, s) && i < j <= |s.trace| && Burst(p.rate) >= 1.0
    ensures TokenBucket.GrantCount(TokenBucket.AfterAll(map[], s.trace[..i], p.rate),
                                   s.trace[i..j], sender, p.rate) as real
            <= Burst(p.rate) + Credit(s.trace[j - 1].at - s.trace[i].at, p.rate)
  {
    var start := ReachableTraced(p, s);
    TokenBucket.WindowBound(s.trace, start, i, j, sender, p.rate);
  }

  // ---------- every pass has its own grant ----------

  /** The limiter granted the call at place `g` of its trace a token for the sender. */
  predicate GrantedAt(p: Params, trace: seq<TokenBucket.Op>, g: int, sender: Id) {
    && 0 <= g < |trace| && trace[g].Allow? && trace[g].id == sender
    && Grants(TokenBucket.AfterAll(map[], trace[..g], p.rate), sender, trace[g].at, p.rate)
  }

  /** A call that got past the limiter has a grant; one that passed Check has handed it to its pass. */
  ghost predicate CallGranted(p: Params, s: Shared, c: Call) {
    && (c.pc == Check || c.pass >= 0 ==> c.grant >= 0)
    && (c.grant >= 0 ==>
          GrantedAt(p, s.trace, c.grant, c.env.senderId) && c.pc !in {Has, Lookup, Learn, LookupAgain, Allow})
    && (c.pass >= 0 ==> c.pass < |s.passes| && s.passes[c.pass].grant == c.grant)
  }

  ghost predicate CallsGranted(p: Params, s: Shared) {
    forall t :: t in s.calls ==> CallGranted(p, s, s.calls[t])
  }

  /** The pass has the call's grant. */
  predicate SameGrant(pass: Pass, c: Call) {
    c.grant >= 0 && pass.grant == c.grant
  }

  ghost predicate CallGrantsApart(s: Shared) {
    forall t, u :: t in s.calls && u in s.calls && t != u && s.calls[t].grant >= 0 ==>
      s.calls[t].grant != s.calls[u].grant
  }

  ghost predicate PassesOwned(s: Shared) {
    forall t, k :: t in s.calls && 0 <= k < |s.passes| && SameGrant(s.passes[k], s.calls[t]) ==> s.calls[t].pass == k
  }

  ghost predicate PassGrantsApart(s: Shared) {
    && (forall k :: 0 <= k < |s.passes| ==> s.passes[k].grant < |s.trace|)
    && (forall j, k :: 0 <= j < k < |s.passes| && s.passes[j].grant >= 0 ==> s.passes[j].grant != s.passes[k].grant)
  }

  ghost predicate GrantsApart(s: Shared) {
    CallGrantsApart(s) && PassesOwned(s) && PassGrantsApart(s)
  }

  lemma GrantStays(p: Params, trace: seq<TokenBucket.Op>, op: TokenBucket.Op, g: int, sender: Id)
    requires GrantedAt(p, trace, g, sender)
    ensures GrantedAt(p, trace + [op], g, sender)
  {
    assert (trace + [op])[..g] == trace[..g];
  }

  lemma NewGrant(p: Params, s: Shared, sender: Id)
    requires s.senders == TokenBucket.AfterAll(map[], s.trace, p.rate) && Grants(s.senders, sender, s.now, p.rate)
    ensures GrantedAt(p, s.trace + [TokenBucket.Allow(sender, s.now)], |s.trace|, sender)
  {
    assert (s.trace + [TokenBucket.Allow(sender, s.now)])[..|s.trace|] == s.trace;
  }

  /** A call that does not move keeps its grant while trace and passes grow. */
  lemma OtherCallGranted(p: Params, s: Shared, t: Shared, c: Call)
    requires CallGranted(p, s, c) && s.passes <= t.passes
    requires t.trace == s.trace || exists op :: t.trace == s.trace + [op]
    ensures CallGranted(p, t, c)
  {
    hide Grants;
    if c.grant >= 0 && t.trace != s.trace {
      var op :| t.trace == s.trace + [op];
      GrantStays(p, s.trace, op, c.grant, c.env.senderId);
    }
  }

  lemma MovingCallGranted(p: Params, s: Shared, tid: Tid)
    requires s.senders == TokenBucket.AfterAll(map[], s.trace, p.rate)
    requires Ordered(s) && Enabled(s, Advance(tid)) && CallGranted(p, s, s.calls[tid])
    ensures CallGranted(p, AdvanceCall(p, s, tid), NextCall(p, s, s.calls[tid]))
  {
    var c := s.calls[tid];
    assert CallOrdered(s.passes, c);
    CallOutcome(p, s, c);
    hide NextCall, Spent, Added, Marked, GrantedAt;
    if c.pc == Allow {
      if Grants(s.senders, c.env.senderId, s.now, p.rate) {
        NewGrant(p, s, c.env.senderId);
      }
    }
  }

  lemma CallsGrantedStep(p: Params, s: Shared, ev: Event)
    requires s.senders == TokenBucket.AfterAll(map[], s.trace, p.rate)
    requires Ordered(s) && CallsGranted(p, s) && Enabled(s, ev)
    ensures CallsGranted(p, Apply(p, s, ev))
  {
    hide NextCall, Spent, Active, Added, Marked, Unexpired, CallGranted, Ordered;
    var t := Apply(p, s, ev);
    forall u | u in t.calls ensures CallGranted(p, t, t.calls[u]) {
      if ev.Advance? && u == ev.tid {
        MovingCallGranted(p, s, u);
      } else if u in s.calls {
        OtherCallGranted(p, s, t, s.calls[u]);
      } else {
        NewCallGranted(p, t, t.calls[u]);
      }
    }
  }

  lemma NewCallGranted(p: Params, s: Shared, c: Call)
    requires c.pc in {Has, Done} && c.grant == -1 && c.pass == -1
    ensures CallGranted(p, s, c)
  {
  }

  /** What one step of a call does to its grant and pass, and where they stood. */
  lemma GrantOutcome(p: Params, s: Shared, tid: Tid)
    requires Ordered(s) && CallsGranted(p, s) && Enabled(s, Advance(tid))
    ensures forall u :: u in s.calls ==> s.calls[u].grant < |s.trace| && s.calls[u].pass < |s.passes|
    ensures var c, c' := s.calls[tid], NextCall(p, s, s.calls[tid]);
            && (c'.grant == c.grant || (c.pc == Allow && c'.grant == |s.trace| && c.grant < 0))
            && c'.pass == (if Passes(s, c) then |s.passes| else c.pass)
            && (Passes(s, c) ==> c.pc == Check && c.pass == -1 && c.grant >= 0)
  {
    var c := s.calls[tid];
    assert CallOrdered(s.passes, c) && CallGranted(p, s, c);
    forall u | u in s.calls ensures s.calls[u].grant < |s.trace| && s.calls[u].pass < |s.passes| {
      assert CallOrdered(s.passes, s.calls[u]) && CallGranted(p, s, s.calls[u]);
    }
    CallOutcome(p, s, c);
    hide NextCall, GrantedAt, Grants;
  }

  lemma CallGrantsApartAdvance(p: Params, s: Shared, tid: Tid)
    requires Ordered(s) && CallsGranted(p, s) && GrantsApart(s) && Enabled(s, Advance(tid))
    ensures CallGrantsApart(AdvanceCall(p, s, tid))
  {
    GrantOutcome(p, s, tid);
    hide NextCall, Spent, Added, Marked, Passes, Ordered, CallsGranted, PassesOwned, PassGrantsApart, Enabled;
  }

  lemma PassesOwnedAdvance(p: Params, s: Shared, tid: Tid)
    requires Ordered(s) && CallsGranted(p, s) && GrantsApart(s) && Enabled(s, Advance(tid))
    ensures PassesOwned(AdvanceCall(p, s, tid))
  {
    GrantOutcome(p, s, tid);
    hide NextCall, Spent, Added, Marked, Passes, Ordered, CallsGranted, Enabled;
  }

  lemma PassGrantsApartAdvance(p: Params, s: Shared, tid: Tid)
    requires Ordered(s) && CallsGranted(p, s) && GrantsApart(s) && Enabled(s, Advance(tid))
    ensures PassGrantsApart(AdvanceCall(p, s, tid))
  {
    GrantOutcome(p, s, tid);
    hide NextCall, Spent, Added, Marked, Passes, Ordered, CallsGranted, CallGrantsApart, Enabled;
  }

  lemma GrantsApartAdvance(p: Params, s: Shared, tid: Tid)
    requires Ordered(s) && CallsGranted(p, s) && GrantsApart(s) && Enabled(s, Advance(tid))
    ensures GrantsApart(AdvanceCall(p, s, tid))
  {
    CallGrantsApartAdvance(p, s, tid);
    PassesOwnedAdvance(p, s, tid);
    PassGrantsApartAdvance(p, s, tid);
  }

  lemma GrantsApartStep(p: Params, s: Shared, ev: Event)
    requires Ordered(s) && CallsGranted(p, s) && GrantsApart(s) && Enabled(s, ev)
    ensures GrantsApart(Apply(p, s, ev))
  {
    hide AdvanceCall, Spent, Active, Added, Marked, Unexpired, CallGranted, Ordered;
    if ev.Advance? {
      GrantsApartAdvance(p, s, ev.tid);
    }
  }

  ghost predicate Accounted(p: Params, s: Shared, start: real) {
    Traced(p, s, start) && Ordered(s) && CallsGranted(p, s) && GrantsApart(s)
  }

  lemma {:induction false} AccountedRun(p: Params, s: Shared, events: seq<Event>, start: real)
    requires Accounted(p, s, start) && Legal(p, s, events)
    ensures Accounted(p, Run(p, s, events), start)
    decreases |events|
  {
    if events != [] {
      TracedStep(p, s, events[0], start);
      OrderedStep(p, s, events[0]);
      CallsGrantedStep(p, s, events[0]);
      GrantsApartStep(p, s, events[0]);
      hide Traced, Ordered, CallsGranted, GrantsApart, Apply, Enabled;
      AccountedRun(p, Apply(p, s, events[0]), events[1..], start);
    }
  }

  lemma ReachableAccounted(p: Params, s: Shared) returns (start: real)
    requires Reachable(p, s)
    ensures Accounted(p, s, start)
  {
    var s0, events :| Fresh(p, s0) && Legal(p, s0, events) && Run(p, s0, events) == s;
    start := s0.now;
    AccountedRun(p, s0, events, start);
  }

  /** However calls interleave, a call that passed Check was granted a token for its sender, and no two the same one. */
  lemma EachPassHasItsGrant(p: Params, s: Shared, t: Tid, u: Tid)
    requires Reachable(p, s) && t in s.calls && u in s.calls && t != u && s.calls[t].pass >= 0 && s.calls[u].pass >= 0
    ensures GrantedAt(p, s.trace, s.calls[t].grant, s.calls[t].env.senderId)
    ensures s.calls[t].grant != s.calls[u].grant
    ensures s.calls[t].pass < |s.passes| && s.passes[s.calls[t].pass].grant == s.calls[t].grant
  {
    var start := ReachableAccounted(p, s);
    assert CallGranted(p, s, s.calls[t]);
  }

  // ---------- overlapping copies ----------

  /** An envelope that gets to the limiter wherever its id is unmarked and its sender's key known. */
  predicate Genuine(p: Params, env: Envelope) {
    WellFormedEnvelope(env) && BoundTo(p.c, env.senderPubkey, env.senderId) && Verifies(p.c, env, env.senderPubkey)
  }

  function OneKey(env: Envelope): (keys: Ring) {
    map[env.senderId := KeyEntry(env.senderPubkey, GossipLearned)]
  }

  /** `n` calls have asked the limiter at one time, all for one message, and none has gone further. */
  ghost predicate Overlap(p: Params, s: Shared, env: Envelope, at: real, n: nat) {
    && Reachable(p, s) && s.now == at && s.seen == map[] && s.keys == OneKey(env) && s.passes == []
    && s.trace == TokenBucket.Calls(env.senderId, at, n)
    && (forall t :: t in s.calls ==> t < n && s.calls[t].env == env)
    && (n >= 1 ==> 0 in s.calls && s.calls[0].pc == Check)
  }

  /** A new call for a genuine envelope, as far as the limiter. */
  lemma CallGetsToLimiter(p: Params, s: Shared, tid: Tid, env: Envelope) returns (t: Shared)
    requires Reachable(p, s) && tid !in s.calls && Genuine(p, env) && env.messageId !in s.seen
    requires env.senderId in s.keys && s.keys[env.senderId].pubKey == env.senderPubkey
    ensures Reachable(p, t)
    ensures t == s.(calls := s.calls[tid := Call(env, Allow, env.senderPubkey, -1, -1, false, false, false)])
  {
    hide Reachable, Verifies, BoundTo, WellFormedEnvelope;
    assert WellFormedEnvelope(env) && Verifies(p.c, env, env.senderPubkey);
    ReachableStep(p, s, Arrive(tid, env));
    var s1 := Apply(p, s, Arrive(tid, env));
    ReachableStep(p, s1, Advance(tid));
    var s2 := Apply(p, s1, Advance(tid));
    assert s2.calls[tid].pc == Lookup;
    ReachableStep(p, s2, Advance(tid));
    t := Apply(p, s2, Advance(tid));
  }

  lemma OverlapStarts(p: Params, env: Envelope, start: real, at: real) returns (s: Shared)
    requires Genuine(p, env) && start <= at
    ensures Overlap(p, s, env, at, 0)
  {
    var s0 := Shared(map[], OneKey(env), map[], 0, 0, start, map[], [], [], []);
    assert Fresh(p, s0);
    assert Legal(p, s0, []) && Run(p, s0, []) == s0;
    ReachableStep(p, s0, Tick(at - start));
    s := Apply(p, s0, Tick(at - start));
  }

  lemma OverlapGrows(p: Params, s: Shared, env: Envelope, at: real, n: nat) returns (t: Shared)
    requires Overlap(p, s, env, at, n) && Genuine(p, env)
    ensures Overlap(p, t, env, at, n + 1)
  {
    hide Reachable, Genuine, Spent;
    var u := CallGetsToLimiter(p, s, n, env);
    ReachableStep(p, u, Advance(n));
    t := Apply(p, u, Advance(n));
    assert TokenBucket.Calls(env.senderId, at, n + 1)
        == TokenBucket.Calls(env.senderId, at, n) + [TokenBucket.Allow(env.senderId, at)];
    if n == 0 {
      var _ := ReachableTraced(p, s);
      assert s.senders == map[];
    }
  }

  lemma {:induction false} Overlapping(p: Params, env: Envelope, start: real, at: real, n: nat) returns (s: Shared)
    requires Genuine(p, env) && start <= at
    ensures Overlap(p, s, env, at, n)
  {
    hide Overlap;
    if n == 0 {
      s := OverlapStarts(p, env, start, at);
    } else {
      var u := Overlapping(p, env, start, at, n - 1);
      s := OverlapGrows(p, u, env, at, n - 1);
    }
  }

  /**
   The exact condition, on calls: no run in which at most `n` calls for messages of the sender get to the limiter
   refuses one of them, if and only if `n` is at most one or at most the burst, which is two seconds' worth of the rate.
   Copies of a single message will do.
   */
  lemma BurstIsExactForCalls(p: Params, env: Envelope, n: nat)
    requires Genuine(p, env)
    ensures (forall s :: Reachable(p, s) && TokenBucket.CallCount(s.trace, env.senderId) <= n ==>
               TokenBucket.AllGranted(s.trace, env.senderId, p.rate))
            <==> n <= 1 || n as real <= 2.0 * p.rate
  {
    hide Reachable, Genuine, TokenBucket.AllGranted, TokenBucket.CallCount;
    if TokenBucket.WithinBurst(n, p.rate) {
      forall s | Reachable(p, s) && TokenBucket.CallCount(s.trace, env.senderId) <= n
        ensures TokenBucket.AllGranted(s.trace, env.senderId, p.rate)
      {
        var start := ReachableTraced(p, s);
        TokenBucket.FewCallsAreGranted(s.trace, start, env.senderId, p.rate, n);
      }
    } else {
      var s := Overlapping(p, env, 0.0, 0.0, n);
      TokenBucket.CallsAreMonotone(env.senderId, 0.0, n);
      TokenBucket.OneTooMany(env.senderId, 0.0, p.rate, n - 1);
    }
  }

  /**
   Two messages of one sender, and the second is refused unseen: overlapping copies of the first, as many as leave less
   than one token of the burst, have spent the tokens.
   */
  lemma OverlapStarvesMessage(p: Params, a: Envelope, b: Envelope, n: nat) returns (s: Shared)
    requires Genuine(p, a) && Genuine(p, b) && a.senderId == b.senderId && a.messageId != b.messageId
    requires a.senderPubkey == b.senderPubkey && n >= 1 && Burst(p.rate) - n as real < 1.0
    ensures Reachable(p, s) && forall t :: t in s.calls ==> s.calls[t].env in {a, b}
    ensures n in s.calls && s.calls[n].env == b && s.calls[n].pc == Allow && b.messageId !in s.seen
    ensures !Grants(s.senders, b.senderId, s.now, p.rate)
  {
    hide Reachable, Genuine, Grants;
    var u := Overlapping(p, a, 0.0, 0.0, n);
    s := CallGetsToLimiter(p, u, n, b);
    var _ := ReachableTraced(p, u);
    TokenBucket.DrainedRefuses(a.senderId, 0.0, p.rate, n);
  }

  /**
   Accepted messages do not measure tokens: one has been accepted, the time passed is worth two, which the burst allows,
   and yet there is no token.
   */
  lemma AcceptancesDoNotMeasureTokens(p: Params, env: Envelope, n: nat) returns (s: Shared)
    requires Genuine(p, env) && Burst(p.rate) >= 2.0 && Burst(p.rate) - n as real < 1.0
    ensures Reachable(p, s) && |s.passes| == 1 && s.now == 2.0
    ensures 2.0 <= MinReal(Burst(p.rate), Credit(2.0, p.rate))
    ensures !Grants(s.senders, env.senderId, s.now, p.rate)
  {
    hide Reachable, Genuine, Grants;
    var u := Overlapping(p, env, 0.0, 2.0, n);
    ReachableStep(p, u, Advance(0));
    s := Apply(p, u, Advance(0));
    var _ := ReachableTraced(p, u);
    TokenBucket.DrainedRefuses(env.senderId, 2.0, p.rate, n);
  }
}
