/**
 Refused messages over whole runs: whatever happens between a refusal and a retry at the same node, when the retry is
 accepted. A refusal never marks the id as seen, so nothing but the id, the key and the rate decides.
 */
module NetworkRetry {
  import opened Arithmetic
  import opened ByteStrings
  import opened Crypto
  import opened Envelopes
  import opened KeyRings
  import opened RateLimiters
  import TokenBucket
  import opened Gossip
  import opened Network
  import opened NetworkSafety
  import opened NetworkRates

  /** What a call for `env` at node `n` would come to now, with nothing between its steps. */
  function JudgedAt(p: Params, s: Net, n: Id, env: Envelope): (v: Verdict)
    requires n in s.nodes
  {
    Judge(p, s.nodes[n].engine, s.now, env)
  }

  function KeysAt(s: Net, n: Id): (ring: Ring)
    requires n in s.nodes
  {
    s.nodes[n].engine.keys
  }

  predicate GrantsAt(p: Params, s: Net, n: Id, sender: Id)
    requires n in s.nodes
  {
    Grants(s.nodes[n].engine.senders, sender, s.now, p.rate)
  }

  predicate HoldsVerifyingKey(p: Params, ring: Ring, env: Envelope) {
    env.senderId in ring && Verifies(p.c, env, ring[env.senderId].pubKey)
  }

  // ---------- keys stay ----------

  predicate KeysKept(before: Ring, after: Ring) {
    forall id :: id in before ==> id in after
  }

  /** Handling a copy forgets no key, and whoever got past the lookup is known afterwards. */
  lemma HandlingKeepsKeys(p: Params, e: EngineState, now: real, env: Envelope)
    ensures KeysKept(e.keys, Admit(p, e, now, env).keys)
    ensures Judge(p, e, now, env) in {BadSignature, RateLimited} ==> env.senderId in Admit(p, e, now, env).keys
    ensures Judge(p, e, now, env) == UnknownSender ==> Admit(p, e, now, env).keys == e.keys
  {
  }

  lemma KeysKeptStep(p: Params, s: Net, ev: Event, n: Id)
    requires Enabled(p, s, ev) && n in s.nodes
    ensures n in Apply(p, s, ev).nodes && KeysKept(KeysAt(s, n), KeysAt(Apply(p, s, ev), n))
  {
    hide Judge, Admit, ValidTargets;
    if ev.Handle? {
      var c := s.flight[ev.i];
      HandlingKeepsKeys(p, s.nodes[c.dst].engine, s.now, c.env);
    }
  }

  lemma {:induction false} KeysKeptRun(p: Params, s: Net, events: seq<Event>, n: Id)
    requires Legal(p, s, events) && n in s.nodes
    ensures n in Run(p, s, events).nodes && KeysKept(KeysAt(s, n), KeysAt(Run(p, s, events), n))
    decreases |events|
  {
    hide Apply, Enabled;
    if events != [] {
      KeysKeptStep(p, s, events[0], n);
      KeysKeptRun(p, Apply(p, s, events[0]), events[1..], n);
    }
  }

  // ---------- any envelope, at any time ----------

  /** An envelope that a verifying key is known for, or that brings one. */
  predicate Genuine(p: Params, ring: Ring, env: Envelope) {
    HoldsVerifyingKey(p, ring, env)
    || (env.senderId !in ring && BoundTo(p.c, env.senderPubkey, env.senderId) && Verifies(p.c, env, env.senderPubkey))
  }

  /**
   In every reachable state a node accepts exactly the genuine envelopes within the limits that it does not remember
   and has a token for.
   */
  lemma AcceptedExactly(p: Params, s: Net, n: Id, env: Envelope)
    requires Reachable(p, s) && n in s.nodes
    ensures JudgedAt(p, s, n, env) == Accepted <==>
              && 1 <= |env.messageId| <= 128 && 1 <= |env.senderId| <= 128 && |env.payload| <= 65536
              && env.messageId !in Remembered(s.log, n)
              && Genuine(p, KeysAt(s, n), env) && GrantsAt(p, s, n, env.senderId)
  {
    hide Reachable, Verifies, BoundTo, Grants;
    SeenIsRemembered(p, s, n, env.messageId);
  }

  // ---------- after a refusal ----------

  /**
   A copy is refused for its sender, its signature or the rate, and any legal events follow. A retry is the same
   envelope, with any hop count.
   */
  ghost predicate RefusedThen(p: Params, s: Net, i: nat, events: seq<Event>) {
    && Reachable(p, s) && Injective(p.c.sha256)
    && Enabled(p, s, Handle(i, [], [])) && GossipType(s.flight[i].env.msgType)
    && VerdictOn(p, s, s.flight[i]) in {UnknownSender, BadSignature, RateLimited}
    && Legal(p, Apply(p, s, Handle(i, [], [])), events)
  }

  function Afterwards(p: Params, s: Net, i: nat, events: seq<Event>): (t: Net) {
    Run(p, Apply(p, s, Handle(i, [], [])), events)
  }

  /** What the refusing node holds right after the refusal. */
  lemma RightAfter(p: Params, s: Net, i: nat, events: seq<Event>)
    requires RefusedThen(p, s, i, events)
    ensures var c, t := s.flight[i], Apply(p, s, Handle(i, [], []));
            && Reachable(p, t) && c.dst in t.nodes && t.now == s.now
            && t.nodes[c.dst].engine == Admit(p, s.nodes[c.dst].engine, s.now, c.env)
            && t.log == Then(s.log, Handled(c.dst, c.env, VerdictOn(p, s, c), [], []))
  {
    hide Reachable, Judge, Admit, Legal;
    ReachableStep(p, s, Handle(i, [], []));
  }

  /** The key a node knows for an id never changes, since there is only one bound to it. */
  lemma SameKeyLater(p: Params, s: Net, t: Net, n: Id, id: Id)
    requires Reachable(p, s) && Reachable(p, t) && Injective(p.c.sha256) && n in s.nodes && n in t.nodes
    requires id in KeysAt(s, n) && id in KeysAt(t, n)
    ensures KeysAt(s, n)[id].pubKey == KeysAt(t, n)[id].pubKey
  {
    hide Reachable;
    ReachableIsSafe(p, s);
    ReachableIsSafe(p, t);
    NodeIdDeterminesKey(p.c, KeysAt(s, n)[id].pubKey, KeysAt(t, n)[id].pubKey);
  }

  /** What a refusal says about the envelope and the refusing node's keys, now and ever after. */
  lemma KeysAfterRefusal(p: Params, s: Net, i: nat, events: seq<Event>)
    requires RefusedThen(p, s, i, events)
    ensures var c, t := s.flight[i], Afterwards(p, s, i, events);
            && Reachable(p, t) && c.dst in t.nodes && WellFormedEnvelope(c.env)
            && match VerdictOn(p, s, c)
               case UnknownSender => !BoundTo(p.c, c.env.senderPubkey, c.env.senderId)
               case BadSignature => c.env.senderId in KeysAt(t, c.dst) && !HoldsVerifyingKey(p, KeysAt(t, c.dst), c.env)
               case RateLimited => HoldsVerifyingKey(p, KeysAt(t, c.dst), c.env)
               case _ => false
  {
    var c, after := s.flight[i], Apply(p, s, Handle(i, [], []));
    RightAfter(p, s, i, events);
    HandlingKeepsKeys(p, s.nodes[c.dst].engine, s.now, c.env);
    var t := Afterwards(p, s, i, events);
    assert VerdictOn(p, s, c) != UnknownSender ==>
        (VerdictOn(p, s, c) == RateLimited <==> HoldsVerifyingKey(p, KeysAt(after, c.dst), c.env));
    hide Reachable, Apply, Enabled, Legal, Run, Judge, Admit, Verifies;
    KeysKeptRun(p, after, events, c.dst);
    ReachableRun(p, after, events);
    if c.env.senderId in KeysAt(after, c.dst) {
      SameKeyLater(p, after, t, c.dst, c.env.senderId);
    }
  }

  lemma RetryGenuine(p: Params, s: Net, i: nat, events: seq<Event>, hops: uint32)
    requires RefusedThen(p, s, i, events) && s.flight[i].dst in Afterwards(p, s, i, events).nodes
    ensures var c, t := s.flight[i], Afterwards(p, s, i, events);
            Genuine(p, KeysAt(t, c.dst), c.env.(hopCount := hops)) <==> HoldsVerifyingKey(p, KeysAt(t, c.dst), c.env)
  {
    var c, ring := s.flight[i], KeysAt(Afterwards(p, s, i, events), s.flight[i].dst);
    KeysAfterRefusal(p, s, i, events);
    hide RefusedThen, Afterwards, Verifies, BoundTo;
    if c.env.senderId in ring {
      RelayingKeepsSignature(p.c, c.env, hops, c.env.senderPubkey, ring[c.env.senderId].pubKey);
    }
  }

  /**
   The retry of any refused envelope, after any events: it is accepted if and only if the node has not accepted or
   broadcast the id since (or has forgotten it again), holds a key that verifies it, and has a token for the sender.
   */
  lemma RetryIsExact(p: Params, s: Net, i: nat, events: seq<Event>, hops: uint32)
    requires RefusedThen(p, s, i, events)
    ensures var c, t := s.flight[i], Afterwards(p, s, i, events);
            && c.dst in t.nodes && c.env.messageId !in Remembered(s.log, c.dst)
            && (JudgedAt(p, t, c.dst, c.env.(hopCount := hops)) == Accepted <==>
                  && c.env.messageId !in Remembered(t.log, c.dst)
                  && HoldsVerifyingKey(p, KeysAt(t, c.dst), c.env) && GrantsAt(p, t, c.dst, c.env.senderId))
  {
    var c, t := s.flight[i], Afterwards(p, s, i, events);
    KeysAfterRefusal(p, s, i, events);
    RefusalLeavesUnseen(p, s.nodes[c.dst].engine, s.now, c.env);
    SeenIsRemembered(p, s, c.dst, c.env.messageId);
    RetryGenuine(p, s, i, events, hops);
    AcceptedExactly(p, t, c.dst, c.env.(hopCount := hops));
    assert WellFormedEnvelope(c.env) <==> WellFormedEnvelope(c.env.(hopCount := hops));
    hide RefusedThen, Reachable, Afterwards, Genuine, HoldsVerifyingKey, Judge, Grants;
  }

  /**
   A bad signature is final: the node never accepts the envelope, and refuses it again for the signature while the id
   is unseen.
   */
  lemma BadSignatureIsFinal(p: Params, s: Net, i: nat, events: seq<Event>, hops: uint32)
    requires RefusedThen(p, s, i, events) && VerdictOn(p, s, s.flight[i]) == BadSignature
    ensures var c, t := s.flight[i], Afterwards(p, s, i, events);
            && c.dst in t.nodes
            && JudgedAt(p, t, c.dst, c.env.(hopCount := hops))
               == if c.env.messageId in Remembered(t.log, c.dst) then Duplicate else BadSignature
  {
    var c, t := s.flight[i], Afterwards(p, s, i, events);
    KeysAfterRefusal(p, s, i, events);
    SeenIsRemembered(p, t, c.dst, c.env.messageId);
    var ring := KeysAt(t, c.dst);
    RelayingKeepsSignature(p.c, c.env, hops, c.env.senderPubkey, ring[c.env.senderId].pubKey);
    hide RefusedThen, Reachable, Afterwards, Verifies, Grants;
  }

  /** The id itself is not spoilt: a properly signed envelope of the same id and sender is accepted, given a token. */
  lemma ProperlySignedAfterBadSignature(p: Params, s: Net, i: nat, events: seq<Event>, proper: Envelope, key: Key)
    requires RefusedThen(p, s, i, events) && VerdictOn(p, s, s.flight[i]) == BadSignature
    requires proper.messageId == s.flight[i].env.messageId && proper.senderId == s.flight[i].env.senderId
    requires WellFormedEnvelope(proper) && BoundTo(p.c, key, proper.senderId) && Verifies(p.c, proper, key)
    ensures var n, t := s.flight[i].dst, Afterwards(p, s, i, events);
            && n in t.nodes
            && (JudgedAt(p, t, n, proper) == Accepted <==>
                  proper.messageId !in Remembered(t.log, n) && GrantsAt(p, t, n, proper.senderId))
  {
    var n, t := s.flight[i].dst, Afterwards(p, s, i, events);
    KeysAfterRefusal(p, s, i, events);
    AcceptedExactly(p, t, n, proper);
    assert Injective(p.c.sha256);
    hide RefusedThen, Afterwards, Judge, Reachable, Grants, Verifies;
    ReachableIsSafe(p, t);
    NodeIdDeterminesKey(p.c, key, KeysAt(t, n)[proper.senderId].pubKey);
  }

  /** A rate-limited envelope keeps its key: nothing but the id and the rate decides about the retry. */
  lemma RateLimitedRetry(p: Params, s: Net, i: nat, events: seq<Event>, hops: uint32)
    requires RefusedThen(p, s, i, events) && VerdictOn(p, s, s.flight[i]) == RateLimited
    ensures var c, t := s.flight[i], Afterwards(p, s, i, events);
            && c.dst in t.nodes
            && (JudgedAt(p, t, c.dst, c.env.(hopCount := hops)) == Accepted <==>
                  c.env.messageId !in Remembered(t.log, c.dst) && GrantsAt(p, t, c.dst, c.env.senderId))
  {
    KeysAfterRefusal(p, s, i, events);
    RetryIsExact(p, s, i, events, hops);
    hide RefusedThen, Afterwards, HoldsVerifyingKey, Judge, Grants;
  }

  /**
   And the rate gives way with time: if `k` calls have been granted the sender's tokens since, there is another as soon
   as the time passed is worth k + 1 of them, whatever else the node was busy with.
   */
  lemma TimeBringsTokens(p: Params, s: Net, events: seq<Event>, n: Id, sender: Id)
    requires Reachable(p, s) && Legal(p, s, events) && n in s.nodes && Burst(p.rate) >= 1.0
    ensures var t := Run(p, s, events);
            && n in t.nodes && GrantedTo(s.log, n, sender) <= GrantedTo(t.log, n, sender)
            && var k := GrantedTo(t.log, n, sender) - GrantedTo(s.log, n, sender);
               (k + 1) as real <= MinReal(Burst(p.rate), Credit(t.now - s.now, p.rate)) ==> GrantsAt(p, t, n, sender)
  {
    hide Legal, Run, GrantedTo, Grants, Refilled;
    ReachableLimiters(p, s);
    PaidByRun(p, s, events, n, sender);
    var t := Run(p, s, events);
    TokenBucket.LevelRises(s.nodes[n].engine.senders, sender, s.now, s.now, p.rate);
    TokenBucket.GrantsFromOneToken(t.nodes[n].engine.senders, sender, t.now, p.rate);
  }

  /**
   The retry of a rate-limited envelope once the time since the refusal is worth one token more than the node has
   granted the sender since: accepted exactly if the id has not been.
   */
  lemma RateGivesWay(p: Params, s: Net, i: nat, events: seq<Event>, hops: uint32)
    requires RefusedThen(p, s, i, events) && VerdictOn(p, s, s.flight[i]) == RateLimited && Burst(p.rate) >= 1.0
    requires var c, t := s.flight[i], Afterwards(p, s, i, events);
             (GrantedTo(t.log, c.dst, c.env.senderId) + 1 - GrantedTo(s.log, c.dst, c.env.senderId)) as real
             <= MinReal(Burst(p.rate), Credit(t.now - s.now, p.rate))
    ensures var c, t := s.flight[i], Afterwards(p, s, i, events);
            && c.dst in t.nodes
            && (JudgedAt(p, t, c.dst, c.env.(hopCount := hops)) == Accepted <==>
                  c.env.messageId !in Remembered(t.log, c.dst))
  {
    var c, after := s.flight[i], Apply(p, s, Handle(i, [], []));
    RightAfter(p, s, i, events);
    RateLimitedRetry(p, s, i, events, hops);
    assert GrantedTo(after.log, c.dst, c.env.senderId) == GrantedTo(s.log, c.dst, c.env.senderId);
    hide Reachable, Apply, Enabled, Legal, Run, Judge, GrantedTo;
    TimeBringsTokens(p, after, events, c.dst, c.env.senderId);
  }
}
