/**
 What reaches the nodes of a network: whatever anybody broadcasts, only envelopes within the limits and signed by the
 sender they name are accepted, and only those travel beyond the peers of whoever broadcast them.
 */
module NetworkAuthenticity {
  import opened ByteStrings
  import opened Crypto
  import opened Envelopes
  import opened KeyRings
  import opened Sequences
  import opened Gossip
  import opened Network
  import opened NetworkSafety

  /** Within the limits, of a type the engine handles, and verified under a key bound to the sender it names. */
  ghost predicate Vetted(p: Params, env: Envelope) {
    && 1 <= |env.messageId| <= 128 && 1 <= |env.senderId| <= 128 && |env.payload| <= 65536
    && env.msgType !in {1, 2, 4, 5}
    && exists key :: BoundTo(p.c, key, env.senderId) && Verifies(p.c, env, key)
  }

  predicate WasAccepted(h: History, node: Id, env: Envelope) {
    h.Then? && (WasAccepted(h.before, node, env)
                || (h.record.Handled? && h.record.verdict == Accepted && h.record.node == node && h.record.env == env))
  }

  /** A copy in the hands of a call that got its token, or relayed at least once. */
  predicate Checked(c: Copy) {
    c.cleared || |c.trail| > 1
  }

  ghost predicate FlightVetted(p: Params, s: Net) {
    forall c :: c in s.flight && Checked(c) ==> Vetted(p, c.env)
  }

  ghost predicate LogVetted(p: Params, h: History) {
    forall n, env :: WasAccepted(h, n, env) ==> Vetted(p, env)
  }

  lemma LogGrows(p: Params, h: History, r: Record)
    requires LogVetted(p, h) && (r.Handled? && r.verdict == Accepted ==> Vetted(p, r.env))
    ensures LogVetted(p, Then(h, r))
  {
    hide Vetted;
    forall n, env | WasAccepted(Then(h, r), n, env) ensures Vetted(p, env) {
      assert WasAccepted(h, n, env) || (r.Handled? && r.verdict == Accepted && r.env == env);
    }
  }

  lemma VerifiedIsVetted(p: Params, e: EngineState, env: Envelope)
    requires Bound(p.c, e.keys) && Verified(p, e, env) && GossipType(env.msgType)
    ensures Vetted(p, env)
  {
    var key := Learned(p.c, e.keys, env)[env.senderId].pubKey;
    hide Verifies;
    assert BoundTo(p.c, key, env.senderId) && Verifies(p.c, env, key);
  }

  lemma RelayedIsVetted(p: Params, env: Envelope)
    requires Vetted(p, env) && env.hopCount > 0
    ensures Vetted(p, OneHopLess(env))
  {
    hide Verifies, BoundTo;
    var key :| BoundTo(p.c, key, env.senderId) && Verifies(p.c, env, key);
    RelayingKeepsSignature(p.c, env, env.hopCount - 1, env.senderPubkey, key);
  }

  lemma VettedClear(p: Params, s: Net, i: nat)
    requires FlightVetted(p, s) && LogVetted(p, s.log) && KeysBound(p, s) && AtLimiter(p, s, i)
    ensures FlightVetted(p, AfterClear(p, s, i)) && LogVetted(p, AfterClear(p, s, i).log)
  {
    var c := s.flight[i];
    VerifiedIsVetted(p, s.nodes[c.dst].engine, c.env);
    ClearOutcome(p, s, i);
    LogGrows(p, s.log, AfterClear(p, s, i).log.record);
    hide LogVetted, AfterClear, Vetted, Verified, GrantedOn, GossipType;
  }

  lemma VettedHandle(p: Params, s: Net, i: nat, taken: seq<Id>, refused: seq<Id>)
    requires FlightVetted(p, s) && LogVetted(p, s.log) && Enabled(p, s, Handle(i, taken, refused))
    requires GossipType(s.flight[i].env.msgType)
    ensures var t := AfterHandle(p, s, i, taken, refused); FlightVetted(p, t) && LogVetted(p, t.log)
  {
    var c, t := s.flight[i], AfterHandle(p, s, i, taken, refused);
    HandleOutcome(p, s, i, taken, refused);
    HandledFlight(p, s, i, taken, refused);
    hide AfterHandle, Vetted, Judge, ValidTargets;
    assert c in s.flight;
    if Relays(VerdictOn(p, s, c), c.env) {
      RelayedIsVetted(p, c.env);
    }
    LogGrows(p, s.log, t.log.record);
    hide LogVetted;
    forall d | d in t.flight && Checked(d) ensures Vetted(p, d.env) {
      if d !in Without(s.flight, i) {
        assert d in RelayedCopies(c, taken);
      }
    }
  }

  lemma VettedStep(p: Params, s: Net, ev: Event)
    requires FlightVetted(p, s) && LogVetted(p, s.log) && KeysBound(p, s) && Enabled(p, s, ev)
    ensures FlightVetted(p, Apply(p, s, ev)) && LogVetted(p, Apply(p, s, ev).log)
  {
    hide Judge, Admit, ValidTargets, Distinct, Elements, Verified, Vetted, GrantedOn, RelayedCopies;
    var t := Apply(p, s, ev);
    if t.log.Then? && t.log.before == s.log && !t.log.record.Handled? {
      LogGrows(p, s.log, t.log.record);
    }
    hide LogVetted;
    match ev
    case Clear(i) =>
      hide AfterClear;
      VettedClear(p, s, i);
    case Handle(i, taken, refused) =>
      if GossipType(s.flight[i].env.msgType) {
        hide AfterHandle;
        VettedHandle(p, s, i, taken, refused);
      }
    case _ =>
  }

  lemma {:induction false} VettedRun(p: Params, s: Net, events: seq<Event>)
    requires Reachable(p, s) && FlightVetted(p, s) && LogVetted(p, s.log) && Legal(p, s, events)
    ensures var t := Run(p, s, events); FlightVetted(p, t) && LogVetted(p, t.log)
    decreases |events|
  {
    hide FlightVetted, LogVetted, Apply, Enabled, Reachable;
    if events != [] {
      ReachableIsSafe(p, s);
      VettedStep(p, s, events[0]);
      ReachableStep(p, s, events[0]);
      VettedRun(p, Apply(p, s, events[0]), events[1..]);
    }
  }

  lemma ReachableIsVetted(p: Params, s: Net)
    requires Reachable(p, s)
    ensures FlightVetted(p, s) && LogVetted(p, s.log)
  {
    var s0, events := FreshStart(p, s);
    hide Vetted;
    assert Legal(p, s0, []) && Run(p, s0, []) == s0;
    VettedRun(p, s0, events);
  }

  /**
   In every reachable state: whatever has been accepted anywhere, and whatever has been relayed at least once, has
   identifiers of 1 to 128 bytes and a payload of at most 64 KB, and verifies under a key that hashes to its sender.
   */
  lemma OnlyVettedTravels(p: Params, s: Net, env: Envelope)
    requires Reachable(p, s)
    requires (exists n :: WasAccepted(s.log, n, env)) || (exists c :: c in s.flight && |c.trail| > 1 && c.env == env)
    ensures 1 <= |env.messageId| <= 128 && 1 <= |env.senderId| <= 128 && |env.payload| <= 65536
    ensures env.msgType !in {1, 2, 4, 5}
    ensures exists key :: BoundTo(p.c, key, env.senderId) && Verifies(p.c, env, key)
  {
    ReachableIsVetted(p, s);
  }

  /**
   End to end: what any node accepts as a message of the owner of `priv`, over any relays and among any other
   broadcasts, is in every signed field an envelope that the owner has signed.
   */
  lemma AcceptedWasSigned(p: Params, s: Net, n: Id, env: Envelope, priv: Bytes, signed: set<Envelope>)
    returns (e: Envelope)
    requires Reachable(p, s) && Injective(p.c.sha256) && WasAccepted(s.log, n, env)
    requires env.senderId == NodeIdOf(p.c, p.c.publicKey(priv))
    requires OnlySigned(p.c, priv, signed) && SameLengths(signed, env)
    ensures e in signed && e.messageId == env.messageId && e.senderId == env.senderId
    ensures e.lamportTs == env.lamportTs && e.msgType == env.msgType && e.payload == env.payload
  {
    ReachableIsVetted(p, s);
    hide OnlySigned, Verifies, Reachable;
    assert Vetted(p, env);
    var key :| BoundTo(p.c, key, env.senderId) && Verifies(p.c, env, key);
    NodeIdDeterminesKey(p.c, key, p.c.publicKey(priv));
    e := VerifiedMeansSigned(p.c, priv, signed, env);
  }

  /** A copy outside the limits can only be dropped, and then no engine changes at all. */
  lemma OutsideLimitsIsDropped(p: Params, s: Net, i: nat, taken: seq<Id>, refused: seq<Id>)
    requires Reachable(p, s) && i < |s.flight| && GossipType(s.flight[i].env.msgType)
    requires var env := s.flight[i].env;
             !(1 <= |env.messageId| <= 128 && 1 <= |env.senderId| <= 128 && |env.payload| <= 65536)
    ensures !Enabled(p, s, Clear(i))
    ensures Enabled(p, s, Handle(i, taken, refused)) ==>
              var t := Apply(p, s, Handle(i, taken, refused));
              t.nodes == s.nodes && t.flight == Without(s.flight, i)
  {
    ReachableIsVetted(p, s);
    var c := s.flight[i];
    assert c in s.flight;
    if Enabled(p, s, Handle(i, taken, refused)) {
      var e := s.nodes[c.dst].engine;
      MalformedExactly(p, e, s.now, c.env);
      HandledFlight(p, s, i, taken, refused);
      hide Judge, Admit, Reachable, ValidTargets;
      assert CountForward(e, 0, 0) == e;
    }
  }
}
