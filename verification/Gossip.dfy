/**
 The gossip engine of one node as a function of its state (internal/gossip/gossip.go): what HandleIncoming
 decides about an envelope, what it changes before forwarding, and whom it may forward to.
 */
module Gossip {
  import opened Arithmetic
  import opened ByteStrings
  import opened Crypto
  import opened Envelopes
  import opened KeyRings
  import opened RateLimiters
  import opened SeenCaches
  import opened Sequences

  const DEFAULT_FANOUT := 3
  const DEFAULT_MAX_HOPS: uint32 := 10
  const DEFAULT_SEEN_TTL := 300.0
  const DEFAULT_MAX_PER_SEC := 10.0
  const MAX_GOSSIP_PAYLOAD := 65536
  const MAX_FIELD_LEN := 128

  datatype Params = Params(
    c: Primitives,
    fanout: nat,
    maxHops: uint32,
    ttl: real,
    rate: real,
    handlers: set<uint32>)

  function DefaultParams(c: Primitives, handlers: set<uint32>): (p: Params) {
    Params(c, DEFAULT_FANOUT, DEFAULT_MAX_HOPS, DEFAULT_SEEN_TTL, DEFAULT_MAX_PER_SEC, handlers)
  }

  datatype EngineState = EngineState(
    seen: Seen,
    keys: Ring,
    senders: Senders,
    received: nat,
    delivered: nat,
    broadcast: nat,
    forwarded: nat,
    dropped: nat)

  /**
   What becomes of an envelope. The last two befall a call that another one with the same id overtakes after its first
   look at the seen cache: it loses at the test-and-set, its token spent, or before that for want of a token.
   */
  datatype Verdict =
    | Malformed | Duplicate | UnknownSender | BadSignature | RateLimited | Accepted
    | Overtaken | OvertakenLimited

  predicate WellFormedEnvelope(env: Envelope) {
    && 0 < |env.messageId| <= MAX_FIELD_LEN
    && 0 < |env.senderId| <= MAX_FIELD_LEN
    && |env.payload| <= MAX_GOSSIP_PAYLOAD
  }

  /** The keyring once an unknown sender's own key has been learned from the envelope, if it is bound to the id. */
  function Learned(c: Primitives, keys: Ring, env: Envelope): (r: Ring) {
    if env.senderId !in keys && BoundTo(c, env.senderPubkey, env.senderId)
    then Added(keys, env.senderId, env.senderPubkey, GossipLearned)
    else keys
  }

  function Judge(p: Params, e: EngineState, now: real, env: Envelope): (v: Verdict) {
    if !WellFormedEnvelope(env) then Malformed
    else if env.messageId in e.seen then Duplicate
    else
      var keys := Learned(p.c, e.keys, env);
      if env.senderId !in keys then UnknownSender
      else if !Verifies(p.c, env, keys[env.senderId].pubKey) then BadSignature
      else if !Grants(e.senders, env.senderId, now, p.rate) then RateLimited
      else Accepted
  }

  /** What the checks themselves change: a learned key, a spent token, a mark in the seen cache. */
  function Screened(p: Params, e: EngineState, now: real, env: Envelope): (r: EngineState) {
    var v := Judge(p, e, now, env);
    if v in {Malformed, Duplicate, UnknownSender} then e
    else
      e.(keys := Learned(p.c, e.keys, env),
         senders := if v == BadSignature then e.senders else Spent(e.senders, env.senderId, now, p.rate),
         seen := if v == Accepted then Marked(e.seen, env.messageId, now) else e.seen)
  }

  // ---------- the two steps of a call ----------

  /** What a call must have found to get to the limiter, apart from an unmarked id. */
  predicate Verified(p: Params, e: EngineState, env: Envelope) {
    && WellFormedEnvelope(env)
    && var keys := Learned(p.c, e.keys, env);
       env.senderId in keys && Verifies(p.c, env, keys[env.senderId].pubKey)
  }

  /** Up to the limiter: a learned key and a spent token. */
  function AfterAllow(p: Params, e: EngineState, now: real, env: Envelope): (r: EngineState) {
    e.(keys := Learned(p.c, e.keys, env), senders := Spent(e.senders, env.senderId, now, p.rate))
  }

  /** From the test-and-set on. */
  function AfterCheck(p: Params, e: EngineState, now: real, env: Envelope): (r: EngineState) {
    if env.messageId in e.seen then e else CountReceived(p, e.(seen := Marked(e.seen, env.messageId, now)), env)
  }

  /** A call that nothing comes between is the two steps, and accepts exactly if both let it. */
  lemma TwoStepsMakeOneCall(p: Params, e: EngineState, now: real, env: Envelope)
    ensures Judge(p, e, now, env) == Accepted <==>
              Verified(p, e, env) && Grants(e.senders, env.senderId, now, p.rate) && env.messageId !in e.seen
    ensures Judge(p, e, now, env) == Accepted ==>
              Admit(p, e, now, env) == AfterCheck(p, AfterAllow(p, e, now, env), now, env)
  {
    hide Verifies, Grants, Spent;
  }

  function CountReceived(p: Params, e: EngineState, env: Envelope): (r: EngineState) {
    e.(received := e.received + 1, delivered := e.delivered + if env.msgType in p.handlers then 1 else 0)
  }

  /** Everything HandleIncoming changes up to the decision to forward. */
  function Admit(p: Params, e: EngineState, now: real, env: Envelope): (r: EngineState) {
    var s := Screened(p, e, now, env);
    if Judge(p, e, now, env) == Accepted then CountReceived(p, s, env) else s
  }

  /** Only an accepted envelope with hops to spare is relayed, one hop shorter. */
  predicate Relays(v: Verdict, env: Envelope) {
    v == Accepted && env.hopCount > 1
  }

  function OneHopLess(env: Envelope): (r: Envelope)
    requires env.hopCount > 0
  {
    env.(hopCount := env.hopCount - 1)
  }

  /** A random choice of at most `fanout` distinct peers other than the one the envelope came from. */
  ghost predicate ValidTargets(peers: set<Id>, exclude: Id, fanout: nat, targets: seq<Id>) {
    && Distinct(targets)
    && (forall t :: t in targets ==> t in peers && t != exclude)
    && |targets| == Min(fanout, |peers - {exclude}|)
  }

  function CountForward(e: EngineState, taken: nat, refused: nat): (r: EngineState) {
    e.(forwarded := e.forwarded + taken, dropped := e.dropped + refused)
  }

  /** Broadcast marks the id as seen whether or not it was already, then sends to every peer. */
  function Originate(e: EngineState, now: real, id: Id, taken: nat, refused: nat): (r: EngineState) {
    e.(seen := Marked(e.seen, id, now), broadcast := e.broadcast + taken, dropped := e.dropped + refused)
  }

  // ---------- what a refusal leaves possible ----------

  /** An envelope refused for an unknown sender, a bad signature or the rate limit is not marked as seen. */
  lemma RefusalLeavesUnseen(p: Params, e: EngineState, now: real, env: Envelope)
    requires Judge(p, e, now, env) in {UnknownSender, BadSignature, RateLimited}
    ensures env.messageId !in Admit(p, e, now, env).seen
    ensures Admit(p, e, now, env).seen == e.seen
  {
  }

  /** Handling keeps the ring bound, and accepts only under a key bound to the claimed sender. */
  lemma AcceptedMeansAuthentic(p: Params, e: EngineState, now: real, env: Envelope)
    requires Bound(p.c, e.keys)
    ensures Bound(p.c, Admit(p, e, now, env).keys)
    ensures Judge(p, e, now, env) == Accepted ==>
              env.senderId in Admit(p, e, now, env).keys
              && BoundTo(p.c, Admit(p, e, now, env).keys[env.senderId].pubKey, env.senderId)
              && Verifies(p.c, env, Admit(p, e, now, env).keys[env.senderId].pubKey)
  {
  }

  // ---------- what a refusal changes ----------

  /** Identifiers of 1 to 128 bytes and a payload of at most 64 KB. */
  predicate WithinLimits(env: Envelope) {
    1 <= |env.messageId| <= 128 && 1 <= |env.senderId| <= 128 && |env.payload| <= 65536
  }

  /** Exactly the envelopes outside the limits are malformed, and they change nothing and go nowhere. */
  lemma MalformedExactly(p: Params, e: EngineState, now: real, env: Envelope)
    ensures Judge(p, e, now, env) == Malformed <==> !WithinLimits(env)
    ensures !WithinLimits(env) ==> Admit(p, e, now, env) == e && !Relays(Judge(p, e, now, env), env)
  {
  }

  /**
   An envelope nobody marked yet, from a sender whose key is known, with fields the sender never signed: it is refused
   for its signature whatever that is, changes no counter, cache, key or bucket, and is relayed to nobody.
   */
  lemma UnsignedIsDropped(p: Params, e: EngineState, now: real, env: Envelope, priv: Bytes, signed: set<Envelope>)
    requires OnlySigned(p.c, priv, signed) && SameLengths(signed, env)
    requires forall o :: o in signed ==> !SameSignedFields(o, env)
    requires WithinLimits(env) && env.messageId !in e.seen
    requires env.senderId in e.keys && e.keys[env.senderId].pubKey == p.c.publicKey(priv)
    ensures Judge(p, e, now, env) == BadSignature
    ensures Admit(p, e, now, env) == e && !Relays(Judge(p, e, now, env), env)
  {
    hide OnlySigned, Verifies;
    if Verifies(p.c, env, p.c.publicKey(priv)) {
      var o := VerifiedMeansSigned(p.c, priv, signed, env);
    }
  }

  /** A sender is unknown exactly if it has no key here and the envelope brings none that hashes to its id. */
  lemma UnknownSenderExactly(p: Params, e: EngineState, now: real, env: Envelope)
    requires WithinLimits(env) && env.messageId !in e.seen
    ensures var brings := |env.senderPubkey| == 32 && HexEncode(p.c.sha256(env.senderPubkey)) == env.senderId;
            && (Judge(p, e, now, env) == UnknownSender <==> env.senderId !in e.keys && !brings)
            && (env.senderId !in e.keys && brings ==>
                  Admit(p, e, now, env).keys == e.keys[env.senderId := KeyEntry(env.senderPubkey, GossipLearned)])
            && (env.senderId in e.keys || !brings ==> Admit(p, e, now, env).keys == e.keys)
  {
    hide Verifies, Grants;
  }
}
