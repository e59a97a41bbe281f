/** The gossip engine as an object over its cache, keyring, limiter and peer queues (internal/gossip/gossip.go). */
module Engines {
  import opened ByteStrings
  import opened Crypto
  import opened Envelopes
  import opened KeyRings
  import opened RateLimiters
  import opened SeenCaches
  import opened Sequences
  import opened Gossip

  /** The send channels of the connected peers, by node id. */
  type Queues = map<Id, seq<Envelope>>

  const SEND_BUFFER := 64

  predicate HasRoom(queues: Queues, to: Id) {
    to in queues && |queues[to]| < SEND_BUFFER
  }

  /** A full channel refuses the envelope and keeps its contents. */
  function Sent(queues: Queues, to: Id, env: Envelope): (r: Queues) {
    if HasRoom(queues, to) then queues[to := queues[to] + [env]] else queues
  }

  function SentAll(queues: Queues, targets: seq<Id>, env: Envelope): (r: Queues)
    decreases |targets|
  {
    if targets == [] then queues
    else Sent(SentAll(queues, targets[..|targets| - 1], env), targets[|targets| - 1], env)
  }

  function TakenCount(queues: Queues, targets: seq<Id>): (n: nat)
    ensures n <= |targets|
  {
    if targets == [] then 0
    else TakenCount(queues, targets[..|targets| - 1]) + if HasRoom(queues, targets[|targets| - 1]) then 1 else 0
  }

  /** Sending to distinct peers appends one copy to exactly the chosen channels that had room. */
  lemma {:induction false} SentAllAt(queues: Queues, targets: seq<Id>, env: Envelope)
    requires Distinct(targets)
    ensures SentAll(queues, targets, env).Keys == queues.Keys
    ensures forall to :: to in queues ==>
              SentAll(queues, targets, env)[to] ==
              (if to in targets && |queues[to]| < 64 then queues[to] + [env] else queues[to])
  {
    if targets != [] {
      var init := targets[..|targets| - 1];
      SentAllAt(queues, init, env);
      assert targets == init + [targets[|targets| - 1]];
    }
  }

  lemma {:induction false} TakenCountsRoom(queues: Queues, targets: seq<Id>)
    requires Distinct(targets)
    ensures TakenCount(queues, targets) == |set to | to in targets && HasRoom(queues, to)|
  {
    hide HasRoom;
    if targets != [] {
      var init, last := targets[..|targets| - 1], targets[|targets| - 1];
      assert targets == init + [last];
      TakenCountsRoom(queues, init);
      assert TakenCount(queues, targets) == TakenCount(queues, init) + if HasRoom(queues, last) then 1 else 0;
      assert last !in init;
      hide Distinct, TakenCount;
      var before := set to | to in init && HasRoom(queues, to);
      var room := set to | to in targets && HasRoom(queues, to);
      if HasRoom(queues, last) {
        assert room == before + {last};
      } else {
        assert room == before;
      }
    }
  }

  /** What counts as sent is the number of channels that grow. */
  lemma TakenCountsGrowth(queues: Queues, targets: seq<Id>, env: Envelope)
    requires Distinct(targets)
    ensures var after := SentAll(queues, targets, env);
            var grown := set to | to in queues && to in after && |queues[to]| < |after[to]|;
            TakenCount(queues, targets) == |grown|
  {
    SentAllAt(queues, targets, env);
    TakenCountsRoom(queues, targets);
    var after := SentAll(queues, targets, env);
    hide SentAll, TakenCount;
    assert (set to | to in queues && to in after && |queues[to]| < |after[to]|)
        == set to | to in targets && HasRoom(queues, to);
  }

  lemma SendingToNobody(queues: Queues, env: Envelope)
    ensures SentAll(queues, [], env) == queues && TakenCount(queues, []) == 0
  {
  }

  lemma SendingOneMore(queues: Queues, targets: seq<Id>, i: nat, env: Envelope)
    requires Distinct(targets) && i < |targets| && targets[i] in queues
    ensures SentAll(queues, targets[..i + 1], env) == Sent(SentAll(queues, targets[..i], env), targets[i], env)
    ensures TakenCount(queues, targets[..i + 1])
            == TakenCount(queues, targets[..i]) + if HasRoom(queues, targets[i]) then 1 else 0
    ensures HasRoom(SentAll(queues, targets[..i], env), targets[i]) <==> HasRoom(queues, targets[i])
    ensures SentAll(queues, targets[..i], env).Keys == queues.Keys
  {
    assert targets[..i + 1][..i] == targets[..i];
    SentAllAt(queues, targets[..i], env);
  }

  class Engine {
    const localId: Id
    const c: Primitives
    const fanout: nat
    const maxHops: uint32
    const seen: SeenCache
    const ring: KeyRing
    const limiter: RateLimiter
    var handlers: set<uint32>
    /** The handler calls made, in order. */
    var calls: seq<(Id, Bytes)>
    var queues: Queues
    var received: nat
    var delivered: nat
    var broadcast: nat
    var forwarded: nat
    var dropped: nat

    ghost predicate Valid()
      reads this, limiter
    {
      limiter.Valid()
    }

    ghost function Parameters(): (p: Params)
      reads this
    {
      Params(c, fanout, maxHops, seen.ttl, limiter.maxPerSec, handlers)
    }

    ghost function State(): (e: EngineState)
      reads this, seen, ring, limiter
    {
      EngineState(seen.entries, ring.keys, limiter.senders, received, delivered, broadcast, forwarded, dropped)
    }

    constructor (c: Primitives, localId: Id)
      ensures Valid()
      ensures Parameters() == DefaultParams(c, {})
      ensures fanout == 3 && maxHops == 10 && seen.ttl == 300.0 && limiter.maxPerSec == 10.0
      ensures State() == EngineState(map[], map[], map[], 0, 0, 0, 0, 0)
      ensures queues == map[] && calls == []
      ensures fresh(seen) && fresh(ring) && fresh(limiter)
    {
      this.c := c;
      this.localId := localId;
      this.fanout := DEFAULT_FANOUT;
      this.maxHops := DEFAULT_MAX_HOPS;
      var s := new SeenCache(DEFAULT_SEEN_TTL);
      var k := new KeyRing();
      var l := new RateLimiter(DEFAULT_MAX_PER_SEC);
      this.seen, this.ring, this.limiter := s, k, l;
      this.handlers := {};
      this.calls := [];
      this.queues := map[];
      this.received, this.delivered, this.broadcast, this.forwarded, this.dropped := 0, 0, 0, 0, 0;
    }

    method RegisterHandler(msgType: uint32)
      modifies this`handlers
      ensures handlers == old(handlers) + {msgType}
    {
      handlers := handlers + {msgType};
    }

    /** The connected peers, in the arbitrary order of a map iteration. */
    method GetPeers() returns (ids: seq<Id>)
      ensures Distinct(ids) && Elements(ids) == queues.Keys
    {
      ids := Listing(queues.Keys);
    }

    method Send(to: Id, env: Envelope) returns (ok: bool)
      requires to in queues
      modifies this`queues
      ensures ok <==> HasRoom(old(queues), to)
      ensures queues == Sent(old(queues), to, env)
    {
      ok := |queues[to]| < SEND_BUFFER;
      if ok {
        queues := queues[to := queues[to] + [env]];
      }
    }

    /** Offers the envelope to each target in turn. */
    method SendEach(targets: seq<Id>, env: Envelope) returns (sent: nat)
      requires Distinct(targets) && forall t :: t in targets ==> t in queues
      modifies this`queues
      ensures queues == SentAll(old(queues), targets, env)
      ensures sent == TakenCount(old(queues), targets)
    {
      sent := 0;
      for i := 0 to |targets|
        invariant queues == SentAll(old(queues), targets[..i], env)
        invariant sent == TakenCount(old(queues), targets[..i])
      {
        SendingOneMore(old(queues), targets, i, env);
        var ok := Send(targets[i], env);
        if ok {
          sent := sent + 1;
        }
      }
      assert targets[..|targets|] == targets;
    }

    /** The candidates are every connected peer but the excluded one, cut to a random `fanout` of them. */
    method SelectTargets(exclude: Id) returns (targets: seq<Id>)
      ensures ValidTargets(queues.Keys, exclude, fanout, targets)
    {
      var peers := GetPeers();
      var candidates: seq<Id> := [];
      for i := 0 to |peers|
        invariant Distinct(candidates)
        invariant Elements(candidates) == Elements(peers[..i]) - {exclude}
      {
        assert peers[..i + 1] == peers[..i] + [peers[i]];
        assert peers[i] !in Elements(peers[..i]);
        ElementsAppend(peers[..i], peers[i]);
        if peers[i] != exclude {
          assert peers[i] !in Elements(candidates);
          ElementsAppend(candidates, peers[i]);
          candidates := candidates + [peers[i]];
        }
      }
      assert peers[..|peers|] == peers;
      DistinctCardinality(candidates);
      targets := RandomChoice(candidates, fanout);
      assert forall t :: t in targets ==> t in Elements(targets);
    }

    /** The targets are returned for the contract only. */
    method ForwardTo(env: Envelope, exclude: Id) returns (ghost targets: seq<Id>)
      modifies this`queues, this`forwarded, this`dropped
      ensures ValidTargets(old(queues).Keys, exclude, fanout, targets)
      ensures queues == SentAll(old(queues), targets, env)
      ensures State() == CountForward(old(State()),
                                      TakenCount(old(queues), targets), |targets| - TakenCount(old(queues), targets))
    {
      hide ValidTargets, SentAll, TakenCount;
      var chosen := SelectTargets(exclude);
      targets := chosen;
      if |chosen| == 0 {
        SendingToNobody(queues, env);
        return;
      }
      var sent := SendEach(chosen, env);
      forwarded := forwarded + sent;
      var lost := |chosen| - sent;
      if lost > 0 {
        dropped := dropped + lost;
      }
    }

    /** Broadcast marks, then offers the envelope to every connected peer. */
    method Broadcast(env: Envelope, now: real) returns (sent: nat, total: nat, ghost targets: seq<Id>)
      modifies this`queues, this`broadcast, this`dropped, seen
      ensures Distinct(targets) && Elements(targets) == old(queues).Keys
      ensures queues == SentAll(old(queues), targets, env)
      ensures sent == TakenCount(old(queues), targets) && total == |old(queues)| == |targets|
      ensures State() == Originate(old(State()), now, env.messageId, sent, total - sent)
    {
      hide SentAll, TakenCount, Marked;
      var _ := seen.Check(env.messageId, now);
      var peers := GetPeers();
      targets := peers;
      DistinctCardinality(peers);
      total := |peers|;
      assert forall t :: t in peers ==> t in Elements(peers);
      sent := SendEach(peers, env);
      broadcast := broadcast + sent;
      var lost := total - sent;
      if lost > 0 {
        dropped := dropped + lost;
      }
    }

    /** The checks up to the atomic test-and-set, in their order; each refusal leaves what the earlier ones did. */
    method Screen(env: Envelope, now: real) returns (verdict: Verdict)
      requires Valid()
      modifies seen, ring, limiter
      ensures Valid()
      ensures verdict == Judge(Parameters(), old(State()), now, env)
      ensures State() == Screened(Parameters(), old(State()), now, env)
    {
      if env.messageId == [] || env.senderId == [] {
        return Malformed;
      }
      if |env.messageId| > MAX_FIELD_LEN || |env.senderId| > MAX_FIELD_LEN {
        return Malformed;
      }
      if |env.payload| > MAX_GOSSIP_PAYLOAD {
        return Malformed;
      }
      var dup := seen.Has(env.messageId);
      if dup {
        return Duplicate;
      }
      var entry := ring.Lookup(env.senderId);
      if entry.None? {
        if |env.senderPubkey| == PUBLIC_KEY_SIZE {
          if NodeIdOf(c, env.senderPubkey) == env.senderId {
            ring.Add(env.senderId, env.senderPubkey, GossipLearned);
            entry := ring.Lookup(env.senderId);
          }
        }
        if entry.None? {
          return UnknownSender;
        }
      }
      var verified := VerifyEnvelope(c, env, entry.value.pubKey);
      if !verified {
        return BadSignature;
      }
      var allowed := limiter.Allow(env.senderId, now);
      if !allowed {
        return RateLimited;
      }
      var marked := seen.Check(env.messageId, now);
      return if marked then Duplicate else Accepted;
    }

    /** Counts an accepted envelope and runs the handler registered for its type. */
    method Deliver(env: Envelope)
      modifies this`calls, this`received, this`delivered
      ensures State() == CountReceived(Parameters(), old(State()), env)
      ensures calls == old(calls) + (if env.msgType in handlers then [(env.senderId, env.payload)] else [])
    {
      received := received + 1;
      if env.msgType in handlers {
        calls := calls + [(env.senderId, env.payload)];
        delivered := delivered + 1;
      }
    }

    /**
     The engine's state moves as Admit says; the handler runs exactly for an accepted envelope of a
     registered type; and exactly a relayed envelope reaches other peers, through a valid choice of targets.
     */
    method HandleIncoming(from: Id, env: Envelope, now: real) returns (ghost verdict: Verdict, ghost targets: seq<Id>)
      requires Valid()
      modifies this`queues, this`calls, this`received, this`delivered, this`forwarded, this`dropped, seen, ring, limiter
      ensures Valid()
      ensures verdict == Judge(Parameters(), old(State()), now, env)
      ensures calls == old(calls) +
                (if verdict == Accepted && env.msgType in handlers then [(env.senderId, env.payload)] else [])
      ensures if Relays(verdict, env)
              then ValidTargets(old(queues).Keys, from, fanout, targets)
                   && queues == SentAll(old(queues), targets, OneHopLess(env))
              else targets == [] && queues == old(queues)
      ensures State() == CountForward(Admit(Parameters(), old(State()), now, env),
                           TakenCount(old(queues), targets), |targets| - TakenCount(old(queues), targets))
      ensures !(1 <= |env.messageId| <= 128 && 1 <= |env.senderId| <= 128 && |env.payload| <= 65536) ==>
                State() == old(State()) && queues == old(queues) && calls == old(calls)
    {
      hide Judge, Screened, ValidTargets, SentAll, State, CountReceived;
      MalformedExactly(Parameters(), State(), now, env);
      targets := [];
      var checked := Screen(env, now);
      verdict := checked;
      if checked == Accepted {
        Deliver(env);
        if env.hopCount > 1 {
          targets := ForwardTo(OneHopLess(env), from);
        }
      }
    }
  }
}
