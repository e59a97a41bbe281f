/**
 The hello exchange that follows the Noise handshake (internal/transport/peer.go): what one end accepts from
 anybody, and the product of two honest ends over a reliable channel.
 */
module Hello {
  import opened Options
  import opened ByteStrings
  import opened Crypto
  import opened Envelopes
  import opened Network

  datatype PeerHello = PeerHello(nodeId: Id, reachable: bool, listenAddr: Bytes, pubkey: Key)

  /** The primitives, the encoding of hellos, and the conversion of signing keys to Noise static keys. */
  datatype Suite = Suite(
    c: Primitives,
    marshal: PeerHello -> Bytes,
    unmarshal: Bytes -> Option<PeerHello>,
    x25519: Key -> Option<Bytes>)

  ghost predicate IdealSuite(u: Suite) {
    Ideal(u.c) && forall h :: u.unmarshal(u.marshal(h)) == Some(h)
  }

  // ---------- one end ----------

  /** What recvHello returns for a received envelope. */
  function ReceivedHello(u: Suite, env: Envelope, expectedType: uint32): (h: Option<PeerHello>) {
    if env.msgType != expectedType then None
    else match u.unmarshal(env.payload)
      case None => None
      case Some(hello) =>
        if !Verifies(u.c, env, hello.pubkey) || env.senderId != hello.nodeId then None else Some(hello)
  }

  predicate IdentityMatches(u: Suite, hello: PeerHello, peerStatic: Bytes) {
    hello.nodeId == NodeIdOf(u.c, hello.pubkey) && u.x25519(hello.pubkey) == Some(peerStatic)
  }

  /** The remote end as the local one has recorded it. */
  datatype Remote = Remote(nodeId: Id, key: Key, reachable: bool, listenAddr: Bytes)

  class Peer {
    const u: Suite
    const peerStatic: Bytes
    var remote: Option<Remote>

    constructor (u: Suite, peerStatic: Bytes)
      ensures this.u == u && this.peerStatic == peerStatic && remote == None
    {
      this.u, this.peerStatic := u, peerStatic;
      remote := None;
    }

    /** Records the remote identity exactly when both checks pass. */
    method VerifyPeerIdentity(hello: PeerHello) returns (ok: bool)
      modifies this
      ensures ok <==> IdentityMatches(u, hello, peerStatic)
      ensures remote == if ok then Some(Remote(hello.nodeId, hello.pubkey, hello.reachable, hello.listenAddr))
                        else old(remote)
    {
      var expectedNodeId := NodeIdOf(u.c, hello.pubkey);
      if hello.nodeId != expectedNodeId {
        return false;
      }
      var converted := u.x25519(hello.pubkey);
      if converted.None? {
        return false;
      }
      if converted.value != peerStatic {
        return false;
      }
      remote := Some(Remote(hello.nodeId, hello.pubkey, hello.reachable, hello.listenAddr));
      return true;
    }
  }

  /**
   Whoever sent it: an accepted hello names the id derived from its key, its envelope is signed under that key by
   that sender, and the key converts to the static key the Noise handshake authenticated.
   */
  lemma AcceptedHelloIsAuthentic(u: Suite, env: Envelope, expectedType: uint32, peerStatic: Bytes)
    requires var h := ReceivedHello(u, env, expectedType); h.Some? && IdentityMatches(u, h.value, peerStatic)
    ensures var h := ReceivedHello(u, env, expectedType).value;
            && env.msgType == expectedType && u.unmarshal(env.payload) == Some(h)
            && BoundTo(u.c, h.pubkey, h.nodeId)
            && env.senderId == h.nodeId && Verifies(u.c, env, h.pubkey)
            && u.x25519(h.pubkey) == Some(peerStatic)
  {
  }

  /** So if nobody forges, the owner of that key has signed this very hello, of this type. */
  lemma AcceptedHelloWasSigned(u: Suite, env: Envelope, expectedType: uint32, peerStatic: Bytes, priv: Bytes,
                               signed: set<Envelope>) returns (e: Envelope)
    requires var h := ReceivedHello(u, env, expectedType);
             h.Some? && IdentityMatches(u, h.value, peerStatic) && h.value.pubkey == u.c.publicKey(priv)
    requires OnlySigned(u.c, priv, signed) && SameLengths(signed, env)
    ensures e in signed && e.msgType == expectedType && e.senderId == NodeIdOf(u.c, u.c.publicKey(priv))
    ensures u.unmarshal(e.payload) == ReceivedHello(u, env, expectedType)
  {
    hide OnlySigned;
    AcceptedHelloIsAuthentic(u, env, expectedType, peerStatic);
    e := VerifiedMeansSigned(u.c, priv, signed, env);
  }

  // ---------- two honest ends ----------

  datatype Identity = Identity(priv: Bytes, key: Key, nodeId: Id)

  ghost predicate Honest(u: Suite, id: Identity) {
    && |id.priv| == PRIVATE_KEY_SIZE && id.key == u.c.publicKey(id.priv)
    && id.nodeId == NodeIdOf(u.c, id.key) && u.x25519(id.key).Some?
  }

  datatype Config = Config(reachable: bool, listenAddr: Bytes)

  function HelloOf(id: Identity, cfg: Config): (h: PeerHello) {
    PeerHello(id.nodeId, cfg.reachable, cfg.listenAddr, id.key)
  }

  /** The envelope sendHello writes; the message id is a fresh UUID. */
  function HelloEnvelope(u: Suite, id: Identity, cfg: Config, msgType: uint32, uuid: Id): (env: Envelope) {
    Signed(u.c, Envelope(uuid, id.nodeId, 0, 1, msgType, u.marshal(HelloOf(id, cfg)), [], []), id.priv)
  }

  /** Where an end stands: about to send, in recvHello, done with its last write, returned with success or an error. */
  datatype Pc = Sending | Receiving | Written | Success | Failed

  datatype End = End(pc: Pc, remote: Option<Remote>)

  datatype Pair = Pair(initiator: End, responder: End, toResponder: seq<Envelope>, toInitiator: seq<Envelope>)

  /** The two identities and configurations; each end's Noise handshake saw the other's static key. */
  datatype Setup = Setup(u: Suite, a: Identity, aCfg: Config, b: Identity, bCfg: Config)

  ghost predicate HonestSetup(x: Setup) {
    IdealSuite(x.u) && Honest(x.u, x.a) && Honest(x.u, x.b)
  }

  datatype Event =
    | SendHello(uuid: Id)
    | ReceiveHello
    | SendAck(uuid: Id)
    | ResponderReturns
    | ReceiveAck
    | InitiatorTimeout
    | ResponderTimeout

  predicate Enabled(s: Pair, ev: Event) {
    match ev
    case SendHello(_) => s.initiator.pc == Sending
    case ReceiveHello => s.responder.pc == Receiving && s.toResponder != []
    case SendAck(_) => s.responder.pc == Sending
    case ResponderReturns => s.responder.pc == Written
    case ReceiveAck => s.initiator.pc == Receiving && s.toInitiator != []
    case InitiatorTimeout => s.initiator.pc in {Sending, Receiving}
    case ResponderTimeout => s.responder.pc in {Sending, Receiving}
  }

  /** Receiving: decode, verify, record; `next` is where a verified end goes. */
  function Receive(x: Setup, end: End, env: Envelope, expectedType: uint32, peer: Identity, next: Pc): (r: End) {
    match (ReceivedHello(x.u, env, expectedType), x.u.x25519(peer.key))
    case (Some(h), Some(peerStatic)) =>
      if IdentityMatches(x.u, h, peerStatic)
      then End(next, Some(Remote(h.nodeId, h.pubkey, h.reachable, h.listenAddr)))
      else end.(pc := Failed)
    case _ => end.(pc := Failed)
  }

  /** The state after an event; one that is not enabled changes nothing. */
  function Apply(x: Setup, s: Pair, ev: Event): (r: Pair) {
    if !Enabled(s, ev) then s else
    match ev
    case SendHello(uuid) =>
      s.(initiator := s.initiator.(pc := Receiving),
         toResponder := s.toResponder + [HelloEnvelope(x.u, x.a, x.aCfg, MSG_TYPE_PEER_HELLO, uuid)])
    case ReceiveHello =>
      s.(responder := Receive(x, s.responder, s.toResponder[0], MSG_TYPE_PEER_HELLO, x.a, Sending),
         toResponder := s.toResponder[1..])
    case SendAck(uuid) =>
      s.(responder := s.responder.(pc := Written),
         toInitiator := s.toInitiator + [HelloEnvelope(x.u, x.b, x.bCfg, MSG_TYPE_PEER_HELLO_ACK, uuid)])
    case ResponderReturns => s.(responder := s.responder.(pc := Success))
    case ReceiveAck =>
      s.(initiator := Receive(x, s.initiator, s.toInitiator[0], MSG_TYPE_PEER_HELLO_ACK, x.b, Success),
         toInitiator := s.toInitiator[1..])
    case InitiatorTimeout => s.(initiator := s.initiator.(pc := Failed))
    case ResponderTimeout => s.(responder := s.responder.(pc := Failed))
  }

  function Start(): (s: Pair) {
    Pair(End(Sending, None), End(Receiving, None), [], [])
  }

  predicate Legal(x: Setup, s: Pair, events: seq<Event>)
    decreases |events|
  {
    events == [] || (Enabled(s, events[0]) && Legal(x, Apply(x, s, events[0]), events[1..]))
  }

  function Run(x: Setup, s: Pair, events: seq<Event>): (r: Pair)
    decreases |events|
  {
    if events == [] then s else Run(x, Apply(x, s, events[0]), events[1..])
  }

  ghost predicate Reachable(x: Setup, s: Pair) {
    exists events :: Legal(x, Start(), events) && Run(x, Start(), events) == s
  }

  function RemoteOf(id: Identity, cfg: Config): (r: Remote) {
    Remote(id.nodeId, id.key, cfg.reachable, cfg.listenAddr)
  }

  /** An honest hello of the expected type is always accepted and records its sender as it is. */
  lemma HonestHelloAccepted(x: Setup, end: End, id: Identity, cfg: Config, msgType: uint32, uuid: Id, next: Pc)
    requires IdealSuite(x.u) && Honest(x.u, id)
    ensures Receive(x, end, HelloEnvelope(x.u, id, cfg, msgType, uuid), msgType, id, next)
            == End(next, Some(RemoteOf(id, cfg)))
  {
    var plain := Envelope(uuid, id.nodeId, 0, 1, msgType, x.u.marshal(HelloOf(id, cfg)), [], []);
    SignThenVerify(x.u.c, plain, id.priv);
  }

  /** `env` is what `id` sends as `msgType`. */
  ghost predicate SentBy(x: Setup, env: Envelope, id: Identity, cfg: Config, msgType: uint32) {
    exists uuid :: env == HelloEnvelope(x.u, id, cfg, msgType, uuid)
  }

  /** How far the exchange has come; the channels hold at most the one message that is under way. */
  ghost predicate InStep(x: Setup, s: Pair) {
    && |s.toResponder| <= 1 && |s.toInitiator| <= 1
    && (s.toResponder != [] ==> SentBy(x, s.toResponder[0], x.a, x.aCfg, MSG_TYPE_PEER_HELLO))
    && (s.toInitiator != [] ==> SentBy(x, s.toInitiator[0], x.b, x.bCfg, MSG_TYPE_PEER_HELLO_ACK))
    // The hello is under way until the responder has taken it.
    && (s.initiator.pc == Sending ==> s.toResponder == [] && s.responder.pc in {Receiving, Failed})
    && (s.initiator.pc == Receiving && s.responder.pc == Receiving ==> s.toResponder != [])
    && (s.responder.pc in {Sending, Written, Success} ==>
          s.responder.remote == Some(RemoteOf(x.a, x.aCfg)) && s.toResponder == [])
    // The ack is under way until the initiator has taken it.
    && (s.toInitiator != [] ==> s.responder.pc in {Written, Success})
    && (s.initiator.pc == Receiving && s.responder.pc in {Written, Success} ==> s.toInitiator != [])
    && (s.initiator.pc == Success ==>
          s.initiator.remote == Some(RemoteOf(x.b, x.bCfg))
          && s.responder.pc in {Written, Success} && s.toInitiator == [])
    && s.initiator.pc != Written
  }

  lemma InStepStep(x: Setup, s: Pair, ev: Event)
    requires HonestSetup(x) && InStep(x, s) && Enabled(s, ev)
    ensures InStep(x, Apply(x, s, ev))
    ensures !ev.InitiatorTimeout? && s.initiator.pc != Failed ==> Apply(x, s, ev).initiator.pc != Failed
    ensures !ev.ResponderTimeout? && s.responder.pc != Failed ==> Apply(x, s, ev).responder.pc != Failed
  {
    hide IdealSuite, Honest, HelloEnvelope, Receive;
    match ev
    case ReceiveHello =>
      var uuid :| s.toResponder[0] == HelloEnvelope(x.u, x.a, x.aCfg, MSG_TYPE_PEER_HELLO, uuid);
      HonestHelloAccepted(x, s.responder, x.a, x.aCfg, MSG_TYPE_PEER_HELLO, uuid, Sending);
    case ReceiveAck =>
      var uuid :| s.toInitiator[0] == HelloEnvelope(x.u, x.b, x.bCfg, MSG_TYPE_PEER_HELLO_ACK, uuid);
      HonestHelloAccepted(x, s.initiator, x.b, x.bCfg, MSG_TYPE_PEER_HELLO_ACK, uuid, Success);
    case _ =>
  }

  ghost predicate NoTimeout(events: seq<Event>) {
    forall i :: 0 <= i < |events| ==> !events[i].InitiatorTimeout? && !events[i].ResponderTimeout?
  }

  lemma {:induction false} InStepRun(x: Setup, s: Pair, events: seq<Event>)
    requires HonestSetup(x) && InStep(x, s) && Legal(x, s, events)
    ensures InStep(x, Run(x, s, events))
    ensures NoTimeout(events) && s.initiator.pc != Failed && s.responder.pc != Failed ==>
              Run(x, s, events).initiator.pc != Failed && Run(x, s, events).responder.pc != Failed
    decreases |events|
  {
    hide IdealSuite, Apply, Enabled, InStep;
    if events != [] {
      InStepStep(x, s, events[0]);
      InStepRun(x, Apply(x, s, events[0]), events[1..]);
      assert NoTimeout(events) ==>
              !events[0].InitiatorTimeout? && !events[0].ResponderTimeout? && NoTimeout(events[1..]);
    }
  }

  lemma ReachableInStep(x: Setup, s: Pair)
    requires HonestSetup(x) && Reachable(x, s)
    ensures InStep(x, s)
  {
    var events :| Legal(x, Start(), events) && Run(x, Start(), events) == s;
    InStepRun(x, Start(), events);
  }

  /** An end is blocked when it waits for a message that is not there. */
  predicate InitiatorBlocked(s: Pair) {
    s.initiator.pc == Receiving && s.toInitiator == []
  }

  predicate ResponderBlocked(s: Pair) {
    s.responder.pc == Receiving && s.toResponder == []
  }

  /** Initiator-first ordering: the two ends never both wait for the other. */
  lemma NeverBothBlocked(x: Setup, s: Pair)
    requires HonestSetup(x) && Reachable(x, s)
    ensures !(InitiatorBlocked(s) && ResponderBlocked(s))
  {
    ReachableInStep(x, s);
  }

  /**
   When the initiator returns success the responder has recorded the initiator and written its ack; and each has the
   other's id and key, the key whose static form its own Noise handshake saw.
   */
  lemma SuccessMeansAgreement(x: Setup, s: Pair)
    requires HonestSetup(x) && Reachable(x, s) && s.initiator.pc == Success
    ensures s.responder.pc in {Written, Success}
    ensures s.initiator.remote == Some(RemoteOf(x.b, x.bCfg)) && s.responder.remote == Some(RemoteOf(x.a, x.aCfg))
    ensures BoundTo(x.u.c, s.initiator.remote.value.key, s.initiator.remote.value.nodeId)
    ensures BoundTo(x.u.c, s.responder.remote.value.key, s.responder.remote.value.nodeId)
  {
    ReachableInStep(x, s);
  }

  /** The initiator may well be the first to return. */
  lemma InitiatorMayReturnFirst(x: Setup) returns (s: Pair)
    requires HonestSetup(x)
    ensures Reachable(x, s) && s.initiator.pc == Success && s.responder.pc == Written
  {
    hide IdealSuite, HelloEnvelope, Receive;
    HonestHelloAccepted(x, End(Receiving, None), x.a, x.aCfg, MSG_TYPE_PEER_HELLO, [], Sending);
    HonestHelloAccepted(x, End(Receiving, None), x.b, x.bCfg, MSG_TYPE_PEER_HELLO_ACK, [], Success);
    var events := [SendHello([]), ReceiveHello, SendAck([]), ReceiveAck];
    var s1 := Apply(x, Start(), SendHello([]));
    var s2 := Apply(x, s1, ReceiveHello);
    var s3 := Apply(x, s2, SendAck([]));
    s := Apply(x, s3, ReceiveAck);
    assert events[1..] == [ReceiveHello, SendAck([]), ReceiveAck] && events[1..][1..] == [SendAck([]), ReceiveAck];
    assert [SendAck([]), ReceiveAck][1..] == [ReceiveAck] && [ReceiveAck][1..] == [];
    assert Legal(x, s, []) && Run(x, s, []) == s;
    assert Legal(x, s3, [ReceiveAck]) && Run(x, s3, [ReceiveAck]) == s;
    assert Legal(x, s2, [SendAck([]), ReceiveAck]) && Run(x, s2, [SendAck([]), ReceiveAck]) == s;
    assert Legal(x, s1, events[1..]) && Run(x, s1, events[1..]) == s;
    assert Legal(x, Start(), events) && Run(x, Start(), events) == s;
  }

  /** Without timeouts neither end fails, some step is enabled until both have succeeded, and five steps suffice. */
  lemma CompletesWithoutTimeouts(x: Setup, events: seq<Event>)
    requires HonestSetup(x) && Legal(x, Start(), events) && NoTimeout(events)
    ensures var s := Run(x, Start(), events);
            && s.initiator.pc != Failed && s.responder.pc != Failed
            && ((s.initiator.pc == Success && s.responder.pc == Success)
                || exists ev: Event :: Enabled(s, ev) && !ev.InitiatorTimeout? && !ev.ResponderTimeout?)
            && |events| <= 5
  {
    InStepRun(x, Start(), events);
    StepsLeft(x, Start(), events);
    var s := Run(x, Start(), events);
    if s.initiator.pc == Sending {
      assert Enabled(s, SendHello([]));
    } else if s.responder.pc == Receiving {
      assert Enabled(s, ReceiveHello);
    } else if s.responder.pc == Sending {
      assert Enabled(s, SendAck([]));
    } else if s.responder.pc == Written {
      assert Enabled(s, ResponderReturns);
    } else if s.initiator.pc == Receiving {
      assert Enabled(s, ReceiveAck);
    }
  }

  function Remaining(s: Pair): (n: nat) {
    (if s.initiator.pc == Sending then 2 else if s.initiator.pc == Receiving then 1 else 0)
    + (if s.responder.pc == Receiving then 3 else if s.responder.pc == Sending then 2
       else if s.responder.pc == Written then 1 else 0)
  }

  /** Every step takes one end one stage further. */
  lemma {:induction false} StepsLeft(x: Setup, s: Pair, events: seq<Event>)
    requires HonestSetup(x) && InStep(x, s) && Legal(x, s, events)
    ensures |events| <= Remaining(s)
    decreases |events|
  {
    if events != [] {
      InStepStep(x, s, events[0]);
      StageAdvances(x, s, events[0]);
      StepsLeft(x, Apply(x, s, events[0]), events[1..]);
    }
  }

  lemma StageAdvances(x: Setup, s: Pair, ev: Event)
    requires HonestSetup(x) && InStep(x, s) && Enabled(s, ev)
    ensures Remaining(Apply(x, s, ev)) < Remaining(s)
  {
    hide IdealSuite, Honest, HelloEnvelope;
  }
}
