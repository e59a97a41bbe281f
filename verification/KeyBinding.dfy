/**
 Key binding over whole runs: whatever order self-registration, hellos, exchanges, auto-learning, loading and failed
 dials come in, every key held is a public key hashing to the id it is held for.
 */
module KeyBinding {
  import opened Options
  import opened ByteStrings
  import opened Crypto
  import opened Envelopes
  import opened KeyRings
  import opened PeerTables
  import PeerMerge
  import Gossip
  import Hello

  datatype Keys = Keys(ring: Ring, known: Table)

  /** The node and its encoding of hellos and conversion of keys to Noise static keys. */
  datatype Local = Local(site: Site, suite: Hello.Suite)
  {
    ghost predicate Valid() {
      suite.c == site.c
    }
  }

  /** A `Greeting` is whatever envelope arrived as a hello, on a connection whose handshake saw `peerStatic`. */
  datatype Event =
    | RegisterSelf(key: Key)
    | Greeting(env: Envelope, expectedType: uint32, peerStatic: Bytes, now: int64)
    | Exchange(infos: seq<PeerInfo>)
    | AutoLearn(env: Envelope)
    | Load(snapshot: seq<Option<PeerRecord>>)
    | FailedDial(id: Id, now: int64)

  /** The node registers the key of its own identity, whose id is the hash of its key. */
  predicate Enabled(l: Local, ev: Event) {
    ev.RegisterSelf? ==> BoundTo(l.site.c, ev.key, l.site.self)
  }

  /** The hello in an envelope, if it is accepted. */
  function Accepted(l: Local, env: Envelope, expectedType: uint32, peerStatic: Bytes): (h: Option<Hello.PeerHello>) {
    match Hello.ReceivedHello(l.suite, env, expectedType)
    case None => None
    case Some(hello) => if Hello.IdentityMatches(l.suite, hello, peerStatic) then Some(hello) else None
  }

  /** The receiving and identity checks of the hello bind the key that is recorded. */
  lemma AcceptedIsBound(l: Local, env: Envelope, expectedType: uint32, peerStatic: Bytes)
    requires l.Valid()
    ensures var h := Accepted(l, env, expectedType, peerStatic);
            h.Some? ==> BoundTo(l.site.c, h.value.pubkey, h.value.nodeId)
  {
    if Accepted(l, env, expectedType, peerStatic).Some? {
      Hello.AcceptedHelloIsAuthentic(l.suite, env, expectedType, peerStatic);
    }
  }

  function Apply(l: Local, k: Keys, ev: Event): (r: Keys) {
    match ev
    case RegisterSelf(key) => k.(ring := Added(k.ring, l.site.self, key, DirectlyVerified))
    case Greeting(env, expectedType, peerStatic, now) =>
      (match Accepted(l, env, expectedType, peerStatic)
       case None => k
       case Some(h) =>
         Keys(Added(k.ring, h.nodeId, h.pubkey, DirectlyVerified),
              Connected(k.known, h.nodeId, h.pubkey, h.listenAddr, h.reachable, now)))
    case Exchange(infos) =>
      Keys(RingAfter(k.ring, Validated(l.site, infos)), MergeAll(k.known, Validated(l.site, infos)))
    case AutoLearn(env) => k.(ring := Gossip.Learned(l.site.c, k.ring, env))
    case Load(snapshot) => k.(known := LoadAll(l.site, k.known, snapshot))
    case FailedDial(id, now) => k.(known := DialFailed(k.known, id, now))
  }

  function Run(l: Local, k: Keys, events: seq<Event>): (r: Keys)
    decreases |events|
  {
    if events == [] then k else Run(l, Apply(l, k, events[0]), events[1..])
  }

  ghost predicate AllBound(site: Site, k: Keys) {
    Bound(site.c, k.ring) && KeyBound(site.c, k.known)
  }

  lemma HexOfBoundKey(c: Primitives, key: Key, id: Id)
    requires BoundTo(c, key, id)
    ensures KeyTextBound(c, HexEncode(key), id)
  {
    HexRoundTrip(key);
  }

  lemma {:induction false} ExchangeKeepsBinding(site: Site, k: Keys, infos: seq<PeerInfo>)
    requires AllBound(site, k) && PeerMerge.AllAcceptable(site, infos)
    ensures AllBound(site, Keys(RingAfter(k.ring, infos), MergeAll(k.known, infos)))
    decreases |infos|
  {
    if infos != [] {
      var init, info := infos[..|infos| - 1], infos[|infos| - 1];
      ExchangeKeepsBinding(site, k, init);
      assert Acceptable(site, info);
      HexOfBoundKey(site.c, info.pubkey, info.nodeId);
    }
  }

  lemma {:induction false} LoadKeepsBinding(site: Site, table: Table, snapshot: seq<Option<PeerRecord>>)
    requires KeyBound(site.c, table)
    ensures KeyBound(site.c, LoadAll(site, table, snapshot))
    decreases |snapshot|
  {
    if snapshot != [] {
      LoadKeepsBinding(site, table, snapshot[..|snapshot| - 1]);
    }
  }

  lemma BindingStep(l: Local, k: Keys, ev: Event)
    requires l.Valid() && AllBound(l.site, k) && Enabled(l, ev)
    ensures AllBound(l.site, Apply(l, k, ev))
  {
    match ev
    case Greeting(env, expectedType, peerStatic, _) =>
      AcceptedIsBound(l, env, expectedType, peerStatic);
      var h := Accepted(l, env, expectedType, peerStatic);
      if h.Some? {
        HexOfBoundKey(l.site.c, h.value.pubkey, h.value.nodeId);
      }
    case Exchange(infos) =>
      PeerMerge.ValidatedIsAcceptable(l.site, infos);
      ExchangeKeepsBinding(l.site, k, Validated(l.site, infos));
    case Load(snapshot) => LoadKeepsBinding(l.site, k.known, snapshot);
    case _ =>
  }

  /** From empty tables, every key ever held, in the keyring or in a known-peer record, is bound to its id. */
  lemma {:induction false} AlwaysBound(l: Local, events: seq<Event>)
    requires l.Valid()
    requires forall i :: 0 <= i < |events| ==> Enabled(l, events[i])
    ensures AllBound(l.site, Run(l, Keys(map[], map[]), events))
  {
    AlwaysBoundFrom(l, Keys(map[], map[]), events);
  }

  lemma {:induction false} AlwaysBoundFrom(l: Local, k: Keys, events: seq<Event>)
    requires l.Valid() && AllBound(l.site, k) && forall i :: 0 <= i < |events| ==> Enabled(l, events[i])
    ensures AllBound(l.site, Run(l, k, events))
    decreases |events|
  {
    if events != [] {
      assert Enabled(l, events[0]);
      BindingStep(l, k, events[0]);
      AlwaysBoundFrom(l, Apply(l, k, events[0]), events[1..]);
    }
  }

  // ---------- the keyring is independent of the order ----------

  function OffersOf(infos: seq<PeerInfo>): (offers: seq<Offer>)
    decreases |infos|
  {
    if infos == [] then [] else OffersOf(infos[..|infos| - 1]) + [OfferOf(infos[|infos| - 1])]
  }

  /** What one event offers the keyring. */
  function Offered(l: Local, ev: Event): (offers: seq<Offer>) {
    match ev
    case RegisterSelf(key) => [Offer(l.site.self, key, DirectlyVerified)]
    case Greeting(env, expectedType, peerStatic, _) =>
      (match Accepted(l, env, expectedType, peerStatic)
       case None => []
       case Some(h) => [Offer(h.nodeId, h.pubkey, DirectlyVerified)])
    case Exchange(infos) => OffersOf(Validated(l.site, infos))
    case AutoLearn(env) =>
      if BoundTo(l.site.c, env.senderPubkey, env.senderId)
      then [Offer(env.senderId, env.senderPubkey, GossipLearned)] else []
    case Load(_) => []
    case FailedDial(_, _) => []
  }

  function AllOffered(l: Local, events: seq<Event>): (offers: seq<Offer>)
    decreases |events|
  {
    if events == [] then [] else Offered(l, events[0]) + AllOffered(l, events[1..])
  }

  lemma {:induction false} AddAllSplits(ring: Ring, a: seq<Offer>, b: seq<Offer>)
    ensures AddAll(ring, a + b) == AddAll(AddAll(ring, a), b)
    decreases |a|
  {
    if a == [] {
      assert a + b == b;
    } else {
      assert (a + b)[1..] == a[1..] + b;
      AddAllSplits(Added(ring, a[0].id, a[0].key, a[0].trust), a[1..], b);
    }
  }

  lemma AddOne(ring: Ring, o: Offer)
    ensures AddAll(ring, [o]) == Added(ring, o.id, o.key, o.trust)
  {
    assert [o][1..] == [];
  }

  lemma {:induction false} RingAfterAddsOffers(ring: Ring, infos: seq<PeerInfo>)
    ensures RingAfter(ring, infos) == AddAll(ring, OffersOf(infos))
    decreases |infos|
  {
    if infos != [] {
      var init, o := infos[..|infos| - 1], OfferOf(infos[|infos| - 1]);
      RingAfterAddsOffers(ring, init);
      AddAllSplits(ring, OffersOf(init), [o]);
      AddOne(RingAfter(ring, init), o);
    }
  }

  lemma StepAddsOffers(l: Local, k: Keys, ev: Event)
    ensures Apply(l, k, ev).ring == AddAll(k.ring, Offered(l, ev))
  {
    match ev
    case RegisterSelf(key) => AddOne(k.ring, Offer(l.site.self, key, DirectlyVerified));
    case Greeting(env, expectedType, peerStatic, _) =>
      var h := Accepted(l, env, expectedType, peerStatic);
      if h.Some? {
        AddOne(k.ring, Offer(h.value.nodeId, h.value.pubkey, DirectlyVerified));
      }
    case Exchange(infos) => RingAfterAddsOffers(k.ring, Validated(l.site, infos));
    case AutoLearn(env) => AddOne(k.ring, Offer(env.senderId, env.senderPubkey, GossipLearned));
    case _ =>
  }

  lemma {:induction false} RunAddsOffers(l: Local, k: Keys, events: seq<Event>)
    ensures Run(l, k, events).ring == AddAll(k.ring, AllOffered(l, events))
    decreases |events|
  {
    if events != [] {
      var next := Apply(l, k, events[0]);
      StepAddsOffers(l, k, events[0]);
      RunAddsOffers(l, next, events[1..]);
      AddAllSplits(k.ring, Offered(l, events[0]), AllOffered(l, events[1..]));
    }
  }

  lemma {:induction false} OffersAreBound(l: Local, events: seq<Event>)
    requires l.Valid()
    requires forall i :: 0 <= i < |events| ==> Enabled(l, events[i])
    ensures BoundOffers(l.site.c, AllOffered(l, events))
    decreases |events|
  {
    if events != [] {
      assert Enabled(l, events[0]);
      if events[0].Greeting? {
        AcceptedIsBound(l, events[0].env, events[0].expectedType, events[0].peerStatic);
      }
      if events[0].Exchange? {
        PeerMerge.ValidatedIsAcceptable(l.site, events[0].infos);
        OffersOfAcceptable(l.site, Validated(l.site, events[0].infos));
      }
      OffersAreBound(l, events[1..]);
    }
  }

  lemma {:induction false} OffersOfAcceptable(site: Site, infos: seq<PeerInfo>)
    requires PeerMerge.AllAcceptable(site, infos)
    ensures BoundOffers(site.c, OffersOf(infos))
    decreases |infos|
  {
    if infos != [] {
      OffersOfAcceptable(site, infos[..|infos| - 1]);
      assert Acceptable(site, infos[|infos| - 1]);
    }
  }

  /**
   Two runs that offer the keyring the same keys at the same trusts, in any order, through any writers and any
   number of times, end with the same keyring.
   */
  lemma KeyringIndependentOfOrder(l: Local, a: seq<Event>, b: seq<Event>)
    requires l.Valid() && Injective(l.site.c.sha256)
    requires forall i :: 0 <= i < |a| ==> Enabled(l, a[i])
    requires forall i :: 0 <= i < |b| ==> Enabled(l, b[i])
    requires SameOffers(AllOffered(l, a), AllOffered(l, b))
    ensures Run(l, Keys(map[], map[]), a).ring == Run(l, Keys(map[], map[]), b).ring
  {
    RunAddsOffers(l, Keys(map[], map[]), a);
    RunAddsOffers(l, Keys(map[], map[]), b);
    OffersAreBound(l, a);
    OffersAreBound(l, b);
    RingIndependentOfOrder(l.site.c, map[], AllOffered(l, a), AllOffered(l, b));
  }

  // ---------- direct trust ----------

  predicate Direct(ring: Ring, id: Id) {
    id in ring && ring[id].trust == DirectlyVerified
  }

  /** The node itself, or whoever completed a hello. */
  predicate Vouches(l: Local, ev: Event, id: Id) {
    match ev
    case RegisterSelf(_) => id == l.site.self
    case Greeting(env, expectedType, peerStatic, _) =>
      var h := Accepted(l, env, expectedType, peerStatic);
      h.Some? && h.value.nodeId == id
    case _ => false
  }

  lemma {:induction false} ExchangeGivesNoDirectTrust(ring: Ring, infos: seq<PeerInfo>, id: Id)
    ensures Direct(RingAfter(ring, infos), id) <==> Direct(ring, id)
    decreases |infos|
  {
    if infos != [] {
      ExchangeGivesNoDirectTrust(ring, infos[..|infos| - 1], id);
    }
  }

  lemma DirectTrustStep(l: Local, k: Keys, ev: Event, id: Id)
    ensures Direct(Apply(l, k, ev).ring, id) <==> Direct(k.ring, id) || Vouches(l, ev, id)
  {
    hide Accepted, MergeAll, LoadAll, Validated;
    if ev.Exchange? {
      ExchangeGivesNoDirectTrust(k.ring, Validated(l.site, ev.infos), id);
    }
  }

  /** In any run exactly the node itself and whoever completed a hello are directly verified, whatever is gossiped. */
  lemma {:induction false} DirectTrustIsEarned(l: Local, k: Keys, events: seq<Event>, id: Id)
    ensures Direct(Run(l, k, events).ring, id) <==>
              Direct(k.ring, id) || exists i :: 0 <= i < |events| && Vouches(l, events[i], id)
    decreases |events|
  {
    hide Apply, Vouches, Direct;
    if events != [] {
      DirectTrustStep(l, k, events[0], id);
      var rest := events[1..];
      DirectTrustIsEarned(l, Apply(l, k, events[0]), rest, id);
      assert forall i :: 0 <= i < |rest| ==> rest[i] == events[i + 1];
      if i :| 0 <= i < |events| && Vouches(l, events[i], id) {
        assert i > 0 ==> rest[i - 1] == events[i];
      }
    }
  }
}
