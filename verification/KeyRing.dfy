/** Public keys of other nodes with the trust they were learned at (internal/gossip/keyring.go). */
module KeyRings {
  import opened Options
  import opened Crypto

  datatype Trust = DirectlyVerified | GossipLearned
  {
    /** The numeric level: a smaller number is a stronger trust. */
    function Level(): nat {
      match this
      case DirectlyVerified => 0
      case GossipLearned => 1
    }
  }

  datatype KeyEntry = KeyEntry(pubKey: Key, trust: Trust)

  type Ring = map<Id, KeyEntry>

  function Added(ring: Ring, id: Id, key: Key, trust: Trust): (r: Ring) {
    if id in ring && trust.Level() >= ring[id].trust.Level() then ring else ring[id := KeyEntry(key, trust)]
  }

  /** Every key in the ring is a public key hashing to the id it is filed under. */
  ghost predicate Bound(c: Primitives, ring: Ring) {
    forall id :: id in ring ==> BoundTo(c, ring[id].pubKey, id)
  }

  class KeyRing {
    var keys: Ring

    constructor ()
      ensures keys == map[]
    {
      keys := map[];
    }

    method Add(id: Id, key: Key, trust: Trust)
      modifies this
      ensures keys == Added(old(keys), id, key, trust)
    {
      if id in keys && trust.Level() >= keys[id].trust.Level() {
        return;
      }
      keys := keys[id := KeyEntry(key, trust)];
    }

    method Lookup(id: Id) returns (entry: Option<KeyEntry>)
      ensures entry == if id in keys then Some(keys[id]) else None
    {
      entry := if id in keys then Some(keys[id]) else None;
    }

    method Remove(id: Id)
      modifies this
      ensures keys == old(keys) - {id}
    {
      keys := keys - {id};
    }
  }

  // ---------- the ring as a function of what was offered ----------

  datatype Offer = Offer(id: Id, key: Key, trust: Trust)

  function AddAll(ring: Ring, offers: seq<Offer>): (r: Ring)
    decreases |offers|
  {
    if offers == [] then ring
    else var o := offers[0]; AddAll(Added(ring, o.id, o.key, o.trust), offers[1..])
  }

  ghost predicate BoundOffers(c: Primitives, offers: seq<Offer>) {
    forall i :: 0 <= i < |offers| ==> BoundTo(c, offers[i].key, offers[i].id)
  }

  ghost predicate Offered(ring: Ring, offers: seq<Offer>, id: Id) {
    id in ring || exists i :: 0 <= i < |offers| && offers[i].id == id
  }

  /** `id` was offered at the strongest trust, or already held at it. */
  ghost predicate OfferedDirectly(ring: Ring, offers: seq<Offer>, id: Id) {
    (id in ring && ring[id].trust == DirectlyVerified)
    || exists i :: 0 <= i < |offers| && offers[i].id == id && offers[i].trust == DirectlyVerified
  }

  lemma OfferedUnfolds(ring: Ring, offers: seq<Offer>, id: Id)
    requires offers != []
    ensures var next := Added(ring, offers[0].id, offers[0].key, offers[0].trust);
            && (Offered(next, offers[1..], id) <==> Offered(ring, offers, id))
            && (OfferedDirectly(next, offers[1..], id) <==> OfferedDirectly(ring, offers, id))
  {
    var rest := offers[1..];
    assert forall i :: 0 <= i < |rest| ==> rest[i] == offers[i + 1];
    if i :| 0 < i < |offers| && offers[i].id == id {
      assert rest[i - 1] == offers[i];
    }
    if i :| 0 < i < |offers| && offers[i].id == id && offers[i].trust == DirectlyVerified {
      assert rest[i - 1] == offers[i];
    }
  }

  /**
   What the ring holds after any sequence of bound offers: exactly the ids offered, each at the strongest
   trust ever offered for it, under a key bound to it. Nothing here depends on the order.
   */
  lemma {:induction false} RingOfOffers(c: Primitives, ring: Ring, offers: seq<Offer>)
    requires Bound(c, ring) && BoundOffers(c, offers)
    ensures Bound(c, AddAll(ring, offers))
    ensures forall id :: id in AddAll(ring, offers) <==> Offered(ring, offers, id)
    ensures forall id :: id in AddAll(ring, offers) ==>
              (AddAll(ring, offers)[id].trust == DirectlyVerified <==> OfferedDirectly(ring, offers, id))
    decreases |offers|
  {
    if offers == [] {
    } else {
      var o := offers[0];
      var next := Added(ring, o.id, o.key, o.trust);
      RingOfOffers(c, next, offers[1..]);
      forall id ensures (Offered(next, offers[1..], id) <==> Offered(ring, offers, id))
                 && (OfferedDirectly(next, offers[1..], id) <==> OfferedDirectly(ring, offers, id)) {
        OfferedUnfolds(ring, offers, id);
      }
    }
  }

  ghost predicate SameOffers(a: seq<Offer>, b: seq<Offer>) {
    forall o :: o in a <==> o in b
  }

  /** Bound offers reach the same ring in every order and with any repetition. */
  lemma RingIndependentOfOrder(c: Primitives, ring: Ring, a: seq<Offer>, b: seq<Offer>)
    requires Injective(c.sha256)
    requires Bound(c, ring) && BoundOffers(c, a) && BoundOffers(c, b) && SameOffers(a, b)
    ensures AddAll(ring, a) == AddAll(ring, b)
  {
    RingOfOffers(c, ring, a);
    RingOfOffers(c, ring, b);
    var ra, rb := AddAll(ring, a), AddAll(ring, b);
    forall id ensures (id in ra <==> id in rb) && (id in ra ==> ra[id] == rb[id]) {
      SameOffersOfferTheSame(ring, a, b, id);
      if id in ra && id in rb {
        NodeIdDeterminesKey(c, ra[id].pubKey, rb[id].pubKey);
      }
    }
    assert ra.Keys == rb.Keys;
  }

  lemma SameOffersOfferTheSame(ring: Ring, a: seq<Offer>, b: seq<Offer>, id: Id)
    requires SameOffers(a, b)
    ensures Offered(ring, a, id) <==> Offered(ring, b, id)
    ensures OfferedDirectly(ring, a, id) <==> OfferedDirectly(ring, b, id)
  {
    assert forall i :: 0 <= i < |a| ==> a[i] in b;
    assert forall i :: 0 <= i < |b| ==> b[i] in a;
  }

  /** Without key binding the order matters: of two keys offered at one trust, the first stays. */
  lemma UnboundOffersDependOnOrder(id: Id, k1: Key, k2: Key, t: Trust)
    requires k1 != k2
    ensures AddAll(map[], [Offer(id, k1, t), Offer(id, k2, t)]) != AddAll(map[], [Offer(id, k2, t), Offer(id, k1, t)])
  {
    var a, b := Offer(id, k1, t), Offer(id, k2, t);
    FirstOfTwoStays(a, b);
    FirstOfTwoStays(b, a);
  }

  lemma FirstOfTwoStays(a: Offer, b: Offer)
    requires a.id == b.id && a.trust == b.trust
    ensures AddAll(map[], [a, b]) == map[a.id := KeyEntry(a.key, a.trust)]
  {
    var r := Added(map[], a.id, a.key, a.trust);
    assert [a, b][1..] == [b] && [b][1..] == [];
    assert AddAll(r, [b]) == AddAll(r, []);
  }
}
