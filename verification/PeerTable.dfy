/** The table of known peers: merging, loading and sharing it (internal/transport/discovery.go). */
module PeerTables {
  import opened Options
  import opened ByteStrings
  import opened Crypto
  import opened KeyRings

  const MAX_INT64: int := 0x7FFF_FFFF_FFFF_FFFF
  type int64 = x: int | -MAX_INT64 - 1 <= x <= MAX_INT64

  /** A known peer; the key is kept as hexadecimal text, empty if unknown. */
  datatype PeerRecord = PeerRecord(
    nodeId: Id,
    addr: Bytes,
    reachable: bool,
    publicKey: Bytes,
    lastSeen: int64,
    failCount: int,
    lastFail: int64)

  /** A peer as an exchange message describes it. */
  datatype PeerInfo = PeerInfo(nodeId: Id, addr: Bytes, reachable: bool, pubkey: Key, lastSeen: uint64)

  /** This node's id and its notion of an address it can dial. */
  datatype Site = Site(c: Primitives, self: Id, dialable: Bytes -> bool)

  type Table = map<Id, PeerRecord>

  // ---------- merging ----------

  function SafeLastSeen(ts: uint64): (t: int64) {
    if ts > MAX_INT64 then MAX_INT64 else ts
  }

  /** Go's conversion of a signed to an unsigned 64-bit integer. */
  function ToUint64(t: int64): (ts: uint64) {
    if t >= 0 then t else t + 0x1_0000_0000_0000_0000
  }

  /** A timestamp survives the exchange if and only if it is not negative. */
  lemma LastSeenRoundTrip(t: int64)
    ensures SafeLastSeen(ToUint64(t)) == t <==> t >= 0
  {
  }

  predicate HasAddress(site: Site, addr: Bytes) {
    addr != [] && site.dialable(addr)
  }

  /** What an offered entry must satisfy to be merged. */
  predicate Acceptable(site: Site, info: PeerInfo) {
    && info.nodeId != site.self
    && info.reachable && HasAddress(site, info.addr)
    && BoundTo(site.c, info.pubkey, info.nodeId)
  }

  function Validated(site: Site, infos: seq<PeerInfo>): (r: seq<PeerInfo>) {
    if infos == [] then []
    else
      Validated(site, infos[..|infos| - 1])
      + if Acceptable(site, infos[|infos| - 1]) then [infos[|infos| - 1]] else []
  }

  function OfferOf(info: PeerInfo): (o: Offer) {
    Offer(info.nodeId, info.pubkey, GossipLearned)
  }

  function RingAfter(ring: Ring, infos: seq<PeerInfo>): (r: Ring)
    decreases |infos|
  {
    if infos == [] then ring
    else
      var o := OfferOf(infos[|infos| - 1]);
      Added(RingAfter(ring, infos[..|infos| - 1]), o.id, o.key, o.trust)
  }

  function NewRecord(info: PeerInfo): (r: PeerRecord) {
    PeerRecord(info.nodeId, info.addr, info.reachable, HexEncode(info.pubkey), SafeLastSeen(info.lastSeen), 0, 0)
  }

  /** A newer sighting replaces address, reachability, key and time, and keeps the dial failures. */
  function Refreshed(r: PeerRecord, info: PeerInfo): (r': PeerRecord) {
    r.(addr := info.addr, reachable := info.reachable, publicKey := HexEncode(info.pubkey),
       lastSeen := SafeLastSeen(info.lastSeen))
  }

  predicate Updates(table: Table, info: PeerInfo) {
    info.nodeId !in table || SafeLastSeen(info.lastSeen) > table[info.nodeId].lastSeen
  }

  function MergeOne(table: Table, info: PeerInfo): (r: Table) {
    if !Updates(table, info) then table
    else table[info.nodeId := if info.nodeId in table then Refreshed(table[info.nodeId], info) else NewRecord(info)]
  }

  function MergeAll(table: Table, infos: seq<PeerInfo>): (r: Table)
    decreases |infos|
  {
    if infos == [] then table else MergeOne(MergeAll(table, infos[..|infos| - 1]), infos[|infos| - 1])
  }

  /** The records a merge hands to the store, in order. */
  function Persisted(table: Table, infos: seq<PeerInfo>): (r: seq<PeerRecord>)
    decreases |infos|
  {
    if infos == [] then []
    else
      var init, info := infos[..|infos| - 1], infos[|infos| - 1];
      var before := MergeAll(table, init);
      Persisted(table, init) + if Updates(before, info) then [MergeOne(before, info)[info.nodeId]] else []
  }

  // ---------- loading ----------

  predicate KeyTextBound(c: Primitives, text: Bytes, id: Id) {
    match HexDecode(text)
    case Some(key) => BoundTo(c, key, id)
    case None => false
  }

  /** What a stored record must satisfy to be loaded; a record that does not decode is None. */
  predicate Loadable(site: Site, stored: Option<PeerRecord>) {
    && stored.Some? && stored.value.nodeId != []
    && (stored.value.addr != [] ==> site.dialable(stored.value.addr))
    && (stored.value.publicKey != [] ==> KeyTextBound(site.c, stored.value.publicKey, stored.value.nodeId))
  }

  function LoadAll(site: Site, table: Table, snapshot: seq<Option<PeerRecord>>): (r: Table)
    decreases |snapshot|
  {
    if snapshot == [] then table
    else
      var before, stored := LoadAll(site, table, snapshot[..|snapshot| - 1]), snapshot[|snapshot| - 1];
      if Loadable(site, stored) then before[stored.value.nodeId := stored.value] else before
  }

  // ---------- connecting and failing to ----------

  /** A completed hello overwrites what was known of the peer and clears its failures. */
  function Connected(table: Table, id: Id, key: Key, addr: Bytes, reachable: bool, now: int64): (r: Table) {
    table[id := PeerRecord(id, addr, reachable, HexEncode(key), now, 0, 0)]
  }

  function DialFailed(table: Table, id: Id, now: int64): (r: Table) {
    if id in table then table[id := table[id].(failCount := table[id].failCount + 1, lastFail := now)] else table
  }

  // ---------- sharing ----------

  /** The known peers worth telling another node about. */
  predicate Shareable(site: Site, exclude: Id, r: PeerRecord) {
    && r.nodeId != exclude && r.nodeId != site.self
    && r.reachable && HasAddress(site, r.addr)
    && r.publicKey != [] && HexDecode(r.publicKey).Some? && |HexDecode(r.publicKey).value| == PUBLIC_KEY_SIZE
  }

  function InfoOf(r: PeerRecord): (info: PeerInfo)
    requires HexDecode(r.publicKey).Some?
  {
    PeerInfo(r.nodeId, r.addr, r.reachable, HexDecode(r.publicKey).value, ToUint64(r.lastSeen))
  }

  /** Records are filed under their own id, and a key that is present belongs to that id. */
  ghost predicate KeyBound(c: Primitives, table: Table) {
    forall n :: n in table ==>
      table[n].nodeId == n && (table[n].publicKey != [] ==> KeyTextBound(c, table[n].publicKey, n))
  }

  /** Some entry from position `from` on is about `n`. */
  ghost predicate Lists(infos: seq<PeerInfo>, from: nat, n: Id) {
    exists i :: from <= i < |infos| && infos[i].nodeId == n
  }

  lemma ListsMore(infos: seq<PeerInfo>, from: nat, info: PeerInfo)
    requires from <= |infos|
    ensures forall n :: Lists(infos + [info], from, n) <==> Lists(infos, from, n) || n == info.nodeId
  {
    var more := infos + [info];
    assert more[|infos|] == info;
    forall n | Lists(infos, from, n) ensures Lists(more, from, n) {
      var i :| from <= i < |infos| && infos[i].nodeId == n;
      assert more[i].nodeId == n;
    }
  }

  class PeerTable {
    const site: Site
    const ring: KeyRing
    var known: Table

    ghost predicate Valid()
      reads this
    {
      KeyBound(site.c, known)
    }

    /** From position `from` on: entries for distinct nodes among `nodes`, each as its shareable record has it. */
    ghost predicate Shared(infos: seq<PeerInfo>, from: nat, exclude: Id, nodes: set<Id>)
      reads this
    {
      && from <= |infos|
      && (forall i, j :: from <= i < j < |infos| ==> infos[i].nodeId != infos[j].nodeId)
      && (forall i :: from <= i < |infos| ==> SharedEntry(infos[i], exclude, nodes))
    }

    ghost predicate SharedEntry(info: PeerInfo, exclude: Id, nodes: set<Id>)
      reads this
    {
      var n := info.nodeId;
      n in nodes && n in known && Shareable(site, exclude, known[n]) && info == InfoOf(known[n])
    }

    constructor (site: Site, ring: KeyRing)
      ensures Valid() && known == map[] && this.site == site && this.ring == ring
    {
      this.site, this.ring := site, ring;
      known := map[];
    }

    /** The filter runs outside the lock; what passes is offered to the keyring as gossip-learned. */
    method FilterInfos(infos: seq<PeerInfo>) returns (valid: seq<PeerInfo>)
      modifies ring
      ensures valid == Validated(site, infos)
      ensures ring.keys == RingAfter(old(ring.keys), valid)
    {
      valid := [];
      for i := 0 to |infos|
        invariant valid == Validated(site, infos[..i])
        invariant ring.keys == RingAfter(old(ring.keys), valid)
      {
        assert infos[..i + 1][..i] == infos[..i];
        var info := infos[i];
        if info.nodeId == site.self {
          continue;
        }
        if !info.reachable || info.addr == [] || !site.dialable(info.addr) {
          continue;
        }
        if |info.pubkey| != PUBLIC_KEY_SIZE {
          continue;
        }
        if info.nodeId != NodeIdOf(site.c, info.pubkey) {
          continue;
        }
        ring.Add(info.nodeId, info.pubkey, GossipLearned);
        assert (valid + [info])[..|valid|] == valid;
        valid := valid + [info];
      }
      assert infos[..|infos|] == infos;
    }

    /** The lock is held only while the updates are applied; the changed records are persisted afterwards. */
    method MergeDiscoveredPeers(infos: seq<PeerInfo>) returns (toPersist: seq<PeerRecord>)
      modifies this`known, ring
      ensures known == MergeAll(old(known), Validated(site, infos))
      ensures ring.keys == RingAfter(old(ring.keys), Validated(site, infos))
      ensures toPersist == Persisted(old(known), Validated(site, infos))
    {
      hide Validated, RingAfter;
      var valid := FilterInfos(infos);
      toPersist := [];
      for i := 0 to |valid|
        invariant known == MergeAll(old(known), valid[..i])
        invariant toPersist == Persisted(old(known), valid[..i])
        invariant ring.keys == RingAfter(old(ring.keys), valid)
      {
        assert valid[..i + 1][..i] == valid[..i];
        var v := valid[i];
        if v.nodeId in known {
          var existing := known[v.nodeId];
          if SafeLastSeen(v.lastSeen) > existing.lastSeen {
            existing := existing.(addr := v.addr, reachable := v.reachable, publicKey := HexEncode(v.pubkey),
                                  lastSeen := SafeLastSeen(v.lastSeen));
            known := known[v.nodeId := existing];
            toPersist := toPersist + [existing];
          }
        } else {
          var rec := PeerRecord(v.nodeId, v.addr, v.reachable, HexEncode(v.pubkey), SafeLastSeen(v.lastSeen), 0, 0);
          known := known[v.nodeId := rec];
          toPersist := toPersist + [rec];
        }
      }
      assert valid[..|valid|] == valid;
    }

    method LoadKnownPeers(snapshot: seq<Option<PeerRecord>>)
      modifies this`known
      ensures known == LoadAll(site, old(known), snapshot)
    {
      for i := 0 to |snapshot|
        invariant known == LoadAll(site, old(known), snapshot[..i])
      {
        assert snapshot[..i + 1][..i] == snapshot[..i];
        if snapshot[i].None? {
          continue;
        }
        var rec := snapshot[i].value;
        if rec.nodeId == [] {
          continue;
        }
        if rec.addr != [] && !site.dialable(rec.addr) {
          continue;
        }
        if rec.publicKey != [] {
          var key := HexDecode(rec.publicKey);
          if key.None? || |key.value| != PUBLIC_KEY_SIZE {
            continue;
          }
          if NodeIdOf(site.c, key.value) != rec.nodeId {
            continue;
          }
        }
        known := known[rec.nodeId := rec];
      }
      assert snapshot[..|snapshot|] == snapshot;
    }

    method OnPeerConnected(id: Id, key: Key, addr: Bytes, reachable: bool, now: int64)
      modifies this`known, ring
      ensures ring.keys == Added(old(ring.keys), id, key, DirectlyVerified)
      ensures known.Keys == old(known).Keys + {id}
      ensures forall n :: n in known && n != id ==> known[n] == old(known)[n]
      ensures known[id].addr == addr && known[id].reachable == reachable && known[id].publicKey == HexEncode(key)
      ensures known[id].lastSeen == now && known[id].failCount == 0 && known[id].lastFail == 0
      ensures old(Valid()) ==> known == Connected(old(known), id, key, addr, reachable, now)
    {
      ring.Add(id, key, DirectlyVerified);
      var rec := if id in known then known[id] else PeerRecord(id, [], false, [], 0, 0, 0);
      rec := rec.(addr := addr, reachable := reachable, publicKey := HexEncode(key), lastSeen := now,
                  failCount := 0, lastFail := 0);
      known := known[id := rec];
    }

    /** Counts a failed dial, if the peer is still known, and returns the record to persist. */
    method NoteDialFailure(id: Id, now: int64) returns (snapshot: Option<PeerRecord>)
      modifies this`known
      ensures known == DialFailed(old(known), id, now)
      ensures snapshot == if id in known then Some(known[id]) else None
    {
      if id !in known {
        return None;
      }
      var rec := known[id];
      rec := rec.(failCount := rec.failCount + 1, lastFail := now);
      known := known[id := rec];
      return Some(rec);
    }

    /**
     The list for one peer: this node itself when it has an address to advertise, then every shareable record
     once, in the arbitrary order of a map iteration.
     */
    method BuildPeerInfoList(exclude: Id, selfAddr: Bytes, selfKey: Key, now: int64) returns (infos: seq<PeerInfo>)
      requires Valid()
      ensures var own := if selfAddr != [] then [PeerInfo(site.self, selfAddr, true, selfKey, ToUint64(now))] else [];
              && own <= infos && Shared(infos, |own|, exclude, known.Keys)
              && (forall n :: n in known && Shareable(site, exclude, known[n]) ==> Lists(infos, |own|, n))
    {
      infos := [];
      if selfAddr != [] {
        infos := [PeerInfo(site.self, selfAddr, true, selfKey, ToUint64(now))];
      }
      ghost var own := infos;
      var unvisited := known.Keys;
      while unvisited != {}
        invariant own <= infos && unvisited <= known.Keys
        invariant Shared(infos, |own|, exclude, known.Keys - unvisited)
        invariant forall n :: n in known && n !in unvisited && Shareable(site, exclude, known[n]) ==>
                  Lists(infos, |own|, n)
        decreases unvisited
      {
        var n :| n in unvisited;
        unvisited := unvisited - {n};
        var info := EntryFor(known[n], exclude);
        if info.None? {
          continue;
        }
        ListsMore(infos, |own|, info.value);
        infos := infos + [info.value];
      }
    }

    /** The entry for one record, if it is shareable. */
    method EntryFor(rec: PeerRecord, exclude: Id) returns (info: Option<PeerInfo>)
      ensures info.Some? <==> Shareable(site, exclude, rec)
      ensures info.Some? ==> info.value == InfoOf(rec)
    {
      if rec.nodeId == exclude || rec.nodeId == site.self {
        return None;
      }
      if !rec.reachable || rec.addr == [] || !site.dialable(rec.addr) {
        return None;
      }
      if rec.publicKey == [] {
        return None;
      }
      var key := HexDecode(rec.publicKey);
      if key.None? || |key.value| != PUBLIC_KEY_SIZE {
        return None;
      }
      info := Some(PeerInfo(rec.nodeId, rec.addr, rec.reachable, key.value, ToUint64(rec.lastSeen)));
    }
  }
}
