/**
 Last-seen-wins merging as an almost-semilattice: what a batch leaves at each node, repetition, order, and the
 round trip of the table through an exchange message (internal/transport/discovery.go).
 */
module PeerMerge {
  import opened Arithmetic
  import opened Options
  import opened ByteStrings
  import opened Crypto
  import opened PeerTables

  ghost predicate AllAcceptable(site: Site, infos: seq<PeerInfo>) {
    forall i :: 0 <= i < |infos| ==> Acceptable(site, infos[i])
  }

  lemma {:induction false} ValidatedIsAcceptable(site: Site, infos: seq<PeerInfo>)
    ensures AllAcceptable(site, Validated(site, infos))
    ensures forall info :: info in Validated(site, infos) <==> info in infos && Acceptable(site, info)
  {
    if infos != [] {
      ValidatedIsAcceptable(site, infos[..|infos| - 1]);
      assert infos == infos[..|infos| - 1] + [infos[|infos| - 1]];
    }
  }

  function Get(table: Table, n: Id): (r: Option<PeerRecord>) {
    if n in table then Some(table[n]) else None
  }

  /** The entry for `n` with the latest time; of several, the first. */
  function Best(infos: seq<PeerInfo>, n: Id): (r: Option<PeerInfo>) {
    if infos == [] then None
    else
      var b, info := Best(infos[..|infos| - 1], n), infos[|infos| - 1];
      if info.nodeId == n && (b.None? || SafeLastSeen(info.lastSeen) > SafeLastSeen(b.value.lastSeen)) then Some(info)
      else b
  }

  /** What one best entry makes of an old record. */
  function Picked(record: Option<PeerRecord>, best: Option<PeerInfo>): (r: Option<PeerRecord>) {
    match (record, best)
    case (_, None) => record
    case (None, Some(b)) => Some(NewRecord(b))
    case (Some(r), Some(b)) => if SafeLastSeen(b.lastSeen) > r.lastSeen then Some(Refreshed(r, b)) else record
  }

  lemma {:induction false} BestIsBest(infos: seq<PeerInfo>, n: Id)
    ensures Best(infos, n).Some? <==> exists i :: 0 <= i < |infos| && infos[i].nodeId == n
    ensures Best(infos, n).Some? ==> Best(infos, n).value in infos && Best(infos, n).value.nodeId == n
    ensures forall i :: 0 <= i < |infos| && infos[i].nodeId == n ==>
              SafeLastSeen(infos[i].lastSeen) <= SafeLastSeen(Best(infos, n).value.lastSeen)
  {
    if infos != [] {
      var init := infos[..|infos| - 1];
      BestIsBest(init, n);
      assert forall i :: 0 <= i < |init| ==> init[i] == infos[i];
      if infos[|infos| - 1].nodeId == n {
      } else if i :| 0 <= i < |infos| && infos[i].nodeId == n {
        assert init[i].nodeId == n;
      }
    }
  }

  /** A batch, repeats of one node included, leaves at each node what its best entry alone would leave. */
  lemma {:induction false} MergeLeavesBest(table: Table, infos: seq<PeerInfo>, n: Id)
    ensures Get(MergeAll(table, infos), n) == Picked(Get(table, n), Best(infos, n))
  {
    if infos != [] {
      BestIsBest(infos[..|infos| - 1], n);
      MergeLeavesBest(table, infos[..|infos| - 1], n);
    }
  }

  /**
   After a merge each node's time is the maximum of the old one and all those offered: it is at least every one
   of them, and it is one of them.
   */
  lemma LastSeenIsMaximum(table: Table, infos: seq<PeerInfo>, n: Id)
    ensures n in MergeAll(table, infos) <==> n in table || exists i :: 0 <= i < |infos| && infos[i].nodeId == n
    ensures var r := MergeAll(table, infos);
            n in r ==>
              && (n in table ==> table[n].lastSeen <= r[n].lastSeen)
              && (forall i :: 0 <= i < |infos| && infos[i].nodeId == n ==>
                    SafeLastSeen(infos[i].lastSeen) <= r[n].lastSeen)
              && ((n in table && r[n].lastSeen == table[n].lastSeen)
                  || exists i :: 0 <= i < |infos| && infos[i].nodeId == n
                       && r[n].lastSeen == SafeLastSeen(infos[i].lastSeen))
  {
    MergeLeavesBest(table, infos, n);
    BestIsBest(infos, n);
  }

  lemma SameGetSameTable(a: Table, b: Table)
    requires forall n :: Get(a, n) == Get(b, n)
    ensures a == b
  {
    forall n ensures n in a <==> n in b {
      assert Get(a, n) == Get(b, n);
    }
    forall n | n in a ensures a[n] == b[n] {
      assert Get(a, n) == Get(b, n);
    }
  }

  lemma {:induction false} NothingNewerPersistsNothing(table: Table, infos: seq<PeerInfo>)
    requires forall i :: 0 <= i < |infos| ==> !Updates(table, infos[i])
    ensures MergeAll(table, infos) == table && Persisted(table, infos) == []
  {
    if infos != [] {
      NothingNewerPersistsNothing(table, infos[..|infos| - 1]);
    }
  }

  /** Merging the same batch again changes nothing and persists nothing. */
  lemma MergeIsIdempotent(table: Table, infos: seq<PeerInfo>)
    ensures MergeAll(MergeAll(table, infos), infos) == MergeAll(table, infos)
    ensures Persisted(MergeAll(table, infos), infos) == []
  {
    var merged := MergeAll(table, infos);
    forall i | 0 <= i < |infos| ensures !Updates(merged, infos[i]) {
      LastSeenIsMaximum(table, infos, infos[i].nodeId);
    }
    NothingNewerPersistsNothing(merged, infos);
  }

  /** Two best entries of the same time, newer than the record, that give different addresses. */
  predicate Tie(record: Option<PeerRecord>, x: Option<PeerInfo>, y: Option<PeerInfo>) {
    && x.Some? && y.Some?
    && SafeLastSeen(x.value.lastSeen) == SafeLastSeen(y.value.lastSeen)
    && (record.Some? ==> SafeLastSeen(x.value.lastSeen) > record.value.lastSeen)
    && x.value.addr != y.value.addr
  }

  predicate Conflict(table: Table, a: seq<PeerInfo>, b: seq<PeerInfo>, n: Id) {
    Tie(Get(table, n), Best(a, n), Best(b, n))
  }

  lemma OrderMattersOnTie(site: Site, record: Option<PeerRecord>, x: Option<PeerInfo>, y: Option<PeerInfo>, n: Id)
    requires Injective(site.c.sha256)
    requires x.Some? ==> x.value.nodeId == n && Acceptable(site, x.value)
    requires y.Some? ==> y.value.nodeId == n && Acceptable(site, y.value)
    ensures Picked(Picked(record, x), y) == Picked(Picked(record, y), x) <==> !Tie(record, x, y)
  {
    if x.Some? && y.Some? {
      NodeIdDeterminesKey(site.c, x.value.pubkey, y.value.pubkey);
    }
  }

  lemma OrderMattersOnConflict(site: Site, table: Table, a: seq<PeerInfo>, b: seq<PeerInfo>, n: Id)
    requires Injective(site.c.sha256) && AllAcceptable(site, a) && AllAcceptable(site, b)
    ensures Get(MergeAll(MergeAll(table, a), b), n) == Get(MergeAll(MergeAll(table, b), a), n)
            <==> !Conflict(table, a, b, n)
  {
    hide Picked, Tie, MergeAll, Get;
    MergeLeavesBest(table, a, n);
    MergeLeavesBest(table, b, n);
    MergeLeavesBest(MergeAll(table, a), b, n);
    MergeLeavesBest(MergeAll(table, b), a, n);
    BestIsBest(a, n);
    BestIsBest(b, n);
    OrderMattersOnTie(site, Get(table, n), Best(a, n), Best(b, n), n);
  }

  /**
   Two validated batches commute if and only if no node has, in both, a latest entry of the same time that is
   newer than the table's record but gives another address.
   */
  lemma MergesCommute(site: Site, table: Table, a: seq<PeerInfo>, b: seq<PeerInfo>)
    requires Injective(site.c.sha256) && AllAcceptable(site, a) && AllAcceptable(site, b)
    ensures MergeAll(MergeAll(table, a), b) == MergeAll(MergeAll(table, b), a)
            <==> forall n :: !Conflict(table, a, b, n)
  {
    var ab, ba := MergeAll(MergeAll(table, a), b), MergeAll(MergeAll(table, b), a);
    forall n ensures Get(ab, n) == Get(ba, n) <==> !Conflict(table, a, b, n) {
      OrderMattersOnConflict(site, table, a, b, n);
    }
    if forall n :: !Conflict(table, a, b, n) {
      SameGetSameTable(ab, ba);
    }
  }

  // ---------- what a merge takes over ----------

  /** An entry about another node, reachable at an address that can be dialed, whose key hashes to its id. */
  predicate Offers(site: Site, info: PeerInfo, n: Id) {
    && info.nodeId == n && n != site.self
    && info.reachable && info.addr != [] && site.dialable(info.addr)
    && |info.pubkey| == 32 && HexEncode(site.c.sha256(info.pubkey)) == n
  }

  /** The record that such an entry leaves, given the one before. */
  ghost predicate TakenFrom(site: Site, infos: seq<PeerInfo>, n: Id, was: Option<PeerRecord>, r: PeerRecord) {
    exists info :: info in infos && Offers(site, info, n)
      && info.addr == r.addr && HexEncode(info.pubkey) == r.publicKey
      && r.lastSeen == Min(info.lastSeen, 0x7FFF_FFFF_FFFF_FFFF)
      && (match was
          case None => r.failCount == 0 && r.lastFail == 0
          case Some(o) => r.failCount == o.failCount && r.lastFail == o.lastFail && r.lastSeen > o.lastSeen)
      && r.nodeId == n && r.reachable
  }

  /**
   Any batch of entries, valid or not: a node is known afterwards exactly if it was or a valid entry offers it; its
   record is the old one or a newer valid entry's, with the failures kept; and no valid entry is newer than it.
   */
  lemma MergedExactly(site: Site, table: Table, infos: seq<PeerInfo>, n: Id)
    requires n in table ==> table[n].nodeId == n
    ensures var r := MergeAll(table, Validated(site, infos));
            && (n in r <==> n in table || exists info :: info in infos && Offers(site, info, n))
            && (n in r ==>
                  && ((n in table && r[n] == table[n]) || TakenFrom(site, infos, n, Get(table, n), r[n]))
                  && forall info :: info in infos && Offers(site, info, n) ==>
                       Min(info.lastSeen, 0x7FFF_FFFF_FFFF_FFFF) <= r[n].lastSeen)
  {
    BestOffer(site, infos, n);
    MergeLeavesBest(table, Validated(site, infos), n);
    hide Validated, MergeAll, Best, HexEncode;
  }

  /** The best valid entry for a node is the latest of those offered. */
  lemma BestOffer(site: Site, infos: seq<PeerInfo>, n: Id)
    ensures var best := Best(Validated(site, infos), n);
            && (best.Some? <==> exists info :: info in infos && Offers(site, info, n))
            && (best.Some? ==> best.value in infos && Offers(site, best.value, n))
            && (forall info :: info in infos && Offers(site, info, n) ==>
                  Min(info.lastSeen, 0x7FFF_FFFF_FFFF_FFFF) <= SafeLastSeen(best.value.lastSeen))
  {
    var valid := Validated(site, infos);
    ValidatedIsAcceptable(site, infos);
    BestIsBest(valid, n);
    forall info ensures info in valid && info.nodeId == n <==> info in infos && Offers(site, info, n) {
    }
    hide Validated, Best, Acceptable, AllAcceptable, Offers;
    forall info | info in infos && Offers(site, info, n)
      ensures Best(valid, n).Some?
      ensures Min(info.lastSeen, 0x7FFF_FFFF_FFFF_FFFF) <= SafeLastSeen(Best(valid, n).value.lastSeen)
    {
      var i :| 0 <= i < |valid| && valid[i] == info;
      assert valid[i].nodeId == n;
    }
  }

  // ---------- the exchange round trip ----------

  /** In a key-bound table every reachable record with an address and a key is shared, but for the two ends' own. */
  lemma SharedExactly(site: Site, exclude: Id, table: Table, n: Id)
    requires KeyBound(site.c, table) && n in table
    ensures var r := table[n];
            Shareable(site, exclude, r) <==>
              && n != exclude && n != site.self
              && r.reachable && r.addr != [] && site.dialable(r.addr) && r.publicKey != []
  {
  }

  /**
   What a node lists for a peer, the peer merges: every entry made from a record of a key-bound table passes the
   peer's filter, and on an empty table it leaves a record with the same address and key.
   */
  lemma SharedEntryIsMerged(site: Site, peer: Site, table: Table, n: Id)
    requires KeyBound(site.c, table) && peer.c == site.c && peer.dialable == site.dialable
    requires n in table && Shareable(site, peer.self, table[n])
    ensures InfoOf(table[n]).nodeId == n && Acceptable(peer, InfoOf(table[n]))
    ensures var got := NewRecord(InfoOf(table[n]));
            && got.nodeId == n && got.addr == table[n].addr && got.reachable
            && HexDecode(got.publicKey) == HexDecode(table[n].publicKey)
            && (got.lastSeen == table[n].lastSeen <==> table[n].lastSeen >= 0)
  {
    HexRoundTrip(HexDecode(table[n].publicKey).value);
    LastSeenRoundTrip(table[n].lastSeen);
  }

  /**
   After merging the list a peer's time is at least the sender's, whatever else it knows or is told; a negative time
   arrives as the largest there is.
   */
  lemma ExchangeCarriesLastSeen(site: Site, peer: Site, table: Table, infos: seq<PeerInfo>, theirs: Table, i: nat)
    requires KeyBound(site.c, table) && peer.c == site.c && peer.dialable == site.dialable
    requires i < |infos| && infos[i].nodeId in table && Shareable(site, peer.self, table[infos[i].nodeId])
    requires infos[i] == InfoOf(table[infos[i].nodeId])
    ensures var n, r := infos[i].nodeId, MergeAll(theirs, Validated(peer, infos));
            n in r && r[n].lastSeen >= (if table[n].lastSeen >= 0 then table[n].lastSeen else MAX_INT64)
  {
    var n := infos[i].nodeId;
    SharedEntryIsMerged(site, peer, table, n);
    ValidatedIsAcceptable(peer, infos);
    var valid := Validated(peer, infos);
    assert infos[i] in valid;
    var k :| 0 <= k < |valid| && valid[k] == infos[i];
    LastSeenIsMaximum(theirs, valid, n);
    LastSeenRoundTrip(table[n].lastSeen);
  }
}
