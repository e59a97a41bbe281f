/** What a restart brings back: the stored records of known peers, loaded (internal/transport/discovery.go). */
module PeerStore {
  import opened Options
  import opened ByteStrings
  import opened Crypto
  import opened PeerTables
  import opened PeerMerge

  /**
   A stored record that decodes, names a node, gives no address or one that can be dialed, and no key or the
   hexadecimal text of a 32-byte key whose hash is that node's id.
   */
  predicate Sane(site: Site, stored: Option<PeerRecord>) {
    match stored
    case None => false
    case Some(r) =>
      && r.nodeId != []
      && (r.addr == [] || site.dialable(r.addr))
      && (r.publicKey == []
          || match HexDecode(r.publicKey)
             case None => false
             case Some(key) => |key| == 32 && HexEncode(site.c.sha256(key)) == r.nodeId)
  }

  /** Entry `i` is a sane record of node `id`. */
  predicate SaneFor(site: Site, snapshot: seq<Option<PeerRecord>>, i: int, id: Id) {
    0 <= i < |snapshot| && Sane(site, snapshot[i]) && snapshot[i].value.nodeId == id
  }

  /** ... and none after it is. */
  ghost predicate LastFor(site: Site, snapshot: seq<Option<PeerRecord>>, i: int, id: Id) {
    SaneFor(site, snapshot, i, id) && forall j :: i < j < |snapshot| ==> !SaneFor(site, snapshot, j, id)
  }

  lemma LoadingOneMore(site: Site, table: Table, snapshot: seq<Option<PeerRecord>>)
    requires snapshot != []
    ensures var last := snapshot[|snapshot| - 1];
            var before := LoadAll(site, table, snapshot[..|snapshot| - 1]);
            LoadAll(site, table, snapshot)
            == if Sane(site, last) then before[last.value.nodeId := last.value] else before
  {
  }

  /**
   Any table, any snapshot, in any order: a node is known afterwards exactly if it was before or a sane record of it is
   stored, and its record is the last of those, or else the old one.
   */
  lemma {:induction false} LoadedExactly(site: Site, table: Table, snapshot: seq<Option<PeerRecord>>, id: Id)
    ensures var r := LoadAll(site, table, snapshot);
            && (id in r <==> id in table || exists i :: SaneFor(site, snapshot, i, id))
            && (forall i :: LastFor(site, snapshot, i, id) ==> r[id] == snapshot[i].value)
            && (id in r && (forall i :: !SaneFor(site, snapshot, i, id)) ==> r[id] == table[id])
    decreases |snapshot|
  {
    if snapshot != [] {
      var k := |snapshot| - 1;
      var init := snapshot[..k];
      LoadingOneMore(site, table, snapshot);
      LoadedExactly(site, table, init, id);
      hide Sane, LoadAll;
      assert forall i :: SaneFor(site, init, i, id) <==> i < k && SaneFor(site, snapshot, i, id);
      if !SaneFor(site, snapshot, k, id) {
        assert forall i :: LastFor(site, snapshot, i, id) ==> LastFor(site, init, i, id);
      }
    }
  }

  /** The snapshot holds every record of the table, in any order; whatever else is in it is not sane. */
  ghost predicate Stores(site: Site, snapshot: seq<Option<PeerRecord>>, table: Table) {
    && (forall n :: n in table ==> Some(table[n]) in snapshot)
    && (forall i :: 0 <= i < |snapshot| && Sane(site, snapshot[i]) ==> snapshot[i].value in table.Values)
  }

  /** A restart restores the table: every key-bound table of nodes with no address or one that can be dialed. */
  lemma LoadRestoresTable(site: Site, snapshot: seq<Option<PeerRecord>>, table: Table)
    requires KeyBound(site.c, table) && Stores(site, snapshot, table)
    requires forall n :: n in table ==> n != [] && (table[n].addr == [] || site.dialable(table[n].addr))
    ensures LoadAll(site, map[], snapshot) == table
  {
    var r := LoadAll(site, map[], snapshot);
    forall n ensures (n in r <==> n in table) && (n in table ==> r[n] == table[n]) {
      RestoredOne(site, snapshot, table, n);
    }
  }

  lemma {:induction false} LastExists(site: Site, snapshot: seq<Option<PeerRecord>>, i: int, id: Id) returns (last: int)
    requires SaneFor(site, snapshot, i, id)
    ensures LastFor(site, snapshot, last, id)
    decreases |snapshot| - i
  {
    last := i;
    if j :| i < j < |snapshot| && SaneFor(site, snapshot, j, id) {
      last := LastExists(site, snapshot, j, id);
    }
  }

  lemma RestoredOne(site: Site, snapshot: seq<Option<PeerRecord>>, table: Table, n: Id)
    requires KeyBound(site.c, table) && Stores(site, snapshot, table)
    requires forall n :: n in table ==> n != [] && (table[n].addr == [] || site.dialable(table[n].addr))
    ensures var r := LoadAll(site, map[], snapshot); (n in r <==> n in table) && (n in table ==> r[n] == table[n])
  {
    LoadedExactly(site, map[], snapshot, n);
    forall i | SaneFor(site, snapshot, i, n) ensures n in table && snapshot[i].value == table[n] {
      var m :| m in table && table[m] == snapshot[i].value;
    }
    if n in table {
      var i :| 0 <= i < |snapshot| && snapshot[i] == Some(table[n]);
      assert Sane(site, snapshot[i]);
      var last := LastExists(site, snapshot, i, n);
    }
  }

  // ---------- what a merge hands to the store ----------

  function AsStored(records: seq<PeerRecord>): (r: seq<Option<PeerRecord>>) {
    seq(|records|, i requires 0 <= i < |records| => Some(records[i]))
  }

  /**
   The records that a merge persists are all that it changed: loaded in their order over the table as it was, they
   make it the merged table.
   */
  lemma {:induction false} PersistedReplays(site: Site, table: Table, infos: seq<PeerInfo>)
    requires forall n :: n in table ==> table[n].nodeId == n
    requires AllAcceptable(site, infos) && forall i :: 0 <= i < |infos| ==> infos[i].nodeId != []
    ensures LoadAll(site, table, AsStored(Persisted(table, infos))) == MergeAll(table, infos)
    ensures var r := MergeAll(table, infos); forall n :: n in r ==> r[n].nodeId == n
    decreases |infos|
  {
    if infos != [] {
      var init, info := infos[..|infos| - 1], infos[|infos| - 1];
      PersistedReplays(site, table, init);
      var before := MergeAll(table, init);
      if Updates(before, info) {
        var rec := MergeOne(before, info)[info.nodeId];
        UpdateIsSane(site, before, info);
        var records := Persisted(table, init);
        assert AsStored(records + [rec])[..|records|] == AsStored(records);
        LoadingOneMore(site, table, AsStored(records + [rec]));
      } else {
        assert Persisted(table, init) + [] == Persisted(table, init);
      }
    }
  }

  lemma UpdateIsSane(site: Site, before: Table, info: PeerInfo)
    requires Acceptable(site, info) && info.nodeId != [] && Updates(before, info)
    requires info.nodeId in before ==> before[info.nodeId].nodeId == info.nodeId
    ensures var rec := MergeOne(before, info)[info.nodeId];
            rec.nodeId == info.nodeId && Sane(site, Some(rec)) && MergeOne(before, info) == before[info.nodeId := rec]
  {
    HexRoundTrip(info.pubkey);
  }
}
