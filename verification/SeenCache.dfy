/** Recently seen message ids (internal/gossip/seen.go). Times are seconds. */
module SeenCaches {
  import opened Crypto

  type Seen = map<Id, real>

  function Marked(seen: Seen, id: Id, now: real): (r: Seen) {
    if id in seen then seen else seen[id := now]
  }

  predicate Expired(at: real, ttl: real, now: real) {
    at < now - ttl
  }

  function Unexpired(seen: Seen, ttl: real, now: real): (r: Seen) {
    map id | id in seen && !Expired(seen[id], ttl, now) :: seen[id]
  }

  class SeenCache {
    var entries: Seen
    const ttl: real

    constructor (ttl: real)
      ensures this.ttl == ttl && entries == map[]
    {
      this.ttl := ttl;
      entries := map[];
    }

    method Has(id: Id) returns (ok: bool)
      ensures ok <==> id in entries
    {
      ok := id in entries;
    }

    /** Test-and-set: an id already present keeps its first time. */
    method Check(id: Id, now: real) returns (seen: bool)
      modifies this
      ensures seen <==> id in old(entries)
      ensures entries == Marked(old(entries), id, now)
      ensures id in entries && entries[id] == if seen then old(entries)[id] else now
    {
      if id in entries {
        return true;
      }
      entries := entries[id := now];
      return false;
    }

    /** Removes exactly the entries older than the TTL, visiting the map in any order. */
    method Cleanup(now: real)
      modifies this
      ensures entries == Unexpired(old(entries), ttl, now)
    {
      var cutoff := now - ttl;
      var unvisited := entries.Keys;
      while unvisited != {}
        invariant unvisited <= entries.Keys <= old(entries).Keys
        invariant forall id :: id in entries ==> entries[id] == old(entries)[id]
        invariant forall id :: id in old(entries) && id !in unvisited ==>
                    (id in entries <==> !Expired(old(entries)[id], ttl, now))
        decreases unvisited
      {
        var id :| id in unvisited;
        unvisited := unvisited - {id};
        if entries[id] < cutoff {
          entries := entries - {id};
        }
      }
    }
  }
}
