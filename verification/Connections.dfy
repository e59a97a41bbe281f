/**
 Connection lifecycle (internal/transport/manager.go): inbound, bootstrap and discovered connections run
 concurrently and meet only in the peers map, one critical section at a time.
 */
module Connections {
  import opened Crypto
  import opened Sequences

  /** One accepted or dialed connection, with the goroutine that handles it. */
  type ConnId = nat

  type Peers = map<Id, ConnId>

  datatype Admission = Added | DuplicatePeer | MaxPeersReached

  predicate AtCapacity(peers: Peers, maxPeers: int) {
    maxPeers > 0 && |peers| >= maxPeers
  }

  function Admit(peers: Peers, maxPeers: int, node: Id): (a: Admission) {
    if node in peers then DuplicatePeer
    else if AtCapacity(peers, maxPeers) then MaxPeersReached
    else Added
  }

  function PeersAfterAdd(peers: Peers, maxPeers: int, node: Id, conn: ConnId): (r: Peers) {
    if Admit(peers, maxPeers, node) == Added then peers[node := conn] else peers
  }

  /** The critical sections on the peers map. */
  class PeerMap {
    var peers: Peers
    const maxPeers: int

    constructor (maxPeers: int)
      ensures peers == map[] && this.maxPeers == maxPeers
    {
      this.maxPeers := maxPeers;
      peers := map[];
    }

    method AddPeer(node: Id, conn: ConnId) returns (a: Admission)
      modifies this
      ensures a == Admit(old(peers), maxPeers, node)
      ensures peers == PeersAfterAdd(old(peers), maxPeers, node, conn)
    {
      if node in peers {
        return DuplicatePeer;
      }
      if maxPeers > 0 && |peers| >= maxPeers {
        return MaxPeersReached;
      }
      peers := peers[node := conn];
      return Added;
    }

    /** Deletes whatever entry the id has, without looking whose it is. */
    method RemovePeer(node: Id)
      modifies this
      ensures peers == peers - {node} == old(peers) - {node}
    {
      peers := peers - {node};
    }

    /** A snapshot of the connected peers, one handle each, in arbitrary order. */
    method PeerHandles() returns (ids: seq<Id>)
      ensures Distinct(ids) && Elements(ids) == peers.Keys
    {
      ids := Listing(peers.Keys);
    }
  }

  // ---------- handlers as a step system ----------

  /** Where a handler stands: before or after each of its critical sections. */
  datatype Pc = Capacity | Greeting | Adding | Announcing | Running | Removing | Closed

  /** `node` is the id the hello established; it means nothing before that. */
  datatype Handler = Handler(pc: Pc, node: Id)

  datatype Net = Net(peers: Peers, handlers: map<ConnId, Handler>)

  datatype Event =
    | Accept(conn: ConnId)
    | Dial(conn: ConnId)
    | CheckCapacity(conn: ConnId)
    | Greet(conn: ConnId, node: Id)
    | FailGreeting(conn: ConnId)
    | Add(conn: ConnId)
    | Announce(conn: ConnId)
    | Disconnect(conn: ConnId)
    | Remove(conn: ConnId)

  predicate At(s: Net, conn: ConnId, pc: Pc) {
    conn in s.handlers && s.handlers[conn].pc == pc
  }

  predicate Enabled(s: Net, ev: Event) {
    match ev
    case Accept(conn) => conn !in s.handlers
    case Dial(conn) => conn !in s.handlers
    case CheckCapacity(conn) => At(s, conn, Capacity)
    case Greet(conn, _) => At(s, conn, Greeting)
    case FailGreeting(conn) => At(s, conn, Greeting)
    case Add(conn) => At(s, conn, Adding)
    case Announce(conn) => At(s, conn, Announcing)
    case Disconnect(conn) => At(s, conn, Running)
    case Remove(conn) => At(s, conn, Removing)
  }

  function Goto(s: Net, conn: ConnId, h: Handler): (r: Net) {
    s.(handlers := s.handlers[conn := h])
  }

  /** The state after an event; one that is not enabled changes nothing. */
  function Apply(maxPeers: int, s: Net, ev: Event): (r: Net) {
    if !Enabled(s, ev) then s else
    match ev
    // Only inbound connections look at the capacity before the handshake.
    case Accept(conn) => Goto(s, conn, Handler(Capacity, []))
    case Dial(conn) => Goto(s, conn, Handler(Greeting, []))
    case CheckCapacity(conn) =>
      Goto(s, conn, Handler(if AtCapacity(s.peers, maxPeers) then Closed else Greeting, []))
    case Greet(conn, node) => Goto(s, conn, Handler(Adding, node))
    case FailGreeting(conn) => Goto(s, conn, Handler(Closed, []))
    case Add(conn) =>
      var node := s.handlers[conn].node;
      Goto(s, conn, Handler(if Admit(s.peers, maxPeers, node) == Added then Announcing else Closed, node))
        .(peers := PeersAfterAdd(s.peers, maxPeers, node, conn))
    case Announce(conn) => Goto(s, conn, s.handlers[conn].(pc := Running))
    case Disconnect(conn) => Goto(s, conn, s.handlers[conn].(pc := Removing))
    case Remove(conn) =>
      Goto(s, conn, s.handlers[conn].(pc := Closed)).(peers := s.peers - {s.handlers[conn].node})
  }

  predicate Legal(maxPeers: int, s: Net, events: seq<Event>)
    decreases |events|
  {
    events == [] || (Enabled(s, events[0]) && Legal(maxPeers, Apply(maxPeers, s, events[0]), events[1..]))
  }

  function Run(maxPeers: int, s: Net, events: seq<Event>): (r: Net)
    decreases |events|
  {
    if events == [] then s else Run(maxPeers, Apply(maxPeers, s, events[0]), events[1..])
  }

  ghost predicate Reachable(maxPeers: int, s: Net) {
    exists events :: Legal(maxPeers, Net(map[], map[]), events) && Run(maxPeers, Net(map[], map[]), events) == s
  }

  /** Between its admission and its removal a handler is live. */
  predicate Live(h: Handler) {
    h.pc in {Announcing, Running, Removing}
  }

  predicate IsLive(s: Net, conn: ConnId) {
    conn in s.handlers && Live(s.handlers[conn])
  }

  /** The entries of the peers map are exactly the live handlers, each under its own id. */
  ghost predicate Owned(s: Net) {
    && (forall n :: n in s.peers ==>
          s.peers[n] in s.handlers && Live(s.handlers[s.peers[n]]) && s.handlers[s.peers[n]].node == n)
    && (forall c :: c in s.handlers && Live(s.handlers[c]) ==>
          s.handlers[c].node in s.peers && s.peers[s.handlers[c].node] == c)
  }

  ghost predicate Bounded(maxPeers: int, s: Net) {
    maxPeers > 0 ==> |s.peers| <= maxPeers
  }

  /** A handler that neither becomes nor stops being live keeps the map right. */
  lemma OwnedGoto(s: Net, conn: ConnId, h: Handler)
    requires Owned(s)
    requires if conn in s.handlers && Live(s.handlers[conn]) then Live(h) && h.node == s.handlers[conn].node
             else !Live(h)
    ensures Owned(Goto(s, conn, h))
  {
  }

  lemma OwnedAdd(maxPeers: int, s: Net, conn: ConnId)
    requires Owned(s) && Enabled(s, Add(conn))
    ensures Owned(Apply(maxPeers, s, Add(conn)))
  {
    hide Admit;
    var n := s.handlers[conn].node;
    if Admit(s.peers, maxPeers, n) == Added {
      assert n !in s.peers by {
        AddedIsNew(s.peers, maxPeers, n);
      }
    }
  }

  lemma AddedIsNew(peers: Peers, maxPeers: int, n: Id)
    requires Admit(peers, maxPeers, n) == Added
    ensures n !in peers
  {
  }

  lemma OwnedStep(maxPeers: int, s: Net, ev: Event)
    requires Owned(s) && Enabled(s, ev)
    ensures Owned(Apply(maxPeers, s, ev))
  {
    hide Owned, Admit, AtCapacity;
    match ev
    case Accept(conn) => OwnedGoto(s, conn, Handler(Capacity, []));
    case Dial(conn) => OwnedGoto(s, conn, Handler(Greeting, []));
    case CheckCapacity(conn) => OwnedGoto(s, conn, Apply(maxPeers, s, ev).handlers[conn]);
    case Greet(conn, node) => OwnedGoto(s, conn, Handler(Adding, node));
    case FailGreeting(conn) => OwnedGoto(s, conn, Handler(Closed, []));
    case Add(conn) => OwnedAdd(maxPeers, s, conn);
    case Announce(conn) => OwnedGoto(s, conn, s.handlers[conn].(pc := Running));
    case Disconnect(conn) => OwnedGoto(s, conn, s.handlers[conn].(pc := Removing));
    case Remove(conn) => OwnedRemove(maxPeers, s, conn);
  }

  lemma OwnedRemove(maxPeers: int, s: Net, conn: ConnId)
    requires Owned(s) && Enabled(s, Remove(conn))
    ensures Owned(Apply(maxPeers, s, Remove(conn)))
  {
  }

  lemma BoundedStep(maxPeers: int, s: Net, ev: Event)
    requires Owned(s) && Bounded(maxPeers, s) && Enabled(s, ev)
    ensures Bounded(maxPeers, Apply(maxPeers, s, ev))
  {
    match ev
    case Remove(conn) =>
      SubsetCardinality(Apply(maxPeers, s, ev).peers.Keys, s.peers.Keys);
    case _ =>
  }

  lemma {:induction false} SafeRun(maxPeers: int, s: Net, events: seq<Event>)
    requires Owned(s) && Bounded(maxPeers, s) && Legal(maxPeers, s, events)
    ensures Owned(Run(maxPeers, s, events)) && Bounded(maxPeers, Run(maxPeers, s, events))
    decreases |events|
  {
    if events != [] {
      OwnedStep(maxPeers, s, events[0]);
      BoundedStep(maxPeers, s, events[0]);
      SafeRun(maxPeers, Apply(maxPeers, s, events[0]), events[1..]);
    }
  }

  /**
   Under any interleaving every peers entry belongs to exactly one live handler, and a positive limit on the
   number of peers is never exceeded, although the early capacity check is not repeated under one lock.
   */
  lemma EveryEntryHasOneHandler(maxPeers: int, s: Net)
    requires Reachable(maxPeers, s)
    ensures Owned(s) && Bounded(maxPeers, s)
    ensures forall c, d :: IsLive(s, c) && IsLive(s, d) && c != d ==> s.handlers[c].node != s.handlers[d].node
  {
    var events :| Legal(maxPeers, Net(map[], map[]), events) && Run(maxPeers, Net(map[], map[]), events) == s;
    SafeRun(maxPeers, Net(map[], map[]), events);
  }

  /** Removal goes by id alone, yet it only ever removes the caller's own entry, and every other one stays. */
  lemma RemovesOnlyOwnEntry(maxPeers: int, s: Net, conn: ConnId)
    requires Reachable(maxPeers, s) && Enabled(s, Remove(conn))
    ensures var n := s.handlers[conn].node;
            n in s.peers && s.peers[n] == conn && Apply(maxPeers, s, Remove(conn)).peers == s.peers - {n}
    ensures forall c :: c in s.handlers && c != conn && Live(s.handlers[c]) ==>
              s.handlers[c].node in Apply(maxPeers, s, Remove(conn)).peers
  {
    EveryEntryHasOneHandler(maxPeers, s);
  }

  /** A handler refused by addPeer leaves the map alone: it is refused exactly for a live duplicate or a full map. */
  lemma RefusedExactly(maxPeers: int, s: Net, conn: ConnId)
    requires Reachable(maxPeers, s) && Enabled(s, Add(conn))
    ensures var t := Apply(maxPeers, s, Add(conn));
            t.handlers[conn].pc == Closed <==>
              (exists c :: c in s.handlers && Live(s.handlers[c]) && s.handlers[c].node == s.handlers[conn].node)
              || (maxPeers > 0 && |s.peers| == maxPeers)
    ensures var t := Apply(maxPeers, s, Add(conn)); t.handlers[conn].pc == Closed ==> t.peers == s.peers
  {
    EveryEntryHasOneHandler(maxPeers, s);
    var n := s.handlers[conn].node;
    if n in s.peers {
      assert Live(s.handlers[s.peers[n]]) && s.handlers[s.peers[n]].node == n;
    }
  }

  /** An inbound connection is turned away before its handshake exactly when as many handlers are live as may be. */
  lemma TurnedAwayExactly(maxPeers: int, s: Net, conn: ConnId)
    requires Reachable(maxPeers, s) && Enabled(s, CheckCapacity(conn))
    ensures var t := Apply(maxPeers, s, CheckCapacity(conn));
            t.peers == s.peers && (t.handlers[conn].pc == Closed <==> maxPeers > 0 && |LiveHandlers(s)| == maxPeers)
  {
    EveryEntryHasOneHandler(maxPeers, s);
    AsManyAsEntries(s);
  }

  function LiveHandlers(s: Net): (conns: set<ConnId>) {
    set c | c in s.handlers && Live(s.handlers[c])
  }

  lemma AsManyAsEntries(s: Net)
    requires Owned(s)
    ensures |LiveHandlers(s)| == |s.peers|
  {
    NodesOfHandlers(s, LiveHandlers(s));
    assert s.peers.Keys == set c | c in LiveHandlers(s) :: s.handlers[c].node;
  }

  lemma {:induction false} NodesOfHandlers(s: Net, conns: set<ConnId>)
    requires Owned(s) && conns <= LiveHandlers(s)
    ensures |set c | c in conns :: s.handlers[c].node| == |conns|
  {
    if conns != {} {
      var c :| c in conns;
      var others := conns - {c};
      NodesOfHandlers(s, others);
      var nodes := set d | d in others :: s.handlers[d].node;
      assert s.handlers[c].node !in nodes;
      assert (set d | d in conns :: s.handlers[d].node) == nodes + {s.handlers[c].node};
    }
  }
}
