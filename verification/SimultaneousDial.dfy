/**
 Two nodes that dial each other at once (internal/transport/manager.go): two connections between them, and at each end
 of each a handler on its way to addPeer. A node admits the first and closes the other as a duplicate, but the two
 nodes need not admit the same one.
 */
module SimultaneousDial {
  import opened Crypto
  import opened Connections

  datatype Side = Left | Right

  function Other(x: Side): (y: Side) {
    if x == Left then Right else Left
  }

  /** The connection that the left node dialed, and the one that the right node dialed. */
  datatype Link = ByLeft | ByRight

  function Twin(l: Link): (k: Link) {
    if l == ByLeft then ByRight else ByLeft
  }

  function ConnOf(l: Link): (c: ConnId) {
    if l == ByLeft then 0 else 1
  }

  /**
   Where the handler of one end stands: on its way to addPeer; admitted; refused, and so the connection closed; or
   removed again after finding the connection closed.
   */
  datatype End = Arriving | Admitted | Turned | Removed

  datatype Pair = Pair(peers: Side -> Peers, ends: (Side, Link) -> End)

  /** The ids of the nodes, their limits, and whom else they are connected to. */
  datatype Nodes = Nodes(id: Side -> Id, maxPeers: Side -> int, others: Side -> Peers)

  ghost predicate Apart(d: Nodes) {
    forall x :: d.id(Other(x)) !in d.others(x)
  }

  datatype Event = AddPeer(side: Side, link: Link) | RemovePeer(side: Side, link: Link)

  /** Whichever end refuses it closes the connection. */
  predicate Closed(s: Pair, l: Link) {
    s.ends(Left, l) == Turned || s.ends(Right, l) == Turned
  }

  predicate Enabled(s: Pair, ev: Event) {
    match ev
    case AddPeer(x, l) => s.ends(x, l) == Arriving
    case RemovePeer(x, l) => s.ends(x, l) == Admitted && Closed(s, l)
  }

  function WithEnd(s: Pair, x: Side, l: Link, e: End): (r: Pair) {
    s.(ends := (y: Side, k: Link) => if y == x && k == l then e else s.ends(y, k))
  }

  function WithPeers(s: Pair, x: Side, peers: Peers): (r: Pair) {
    s.(peers := (y: Side) => if y == x then peers else s.peers(y))
  }

  /** The state after an event; one that is not enabled changes nothing. */
  function Apply(d: Nodes, s: Pair, ev: Event): (r: Pair) {
    if !Enabled(s, ev) then s else
    match ev
    case AddPeer(x, l) =>
      var peer := d.id(Other(x));
      var a := Admit(s.peers(x), d.maxPeers(x), peer);
      WithPeers(WithEnd(s, x, l, if a == Added then Admitted else Turned),
                x, PeersAfterAdd(s.peers(x), d.maxPeers(x), peer, ConnOf(l)))
    case RemovePeer(x, l) =>
      WithPeers(WithEnd(s, x, l, Removed), x, s.peers(x) - {d.id(Other(x))})
  }

  function Start(d: Nodes): (s: Pair) {
    Pair(d.others, (x: Side, l: Link) => Arriving)
  }

  predicate Legal(d: Nodes, s: Pair, events: seq<Event>)
    decreases |events|
  {
    events == [] || (Enabled(s, events[0]) && Legal(d, Apply(d, s, events[0]), events[1..]))
  }

  function Run(d: Nodes, s: Pair, events: seq<Event>): (r: Pair)
    decreases |events|
  {
    if events == [] then s else Run(d, Apply(d, s, events[0]), events[1..])
  }

  /** Nothing is left to happen. */
  ghost predicate Settled(s: Pair) {
    forall ev :: !Enabled(s, ev)
  }

  predicate Survives(s: Pair, l: Link) {
    s.ends(Left, l) == Admitted && s.ends(Right, l) == Admitted
  }

  // ---------- the map holds at most one of the two ----------

  function Room(d: Nodes, x: Side): (room: bool) {
    !AtCapacity(d.others(x), d.maxPeers(x))
  }

  /** The entry for the other node is the admitted handler, if there is one. */
  ghost predicate EntryIsAdmitted(d: Nodes, s: Pair, x: Side) {
    && (forall l :: s.ends(x, l) == Admitted ==>
          s.ends(x, Twin(l)) != Admitted && s.peers(x) == d.others(x)[d.id(Other(x)) := ConnOf(l)])
    && ((forall l :: s.ends(x, l) != Admitted) ==> s.peers(x) == d.others(x))
  }

  ghost predicate Consistent(d: Nodes, s: Pair) {
    && (forall x :: EntryIsAdmitted(d, s, x))
    && (forall x, l :: s.ends(x, l) == Removed ==> Closed(s, l))
  }

  lemma EntryStep(d: Nodes, s: Pair, ev: Event, x: Side)
    requires Apart(d) && EntryIsAdmitted(d, s, x) && Enabled(s, ev)
    ensures EntryIsAdmitted(d, Apply(d, s, ev), x)
  {
    var t, peer := Apply(d, s, ev), d.id(Other(x));
    if ev.side == x {
      assert Twin(Twin(ev.link)) == ev.link;
      if ev.RemovePeer? {
        assert d.others(x)[peer := ConnOf(ev.link)] - {peer} == d.others(x);
        assert t.ends(x, Twin(ev.link)) != Admitted && t.ends(x, ev.link) != Admitted;
      } else if s.ends(x, Twin(ev.link)) == Admitted {
        assert peer in s.peers(x);
        assert t.ends(x, Twin(ev.link)) == Admitted;
      } else {
        assert s.peers(x) == d.others(x);
      }
    } else {
      assert forall l :: t.ends(x, l) == s.ends(x, l);
    }
  }

  lemma ConsistentStep(d: Nodes, s: Pair, ev: Event)
    requires Apart(d) && Consistent(d, s) && Enabled(s, ev)
    ensures Consistent(d, Apply(d, s, ev))
    ensures forall l :: Closed(s, l) ==> Closed(Apply(d, s, ev), l)
  {
    forall x ensures EntryIsAdmitted(d, Apply(d, s, ev), x) {
      EntryStep(d, s, ev, x);
    }
    hide EntryIsAdmitted, Admit, PeersAfterAdd;
  }

  lemma {:induction false} ConsistentRun(d: Nodes, s: Pair, events: seq<Event>)
    requires Apart(d) && Consistent(d, s) && Legal(d, s, events)
    ensures Consistent(d, Run(d, s, events))
    decreases |events|
  {
    hide Consistent, Apply, Enabled;
    if events != [] {
      ConsistentStep(d, s, events[0]);
      ConsistentRun(d, Apply(d, s, events[0]), events[1..]);
    }
  }

  lemma StartIsConsistent(d: Nodes)
    ensures Consistent(d, Start(d))
  {
  }

  // ---------- what is left in the end ----------

  /** Never both at once, and in the end a connection survives exactly if neither end has refused it. */
  lemma SurvivorIsUnrefused(d: Nodes, events: seq<Event>, l: Link)
    requires Apart(d) && Legal(d, Start(d), events)
    ensures var s := Run(d, Start(d), events);
            && !(Survives(s, l) && Survives(s, Twin(l)))
            && (Settled(s) ==> (Survives(s, l) <==> !Closed(s, l)))
  {
    StartIsConsistent(d);
    ConsistentRun(d, Start(d), events);
    var s := Run(d, Start(d), events);
    assert EntryIsAdmitted(d, s, Left);
    if Settled(s) {
      assert !Enabled(s, AddPeer(Left, l)) && !Enabled(s, AddPeer(Right, l));
      assert !Enabled(s, RemovePeer(Left, l)) && !Enabled(s, RemovePeer(Right, l));
    }
  }

  /**
   The step that leaves nothing: one connection is closed already, and a node refuses the other because it has not yet
   noticed, the closed one still being in its map.
   */
  predicate Crosses(s: Pair, ev: Event) {
    ev.AddPeer? && Closed(s, Twin(ev.link)) && !Closed(s, ev.link) && s.ends(ev.side, Twin(ev.link)) == Admitted
  }

  ghost predicate Crossed(d: Nodes, s: Pair, events: seq<Event>)
    decreases |events|
  {
    events != [] && (Crosses(s, events[0]) || Crossed(d, Apply(d, s, events[0]), events[1..]))
  }

  /** With room for each other, a node refuses a connection exactly for the one it has admitted. */
  lemma RefusedForTwin(d: Nodes, s: Pair, ev: Event)
    requires Apart(d) && Consistent(d, s) && Enabled(s, ev) && ev.AddPeer? && Room(d, ev.side)
    ensures Apply(d, s, ev).ends(ev.side, ev.link) == Turned <==> s.ends(ev.side, Twin(ev.link)) == Admitted
  {
    var x, l := ev.side, ev.link;
    assert EntryIsAdmitted(d, s, x);
    assert Twin(Twin(l)) == l;
  }

  lemma CrossingStep(d: Nodes, s: Pair, ev: Event)
    requires Apart(d) && Consistent(d, s) && Enabled(s, ev) && Room(d, Left) && Room(d, Right)
    requires !(Closed(s, ByLeft) && Closed(s, ByRight))
    ensures Closed(Apply(d, s, ev), ByLeft) && Closed(Apply(d, s, ev), ByRight) <==> Crosses(s, ev)
  {
    if ev.AddPeer? {
      RefusedForTwin(d, s, ev);
    }
    hide Consistent, Admit, PeersAfterAdd, Room;
  }

  lemma {:induction false} CrossingRun(d: Nodes, s: Pair, events: seq<Event>)
    requires Apart(d) && Consistent(d, s) && Legal(d, s, events) && Room(d, Left) && Room(d, Right)
    ensures var t := Run(d, s, events);
            Closed(t, ByLeft) && Closed(t, ByRight)
            <==> (Closed(s, ByLeft) && Closed(s, ByRight)) || Crossed(d, s, events)
    decreases |events|
  {
    hide Consistent, Apply, Enabled, Closed, Room;
    if events != [] {
      ConsistentStep(d, s, events[0]);
      if !(Closed(s, ByLeft) && Closed(s, ByRight)) {
        CrossingStep(d, s, events[0]);
      }
      CrossingRun(d, Apply(d, s, events[0]), events[1..]);
    }
  }

  /**
   Exactly when one connection survives. Two nodes with room for each other have dialed each other at once: when all has
   happened, one of the two connections is left if and only if no node refused the second while the first, closed by
   the other node, was still in its map. With no room at one end none is left.
   */
  lemma OneSurvivesExactly(d: Nodes, events: seq<Event>)
    requires Apart(d) && Legal(d, Start(d), events) && Settled(Run(d, Start(d), events))
    ensures var s := Run(d, Start(d), events);
            (Survives(s, ByLeft) || Survives(s, ByRight))
            <==> Room(d, Left) && Room(d, Right) && !Crossed(d, Start(d), events)
  {
    SurvivorIsUnrefused(d, events, ByLeft);
    SurvivorIsUnrefused(d, events, ByRight);
    StartIsConsistent(d);
    if Room(d, Left) && Room(d, Right) {
      CrossingRun(d, Start(d), events);
    } else {
      var x := if Room(d, Left) then Right else Left;
      NoRoomRun(d, Start(d), events, x);
      var s := Run(d, Start(d), events);
      assert s.ends(x, ByLeft) != Admitted && s.ends(x, ByRight) != Admitted;
    }
  }

  /** A full node admits neither. */
  lemma {:induction false} NoRoomRun(d: Nodes, s: Pair, events: seq<Event>, x: Side)
    requires Legal(d, s, events) && !Room(d, x) && s.peers(x) == d.others(x) && d.id(Other(x)) !in d.others(x)
    requires forall l :: s.ends(x, l) in {Arriving, Turned}
    ensures forall l :: Run(d, s, events).ends(x, l) in {Arriving, Turned}
    decreases |events|
  {
    if events != [] {
      NoRoomStep(d, s, events[0], x);
      hide Apply, Enabled, Room;
      NoRoomRun(d, Apply(d, s, events[0]), events[1..], x);
    }
  }

  lemma NoRoomStep(d: Nodes, s: Pair, ev: Event, x: Side)
    requires Enabled(s, ev) && !Room(d, x) && s.peers(x) == d.others(x) && d.id(Other(x)) !in d.others(x)
    requires forall l :: s.ends(x, l) in {Arriving, Turned}
    ensures var t := Apply(d, s, ev); t.peers(x) == d.others(x) && forall l :: t.ends(x, l) in {Arriving, Turned}
  {
    assert ev.RemovePeer? ==> ev.side != x;
  }

  // ---------- it does happen ----------

  /** What a step at side `x` leaves as it was. */
  predicate SameElsewhere(s: Pair, t: Pair, x: Side, l: Link) {
    && t.peers(Other(x)) == s.peers(Other(x)) && t.ends(x, Twin(l)) == s.ends(x, Twin(l))
    && t.ends(Other(x), l) == s.ends(Other(x), l) && t.ends(Other(x), Twin(l)) == s.ends(Other(x), Twin(l))
  }

  function WithEntry(d: Nodes, x: Side, l: Link): (peers: Peers) {
    d.others(x)[d.id(Other(x)) := ConnOf(l)]
  }

  lemma FirstIsAdmitted(d: Nodes, s: Pair, x: Side, l: Link)
    requires Apart(d) && Room(d, x) && s.ends(x, l) == Arriving && s.peers(x) == d.others(x)
    ensures var t := Apply(d, s, AddPeer(x, l));
            SameElsewhere(s, t, x, l) && t.ends(x, l) == Admitted && t.peers(x) == WithEntry(d, x, l)
  {
  }

  lemma SecondIsTurned(d: Nodes, s: Pair, x: Side, l: Link)
    requires s.ends(x, l) == Arriving && s.peers(x) == WithEntry(d, x, Twin(l))
    ensures var t := Apply(d, s, AddPeer(x, l));
            SameElsewhere(s, t, x, l) && t.ends(x, l) == Turned && t.peers(x) == s.peers(x)
  {
  }

  lemma ClosedIsRemoved(d: Nodes, s: Pair, x: Side, l: Link)
    requires Apart(d) && s.ends(x, l) == Admitted && Closed(s, l) && s.peers(x) == WithEntry(d, x, l)
    ensures var t := Apply(d, s, RemovePeer(x, l));
            SameElsewhere(s, t, x, l) && t.ends(x, l) == Removed && t.peers(x) == d.others(x)
  {
    assert WithEntry(d, x, l) - {d.id(Other(x))} == d.others(x);
  }

  lemma {:induction false} ChainRuns(d: Nodes, states: seq<Pair>, events: seq<Event>)
    requires |states| == |events| + 1
    requires forall i :: 0 <= i < |events| ==>
               Enabled(states[i], events[i]) && states[i + 1] == Apply(d, states[i], events[i])
    ensures Legal(d, states[0], events) && Run(d, states[0], events) == states[|events|]
    decreases |events|
  {
    hide Enabled, Apply;
    if events != [] {
      ChainRuns(d, states[1..], events[1..]);
    }
  }

  /** Each node admits the connection it dialed itself and refuses the other's, and both are gone. */
  lemma BothDie(d: Nodes) returns (events: seq<Event>)
    requires Apart(d) && Room(d, Left) && Room(d, Right)
    ensures Legal(d, Start(d), events) && Settled(Run(d, Start(d), events))
    ensures var s := Run(d, Start(d), events); !Survives(s, ByLeft) && !Survives(s, ByRight)
    ensures forall x :: Run(d, Start(d), events).peers(x) == d.others(x)
  {
    var e1, e2 := AddPeer(Left, ByLeft), AddPeer(Right, ByRight);
    var e3, e4 := AddPeer(Left, ByRight), AddPeer(Right, ByLeft);
    var e5, e6 := RemovePeer(Left, ByLeft), RemovePeer(Right, ByRight);
    events := [e1, e2, e3, e4, e5, e6];
    hide Apply, Apart, Room, WithEntry;
    var s0 := Start(d);
    FirstIsAdmitted(d, s0, Left, ByLeft);
    var s1 := Apply(d, s0, e1);
    FirstIsAdmitted(d, s1, Right, ByRight);
    var s2 := Apply(d, s1, e2);
    SecondIsTurned(d, s2, Left, ByRight);
    var s3 := Apply(d, s2, e3);
    SecondIsTurned(d, s3, Right, ByLeft);
    var s4 := Apply(d, s3, e4);
    ClosedIsRemoved(d, s4, Left, ByLeft);
    var s5 := Apply(d, s4, e5);
    ClosedIsRemoved(d, s5, Right, ByRight);
    var s6 := Apply(d, s5, e6);
    ChainRuns(d, [s0, s1, s2, s3, s4, s5, s6], events);
    assert s6.ends(Left, ByLeft) == s6.ends(Right, ByRight) == Removed;
    assert s6.ends(Left, ByRight) == s6.ends(Right, ByLeft) == Turned;
    NothingLeft(s6);
    forall x ensures s6.peers(x) == d.others(x) {
      if x == Left {
        assert s6.peers(Left) == d.others(Left);
      } else {
        assert s6.peers(Right) == d.others(Right);
      }
    }
  }

  lemma NothingLeft(s: Pair)
    requires s.ends(Left, ByLeft) == s.ends(Right, ByRight) == Removed
    requires s.ends(Left, ByRight) == s.ends(Right, ByLeft) == Turned
    ensures Settled(s)
  {
    forall ev ensures !Enabled(s, ev) {
      var x, l := ev.side, ev.link;
      assert s.ends(x, l) in {Removed, Turned} by {
        match (x, l)
        case (Left, ByLeft) =>
        case (Left, ByRight) =>
        case (Right, ByLeft) =>
        case (Right, ByRight) =>
      }
    }
  }
}
