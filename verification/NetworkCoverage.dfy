/**
 Coverage: in a static connected network of at most MaxHops + 1 nodes, or two if MaxHops is 0, whose relays have at
 most fanout + 1 peers, a broadcast that nothing disturbs reaches every node exactly once.
 */
module NetworkCoverage {
  import opened Crypto
  import opened Envelopes
  import opened KeyRings
  import opened RateLimiters
  import opened Sequences
  import opened Gossip
  import opened Network
  import opened NetworkSafety
  import opened NetworkTraffic

  // ---------- the network's shape ----------

  type Graph = map<Id, set<Id>>

  function PeersOf(s: Net): (g: Graph) {
    map n | n in s.nodes :: s.nodes[n].peers
  }

  ghost predicate Path(g: Graph, path: seq<Id>) {
    && path != [] && path[0] in g
    && (|path| > 1 ==> path[1] in g[path[0]] && Path(g, path[1..]))
  }

  ghost predicate Connected(g: Graph) {
    forall u, v :: u in g && v in g ==>
      exists path :: Path(g, path) && path[0] == u && path[|path| - 1] == v
  }

  /** Connections go both ways and stay in the network; every node but `origin` has at most `fanout + 1` of them. */
  ghost predicate Mesh(g: Graph, fanout: nat, origin: Id) {
    && (forall u, v :: u in g && v in g[u] ==> v in g && u in g[v])
    && (forall u :: u in g && u != origin ==> |g[u]| <= fanout + 1)
    && Connected(g)
  }

  /** The links a copy can travel: one with no hop left is accepted all the same, so no hop is worth as much as one. */
  function Reach(hops: nat): (links: nat) {
    if hops == 0 then 1 else hops
  }

  /**
   A message with this many hops can reach all of the mesh: there are few enough nodes, or every node but the
   originator is an end point.
   */
  predicate WithinReach(nodes: nat, fanout: nat, hops: nat) {
    fanout == 0 || nodes <= Reach(hops) + 1
  }

  lemma {:induction false} ClosedSetHoldsPath(g: Graph, reached: set<Id>, path: seq<Id>)
    requires Path(g, path) && path[0] in reached
    requires forall u, v :: u in reached && u in g && v in g[u] ==> v in reached
    ensures path[|path| - 1] in reached
    decreases |path|
  {
    if |path| > 1 {
      ClosedSetHoldsPath(g, reached, path[1..]);
    }
  }

  // ---------- the message and its history ----------

  /** An envelope every engine that has not seen it accepts, given a token. */
  ghost predicate GoodMessage(c: Primitives, env: Envelope) {
    && GossipType(env.msgType) && WellFormedEnvelope(env)
    && BoundTo(c, env.senderPubkey, env.senderId)
    && Verifies(c, env, env.senderPubkey)
  }

  /** No copy of `m` was lost or refused by a full buffer, no seen entry of it evicted, no connection changed. */
  ghost predicate Undisturbed(h: History, m: Id) {
    h.Then? ==>
      && Undisturbed(h.before, m)
      && match h.record
         case Originated(_, env, _, refused) => env.messageId == m ==> refused == []
         case Handled(_, env, _, _, refused) => env.messageId == m ==> refused == []
         case Cleared(_, _) => true
         case Discarded(env) => env.messageId != m
         case Evicted(_, ids) => m !in ids
         case Relinked(_) => false
  }

  ghost predicate NeverLimited(h: History, m: Id) {
    h.Then? ==> NeverLimited(h.before, m)
                && !(h.record.Handled? && h.record.env.messageId == m && h.record.verdict == RateLimited)
  }

  /** The history of one undisturbed broadcast of `env` by `origin`, up to some point before or after it. */
  ghost predicate OneBroadcast(h: History, origin: Id, env: Envelope) {
    && Undisturbed(h, env.messageId) && NeverLimited(h, env.messageId)
    && (Broadcasts(h, env.messageId) == [] || Broadcasts(h, env.messageId) == [(origin, env)])
  }

  lemma {:induction false} OneBroadcastBefore(later: History, h: History, origin: Id, env: Envelope)
    requires Extends(later, h) && OneBroadcast(later, origin, env)
    ensures OneBroadcast(h, origin, env)
  {
    if later != h {
      var m := env.messageId;
      assert Broadcasts(later.before, m) == [] || Broadcasts(later.before, m) == [(origin, env)] by {
        if later.record.Originated? && later.record.env.messageId == m {
          assert |Broadcasts(later, m)| == |Broadcasts(later.before, m)| + 1;
        }
      }
      OneBroadcastBefore(later.before, h, origin, env);
    }
  }

  lemma {:induction false} UndisturbedNeverEvicts(h: History, m: Id)
    requires Undisturbed(h, m)
    ensures NeverEvicted(h, m)
  {
    if h.Then? {
      UndisturbedNeverEvicts(h.before, m);
    }
  }

  /** Without eviction a node remembers `m` if and only if it accepted or broadcast it. */
  lemma {:induction false} RememberedExactly(h: History, n: Id, m: Id)
    requires NeverEvicted(h, m)
    ensures m in Remembered(h, n) <==> n in Acceptors(h, m) || exists b :: b in Broadcasts(h, m) && b.0 == n
  {
    if h.Then? {
      RememberedExactly(h.before, n, m);
      var r := h.record;
      if r.Originated? && r.env.messageId == m {
        assert (r.node, r.env) in Broadcasts(h, m);
      }
    }
  }

  // ---------- the flood ----------

  function SeenBy(s: Net, m: Id): (nodes: set<Id>) {
    set n | n in s.nodes && m in s.nodes[n].engine.seen
  }

  /** The links that carry a copy of `m`. */
  function Pending(flight: seq<Copy>, m: Id): (links: set<(Id, Id)>) {
    set c | c in flight && c.env.messageId == m :: (c.src, c.dst)
  }

  /** Every copy of the message went along links, through distinct nodes that have all seen it. */
  ghost predicate SimpleTrails(s: Net, g: Graph, env: Envelope) {
    forall c :: c in s.flight && c.env.messageId == env.messageId ==>
      && c.origin == env
      && Distinct(c.trail) && Elements(c.trail) <= SeenBy(s, env.messageId)
      && c.src in g && c.dst in g[c.src]
  }

  /** Either everyone has seen `m`, or every link out of a node that has leads to one that has or carries a copy. */
  ghost predicate Spread(s: Net, g: Graph, m: Id) {
    SeenBy(s, m) == g.Keys || forall u, v :: u in SeenBy(s, m) && u in g && v in g[u] ==>
      v in SeenBy(s, m) || (u, v) in Pending(s.flight, m)
  }

  ghost predicate Flooding(s: Net, g: Graph, env: Envelope) {
    SimpleTrails(s, g, env) && Spread(s, g, env.messageId)
  }

  lemma PendingWithout(flight: seq<Copy>, i: nat, m: Id, link: (Id, Id))
    requires i < |flight| && link in Pending(flight, m) && link != (flight[i].src, flight[i].dst)
    ensures link in Pending(Without(flight, i), m)
  {
    var c :| c in flight && c.env.messageId == m && (c.src, c.dst) == link;
    var k :| 0 <= k < |flight| && flight[k] == c;
    assert Without(flight, i)[if k < i then k else k - 1] == c;
  }

  lemma PendingWithMore(flight: seq<Copy>, more: seq<Copy>, m: Id)
    ensures Pending(flight + more, m) == Pending(flight, m) + Pending(more, m)
  {
    assert forall c :: c in flight + more <==> c in flight || c in more;
  }

  lemma LaunchPends(src: Id, targets: seq<Id>, env: Envelope, origin: Envelope, trail: seq<Id>, t: Id)
    requires t in targets
    ensures (src, t) in Pending(Launch(src, targets, env, origin, trail), env.messageId)
  {
    var k :| 0 <= k < |targets| && targets[k] == t;
    assert Launch(src, targets, env, origin, trail)[k] == Copy(src, t, env, origin, trail, false);
  }

  lemma LaunchedCopies(src: Id, targets: seq<Id>, env: Envelope, origin: Envelope, trail: seq<Id>)
    ensures forall c :: c in Launch(src, targets, env, origin, trail) ==>
              c.src == src && c.dst in targets && c.env == env && c.origin == origin && c.trail == trail
  {
  }

  lemma SingletonDistinct(n: Id)
    ensures Distinct([n])
  {
  }

  /** What a node that has not seen a good message decides: with a token, it accepts. */
  lemma GoodMessageAccepted(p: Params, e: EngineState, now: real, env: Envelope)
    requires Injective(p.c.sha256) && Bound(p.c, e.keys) && GoodMessage(p.c, env)
    ensures Judge(p, e, now, env) ==
            if env.messageId in e.seen then Duplicate
            else if Grants(e.senders, env.senderId, now, p.rate) then Accepted else RateLimited
  {
    if env.senderId in e.keys {
      NodeIdDeterminesKey(p.c, e.keys[env.senderId].pubKey, env.senderPubkey);
    }
  }

  /** A relay with at most `fanout + 1` peers sends to all of them but the one it heard from. */
  lemma SmallDegreeReachesAll(peers: set<Id>, exclude: Id, fanout: nat, targets: seq<Id>)
    requires exclude in peers && |peers| <= fanout + 1 && ValidTargets(peers, exclude, fanout, targets)
    ensures Elements(targets) == peers - {exclude}
  {
    DistinctCardinality(targets);
    assert |peers - {exclude}| == |peers| - 1;
    SubsetCardinality(Elements(targets), peers - {exclude});
  }

  /** A node reached with no hops left completes a path through every node. */
  lemma LastHopMeansAll(s: Net, g: Graph, c: Copy, env: Envelope, seen: set<Id>)
    requires c.env.hopCount <= 1 && c.env.hopCount + |c.trail| == env.hopCount + 1
    requires Distinct(c.trail) && Elements(c.trail) <= seen && c.dst !in seen && c.trail != []
    requires seen + {c.dst} <= g.Keys && |g| <= Reach(env.hopCount) + 1
    ensures seen + {c.dst} == g.Keys
  {
    DistinctCardinality(c.trail);
    SubsetCardinality(Elements(c.trail), seen);
    assert |seen + {c.dst}| == |seen| + 1;
    SubsetCardinality(seen + {c.dst}, g.Keys);
  }

  // ---------- steps ----------

  /** What the flood relies on: the history so far, the safety invariants, the shape. */
  ghost predicate Ready(p: Params, s: Net, g: Graph, origin: Id, env: Envelope) {
    && Injective(p.c.sha256) && GoodMessage(p.c, env)
    && Mesh(g, p.fanout, origin) && PeersOf(s) == g && WithinReach(|g|, p.fanout, env.hopCount)
    && Safe(p, s) && Spreading(p, s, env.messageId)
    && OneBroadcast(s.log, origin, env)
  }

  lemma NobodyYet(p: Params, s: Net, m: Id)
    requires Memory(s) && Spreading(p, s, m) && Undisturbed(s.log, m) && Broadcasts(s.log, m) == []
    ensures SeenBy(s, m) == {} && !InFlight(s.flight, m)
  {
    UndisturbedNeverEvicts(s.log, m);
    forall n | n in s.nodes ensures m !in s.nodes[n].engine.seen {
      RememberedExactly(s.log, n, m);
    }
  }

  /** The broadcast itself: only the originator has seen the message, and every link out of it carries a copy. */
  lemma FloodStarts(p: Params, s: Net, g: Graph, origin: Id, env: Envelope, taken: seq<Id>)
    requires PeersOf(s) == g && SeenBy(s, env.messageId) == {} && !InFlight(s.flight, env.messageId)
    requires Enabled(p, s, Broadcast(origin, env, taken, []))
    ensures Flooding(Apply(p, s, Broadcast(origin, env, taken, [])), g, env)
  {
    hide Judge, Admit, Launch, Pending, Distinct;
    var m, t := env.messageId, Apply(p, s, Broadcast(origin, env, taken, []));
    assert taken + [] == taken;
    assert SeenBy(t, m) == {origin} by {
      forall n | n in s.nodes ensures n in SeenBy(t, m) <==> n == origin {
        assert n !in SeenBy(s, m);
      }
    }
    var sent := Launch(origin, taken, env, env, [origin]);
    PendingWithMore(s.flight, sent, m);
    forall v | v in g[origin] ensures (origin, v) in Pending(t.flight, m) {
      assert v in Elements(taken);
      LaunchPends(origin, taken, env, env, [origin], v);
    }
    LaunchedCopies(origin, taken, env, env, [origin]);
    SingletonDistinct(origin);
  }

  lemma WithoutKeeps(flight: seq<Copy>, i: nat)
    requires i < |flight|
    ensures forall c :: c in Without(flight, i) ==> c in flight
    ensures forall c :: c in flight && c != flight[i] ==> c in Without(flight, i)
  {
    forall c | c in flight && c != flight[i] ensures c in Without(flight, i) {
      var k :| 0 <= k < |flight| && flight[k] == c;
      assert Without(flight, i)[if k < i then k else k - 1] == c;
    }
  }

  lemma ClearedKeeps(flight: seq<Copy>, i: nat)
    requires i < |flight|
    ensures var after, cleared := flight[i := flight[i].(cleared := true)], flight[i].(cleared := true);
            && (forall c :: c in after ==> c in flight || c == cleared)
            && (forall c :: c in flight ==> c in after || c == flight[i]) && cleared in after
  {
    var after := flight[i := flight[i].(cleared := true)];
    assert after[i] == flight[i].(cleared := true);
    forall c | c in flight && c != flight[i] ensures c in after {
      var k :| 0 <= k < |flight| && flight[k] == c;
      assert after[k] == c;
    }
  }

  /** A copy that a call now holds cleared still counts as under way on its link. */
  lemma FloodCleared(s: Net, t: Net, g: Graph, i: nat, env: Envelope)
    requires Flooding(s, g, env) && i < |s.flight|
    requires SeenBy(t, env.messageId) == SeenBy(s, env.messageId)
    requires t.flight == s.flight[i := s.flight[i].(cleared := true)]
    ensures Flooding(t, g, env)
  {
    hide SeenBy, Distinct, Elements;
    ClearedKeeps(s.flight, i);
    assert s.flight[i] in s.flight;
    ClearedPending(s.flight, i, env.messageId);
  }

  lemma ClearedPending(flight: seq<Copy>, i: nat, m: Id)
    requires i < |flight|
    ensures Pending(flight[i := flight[i].(cleared := true)], m) == Pending(flight, m)
  {
    var after := flight[i := flight[i].(cleared := true)];
    ClearedKeeps(flight, i);
    forall link ensures link in Pending(after, m) <==> link in Pending(flight, m) {
      if link in Pending(flight, m) {
        var c :| c in flight && c.env.messageId == m && (c.src, c.dst) == link;
        assert (if c == flight[i] then c.(cleared := true) else c) in after;
      }
      if link in Pending(after, m) {
        var c :| c in after && c.env.messageId == m && (c.src, c.dst) == link;
        assert (if c == flight[i].(cleared := true) then flight[i] else c) in flight;
      }
    }
  }

  /** A copy that meets a node that has seen the message is dropped; its link no longer matters. */
  lemma FloodDuplicate(s: Net, t: Net, g: Graph, i: nat, env: Envelope)
    requires Flooding(s, g, env) && i < |s.flight|
    requires s.flight[i].env.messageId == env.messageId && s.flight[i].dst in SeenBy(s, env.messageId)
    requires SeenBy(t, env.messageId) == SeenBy(s, env.messageId) && t.flight == Without(s.flight, i)
    ensures Flooding(t, g, env)
  {
    hide SeenBy, Without, Pending, Distinct;
    var m, c := env.messageId, s.flight[i];
    WithoutKeeps(s.flight, i);
    forall u, v | SeenBy(t, m) != g.Keys && u in SeenBy(t, m) && u in g && v in g[u]
      ensures v in SeenBy(t, m) || (u, v) in Pending(t.flight, m) {
      if v !in SeenBy(t, m) {
        PendingWithout(s.flight, i, m, (u, v));
      }
    }
  }

  lemma TrailGrows(trail: seq<Id>, n: Id, seen: set<Id>)
    requires Distinct(trail) && Elements(trail) <= seen && n !in seen
    ensures Distinct(trail + [n]) && Elements(trail + [n]) <= seen + {n}
  {
    assert forall k :: 0 <= k < |trail| ==> trail[k] in Elements(trail);
  }

  /** A newly reached node passes the message on along all its other links, or was the last to be reached. */
  lemma FloodAccept(s: Net, t: Net, g: Graph, i: nat, env: Envelope, fanout: nat, origin: Id, taken: seq<Id>)
    requires Flooding(s, g, env) && i < |s.flight| && Mesh(g, fanout, origin)
    requires var c, m := s.flight[i], env.messageId;
             && c.env.messageId == m && c.dst !in SeenBy(s, m) && c.dst != origin
             && c.trail != [] && c.trail[|c.trail| - 1] == c.src
             && c.env.hopCount + |c.trail| == env.hopCount + 1
             && SeenBy(t, m) == SeenBy(s, m) + {c.dst} && SeenBy(t, m) <= g.Keys
             && WithinReach(|g|, fanout, env.hopCount)
             && t.flight == Without(s.flight, i) + (if c.env.hopCount > 1 then RelayedCopies(c, taken) else [])
             && (c.env.hopCount > 1 ==> ValidTargets(g[c.dst], c.src, fanout, taken))
    ensures Flooding(t, g, env)
  {
    hide SeenBy, Without, Pending, Distinct, Path, Connected, Launch;
    var m, c := env.messageId, s.flight[i];
    var rest := Without(s.flight, i);
    WithoutKeeps(s.flight, i);
    if c.env.hopCount > 1 {
      var relayed := RelayedCopies(c, taken);
      LaunchedCopies(c.dst, taken, OneHopLess(c.env), c.origin, c.trail + [c.dst]);
      TrailGrows(c.trail, c.dst, SeenBy(s, m));
      PendingWithMore(rest, relayed, m);
      SmallDegreeReachesAll(g[c.dst], c.src, fanout, taken);
      forall u, v | SeenBy(t, m) != g.Keys && u in SeenBy(t, m) && u in g && v in g[u]
        ensures v in SeenBy(t, m) || (u, v) in Pending(t.flight, m) {
        if v !in SeenBy(t, m) {
          if u == c.dst {
            assert c.src in Elements(c.trail);
            assert v in Elements(taken);
            LaunchPends(c.dst, taken, OneHopLess(c.env), c.origin, c.trail + [c.dst], v);
          } else {
            assert SeenBy(s, m) != g.Keys;
            PendingWithout(s.flight, i, m, (u, v));
          }
        }
      }
    } else if fanout == 0 {
      assert t.flight == rest;
      SubsetCardinality({c.src}, g[c.dst]);
      assert c.src in Elements(c.trail);
      forall u, v | SeenBy(t, m) != g.Keys && u in SeenBy(t, m) && u in g && v in g[u]
        ensures v in SeenBy(t, m) || (u, v) in Pending(t.flight, m) {
        if v !in SeenBy(t, m) {
          assert u != c.dst;
          PendingWithout(s.flight, i, m, (u, v));
        }
      }
    } else {
      assert t.flight == rest;
      LastHopMeansAll(s, g, c, env, SeenBy(s, m));
    }
  }

  // ---------- one step of the network ----------

  /** Only handling or broadcasting `m` lets a node see it. */
  lemma SeenByOthers(p: Params, s: Net, ev: Event, m: Id)
    requires Enabled(p, s, ev) && NeverEvicted(Apply(p, s, ev).log, m)
    requires ev.Handle? ==> s.flight[ev.i].env.messageId != m
    requires ev.Broadcast? ==> ev.env.messageId != m
    ensures SeenBy(Apply(p, s, ev), m) == SeenBy(s, m)
  {
    hide Judge, Admit, ValidTargets, Distinct, Elements, Without, Launch, RelayedCopies;
    var t := Apply(p, s, ev);
    assert t.nodes.Keys == s.nodes.Keys;
    if ev.Handle? && GossipType(s.flight[ev.i].env.msgType) {
      hide AfterHandle;
      HandleOutcome(p, s, ev.i, ev.taken, ev.refused);
    }
    forall n | n in s.nodes ensures n in SeenBy(t, m) <==> n in SeenBy(s, m) {
    }
  }

  /** Events about other messages neither add nor remove a copy of `m`. */
  lemma CopiesOfOthers(p: Params, s: Net, ev: Event, m: Id)
    requires Enabled(p, s, ev)
    requires ev.Handle? || ev.Clear? || ev.Lose? ==> s.flight[ev.i].env.messageId != m
    requires ev.Broadcast? ==> ev.env.messageId != m
    ensures forall c: Copy :: c.env.messageId == m ==> (c in Apply(p, s, ev).flight <==> c in s.flight)
  {
    hide Judge, Admit, ValidTargets, Distinct, Elements, Without, Launch;
    match ev
    case Broadcast(node, env, taken, _) => LaunchedCopies(node, taken, env, env, [node]);
    case Handle(i, taken, _) =>
      var c := s.flight[i];
      WithoutKeeps(s.flight, i);
      if c.env.hopCount > 0 {
        LaunchedCopies(c.dst, taken, OneHopLess(c.env), c.origin, c.trail + [c.dst]);
      }
    case Clear(i) =>
      WithoutKeeps(s.flight, i);
      ClearedKeeps(s.flight, i);
    case Lose(i) => WithoutKeeps(s.flight, i);
    case _ =>
  }

  lemma FloodOther(p: Params, s: Net, ev: Event, g: Graph, env: Envelope)
    requires Flooding(s, g, env) && Enabled(p, s, ev) && NeverEvicted(Apply(p, s, ev).log, env.messageId)
    requires ev.Handle? || ev.Clear? || ev.Lose? ==> s.flight[ev.i].env.messageId != env.messageId
    requires ev.Broadcast? ==> ev.env.messageId != env.messageId
    ensures Flooding(Apply(p, s, ev), g, env)
  {
    hide Apply, Enabled, SeenBy, Distinct;
    SeenByOthers(p, s, ev, env.messageId);
    CopiesOfOthers(p, s, ev, env.messageId);
    SameCopiesSamePending(s.flight, Apply(p, s, ev).flight, env.messageId);
  }

  lemma SameCopiesSamePending(a: seq<Copy>, b: seq<Copy>, m: Id)
    requires forall c: Copy :: c.env.messageId == m ==> (c in a <==> c in b)
    ensures Pending(a, m) == Pending(b, m)
  {
  }

  /** An undisturbed copy of a good message is either a duplicate or accepted. */
  lemma VerdictOnGoodCopy(p: Params, s: Net, g: Graph, origin: Id, env: Envelope,
                          i: nat, taken: seq<Id>, refused: seq<Id>)
    requires i < |s.flight| && s.flight[i].dst in s.nodes && s.flight[i].env.messageId == env.messageId
    requires Ready(p, s, g, origin, env) && SimpleTrails(s, g, env)
    requires Enabled(p, s, Handle(i, taken, refused))
    requires OneBroadcast(AfterHandle(p, s, i, taken, refused).log, origin, env)
    ensures InLedger(s.log, s.flight[i]) && GossipType(s.flight[i].env.msgType) && refused == []
    ensures s.flight[i].origin == env
    ensures if s.flight[i].dst in SeenBy(s, env.messageId) then VerdictOn(p, s, s.flight[i]) in {Duplicate, Overtaken}
            else VerdictOn(p, s, s.flight[i]) == Accepted
  {
    hide Judge, Admit, Books, Memory, Mesh, Distinct, Elements, Spreading, ValidTargets, Without,
      RelayedCopies, Verifies;
    var c := s.flight[i];
    assert c in s.flight && InLedger(s.log, c);
    RelayingKeepsSignature(p.c, env, c.env.hopCount, env.senderPubkey, env.senderPubkey);
    GoodMessageAccepted(p, s.nodes[c.dst].engine, s.now, c.env);
  }

  /** Handling a copy of `m` makes at most its destination see it, exactly when it is accepted. */
  lemma SeenByHandled(p: Params, s: Net, i: nat, taken: seq<Id>, refused: seq<Id>, m: Id)
    requires i < |s.flight| && s.flight[i].dst in s.nodes && GossipType(s.flight[i].env.msgType)
    requires s.flight[i].env.messageId == m
    requires VerdictOn(p, s, s.flight[i]) == Accepted ==> s.flight[i].cleared
    ensures SeenBy(AfterHandle(p, s, i, taken, refused), m)
            == SeenBy(s, m) + if VerdictOn(p, s, s.flight[i]) == Accepted then {s.flight[i].dst} else {}
  {
    hide Judge, Admit, AfterHandle;
    HandleOutcome(p, s, i, taken, refused);
  }

  /** Handling a copy of the message itself. */
  lemma FloodHandle(p: Params, s: Net, g: Graph, origin: Id, env: Envelope, i: nat, taken: seq<Id>, refused: seq<Id>)
    requires i < |s.flight| && s.flight[i].dst in s.nodes && s.flight[i].env.messageId == env.messageId
    requires Ready(p, s, g, origin, env) && Flooding(s, g, env)
    requires Broadcasts(s.log, env.messageId) == [(origin, env)]
    requires Enabled(p, s, Handle(i, taken, refused))
    requires OneBroadcast(AfterHandle(p, s, i, taken, refused).log, origin, env)
    ensures Flooding(AfterHandle(p, s, i, taken, refused), g, env)
  {
    hide Judge, Admit, Safe, Mesh, Distinct, Elements, Flooding, OnceEach, PaidAttempts, ValidTargets, Without,
      RelayedCopies, OneBroadcast, GoodMessage, FromOrigin, Broadcasts, Acceptors;
    var m, c, t := env.messageId, s.flight[i], AfterHandle(p, s, i, taken, refused);
    SimpleTrailsOf(s, g, env);
    VerdictOnGoodCopy(p, s, g, origin, env, i, taken, refused);
    SeenByHandled(p, s, i, taken, refused, m);
    var rest := Without(s.flight, i);
    assert taken + refused == taken && rest + [] == rest;
    assert (origin, env) in Broadcasts(s.log, m);
    assert SeenBy(t, m) <= g.Keys;
    if c.dst in SeenBy(s, m) {
      FloodDuplicate(s, t, g, i, env);
    } else {
      FloodAccept(s, t, g, i, env, p.fanout, origin, taken);
    }
  }

  /** A copy of the message gets to the limiter: it stays under way, or is dropped where the message has been seen. */
  lemma FloodClear(p: Params, s: Net, g: Graph, env: Envelope, i: nat)
    requires Flooding(s, g, env) && AtLimiter(p, s, i) && s.flight[i].env.messageId == env.messageId
    ensures Flooding(AfterClear(p, s, i), g, env)
  {
    hide AfterClear, Flooding, Verified, Without;
    var t, c := AfterClear(p, s, i), s.flight[i];
    ClearOutcome(p, s, i);
    assert SeenBy(t, env.messageId) == SeenBy(s, env.messageId);
    if GrantedOn(p, s, c) {
      FloodCleared(s, t, g, i, env);
    } else {
      FloodDuplicate(s, t, g, i, env);
    }
  }

  lemma SimpleTrailsOf(s: Net, g: Graph, env: Envelope)
    requires Flooding(s, g, env)
    ensures SimpleTrails(s, g, env)
  {
  }

  lemma ReadyStep(p: Params, s: Net, ev: Event, g: Graph, origin: Id, env: Envelope)
    requires Ready(p, s, g, origin, env) && Enabled(p, s, ev) && OneBroadcast(Apply(p, s, ev).log, origin, env)
    ensures Ready(p, Apply(p, s, ev), g, origin, env)
  {
    hide Judge, Admit, Ledger, Books, Memory, KeysBound, Mesh, Spreading, GoodMessage, ValidTargets, Distinct;
    var t := Apply(p, s, ev);
    LedgerStep(p, s, ev);
    BooksStep(p, s, ev);
    MemoryStep(p, s, ev);
    KeysBoundStep(p, s, ev);
    UndisturbedNeverEvicts(t.log, env.messageId);
    SpreadingStep(p, s, ev, env.messageId);
    SamePeers(p, s, ev, env.messageId);
  }

  lemma SamePeers(p: Params, s: Net, ev: Event, m: Id)
    requires Enabled(p, s, ev) && Undisturbed(Apply(p, s, ev).log, m)
    ensures PeersOf(Apply(p, s, ev)) == PeersOf(s)
  {
    hide Judge, Admit, ValidTargets, Distinct, Elements, Without, RelayedCopies;
  }

  lemma FloodStep(p: Params, s: Net, ev: Event, g: Graph, origin: Id, env: Envelope)
    requires Ready(p, s, g, origin, env) && Enabled(p, s, ev) && OneBroadcast(Apply(p, s, ev).log, origin, env)
    requires Broadcasts(s.log, env.messageId) != [] ==> Flooding(s, g, env)
    requires Broadcasts(Apply(p, s, ev).log, env.messageId) != []
    ensures Flooding(Apply(p, s, ev), g, env)
  {
    hide Judge, Admit, Ledger, Books, Memory, KeysBound, Mesh, Spreading, GoodMessage, ValidTargets, Distinct, Flooding;
    var m := env.messageId;
    UndisturbedNeverEvicts(Apply(p, s, ev).log, m);
    if ev.Broadcast? && ev.env.messageId == m {
      var t := Apply(p, s, ev);
      assert t.log == Then(s.log, Originated(ev.node, ev.env, ev.taken, ev.refused));
      assert Broadcasts(t.log, m)[|Broadcasts(s.log, m)|] == (ev.node, ev.env);
      assert ev.refused == [];
      NobodyYet(p, s, m);
      FloodStarts(p, s, g, origin, env, ev.taken);
    } else if ev.Handle? && s.flight[ev.i].env.messageId == m {
      FloodHandle(p, s, g, origin, env, ev.i, ev.taken, ev.refused);
    } else if ev.Clear? && s.flight[ev.i].env.messageId == m {
      FloodClear(p, s, g, env, ev.i);
    } else {
      FloodOther(p, s, ev, g, env);
    }
  }

  lemma {:induction false} FloodRun(p: Params, s: Net, events: seq<Event>, g: Graph, origin: Id, env: Envelope)
    requires Legal(p, s, events) && Ready(p, s, g, origin, env)
    requires OneBroadcast(Run(p, s, events).log, origin, env)
    requires Broadcasts(s.log, env.messageId) != [] ==> Flooding(s, g, env)
    ensures var t := Run(p, s, events);
            Ready(p, t, g, origin, env) && (Broadcasts(t.log, env.messageId) != [] ==> Flooding(t, g, env))
    decreases |events|
  {
    hide Apply, Enabled, Ready, Flooding;
    if events != [] {
      var t := Apply(p, s, events[0]);
      RunExtends(p, t, events[1..]);
      OneBroadcastBefore(Run(p, s, events).log, t.log, origin, env);
      ReadyStep(p, s, events[0], g, origin, env);
      if Broadcasts(t.log, env.messageId) != [] {
        FloodStep(p, s, events[0], g, origin, env);
      }
      FloodRun(p, t, events[1..], g, origin, env);
    }
  }

  // ---------- coverage ----------

  lemma NothingPending(flight: seq<Copy>, m: Id)
    requires !InFlight(flight, m)
    ensures Pending(flight, m) == {}
  {
  }

  lemma ConnectedFrom(g: Graph, reached: set<Id>, origin: Id)
    requires Connected(g) && origin in g && origin in reached && reached <= g.Keys
    requires forall u, v :: u in reached && u in g && v in g[u] ==> v in reached
    ensures reached == g.Keys
  {
    forall v | v in g ensures v in reached {
      var path :| Path(g, path) && path[0] == origin && path[|path| - 1] == v;
      ClosedSetHoldsPath(g, reached, path);
    }
  }

  /** Once no copy is in flight, everyone has seen the message. */
  lemma QuiescentMeansSeen(s: Net, g: Graph, fanout: nat, origin: Id, env: Envelope)
    requires Flooding(s, g, env) && Mesh(g, fanout, origin) && PeersOf(s) == g
    requires origin in SeenBy(s, env.messageId) && !InFlight(s.flight, env.messageId)
    ensures SeenBy(s, env.messageId) == g.Keys
  {
    hide Connected, InFlight, Pending, SimpleTrails;
    NothingPending(s.flight, env.messageId);
    if SeenBy(s, env.messageId) != g.Keys {
      ConnectedFrom(g, SeenBy(s, env.messageId), origin);
    }
  }

  /**
   Coverage. Fix a reachable state of a network whose connections never changed, form a mesh of at most one more node
   than a copy of the envelope can travel links (or one where relays have nobody to relay to). If the good message `env`
   was broadcast once, by `origin`, and was never dropped, evicted or rate-limited, then when no copy of it is in flight
   every other node has accepted it exactly once and the originator never.
   */
  lemma Coverage(p: Params, s: Net, origin: Id, env: Envelope, n: Id)
    requires Reachable(p, s) && Injective(p.c.sha256) && GoodMessage(p.c, env)
    requires Mesh(PeersOf(s), p.fanout, origin) && WithinReach(|s.nodes|, p.fanout, env.hopCount)
    requires OneBroadcast(s.log, origin, env) && Broadcasts(s.log, env.messageId) == [(origin, env)]
    requires !InFlight(s.flight, env.messageId)
    requires n in s.nodes
    ensures AcceptCount(s.log, n, env.messageId) == if n == origin then 0 else 1
  {
    hide Legal, Run, Mesh, GoodMessage, Ledger, Books, KeysBound, PaidAttempts, Flooding, Acceptors;
    var m, g := env.messageId, PeersOf(s);
    var s0, events := FreshStart(p, s);
    RunExtends(p, s0, events);
    OneBroadcastBefore(s.log, s0.log, origin, env);
    SamePeersRun(p, s0, events, m);
    assert |g| == |s.nodes| by {
      assert g.Keys == s.nodes.Keys;
    }
    FreshIsReady(p, s0, g, origin, env);
    FloodRun(p, s0, events, g, origin, env);
    assert (origin, env) in Broadcasts(s.log, m);
    QuiescentMeansSeen(s, g, p.fanout, origin, env);
    UndisturbedNeverEvicts(s.log, m);
    RememberedExactly(s.log, n, m);
    assert n in SeenBy(s, m);
  }

  lemma {:induction false} UndisturbedBefore(later: History, h: History, m: Id)
    requires Extends(later, h) && Undisturbed(later, m)
    ensures Undisturbed(h, m)
  {
    if later != h {
      UndisturbedBefore(later.before, h, m);
    }
  }

  lemma {:induction false} SamePeersRun(p: Params, s: Net, events: seq<Event>, m: Id)
    requires Legal(p, s, events) && Undisturbed(Run(p, s, events).log, m)
    ensures PeersOf(Run(p, s, events)) == PeersOf(s)
    decreases |events|
  {
    hide Apply, Enabled, PeersOf;
    if events != [] {
      var t := Apply(p, s, events[0]);
      RunExtends(p, t, events[1..]);
      UndisturbedBefore(Run(p, s, events).log, t.log, m);
      SamePeers(p, s, events[0], m);
      SamePeersRun(p, t, events[1..], m);
    }
  }

  lemma FreshIsReady(p: Params, s: Net, g: Graph, origin: Id, env: Envelope)
    requires Fresh(p, s) && Injective(p.c.sha256) && GoodMessage(p.c, env)
    requires Mesh(g, p.fanout, origin) && PeersOf(s) == g && WithinReach(|g|, p.fanout, env.hopCount)
    ensures Ready(p, s, g, origin, env)
  {
    hide Mesh, GoodMessage;
  }
}
