/**
 What eviction does to exactly-once: a node accepts a message once more for every time its seen entry expires, and
 an entry can expire while copies are still under way. The hop count, not the seen cache, ends a message's travels.
 */
module NetworkExpiry {
  import opened ByteStrings
  import opened Crypto
  import opened Envelopes
  import opened RateLimiters
  import opened SeenCaches
  import opened Sequences
  import opened Gossip
  import opened Network
  import opened NetworkSafety
  import opened NetworkCoverage
  import opened NetworkTightness

  // ---------- one acceptance for every time the id is forgotten ----------

  /** How often node `n` evicted message `m`. */
  function EvictionCount(h: History, n: Id, m: Id): (count: nat) {
    match h
    case Start => 0
    case Then(before, r) => EvictionCount(before, n, m) + if r.Evicted? && r.node == n && m in r.ids then 1 else 0
  }

  /** How often node `n` broadcast `m` without remembering it. */
  function FreshBroadcasts(h: History, n: Id, m: Id): (count: nat) {
    match h
    case Start => 0
    case Then(before, r) =>
      FreshBroadcasts(before, n, m)
      + if r.Originated? && r.node == n && r.env.messageId == m && m !in Remembered(before, n) then 1 else 0
  }

  ghost predicate MarksBalance(h: History, n: Id, m: Id) {
    AcceptCount(h, n, m) + FreshBroadcasts(h, n, m) == EvictionCount(h, n, m) + if m in Remembered(h, n) then 1 else 0
  }

  lemma MarksStep(p: Params, s: Net, ev: Event, n: Id, m: Id)
    requires Memory(s) && n in s.nodes && Enabled(p, s, ev) && MarksBalance(s.log, n, m)
    ensures n in Apply(p, s, ev).nodes && MarksBalance(Apply(p, s, ev).log, n, m)
  {
    hide Judge, Admit, ValidTargets, Distinct, Elements, Launch, RelayedCopies, Without;
    match ev
    case Handle(i, taken, refused) =>
      if GossipType(s.flight[i].env.msgType) {
        hide AfterHandle;
        HandleOutcome(p, s, i, taken, refused);
      }
    case _ =>
  }

  lemma {:induction false} MarksRun(p: Params, s: Net, events: seq<Event>, n: Id, m: Id)
    requires Memory(s) && n in s.nodes && Legal(p, s, events) && MarksBalance(s.log, n, m)
    ensures n in Run(p, s, events).nodes && MarksBalance(Run(p, s, events).log, n, m)
    decreases |events|
  {
    hide Apply, Enabled, Memory, MarksBalance;
    if events != [] {
      MemoryStep(p, s, events[0]);
      MarksStep(p, s, events[0], n, m);
      MarksRun(p, Apply(p, s, events[0]), events[1..], n, m);
    }
  }

  /**
   In every run, with any evictions: a node's acceptances of a message and its own first broadcasts of it are as
   many as the times it has forgotten it, and one more while it remembers it.
   */
  lemma AcceptancesCountEvictions(p: Params, s: Net, n: Id, m: Id)
    requires Reachable(p, s) && n in s.nodes
    ensures AcceptCount(s.log, n, m) + FreshBroadcasts(s.log, n, m)
            == EvictionCount(s.log, n, m) + if m in s.nodes[n].engine.seen then 1 else 0
    ensures AcceptCount(s.log, n, m) <= 1 + EvictionCount(s.log, n, m)
  {
    var s0, events := FreshStart(p, s);
    hide Legal, Run;
    SameNodesRun(p, s0, events);
    MarksRun(p, s0, events, n, m);
    SeenIsRemembered(p, s, n, m);
  }

  // ---------- a second acceptance ----------

  /** A good copy at an idle node: what is left in the engine can expire from now on. */
  lemma IdleNodeAccepts(p: Params, s: Net, i: nat, taken: seq<Id>, env: Envelope, hops: uint32) returns (t: Net)
    requires Injective(p.c.sha256) && GoodMessage(p.c, env) && Reachable(p, s)
    requires i < |s.flight| && s.flight[i].env == env.(hopCount := hops) && 1 < hops <= env.hopCount
    requires s.flight[i].dst in s.nodes && s.nodes[s.flight[i].dst].engine == IdleEngine() && !s.flight[i].cleared
    requires ValidTargets(s.nodes[s.flight[i].dst].peers, s.flight[i].src, p.fanout, taken + [])
    ensures Reachable(p, t) && t.now == s.now && PeersOf(t) == PeersOf(s)
    ensures var (n, e) := (s.flight[i].dst, s.flight[i].env);
            t.log == Then(Then(s.log, Cleared(n, e)), Handled(n, e, Accepted, taken, []))
    ensures t.flight == Without(s.flight, i) + RelayedCopies(s.flight[i], taken)
    ensures s.flight[i].dst in t.nodes
    ensures var e := t.nodes[s.flight[i].dst].engine;
            && e.seen == map[env.messageId := s.now]
            && e.senders == map[env.senderId := Bucket(Burst(p.rate) - 1.0, s.now)]
    ensures forall n :: n in s.nodes && n != s.flight[i].dst ==> n in t.nodes && t.nodes[n] == s.nodes[n]
  {
    hide Judge, Admit, Reachable, Verifies, ValidTargets, RelayedCopies, Without;
    RelayingKeepsSignature(p.c, env, hops, env.senderPubkey, env.senderPubkey);
    GoodMessageAccepted(p, IdleEngine(), s.now, s.flight[i].env);
    t := AcceptInTwoSteps(p, s, i, taken);
    assert PeersOf(t) == PeersOf(s);
  }

  /** Once both caches of node `n` are old enough, cleanup leaves them empty. */
  lemma EverythingExpires(p: Params, s: Net, n: Id, m: Id, sender: Id, at: real, tokens: real) returns (t: Net)
    requires Reachable(p, s) && n in s.nodes && at <= s.now
    requires s.nodes[n].engine.seen == map[m := at] && s.nodes[n].engine.senders == map[sender := Bucket(tokens, at)]
    ensures Reachable(p, t) && t.flight == s.flight && PeersOf(t) == PeersOf(s)
    ensures n in t.nodes && t.nodes[n].engine.seen == map[] && t.nodes[n].engine.senders == map[]
    ensures t.log == Then(s.log, Evicted(n, {m}))
  {
    hide Reachable;
    var dt := (if p.ttl > IDLE_SECONDS then p.ttl else IDLE_SECONDS) + 1.0;
    ReachableStep(p, s, Tick(dt));
    var s1 := Apply(p, s, Tick(dt));
    ReachableStep(p, s1, ForgetSeen(n));
    var s2 := Apply(p, s1, ForgetSeen(n));
    assert Unexpired(s1.nodes[n].engine.seen, p.ttl, s1.now) == map[];
    assert s1.nodes[n].engine.seen.Keys == {m} && {m} - s2.nodes[n].engine.seen.Keys == {m};
    assert s2.log == Then(s1.log, Evicted(n, {m}));
    ReachableStep(p, s2, ForgetSenders(n));
    t := Apply(p, s2, ForgetSenders(n));
    assert Active(s2.nodes[n].engine.senders, s2.now) == map[];
    assert PeersOf(t) == PeersOf(s);
  }

  lemma TrianglePeers()
    ensures Neighbours(3, 2, 1) == {Name(0), Name(2)} && Neighbours(3, 2, 2) == {Name(0), Name(1)}
  {
    forall v ensures v in Neighbours(3, 2, 1) <==> v in {Name(0), Name(2)} {
      NeighbourOf(3, 2, 1, v);
    }
    forall v ensures v in Neighbours(3, 2, 2) <==> v in {Name(0), Name(1)} {
      NeighbourOf(3, 2, 2, v);
    }
  }

  lemma OneTarget(peers: set<Id>, exclude: Id, target: Id, fanout: nat)
    requires peers == {exclude, target} && exclude != target && fanout >= 1
    ensures ValidTargets(peers, exclude, fanout, [target] + [])
  {
    assert peers - {exclude} == {target};
    assert [target] + [] == [target];
  }

  /** In a triangle, both neighbours of the originator accept the message and pass it on to each other. */
  lemma TriangleHears(p: Params, env: Envelope) returns (s: Net)
    requires Injective(p.c.sha256) && GoodMessage(p.c, env) && p.fanout >= 1 && env.hopCount >= 2
    ensures Reachable(p, s) && PeersOf(s) == Lasso(3, 2) && s.now == 0.0
    ensures |s.flight| == 2 && !s.flight[1].cleared && s.flight[1].src == Name(2) && s.flight[1].dst == Name(1)
    ensures s.flight[1].env == env.(hopCount := env.hopCount - 1)
    ensures Broadcasts(s.log, env.messageId) == [(Name(0), env)]
    ensures AcceptCount(s.log, Name(1), env.messageId) == 1 && EvictionCount(s.log, Name(1), env.messageId) == 0
    ensures Name(1) in s.nodes
    ensures var e := s.nodes[Name(1)].engine;
            && e.seen == map[env.messageId := 0.0]
            && e.senders == map[env.senderId := Bucket(Burst(p.rate) - 1.0, 0.0)]
  {
    hide GoodMessage, Reachable, Neighbours, ValidTargets;
    TrianglePeers();
    NameOf(3, Name(1));
    NameOf(3, Name(2));
    var s1 := WaveStarts(p, env, 3, 2);
    TriangleStarts(s1.log, env);
    assert s1.flight[1] == Front(env, 1) && s1.flight[0].dst == Name(2);
    assert PeersOf(s1)[Name(1)] == s1.nodes[Name(1)].peers && PeersOf(s1)[Name(2)] == s1.nodes[Name(2)].peers;
    OneTarget(s1.nodes[Name(1)].peers, Name(0), Name(2), p.fanout);
    OneTarget(s1.nodes[Name(2)].peers, Name(0), Name(1), p.fanout);
    var s2 := IdleNodeAccepts(p, s1, 1, [Name(2)], env, env.hopCount);
    AcceptanceRecorded(s1.log, Name(1), s1.flight[1].env, [Name(2)], Name(1));
    assert s2.flight[0] == s1.flight[0];
    s := IdleNodeAccepts(p, s2, 0, [Name(1)], env, env.hopCount);
    AcceptanceRecorded(s2.log, Name(2), s2.flight[0].env, [Name(1)], Name(1));
    assert |RelayedCopies(s2.flight[0], [Name(1)])| == 1;
  }

  lemma TriangleStarts(h: History, env: Envelope)
    requires h.Then? && h.before == Start && h.record.Originated?
    ensures AcceptCount(h, Name(1), env.messageId) == 0 && EvictionCount(h, Name(1), env.messageId) == 0
  {
  }

  /** Entries do expire under way: one broadcast, and a node that accepts it twice. */
  lemma ExpiryAllowsSecondAcceptance(p: Params, env: Envelope) returns (s: Net, n: Id)
    requires Injective(p.c.sha256) && GoodMessage(p.c, env) && p.fanout >= 1 && env.hopCount >= 2
    ensures Reachable(p, s) && n in s.nodes
    ensures Broadcasts(s.log, env.messageId) == [(Name(0), env)]
    ensures AcceptCount(s.log, n, env.messageId) == 2 && EvictionCount(s.log, n, env.messageId) == 1
  {
    hide Reachable, Neighbours, ValidTargets, Judge, Admit, Verifies;
    n := Name(1);
    var m := env.messageId;
    var s1 := TriangleHears(p, env);
    var s2 := EverythingExpires(p, s1, n, m, env.senderId, 0.0, Burst(p.rate) - 1.0);
    TrianglePeers();
    NameOf(3, n);
    assert PeersOf(s2)[n] == s2.nodes[n].peers;
    OneTarget(s2.nodes[n].peers, Name(2), Name(0), p.fanout);
    ReachableIsSafe(p, s2);
    RelayingKeepsSignature(p.c, env, env.hopCount - 1, env.senderPubkey, env.senderPubkey);
    GoodMessageAccepted(p, s2.nodes[n].engine, s2.now, s2.flight[1].env);
    var taken := if env.hopCount > 2 then [Name(0)] else [];
    s := AcceptInTwoSteps(p, s2, 1, taken);
    AcceptanceRecorded(s2.log, n, s2.flight[1].env, taken, n);
  }

  /** What the two steps of an acceptance add to the counts. */
  lemma AcceptanceRecorded(h: History, n: Id, env: Envelope, taken: seq<Id>, x: Id)
    ensures var m := env.messageId;
            var h' := Then(Then(h, Cleared(n, env)), Handled(n, env, Accepted, taken, []));
            && AcceptCount(h', x, m) == AcceptCount(h, x, m) + (if x == n then 1 else 0)
            && EvictionCount(h', x, m) == EvictionCount(h, x, m)
            && Broadcasts(h', m) == Broadcasts(h, m)
  {
    var cleared := Then(h, Cleared(n, env));
    assert AcceptCount(cleared, x, env.messageId) == AcceptCount(h, x, env.messageId);
    assert EvictionCount(cleared, x, env.messageId) == EvictionCount(h, x, env.messageId);
    assert Broadcasts(cleared, env.messageId) == Broadcasts(h, env.messageId);
  }
}
