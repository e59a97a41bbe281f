/**
 A network of gossip engines as a step system: every node runs the engine of internal/gossip/gossip.go, and
 copies of envelopes travel between them in any order. A call of HandleIncoming that gets past the limiter is two
 steps, since calls for other copies may come between its token and its test-and-set. An event carries every choice
 the system makes, so a run is a sequence of events and the state after it is a function of them.
 */
module Network {
  import opened ByteStrings
  import opened Crypto
  import opened Envelopes
  import opened KeyRings
  import opened RateLimiters
  import opened SeenCaches
  import opened Sequences
  import opened Gossip

  /**
   One copy in flight from `src` to `dst`, or in the hands of `dst` if `cleared`: then a call for it has passed every
   check and spent a token, and is about to test and set. `origin` and `trail` record where the copy came from, the
   envelope broadcast and the nodes it visited since; no step looks at them.
   */
  datatype Copy = Copy(src: Id, dst: Id, env: Envelope, origin: Envelope, trail: seq<Id>, cleared: bool)

  /** What happened, newest record outermost. */
  datatype Record =
    | Originated(node: Id, env: Envelope, taken: seq<Id>, refused: seq<Id>)
    | Cleared(node: Id, env: Envelope)
    | Handled(node: Id, env: Envelope, verdict: Verdict, taken: seq<Id>, refused: seq<Id>)
    | Discarded(env: Envelope)
    | Evicted(node: Id, ids: set<Id>)
    | Relinked(node: Id)

  datatype History = Start | Then(before: History, record: Record)

  datatype Node = Node(engine: EngineState, peers: set<Id>)

  datatype Net = Net(nodes: map<Id, Node>, flight: seq<Copy>, now: real, log: History)

  datatype Event =
    | Tick(dt: real)
    | Broadcast(node: Id, env: Envelope, taken: seq<Id>, refused: seq<Id>)
    | Clear(i: nat)
    | Handle(i: nat, taken: seq<Id>, refused: seq<Id>)
    | Lose(i: nat)
    | ForgetSeen(node: Id)
    | ForgetSenders(node: Id)
    | LearnKey(node: Id, key: Key, trust: Trust)
    | Relink(node: Id, peers: set<Id>)

  const MSG_TYPE_PEER_HELLO: uint32 := 1
  const MSG_TYPE_PEER_HELLO_ACK: uint32 := 2
  const MSG_TYPE_CHAT: uint32 := 3
  const MSG_TYPE_PEER_EXCHANGE: uint32 := 4
  const MSG_TYPE_KEEPALIVE: uint32 := 5

  /** The receive loop routes every other message type to the engine. */
  predicate GossipType(msgType: uint32) {
    msgType !in {MSG_TYPE_PEER_HELLO, MSG_TYPE_PEER_HELLO_ACK, MSG_TYPE_PEER_EXCHANGE, MSG_TYPE_KEEPALIVE}
  }

  function VerdictOn(p: Params, s: Net, c: Copy): (v: Verdict)
    requires c.dst in s.nodes
  {
    if !c.cleared then Judge(p, s.nodes[c.dst].engine, s.now, c.env)
    else if c.env.messageId in s.nodes[c.dst].engine.seen then Overtaken
    else Accepted
  }

  predicate GrantedOn(p: Params, s: Net, c: Copy)
    requires c.dst in s.nodes
  {
    Grants(s.nodes[c.dst].engine.senders, c.env.senderId, s.now, p.rate)
  }

  /**
   A call for the copy has got to the limiter. It may have looked at the seen cache some time ago, so the id may be
   marked by now; a call that the limiter refuses while the id is not is one step, as every other refusal.
   */
  predicate AtLimiter(p: Params, s: Net, i: nat) {
    && i < |s.flight| && s.flight[i].dst in s.nodes
    && var c := s.flight[i];
       var e := s.nodes[c.dst].engine;
       !c.cleared && GossipType(c.env.msgType) && Verified(p, e, c.env)
       && (GrantedOn(p, s, c) || c.env.messageId in e.seen)
  }

  ghost predicate Enabled(p: Params, s: Net, ev: Event) {
    match ev
    case Tick(dt) => dt >= 0.0
    case Broadcast(node, env, taken, refused) =>
      node in s.nodes && Distinct(taken + refused) && Elements(taken + refused) == s.nodes[node].peers
    case Clear(i) => AtLimiter(p, s, i)
    case Handle(i, taken, refused) =>
      && i < |s.flight| && s.flight[i].dst in s.nodes
      && var c := s.flight[i];
         (GossipType(c.env.msgType) && VerdictOn(p, s, c) == Accepted ==> c.cleared) &&
         if GossipType(c.env.msgType) && Relays(VerdictOn(p, s, c), c.env)
         then ValidTargets(s.nodes[c.dst].peers, c.src, p.fanout, taken + refused)
         else taken == [] && refused == []
    case Lose(i) => i < |s.flight| && !s.flight[i].cleared
    case ForgetSeen(node) => node in s.nodes
    case ForgetSenders(node) => node in s.nodes
    case LearnKey(node, key, trust) => node in s.nodes && |key| == PUBLIC_KEY_SIZE
    case Relink(node, peers) => node in s.nodes
  }

  function Launch(src: Id, targets: seq<Id>, env: Envelope, origin: Envelope, trail: seq<Id>): (copies: seq<Copy>) {
    seq(|targets|, i requires 0 <= i < |targets| => Copy(src, targets[i], env, origin, trail, false))
  }

  function Without(flight: seq<Copy>, i: nat): (r: seq<Copy>)
    requires i < |flight|
  {
    flight[..i] + flight[i + 1..]
  }

  function WithEngine(s: Net, node: Id, e: EngineState): (nodes: map<Id, Node>)
    requires node in s.nodes
  {
    s.nodes[node := s.nodes[node].(engine := e)]
  }

  /** What the copies look like that a relayed copy turns into. */
  function RelayedCopies(c: Copy, targets: seq<Id>): (copies: seq<Copy>)
    requires c.env.hopCount > 0
  {
    Launch(c.dst, targets, OneHopLess(c.env), c.origin, c.trail + [c.dst])
  }

  function AfterHandle(p: Params, s: Net, i: nat, taken: seq<Id>, refused: seq<Id>): (r: Net)
    requires i < |s.flight| && s.flight[i].dst in s.nodes
  {
    var c := s.flight[i];
    var rest := Without(s.flight, i);
    if !GossipType(c.env.msgType) then s.(flight := rest, log := Then(s.log, Discarded(c.env)))
    else
      var v := VerdictOn(p, s, c);
      var before := s.nodes[c.dst].engine;
      var e := if c.cleared then AfterCheck(p, before, s.now, c.env) else Admit(p, before, s.now, c.env);
      s.(nodes := WithEngine(s, c.dst, CountForward(e, |taken|, |refused|)),
         flight := rest + (if Relays(v, c.env) then RelayedCopies(c, taken) else []),
         log := Then(s.log, Handled(c.dst, c.env, v, taken, refused)))
  }

  /** The limiter's answer: the call holds its copy cleared, or drops it. */
  function AfterClear(p: Params, s: Net, i: nat): (r: Net)
    requires i < |s.flight| && s.flight[i].dst in s.nodes
  {
    var c := s.flight[i];
    var granted := GrantedOn(p, s, c);
    s.(nodes := WithEngine(s, c.dst, AfterAllow(p, s.nodes[c.dst].engine, s.now, c.env)),
       flight := if granted then s.flight[i := c.(cleared := true)] else Without(s.flight, i),
       log := Then(s.log, if granted then Cleared(c.dst, c.env) else Handled(c.dst, c.env, OvertakenLimited, [], [])))
  }

  /** One call at the limiter: only keys and buckets of its node change. */
  lemma ClearOutcome(p: Params, s: Net, i: nat)
    requires i < |s.flight| && s.flight[i].dst in s.nodes
    ensures var c, t := s.flight[i], AfterClear(p, s, i);
            var e, e' := s.nodes[c.dst].engine, t.nodes[c.dst].engine;
            && t.now == s.now && t.nodes.Keys == s.nodes.Keys
            && t.nodes[c.dst].peers == s.nodes[c.dst].peers
            && (forall n :: n in s.nodes && n != c.dst ==> t.nodes[n] == s.nodes[n])
            && e' == e.(keys := e'.keys, senders := Spent(e.senders, c.env.senderId, s.now, p.rate))
            && (Bound(p.c, e.keys) ==> Bound(p.c, e'.keys))
            && t.log == Then(s.log, if GrantedOn(p, s, c) then Cleared(c.dst, c.env)
                                    else Handled(c.dst, c.env, OvertakenLimited, [], []))
            && t.flight == if GrantedOn(p, s, c) then s.flight[i := c.(cleared := true)] else Without(s.flight, i)
  {
    hide Verifies, Grants, Spent;
  }

  /** One handled gossip copy: who changes, and how its seen cache, keyring and limiter do. */
  lemma HandleOutcome(p: Params, s: Net, i: nat, taken: seq<Id>, refused: seq<Id>)
    requires i < |s.flight| && s.flight[i].dst in s.nodes && GossipType(s.flight[i].env.msgType)
    requires VerdictOn(p, s, s.flight[i]) == Accepted ==> s.flight[i].cleared
    ensures var c, t := s.flight[i], AfterHandle(p, s, i, taken, refused);
            var v, e, e' := VerdictOn(p, s, c), s.nodes[c.dst].engine, t.nodes[c.dst].engine;
            && t.log == Then(s.log, Handled(c.dst, c.env, v, taken, refused))
            && t.now == s.now && t.nodes.Keys == s.nodes.Keys
            && t.nodes[c.dst].peers == s.nodes[c.dst].peers
            && (forall n :: n in s.nodes && n != c.dst ==> t.nodes[n] == s.nodes[n])
            && e'.seen == (if v == Accepted then Marked(e.seen, c.env.messageId, s.now) else e.seen)
            && e'.senders == (if v == RateLimited then Spent(e.senders, c.env.senderId, s.now, p.rate) else e.senders)
            && e'.received == e.received + (if v == Accepted then 1 else 0)
            && e'.delivered == e.delivered + (if v == Accepted && c.env.msgType in p.handlers then 1 else 0)
            && e'.broadcast == e.broadcast
            && e'.forwarded == e.forwarded + |taken| && e'.dropped == e.dropped + |refused|
            && (Bound(p.c, e.keys) ==> Bound(p.c, e'.keys))
            && (v == Accepted ==> c.env.messageId !in e.seen && c.cleared)
            && (v == RateLimited ==> c.env.messageId !in e.seen && !GrantedOn(p, s, c))
            && v != OvertakenLimited
  {
    hide Verifies, Grants, Spent;
  }

  /** The event is about nodes and copies that exist. */
  predicate Possible(s: Net, ev: Event) {
    match ev
    case Tick(_) => true
    case Clear(i) => i < |s.flight| && s.flight[i].dst in s.nodes
    case Handle(i, _, _) => i < |s.flight| && s.flight[i].dst in s.nodes
    case Lose(i) => i < |s.flight|
    case _ => ev.node in s.nodes
  }

  /** The state after an enabled event; what is not possible changes nothing. */
  function Apply(p: Params, s: Net, ev: Event): (r: Net) {
    if !Possible(s, ev) then s else
    match ev
    case Tick(dt) => s.(now := s.now + dt)
    case Broadcast(node, env, taken, refused) =>
      var e := Originate(s.nodes[node].engine, s.now, env.messageId, |taken|, |refused|);
      s.(nodes := WithEngine(s, node, e),
         flight := s.flight + Launch(node, taken, env, env, [node]),
         log := Then(s.log, Originated(node, env, taken, refused)))
    case Clear(i) => AfterClear(p, s, i)
    case Handle(i, taken, refused) => AfterHandle(p, s, i, taken, refused)
    case Lose(i) =>
      s.(flight := Without(s.flight, i), log := Then(s.log, Discarded(s.flight[i].env)))
    case ForgetSeen(node) =>
      var e := s.nodes[node].engine;
      var kept := Unexpired(e.seen, p.ttl, s.now);
      s.(nodes := WithEngine(s, node, e.(seen := kept)), log := Then(s.log, Evicted(node, e.seen.Keys - kept.Keys)))
    case ForgetSenders(node) =>
      var e := s.nodes[node].engine;
      s.(nodes := WithEngine(s, node, e.(senders := Active(e.senders, s.now))))
    case LearnKey(node, key, trust) =>
      var e := s.nodes[node].engine;
      s.(nodes := WithEngine(s, node, e.(keys := Added(e.keys, NodeIdOf(p.c, key), key, trust))))
    case Relink(node, peers) =>
      s.(nodes := s.nodes[node := s.nodes[node].(peers := peers)], log := Then(s.log, Relinked(node)))
  }

  ghost predicate Legal(p: Params, s: Net, events: seq<Event>)
    decreases |events|
  {
    events == [] || (Enabled(p, s, events[0]) && Legal(p, Apply(p, s, events[0]), events[1..]))
  }

  function Run(p: Params, s: Net, events: seq<Event>): (r: Net)
    decreases |events|
  {
    if events == [] then s else Run(p, Apply(p, s, events[0]), events[1..])
  }

  /** Fresh engines with arbitrary peers, bound keyrings, nothing in flight. */
  ghost predicate Fresh(p: Params, s: Net) {
    && (forall n :: n in s.nodes ==>
          var e := s.nodes[n].engine;
          e == EngineState(map[], e.keys, map[], 0, 0, 0, 0, 0) && Bound(p.c, e.keys))
    && s.flight == [] && s.log == Start
  }

  ghost predicate Reachable(p: Params, s: Net) {
    exists s0, events :: Fresh(p, s0) && Legal(p, s0, events) && Run(p, s0, events) == s
  }

  /** `h` is what `later` has grown from. */
  predicate Extends(later: History, h: History) {
    later == h || (later.Then? && Extends(later.before, h))
  }

  lemma {:induction false} ExtendsTransitively(h3: History, h2: History, h1: History)
    requires Extends(h3, h2) && Extends(h2, h1)
    ensures Extends(h3, h1)
  {
    if h3 != h2 {
      ExtendsTransitively(h3.before, h2, h1);
    }
  }

  /** A run only adds to the history. */
  lemma {:induction false} RunExtends(p: Params, s: Net, events: seq<Event>)
    requires Legal(p, s, events)
    ensures Extends(Run(p, s, events).log, s.log)
    decreases |events|
  {
    hide Judge, Admit, ValidTargets;
    if events != [] {
      var t := Apply(p, s, events[0]);
      assert Extends(t.log, s.log);
      RunExtends(p, t, events[1..]);
      ExtendsTransitively(Run(p, s, events).log, t.log, s.log);
    }
  }

  lemma SameNodesStep(p: Params, s: Net, ev: Event)
    requires Enabled(p, s, ev)
    ensures Apply(p, s, ev).nodes.Keys == s.nodes.Keys
  {
    hide Judge, Admit, ValidTargets;
  }

  lemma {:induction false} SameNodesRun(p: Params, s: Net, events: seq<Event>)
    requires Legal(p, s, events)
    ensures Run(p, s, events).nodes.Keys == s.nodes.Keys
    decreases |events|
  {
    hide Apply, Enabled;
    if events != [] {
      SameNodesStep(p, s, events[0]);
      SameNodesRun(p, Apply(p, s, events[0]), events[1..]);
    }
  }

  lemma FreshStart(p: Params, s: Net) returns (s0: Net, events: seq<Event>)
    requires Reachable(p, s)
    ensures Fresh(p, s0) && Legal(p, s0, events) && Run(p, s0, events) == s
  {
    s0, events :| Fresh(p, s0) && Legal(p, s0, events) && Run(p, s0, events) == s;
  }

  lemma ReachableStep(p: Params, s: Net, ev: Event)
    requires Reachable(p, s) && Enabled(p, s, ev)
    ensures Reachable(p, Apply(p, s, ev))
  {
    hide Fresh, Enabled, Apply;
    var s0, events := FreshStart(p, s);
    RunOneMore(p, s0, events, ev);
  }

  lemma {:induction false} RunOneMore(p: Params, s: Net, events: seq<Event>, ev: Event)
    requires Legal(p, s, events) && Enabled(p, Run(p, s, events), ev)
    ensures Legal(p, s, events + [ev]) && Run(p, s, events + [ev]) == Apply(p, Run(p, s, events), ev)
    decreases |events|
  {
    hide Enabled, Apply;
    var t := Run(p, s, events);
    if events == [] {
      assert [] + [ev] == [ev] && [ev][1..] == [];
      assert Legal(p, Apply(p, t, ev), []);
    } else {
      RunOneMore(p, Apply(p, s, events[0]), events[1..], ev);
      assert (events + [ev])[1..] == events[1..] + [ev];
    }
  }

  lemma {:induction false} ReachableRun(p: Params, s: Net, events: seq<Event>)
    requires Reachable(p, s) && Legal(p, s, events)
    ensures Reachable(p, Run(p, s, events))
    decreases |events|
  {
    hide Apply, Enabled, Reachable;
    if events != [] {
      ReachableStep(p, s, events[0]);
      ReachableRun(p, Apply(p, s, events[0]), events[1..]);
    }
  }

  /** The two steps of an accepting call, one right after the other. */
  lemma AcceptInTwoSteps(p: Params, s: Net, i: nat, taken: seq<Id>) returns (t: Net)
    requires Reachable(p, s) && i < |s.flight| && s.flight[i].dst in s.nodes
    requires !s.flight[i].cleared && GossipType(s.flight[i].env.msgType) && VerdictOn(p, s, s.flight[i]) == Accepted
    requires var c := s.flight[i];
             if c.env.hopCount > 1 then ValidTargets(s.nodes[c.dst].peers, c.src, p.fanout, taken + []) else taken == []
    ensures var c := s.flight[i];
            && Reachable(p, t) && t.now == s.now && t.nodes.Keys == s.nodes.Keys
            && t.nodes[c.dst].peers == s.nodes[c.dst].peers
            && (forall n :: n in s.nodes && n != c.dst ==> t.nodes[n] == s.nodes[n])
            && t.log == Then(Then(s.log, Cleared(c.dst, c.env)), Handled(c.dst, c.env, Accepted, taken, []))
            && t.flight == Without(s.flight, i) + (if c.env.hopCount > 1 then RelayedCopies(c, taken) else [])
            && t.nodes[c.dst].engine.seen == Marked(s.nodes[c.dst].engine.seen, c.env.messageId, s.now)
            && t.nodes[c.dst].engine.senders == Spent(s.nodes[c.dst].engine.senders, c.env.senderId, s.now, p.rate)
  {
    var c := s.flight[i];
    TwoStepsMakeOneCall(p, s.nodes[c.dst].engine, s.now, c.env);
    hide Judge, Admit, Reachable, Verified, AfterClear, AfterHandle, Spent, Grants, ValidTargets, RelayedCopies;
    assert taken == [] ==> taken + [] == [];
    ReachableStep(p, s, Clear(i));
    var u := Apply(p, s, Clear(i));
    ClearOutcome(p, s, i);
    assert Without(u.flight, i) == Without(s.flight, i);
    assert VerdictOn(p, u, u.flight[i]) == Accepted;
    ReachableStep(p, u, Handle(i, taken, []));
    t := Apply(p, u, Handle(i, taken, []));
    HandleOutcome(p, u, i, taken, []);
    if c.env.hopCount > 1 {
      RelayedUnder(u, c, i, taken);
    }
    HandledFlight(p, u, i, taken, []);
  }

  lemma RelayedUnder(u: Net, c: Copy, i: nat, taken: seq<Id>)
    requires i < |u.flight| && u.flight[i] == c.(cleared := true) && c.env.hopCount > 0
    ensures RelayedCopies(u.flight[i], taken) == RelayedCopies(c, taken)
  {
  }

  lemma HandledFlight(p: Params, s: Net, i: nat, taken: seq<Id>, refused: seq<Id>)
    requires i < |s.flight| && s.flight[i].dst in s.nodes && GossipType(s.flight[i].env.msgType)
    ensures AfterHandle(p, s, i, taken, refused).flight
            == Without(s.flight, i)
               + (if Relays(VerdictOn(p, s, s.flight[i]), s.flight[i].env)
                  then RelayedCopies(s.flight[i], taken) else [])
  {
    hide Judge, Admit;
  }

  // ---------- what the history says ----------

  /** The broadcasts of message `m`, in order. */
  function Broadcasts(h: History, m: Id): (bs: seq<(Id, Envelope)>) {
    match h
    case Start => []
    case Then(before, r) =>
      Broadcasts(before, m) + if r.Originated? && r.env.messageId == m then [(r.node, r.env)] else []
  }

  predicate WasBroadcast(h: History, node: Id, env: Envelope) {
    h.Then? && (WasBroadcast(h.before, node, env)
                || (h.record.Originated? && h.record.node == node && h.record.env == env))
  }

  predicate AcceptedIn(r: Record, node: Id, m: Id) {
    r.Handled? && r.node == node && r.verdict == Accepted && r.env.messageId == m
  }

  /** How often `node` accepted message `m`. */
  function AcceptCount(h: History, node: Id, m: Id): (n: nat) {
    match h
    case Start => 0
    case Then(before, r) => AcceptCount(before, node, m) + if AcceptedIn(r, node, m) then 1 else 0
  }

  /** The nodes that accepted message `m`. */
  function Acceptors(h: History, m: Id): (nodes: set<Id>) {
    match h
    case Start => {}
    case Then(before, r) =>
      Acceptors(before, m) + if r.Handled? && AcceptedIn(r, r.node, m) then {r.node} else {}
  }

  /** Ids that `node` accepted or broadcast and has not evicted since. */
  function Remembered(h: History, node: Id): (ids: set<Id>) {
    match h
    case Start => {}
    case Then(before, r) =>
      match r
      case Originated(n, env, _, _) => Remembered(before, node) + if n == node then {env.messageId} else {}
      case Handled(n, env, v, _, _) =>
        Remembered(before, node) + if n == node && v == Accepted then {env.messageId} else {}
      case Evicted(n, ids) => Remembered(before, node) - if n == node then ids else {}
      case Cleared(_, _) => Remembered(before, node)
      case Discarded(_) => Remembered(before, node)
      case Relinked(_) => Remembered(before, node)
  }

  predicate NeverEvicted(h: History, m: Id) {
    h.Then? ==> NeverEvicted(h.before, m) && !(h.record.Evicted? && m in h.record.ids)
  }

  lemma {:induction false} WasBroadcastIsListed(h: History, node: Id, env: Envelope)
    requires WasBroadcast(h, node, env)
    ensures (node, env) in Broadcasts(h, env.messageId)
  {
    if h.record.Originated? && h.record.node == node && h.record.env == env {
      assert Broadcasts(h, env.messageId)[|Broadcasts(h, env.messageId)| - 1] == (node, env);
    } else {
      WasBroadcastIsListed(h.before, node, env);
    }
  }

  lemma {:induction false} EarlierBroadcasts(later: History, h: History, m: Id)
    requires Extends(later, h)
    ensures forall b :: b in Broadcasts(h, m) ==> b in Broadcasts(later, m)
  {
    if later != h {
      EarlierBroadcasts(later.before, h, m);
    }
  }
}
