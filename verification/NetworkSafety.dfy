/** What every reachable network state satisfies: the hop ledger, the counters, the seen caches, the keys. */
module NetworkSafety {
  import opened Crypto
  import opened Envelopes
  import opened KeyRings
  import opened SeenCaches
  import opened Sequences
  import opened Gossip
  import opened Network

  // ---------- hop ledger ----------

  /**
   The copy is its origin with another hop count, the hops spent are the edges travelled, and the origin was
   broadcast by the first node of the trail.
   */
  ghost predicate InLedger(h: History, c: Copy) {
    && c.trail != [] && c.trail[|c.trail| - 1] == c.src
    && c.env == c.origin.(hopCount := c.env.hopCount)
    && c.env.hopCount + |c.trail| == c.origin.hopCount + 1
    && (|c.trail| > 1 ==> c.env.hopCount >= 1)
    && WasBroadcast(h, c.trail[0], c.origin)
  }

  ghost predicate Ledger(s: Net) {
    forall i :: 0 <= i < |s.flight| ==> InLedger(s.log, s.flight[i])
  }

  lemma LedgerHandle(p: Params, s: Net, i: nat, taken: seq<Id>, refused: seq<Id>)
    requires Ledger(s) && i < |s.flight| && s.flight[i].dst in s.nodes && GossipType(s.flight[i].env.msgType)
    ensures Ledger(AfterHandle(p, s, i, taken, refused))
  {
    var c, t := s.flight[i], AfterHandle(p, s, i, taken, refused);
    assert InLedger(s.log, c);
    assert t.log == Then(s.log, Handled(c.dst, c.env, VerdictOn(p, s, c), taken, refused));
    HandledFlight(p, s, i, taken, refused);
    hide Judge, Admit, AfterHandle, GossipType;
    forall k | 0 <= k < |t.flight| ensures InLedger(t.log, t.flight[k]) {
      if k >= |s.flight| - 1 {
        assert t.flight[k] == RelayedCopies(c, taken)[k - (|s.flight| - 1)];
      } else {
        assert t.flight[k] == if k < i then s.flight[k] else s.flight[k + 1];
      }
    }
  }

  lemma LedgerStep(p: Params, s: Net, ev: Event)
    requires Ledger(s) && Enabled(p, s, ev)
    ensures Ledger(Apply(p, s, ev))
  {
    hide Judge, Screened, ValidTargets, Distinct, Elements, Verified, GrantedOn;
    if ev.Handle? && GossipType(s.flight[ev.i].env.msgType) {
      hide AfterHandle;
      LedgerHandle(p, s, ev.i, ev.taken, ev.refused);
    }
  }

  // ---------- counters ----------

  datatype Tally = Tally(received: nat, delivered: nat, broadcast: nat, forwarded: nat, dropped: nat, attempts: nat)

  /** What the history says `node` received, delivered and tried to send. */
  function TallyOf(p: Params, h: History, node: Id): (t: Tally) {
    match h
    case Start => Tally(0, 0, 0, 0, 0, 0)
    case Then(before, r) =>
      var t := TallyOf(p, before, node);
      if r.Originated? && r.node == node then
        t.(broadcast := t.broadcast + |r.taken|,
           dropped := t.dropped + |r.refused|,
           attempts := t.attempts + |r.taken + r.refused|)
      else if r.Handled? && r.node == node then
        t.(received := t.received + (if r.verdict == Accepted then 1 else 0),
           delivered := t.delivered + (if r.verdict == Accepted && r.env.msgType in p.handlers then 1 else 0),
           forwarded := t.forwarded + |r.taken|,
           dropped := t.dropped + |r.refused|,
           attempts := t.attempts + |r.taken + r.refused|)
      else t
  }

  ghost predicate Balanced(p: Params, s: Net, node: Id) {
    node in s.nodes &&
    var e, t := s.nodes[node].engine, TallyOf(p, s.log, node);
    && e.received == t.received && e.delivered == t.delivered
    && e.broadcast == t.broadcast && e.forwarded == t.forwarded && e.dropped == t.dropped
    && e.broadcast + e.forwarded + e.dropped == t.attempts
    && e.delivered <= e.received
  }

  ghost predicate Books(p: Params, s: Net) {
    forall n :: n in s.nodes ==> Balanced(p, s, n)
  }

  lemma BalancedHandle(p: Params, s: Net, i: nat, taken: seq<Id>, refused: seq<Id>, n: Id)
    requires n in s.nodes && Balanced(p, s, n)
    requires Enabled(p, s, Handle(i, taken, refused)) && GossipType(s.flight[i].env.msgType)
    ensures var t := AfterHandle(p, s, i, taken, refused); n in t.nodes && Balanced(p, t, n)
  {
    hide Judge, Admit, ValidTargets, RelayedCopies, Without, Marked, AfterHandle;
    HandleOutcome(p, s, i, taken, refused);
  }

  lemma BalancedBroadcast(p: Params, s: Net, ev: Event, n: Id)
    requires n in s.nodes && Balanced(p, s, n) && Enabled(p, s, ev) && ev.Broadcast?
    ensures var t := Apply(p, s, ev); n in t.nodes && Balanced(p, t, n)
  {
    hide Distinct, Elements, Launch, Marked;
  }

  lemma BalancedStep(p: Params, s: Net, ev: Event, n: Id)
    requires n in s.nodes && Balanced(p, s, n) && Enabled(p, s, ev)
    ensures var t := Apply(p, s, ev); n in t.nodes && Balanced(p, t, n)
  {
    if ev.Broadcast? {
      BalancedBroadcast(p, s, ev, n);
    } else if ev.Handle? && GossipType(s.flight[ev.i].env.msgType) {
      BalancedHandle(p, s, ev.i, ev.taken, ev.refused, n);
    } else {
      hide Judge, Admit, ValidTargets, Distinct, Elements, Launch, Without;
    }
  }

  lemma BooksStep(p: Params, s: Net, ev: Event)
    requires Books(p, s) && Enabled(p, s, ev)
    ensures Books(p, Apply(p, s, ev))
  {
    SameNodesStep(p, s, ev);
    hide Apply, Enabled, Balanced;
    forall n | n in s.nodes ensures n in Apply(p, s, ev).nodes && Balanced(p, Apply(p, s, ev), n) {
      BalancedStep(p, s, ev, n);
    }
  }

  // ---------- seen caches ----------

  /** The seen cache holds exactly what was accepted or broadcast here and not evicted since. */
  ghost predicate Memory(s: Net) {
    forall n :: n in s.nodes ==> s.nodes[n].engine.seen.Keys == Remembered(s.log, n)
  }

  lemma MemoryHandle(p: Params, s: Net, i: nat, taken: seq<Id>, refused: seq<Id>)
    requires Memory(s) && Enabled(p, s, Handle(i, taken, refused)) && GossipType(s.flight[i].env.msgType)
    ensures Memory(AfterHandle(p, s, i, taken, refused))
  {
    HandleOutcome(p, s, i, taken, refused);
    hide AfterHandle, Enabled, VerdictOn, Judge, GossipType;
  }

  lemma MemoryForget(p: Params, s: Net, node: Id)
    requires Memory(s) && node in s.nodes
    ensures Memory(Apply(p, s, ForgetSeen(node)))
  {
    var t := Apply(p, s, ForgetSeen(node));
    var prior, after := s.nodes[node].engine.seen, t.nodes[node].engine.seen;
    assert after.Keys == prior.Keys - (prior.Keys - after.Keys);
  }

  lemma MemoryStep(p: Params, s: Net, ev: Event)
    requires Memory(s) && Enabled(p, s, ev)
    ensures Memory(Apply(p, s, ev))
  {
    hide Judge, Admit, ValidTargets, Distinct, Elements, Launch, RelayedCopies, Without, Verified, GrantedOn;
    match ev
    case Handle(i, taken, refused) =>
      if GossipType(s.flight[i].env.msgType) {
        hide AfterHandle;
        MemoryHandle(p, s, i, taken, refused);
      }
    case ForgetSeen(node) => MemoryForget(p, s, node);
    case _ =>
  }

  // ---------- keys ----------

  ghost predicate KeysBound(p: Params, s: Net) {
    forall n :: n in s.nodes ==> Bound(p.c, s.nodes[n].engine.keys)
  }

  lemma KeysBoundStep(p: Params, s: Net, ev: Event)
    requires KeysBound(p, s) && Enabled(p, s, ev)
    ensures KeysBound(p, Apply(p, s, ev))
  {
    hide Judge, Admit, ValidTargets, Distinct, Elements, Launch, RelayedCopies, Without;
    if ev.Handle? && GossipType(s.flight[ev.i].env.msgType) {
      hide AfterHandle;
      HandleOutcome(p, s, ev.i, ev.taken, ev.refused);
    }
  }

  // ---------- every reachable state ----------

  ghost predicate Safe(p: Params, s: Net) {
    Ledger(s) && Books(p, s) && Memory(s) && KeysBound(p, s)
  }

  lemma {:induction false} SafeRun(p: Params, s: Net, events: seq<Event>)
    requires Safe(p, s) && Legal(p, s, events)
    ensures Safe(p, Run(p, s, events))
    decreases |events|
  {
    if events != [] {
      LedgerStep(p, s, events[0]);
      BooksStep(p, s, events[0]);
      MemoryStep(p, s, events[0]);
      KeysBoundStep(p, s, events[0]);
      SafeRun(p, Apply(p, s, events[0]), events[1..]);
    }
  }

  /** Ledger, counters, seen caches and keyrings are right in every reachable state of every network. */
  lemma ReachableIsSafe(p: Params, s: Net)
    requires Reachable(p, s)
    ensures Safe(p, s)
  {
    var s0, events :| Fresh(p, s0) && Legal(p, s0, events) && Run(p, s0, events) == s;
    SafeRun(p, s0, events);
  }

  /**
   In every reachable state a copy in flight is the envelope once broadcast by the first node of its trail in every
   field but the hop count; hops left and edges travelled add up to the broadcast's hops plus one, so none travels
   further than its broadcast allowed; and it verifies under exactly the keys its broadcast verifies under.
   */
  lemma HopLedger(p: Params, s: Net, c: Copy, key: Key)
    requires Reachable(p, s) && c in s.flight
    ensures c.trail != [] && WasBroadcast(s.log, c.trail[0], c.origin)
    ensures c.env == c.origin.(hopCount := c.env.hopCount)
    ensures c.env.hopCount + |c.trail| == c.origin.hopCount + 1
    ensures |c.trail| <= if c.origin.hopCount == 0 then 1 else c.origin.hopCount
    ensures Verifies(p.c, c.env, key) <==> Verifies(p.c, c.origin, key)
  {
    ReachableIsSafe(p, s);
    assert InLedger(s.log, c);
    RelayingKeepsSignature(p.c, c.origin, c.env.hopCount, c.origin.senderPubkey, key);
  }

  /** Every send attempt of every run is counted once, as broadcast, forwarded or dropped. */
  lemma AttemptsAreCounted(p: Params, s: Net, n: Id)
    requires Reachable(p, s) && n in s.nodes
    ensures var e, t := s.nodes[n].engine, TallyOf(p, s.log, n);
            && e.broadcast + e.forwarded + e.dropped == t.attempts
            && e.broadcast == t.broadcast && e.forwarded == t.forwarded
            && e.delivered == t.delivered <= e.received == t.received
  {
    ReachableIsSafe(p, s);
    assert Balanced(p, s, n);
  }

  /** A node's seen ids are exactly those it accepted or broadcast and has not evicted since. */
  lemma SeenIsRemembered(p: Params, s: Net, n: Id, m: Id)
    requires Reachable(p, s) && n in s.nodes
    ensures m in s.nodes[n].engine.seen <==> m in Remembered(s.log, n)
  {
    ReachableIsSafe(p, s);
  }
}
