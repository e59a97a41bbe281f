/**
 Quiescence is reached: whatever is in flight, calls for the copies of a message alone bring its travels to an end, in
 no more steps than twice their weight, so that coverage is not only what holds at the end but what can always happen.
 */
module NetworkQuiescence {
  import opened Arithmetic
  import opened Crypto
  import opened Envelopes
  import opened Sequences
  import opened Gossip
  import opened Network
  import NetworkSafety
  import opened NetworkTraffic
  import opened NetworkCoverage
  import opened NetworkTightness
  import TokenBucket
  import opened NetworkRates

  // ---------- copies are on links ----------

  ghost predicate OnLink(s: Net, c: Copy) {
    c.src in s.nodes && c.dst in s.nodes[c.src].peers
  }

  ghost predicate FlightOnLinks(s: Net) {
    forall i :: 0 <= i < |s.flight| ==> OnLink(s, s.flight[i])
  }

  lemma SamePeersStep(p: Params, s: Net, ev: Event)
    requires Enabled(p, s, ev) && NeverRelinked(Apply(p, s, ev).log)
    ensures PeersOf(Apply(p, s, ev)) == PeersOf(s)
  {
    hide Judge, Admit, ValidTargets, Distinct, Elements, Launch, RelayedCopies, Without, Verified, GrantedOn;
  }

  lemma LinksStep(p: Params, s: Net, ev: Event)
    requires FlightOnLinks(s) && Enabled(p, s, ev) && NeverRelinked(Apply(p, s, ev).log)
    ensures FlightOnLinks(Apply(p, s, ev))
  {
    SamePeersStep(p, s, ev);
    var t := Apply(p, s, ev);
    hide Judge, Admit, Distinct, Verified, GrantedOn, NeverRelinked;
    forall k | 0 <= k < |t.flight| ensures OnLink(t, t.flight[k]) {
      var c := t.flight[k];
      assert OnLink(s, c) by {
        CopyOnLink(p, s, ev, k);
      }
      assert PeersOf(t)[c.src] == PeersOf(s)[c.src];
    }
  }

  lemma RelayedOnLink(p: Params, s: Net, i: nat, taken: seq<Id>, refused: seq<Id>, k: nat)
    requires FlightOnLinks(s) && Enabled(p, s, Handle(i, taken, refused))
    requires GossipType(s.flight[i].env.msgType) && k < |AfterHandle(p, s, i, taken, refused).flight|
    ensures OnLink(s, AfterHandle(p, s, i, taken, refused).flight[k])
  {
    var t := AfterHandle(p, s, i, taken, refused);
    HandledFlight(p, s, i, taken, refused);
    hide Judge, Admit, Distinct, AfterHandle;
    if k >= |s.flight| - 1 {
      assert t.flight[k].dst == taken[k - (|s.flight| - 1)] && taken[k - (|s.flight| - 1)] in taken + refused;
    } else {
      assert t.flight[k] == if k < i then s.flight[k] else s.flight[k + 1];
    }
  }

  lemma CopyOnLink(p: Params, s: Net, ev: Event, k: nat)
    requires FlightOnLinks(s) && Enabled(p, s, ev) && k < |Apply(p, s, ev).flight|
    ensures OnLink(s, Apply(p, s, ev).flight[k])
  {
    hide Judge, Admit, Distinct, Verified, GrantedOn, RelayedCopies, ValidTargets;
    var t := Apply(p, s, ev);
    match ev
    case Broadcast(node, env, taken, refused) =>
      if k >= |s.flight| {
        assert t.flight[k].dst == taken[k - |s.flight|] && taken[k - |s.flight|] in Elements(taken + refused);
      }
    case Handle(i, taken, refused) =>
      if GossipType(s.flight[i].env.msgType) {
        hide AfterHandle;
        RelayedOnLink(p, s, i, taken, refused, k);
      } else {
        assert t.flight[k] == if k < i then s.flight[k] else s.flight[k + 1];
      }
    case Clear(i) =>
      assert OnLink(s, s.flight[i]);
      assert k != i && !(k < i) && t.flight == Without(s.flight, i) ==> t.flight[k] == s.flight[k + 1];
    case Lose(i) => assert t.flight[k] == if k < i then s.flight[k] else s.flight[k + 1];
    case _ =>
  }

  lemma {:induction false} LinksRun(p: Params, s: Net, events: seq<Event>)
    requires FlightOnLinks(s) && Legal(p, s, events) && NeverRelinked(Run(p, s, events).log)
    ensures FlightOnLinks(Run(p, s, events))
    decreases |events|
  {
    hide Apply, Enabled, FlightOnLinks;
    if events != [] {
      var t := Apply(p, s, events[0]);
      RunExtends(p, t, events[1..]);
      NeverRelinkedBefore(Run(p, s, events).log, t.log);
      LinksStep(p, s, events[0]);
      LinksRun(p, t, events[1..]);
    }
  }

  lemma {:induction false} NeverRelinkedBefore(later: History, h: History)
    requires Extends(later, h) && NeverRelinked(later)
    ensures NeverRelinked(h)
  {
    if later != h {
      NeverRelinkedBefore(later.before, h);
    }
  }

  lemma ReachableOnLinks(p: Params, s: Net)
    requires Reachable(p, s) && NeverRelinked(s.log)
    ensures FlightOnLinks(s)
  {
    var s0, events := FreshStart(p, s);
    LinksRun(p, s0, events);
  }

  // ---------- one call to its end ----------

  lemma {:induction false} TakeSome(all: set<Id>, k: nat) returns (some: seq<Id>)
    ensures Distinct(some) && Elements(some) <= all && |some| == Min(k, |all|)
    decreases k
  {
    some := [];
    if k > 0 && all != {} {
      var x :| x in all;
      var rest := TakeSome(all - {x}, k - 1);
      some := rest + [x];
      assert x !in Elements(rest);
      ElementsAppend(rest, x);
    }
  }

  lemma SomeTargets(peers: set<Id>, exclude: Id, fanout: nat) returns (targets: seq<Id>)
    ensures ValidTargets(peers, exclude, fanout, targets)
  {
    targets := TakeSome(peers - {exclude}, fanout);
    assert forall t :: t in targets ==> t in Elements(targets);
  }

  /** Nothing but calls for copies of `m` has happened since, and no full buffer refused one. */
  ghost predicate OnlyCalls(later: History, h: History, m: Id) {
    later == h
    || (later.Then? && OnlyCalls(later.before, h, m) && CallRecord(later.record, m))
  }

  predicate CallRecord(r: Record, m: Id) {
    (r.Cleared? && r.env.messageId == m) || (r.Handled? && r.env.messageId == m && r.refused == [])
  }

  lemma {:induction false} OnlyCallsOnward(h3: History, h2: History, h1: History, m: Id)
    requires OnlyCalls(h3, h2, m) && OnlyCalls(h2, h1, m)
    ensures OnlyCalls(h3, h1, m)
  {
    if h3 != h2 {
      OnlyCallsOnward(h3.before, h2, h1, m);
    }
  }

  /** Whoever gets a copy of `m` is a node, and copies of `m` are gossip. */
  ghost predicate Deliverable(s: Net, m: Id) {
    && (forall n :: n in s.nodes ==> s.nodes[n].peers <= s.nodes.Keys)
    && (forall i :: 0 <= i < |s.flight| && s.flight[i].env.messageId == m ==>
          s.flight[i].dst in s.nodes && GossipType(s.flight[i].env.msgType))
  }

  /** Handling a copy, to whatever verdict it comes. */
  lemma CopyIsHandled(p: Params, s: Net, i: nat) returns (ev: Event)
    requires i < |s.flight| && Deliverable(s, s.flight[i].env.messageId)
    requires VerdictOn(p, s, s.flight[i]) == Accepted ==> s.flight[i].cleared
    ensures ev.Handle? && ev.i == i && Enabled(p, s, ev)
    ensures var m, t := s.flight[i].env.messageId, Apply(p, s, ev);
            && OnlyCalls(t.log, s.log, m) && t.now == s.now && PeersOf(t) == PeersOf(s) && Deliverable(t, m)
            && FlightWeight(p.fanout, t.flight, m) < FlightWeight(p.fanout, s.flight, m)
  {
    var c := s.flight[i];
    var taken := [];
    if Relays(VerdictOn(p, s, c), c.env) {
      taken := SomeTargets(s.nodes[c.dst].peers, c.src, p.fanout);
    }
    assert taken + [] == taken;
    ev := Handle(i, taken, []);
    hide Judge, Admit, Distinct, Elements;
    HandleLosesWeight(p, s, i, taken, [], c.env.messageId);
    HandledIsDeliverable(p, s, i, taken);
    CallKeepsPeers(p, s, ev);
    hide FlightWeight, Deliverable, RelayedCopies, ValidTargets, Without, Enabled, PeersOf;
    HandleOutcome(p, s, i, taken, []);
  }

  lemma CallKeepsPeers(p: Params, s: Net, ev: Event)
    requires Enabled(p, s, ev) && (ev.Handle? || ev.Clear?)
    ensures PeersOf(Apply(p, s, ev)) == PeersOf(s) && Apply(p, s, ev).now == s.now
  {
    hide Judge, Admit, ValidTargets, Distinct, Elements, RelayedCopies, Without, Verified, GrantedOn;
  }

  lemma HandledIsDeliverable(p: Params, s: Net, i: nat, taken: seq<Id>)
    requires i < |s.flight| && Deliverable(s, s.flight[i].env.messageId) && Enabled(p, s, Handle(i, taken, []))
    ensures Deliverable(AfterHandle(p, s, i, taken, []), s.flight[i].env.messageId)
  {
    hide Judge, Admit, Distinct, Elements;
    var c, t := s.flight[i], AfterHandle(p, s, i, taken, []);
    HandleOutcome(p, s, i, taken, []);
    forall k | 0 <= k < |t.flight| && t.flight[k].env.messageId == c.env.messageId
      ensures t.flight[k].dst in t.nodes && GossipType(t.flight[k].env.msgType)
    {
      if k >= |s.flight| - 1 {
        assert t.flight[k].dst == taken[k - (|s.flight| - 1)] && taken[k - (|s.flight| - 1)] in taken + [];
        assert t.flight[k].dst in s.nodes[c.dst].peers;
      } else {
        assert t.flight[k] == if k < i then s.flight[k] else s.flight[k + 1];
      }
    }
  }

  /** An accepting call as far as the test-and-set. */
  lemma CopyIsCleared(p: Params, s: Net, i: nat)
    requires i < |s.flight| && Deliverable(s, s.flight[i].env.messageId)
    requires VerdictOn(p, s, s.flight[i]) == Accepted && !s.flight[i].cleared
    ensures Enabled(p, s, Clear(i))
    ensures var m, t := s.flight[i].env.messageId, Apply(p, s, Clear(i));
            && OnlyCalls(t.log, s.log, m) && t.now == s.now && PeersOf(t) == PeersOf(s) && Deliverable(t, m)
            && t.flight == s.flight[i := s.flight[i].(cleared := true)]
            && FlightWeight(p.fanout, t.flight, m) == FlightWeight(p.fanout, s.flight, m)
  {
    var c := s.flight[i];
    TwoStepsMakeOneCall(p, s.nodes[c.dst].engine, s.now, c.env);
    hide Judge, Admit, Verified, AfterClear, GrantedOn;
    ClearOutcome(p, s, i);
    FlightWeightCleared(p.fanout, s.flight, i, c.env.messageId);
    var t := Apply(p, s, Clear(i));
    assert PeersOf(t) == PeersOf(s);
    hide FlightWeight;
  }

  /** A copy in flight is brought to its end by one step, or two. */
  lemma CallCompletes(p: Params, s: Net, i: nat) returns (events: seq<Event>)
    requires i < |s.flight| && Deliverable(s, s.flight[i].env.messageId)
    ensures Legal(p, s, events) && |events| <= 2
    ensures var m, t := s.flight[i].env.messageId, Run(p, s, events);
            && OnlyCalls(t.log, s.log, m) && t.now == s.now && PeersOf(t) == PeersOf(s) && Deliverable(t, m)
            && FlightWeight(p.fanout, t.flight, m) < FlightWeight(p.fanout, s.flight, m)
  {
    hide FlightWeight, Enabled, Apply, OnlyCalls;
    var m := s.flight[i].env.messageId;
    if VerdictIs(p, s, i) && !s.flight[i].cleared {
      CopyIsCleared(p, s, i);
      var u := Apply(p, s, Clear(i));
      assert u.flight[i].env.messageId == m && u.flight[i].cleared;
      var ev := CopyIsHandled(p, u, i);
      var t := Apply(p, u, ev);
      events := [Clear(i), ev];
      assert events[1..] == [ev] && [ev][1..] == [];
      assert Legal(p, t, []) && Run(p, t, []) == t;
      assert Legal(p, u, [ev]) && Run(p, u, [ev]) == t;
      OnlyCallsOnward(t.log, u.log, s.log, m);
    } else {
      var ev := CopyIsHandled(p, s, i);
      var t := Apply(p, s, ev);
      events := [ev];
      assert [ev][1..] == [];
      assert Legal(p, t, []) && Run(p, t, []) == t;
    }
  }

  ghost predicate VerdictIs(p: Params, s: Net, i: nat) {
    i < |s.flight| && s.flight[i].dst in s.nodes && VerdictOn(p, s, s.flight[i]) == Accepted
  }

  // ---------- all of them ----------

  /**
   From any state in which copies of `m` can be delivered, calls for them alone leave none in flight, in no more steps
   than twice their weight.
   */
  lemma {:induction false} TravelsEnd(p: Params, s: Net, m: Id) returns (events: seq<Event>)
    requires Deliverable(s, m)
    ensures Legal(p, s, events) && |events| <= 2 * FlightWeight(p.fanout, s.flight, m)
    ensures var t := Run(p, s, events);
            OnlyCalls(t.log, s.log, m) && t.now == s.now && PeersOf(t) == PeersOf(s) && !InFlight(t.flight, m)
    decreases FlightWeight(p.fanout, s.flight, m)
  {
    hide FlightWeight, Deliverable, Enabled, Apply;
    events := [];
    if i :| 0 <= i < |s.flight| && s.flight[i].env.messageId == m {
      var first := CallCompletes(p, s, i);
      var t := Run(p, s, first);
      var rest := TravelsEnd(p, t, m);
      events := first + rest;
      RunsCompose(p, s, first, rest);
      OnlyCallsOnward(Run(p, t, rest).log, t.log, s.log, m);
    }
  }

  lemma {:induction false} RunsCompose(p: Params, s: Net, a: seq<Event>, b: seq<Event>)
    requires Legal(p, s, a) && Legal(p, Run(p, s, a), b)
    ensures Legal(p, s, a + b) && Run(p, s, a + b) == Run(p, Run(p, s, a), b)
    decreases |a|
  {
    hide Enabled, Apply;
    if a == [] {
      assert a + b == b;
    } else {
      RunsCompose(p, Apply(p, s, a[0]), a[1..], b);
      assert (a + b)[1..] == a[1..] + b;
    }
  }

  // ---------- no run of calls goes on for longer ----------

  /** Copies of `m` whose calls hold a token. */
  function ClearedOf(m: Id): (f: Copy -> bool) {
    (c: Copy) => c.cleared && c.env.messageId == m
  }

  /** What calls for copies of `m` can still do: two steps for each unit of weight, one of them done where cleared. */
  function StepsLeft(p: Params, s: Net, m: Id): (n: int) {
    2 * FlightWeight(p.fanout, s.flight, m) - Count(s.flight, ClearedOf(m))
  }

  lemma {:induction false} ClearedWeigh(fanout: nat, flight: seq<Copy>, m: Id)
    ensures Count(flight, ClearedOf(m)) <= FlightWeight(fanout, flight, m)
    decreases |flight|
  {
    if flight != [] {
      ClearedWeigh(fanout, flight[..|flight| - 1], m);
    }
  }

  predicate IsCallFor(s: Net, ev: Event, m: Id) {
    (ev.Clear? || ev.Handle?) && ev.i < |s.flight| && s.flight[ev.i].env.messageId == m
  }

  lemma {:induction false} LaunchedUncleared(src: Id, targets: seq<Id>, env: Envelope, origin: Envelope, trail: seq<Id>,
                                             m: Id)
    ensures Count(Launch(src, targets, env, origin, trail), ClearedOf(m)) == 0
    decreases |targets|
  {
    if targets != [] {
      var copies := Launch(src, targets, env, origin, trail);
      assert copies[..|copies| - 1] == Launch(src, targets[..|targets| - 1], env, origin, trail);
      LaunchedUncleared(src, targets[..|targets| - 1], env, origin, trail, m);
    }
  }

  lemma HandleTakesSteps(p: Params, s: Net, ev: Event, m: Id)
    requires Enabled(p, s, ev) && ev.Handle? && IsCallFor(s, ev, m)
    ensures StepsLeft(p, Apply(p, s, ev), m) < StepsLeft(p, s, m)
  {
    var c := s.flight[ev.i];
    HandleLosesWeight(p, s, ev.i, ev.taken, ev.refused, m);
    CountWithout(s.flight, ev.i, ClearedOf(m));
    hide Judge, Admit, ValidTargets, Distinct, Elements, FlightWeight;
    if GossipType(c.env.msgType) {
      HandledFlight(p, s, ev.i, ev.taken, ev.refused);
      if Relays(VerdictOn(p, s, c), c.env) {
        CountSplits(Without(s.flight, ev.i), RelayedCopies(c, ev.taken), ClearedOf(m));
        LaunchedUncleared(c.dst, ev.taken, OneHopLess(c.env), c.origin, c.trail + [c.dst], m);
      } else {
        assert Without(s.flight, ev.i) + [] == Without(s.flight, ev.i);
      }
    }
  }

  lemma ClearTakesSteps(p: Params, s: Net, ev: Event, m: Id)
    requires Enabled(p, s, ev) && ev.Clear? && IsCallFor(s, ev, m)
    ensures StepsLeft(p, Apply(p, s, ev), m) < StepsLeft(p, s, m)
  {
    var c := s.flight[ev.i];
    hide Verified, GrantedOn;
    ClearOutcome(p, s, ev.i);
    FlightWeightCleared(p.fanout, s.flight, ev.i, m);
    FlightWeightWithout(p.fanout, s.flight, ev.i, m);
    CountUpdated(s.flight, ev.i, c.(cleared := true), ClearedOf(m));
    CountWithout(s.flight, ev.i, ClearedOf(m));
  }

  ghost predicate OnlyCallsFor(p: Params, s: Net, events: seq<Event>, m: Id)
    decreases |events|
  {
    events != [] ==> IsCallFor(s, events[0], m) && OnlyCallsFor(p, Apply(p, s, events[0]), events[1..], m)
  }

  /** Every run of calls for copies of `m`, whichever they are and however they interleave, ends within that bound. */
  lemma {:induction false} CallsRunOut(p: Params, s: Net, events: seq<Event>, m: Id)
    requires Legal(p, s, events) && OnlyCallsFor(p, s, events, m)
    ensures |events| <= StepsLeft(p, s, m)
    decreases |events|
  {
    ClearedWeigh(p.fanout, s.flight, m);
    hide Apply, Enabled, IsCallFor;
    if events != [] {
      if events[0].Handle? {
        HandleTakesSteps(p, s, events[0], m);
      } else {
        IsCall(s, events[0], m);
        ClearTakesSteps(p, s, events[0], m);
      }
      hide StepsLeft;
      CallsRunOut(p, Apply(p, s, events[0]), events[1..], m);
    }
  }

  lemma IsCall(s: Net, ev: Event, m: Id)
    requires IsCallFor(s, ev, m)
    ensures ev.Clear? || ev.Handle?
  {
  }

  // ---------- coverage can always happen ----------

  lemma {:induction false} CallsKeepHistory(later: History, h: History, m: Id)
    requires OnlyCalls(later, h, m)
    ensures Undisturbed(h, m) ==> Undisturbed(later, m)
    ensures forall x :: Broadcasts(later, x) == Broadcasts(h, x)
  {
    if later != h {
      CallsKeepHistory(later.before, h, m);
    }
  }

  lemma {:induction false} CallsKeepFew(later: History, h: History, m: Id, sender: Id, ids: set<Id>)
    requires OnlyCalls(later, h, m) && FewMessages(h, sender, ids)
    ensures FewMessages(later, sender, ids)
  {
    CallsKeepHistory(later, h, m);
    if later != h {
      CallsKeepFew(later.before, h, m, sender, ids);
    }
  }

  /** In a mesh, copies of a good message can be delivered. */
  lemma MeshDelivers(p: Params, s: Net, origin: Id, env: Envelope)
    requires Reachable(p, s) && NeverRelinked(s.log) && Mesh(PeersOf(s), p.fanout, origin) && GossipType(env.msgType)
    requires Broadcasts(s.log, env.messageId) == [(origin, env)]
    ensures Deliverable(s, env.messageId)
  {
    ReachableOnLinks(p, s);
    NetworkSafety.ReachableIsSafe(p, s);
    hide Connected, Reachable;
    var g := PeersOf(s);
    forall n, v | n in s.nodes && v in s.nodes[n].peers ensures v in s.nodes {
      assert n in g && g[n] == s.nodes[n].peers;
      assert v in g;
    }
    forall i | 0 <= i < |s.flight| && s.flight[i].env.messageId == env.messageId
      ensures s.flight[i].dst in s.nodes && GossipType(s.flight[i].env.msgType)
    {
      var c := s.flight[i];
      assert OnLink(s, c) && NetworkSafety.InLedger(s.log, c);
      WasBroadcastIsListed(s.log, c.trail[0], c.origin);
      assert s.nodes[c.src].peers <= s.nodes.Keys;
    }
  }

  /**
   Coverage is always within reach: in a mesh, at any time after an undisturbed broadcast of a sender within its burst,
   the calls for the copies in flight, and no more of them than twice their weight, lead to a state in which every node
   has accepted the message exactly once, the originator never.
   */
  lemma CoverageIsReached(p: Params, s: Net, origin: Id, env: Envelope, ids: set<Id>) returns (events: seq<Event>)
    requires Reachable(p, s) && Injective(p.c.sha256) && GoodMessage(p.c, env)
    requires Mesh(PeersOf(s), p.fanout, origin) && WithinReach(|s.nodes|, p.fanout, env.hopCount)
    requires Undisturbed(s.log, env.messageId) && Broadcasts(s.log, env.messageId) == [(origin, env)]
    requires FewMessages(s.log, env.senderId, ids)
    requires forall u :: u in s.nodes ==> TokenBucket.WithinBurst(|s.nodes[u].peers| * |ids|, p.rate)
    ensures Legal(p, s, events) && |events| <= 2 * FlightWeight(p.fanout, s.flight, env.messageId)
    ensures Run(p, s, events).nodes.Keys == s.nodes.Keys && Covered(Run(p, s, events), origin, env)
  {
    hide Mesh, Reachable, Legal, Run, Deliverable, WithinReach, FlightWeight, Undisturbed, TokenBucket.WithinBurst;
    MeshDelivers(p, s, origin, env);
    events := TravelsEnd(p, s, env.messageId);
    var t := Run(p, s, events);
    CallsKeepHistory(t.log, s.log, env.messageId);
    CallsKeepFew(t.log, s.log, env.messageId, env.senderId, ids);
    ReachableRun(p, s, events);
    assert t.nodes.Keys == PeersOf(t).Keys == s.nodes.Keys;
    assert |t.nodes| == |t.nodes.Keys| && |s.nodes| == |s.nodes.Keys|;
    forall u | u in t.nodes ensures t.nodes[u].peers == s.nodes[u].peers {
      assert PeersOf(t)[u] == PeersOf(s)[u];
    }
    hide GoodMessage, FewMessages, InFlight, PeersOf, OnlyCalls;
    forall n | n in t.nodes ensures AcceptCount(t.log, n, env.messageId) == if n == origin then 0 else 1 {
      CoverageWithinBurst(p, t, origin, env, ids, n);
    }
  }
}
