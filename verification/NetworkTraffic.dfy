/**
 How much work one message causes: a bound that survives cache expiry, from the hop counts alone, and a linear
 bound while nothing is evicted.
 */
module NetworkTraffic {
  import opened Arithmetic
  import opened ByteStrings
  import opened Crypto
  import opened Envelopes
  import opened Sequences
  import opened Gossip
  import opened Network

  // ---------- termination that survives expiry ----------

  /** The handler calls a copy with `hops` left can cause: itself, and `fanout` copies with one hop less. */
  function Weight(fanout: nat, hops: nat): (w: nat)
    ensures w >= 1
  {
    if hops <= 1 then 1 else 1 + fanout * Weight(fanout, hops - 1)
  }

  /** Up to `fanout` copies with one hop less weigh less than the copy they come from. */
  lemma RelayingLosesWeight(fanout: nat, hops: nat, n: nat)
    requires hops > 1 && n <= fanout
    ensures n * Weight(fanout, hops - 1) + 1 <= Weight(fanout, hops)
  {
    MulMonotone(n, fanout, Weight(fanout, hops - 1));
  }

  lemma MulMonotone(a: nat, b: nat, c: nat)
    requires a <= b
    ensures a * c <= b * c
  {
    assert b * c == a * c + (b - a) * c;
  }

  lemma MulSwap(a: int, b: int, c: int)
    ensures a * (b * c) == b * (a * c)
  {
  }

  /** The weight is the geometric series of the fanout. */
  lemma {:induction false} WeightIsGeometric(fanout: nat, hops: nat)
    requires fanout >= 1 && hops >= 1
    ensures (fanout - 1) * Weight(fanout, hops) == Power(fanout, hops) - 1
  {
    if hops == 1 {
      assert Power(fanout, 1) == fanout * Power(fanout, 0);
    } else {
      WeightIsGeometric(fanout, hops - 1);
      var a, w, q := fanout - 1, Weight(fanout, hops - 1), Power(fanout, hops - 1);
      var y := fanout * w;
      assert a * (1 + y) == a + a * y;
      MulSwap(a, fanout, w);
      assert fanout * (a * w) == fanout * (q - 1) == fanout * q - fanout;
    }
  }

  function CopyWeight(fanout: nat, c: Copy, m: Id): (w: nat) {
    if c.env.messageId == m then Weight(fanout, c.env.hopCount) else 0
  }

  /** The summed weight of the copies of `m` in flight. */
  function FlightWeight(fanout: nat, flight: seq<Copy>, m: Id): (w: nat)
    decreases |flight|
  {
    if flight == [] then 0
    else FlightWeight(fanout, flight[..|flight| - 1], m) + CopyWeight(fanout, flight[|flight| - 1], m)
  }

  lemma {:induction false} FlightWeightSplits(fanout: nat, a: seq<Copy>, b: seq<Copy>, m: Id)
    ensures FlightWeight(fanout, a + b, m) == FlightWeight(fanout, a, m) + FlightWeight(fanout, b, m)
    decreases |b|
  {
    if b == [] {
      assert a + b == a;
    } else {
      assert (a + b)[..|a + b| - 1] == a + b[..|b| - 1];
      FlightWeightSplits(fanout, a, b[..|b| - 1], m);
    }
  }

  lemma FlightWeightWithout(fanout: nat, flight: seq<Copy>, i: nat, m: Id)
    requires i < |flight|
    ensures FlightWeight(fanout, flight, m)
            == FlightWeight(fanout, Without(flight, i), m) + CopyWeight(fanout, flight[i], m)
  {
    var c := flight[i];
    assert flight == (flight[..i] + [c]) + flight[i + 1..];
    FlightWeightSplits(fanout, flight[..i] + [c], flight[i + 1..], m);
    FlightWeightSplits(fanout, flight[..i], [c], m);
    FlightWeightSplits(fanout, flight[..i], flight[i + 1..], m);
    assert [c][..0] == [] && FlightWeight(fanout, [], m) == 0;
  }

  lemma FlightWeightCleared(fanout: nat, flight: seq<Copy>, i: nat, m: Id)
    requires i < |flight|
    ensures FlightWeight(fanout, flight[i := flight[i].(cleared := true)], m) == FlightWeight(fanout, flight, m)
  {
    var after := flight[i := flight[i].(cleared := true)];
    assert Without(after, i) == Without(flight, i);
    FlightWeightWithout(fanout, flight, i, m);
    FlightWeightWithout(fanout, after, i, m);
  }

  lemma {:induction false} LaunchWeight(fanout: nat, src: Id, targets: seq<Id>, env: Envelope, origin: Envelope,
                                        trail: seq<Id>, m: Id)
    ensures FlightWeight(fanout, Launch(src, targets, env, origin, trail), m)
            == |targets| * (if env.messageId == m then Weight(fanout, env.hopCount) else 0)
    decreases |targets|
  {
    if targets != [] {
      var init := targets[..|targets| - 1];
      var copies := Launch(src, targets, env, origin, trail);
      assert copies[..|copies| - 1] == Launch(src, init, env, origin, trail);
      LaunchWeight(fanout, src, init, env, origin, trail, m);
    }
  }

  /** Handling a copy removes more weight of its message than the relayed copies bring back. */
  lemma HandleLosesWeight(p: Params, s: Net, i: nat, taken: seq<Id>, refused: seq<Id>, m: Id)
    requires Enabled(p, s, Handle(i, taken, refused))
    ensures var own := if s.flight[i].env.messageId == m then 1 else 0;
            FlightWeight(p.fanout, AfterHandle(p, s, i, taken, refused).flight, m) + own
            <= FlightWeight(p.fanout, s.flight, m)
  {
    hide Judge, Admit, Weight, Distinct, Elements;
    var c := s.flight[i];
    var rest := Without(s.flight, i);
    FlightWeightWithout(p.fanout, s.flight, i, m);
    if GossipType(c.env.msgType) && Relays(VerdictOn(p, s, c), c.env) {
      FlightWeightSplits(p.fanout, rest, RelayedCopies(c, taken), m);
      LaunchWeight(p.fanout, c.dst, taken, OneHopLess(c.env), c.origin, c.trail + [c.dst], m);
      assert |taken + refused| == |taken| + |refused|;
      RelayingLosesWeight(p.fanout, c.env.hopCount, |taken|);
    } else {
      assert rest + [] == rest;
    }
  }

  /** Calls of HandleIncoming for message `m`, anywhere in the network. */
  function HandlerCalls(h: History, m: Id): (n: nat) {
    match h
    case Start => 0
    case Then(before, r) => HandlerCalls(before, m) + if r.Handled? && r.env.messageId == m then 1 else 0
  }

  /** The weight put in flight by the broadcasts of `m`. */
  function BroadcastWeight(fanout: nat, h: History, m: Id): (w: nat) {
    match h
    case Start => 0
    case Then(before, r) =>
      BroadcastWeight(fanout, before, m)
      + if r.Originated? && r.env.messageId == m then |r.taken| * Weight(fanout, r.env.hopCount) else 0
  }

  ghost predicate WeightPaid(p: Params, s: Net, m: Id) {
    HandlerCalls(s.log, m) + FlightWeight(p.fanout, s.flight, m) <= BroadcastWeight(p.fanout, s.log, m)
  }

  lemma WeightPaidStep(p: Params, s: Net, ev: Event, m: Id)
    requires WeightPaid(p, s, m) && Enabled(p, s, ev)
    ensures WeightPaid(p, Apply(p, s, ev), m)
  {
    hide Judge, Admit, Weight, ValidTargets, Distinct, Elements, Verified, GrantedOn, RelayedCopies, FlightWeight;
    match ev
    case Broadcast(node, env, taken, refused) =>
      FlightWeightSplits(p.fanout, s.flight, Launch(node, taken, env, env, [node]), m);
      LaunchWeight(p.fanout, node, taken, env, env, [node], m);
    case Handle(i, taken, refused) => HandleLosesWeight(p, s, i, taken, refused, m);
    case Clear(i) =>
      FlightWeightWithout(p.fanout, s.flight, i, m);
      FlightWeightCleared(p.fanout, s.flight, i, m);
    case Lose(i) => FlightWeightWithout(p.fanout, s.flight, i, m);
    case _ =>
  }

  lemma {:induction false} WeightPaidRun(p: Params, s: Net, events: seq<Event>, m: Id)
    requires WeightPaid(p, s, m) && Legal(p, s, events)
    ensures WeightPaid(p, Run(p, s, events), m)
    decreases |events|
  {
    if events != [] {
      WeightPaidStep(p, s, events[0], m);
      WeightPaidRun(p, Apply(p, s, events[0]), events[1..], m);
    }
  }

  /**
   However often seen entries are evicted, keys change or peers reconnect, the handler calls for a message
   never exceed the weight its broadcasts put in flight.
   */
  lemma CallsBoundedByBroadcasts(p: Params, s: Net, m: Id)
    requires Reachable(p, s)
    ensures HandlerCalls(s.log, m) + FlightWeight(p.fanout, s.flight, m) <= BroadcastWeight(p.fanout, s.log, m)
  {
    var s0, events :| Fresh(p, s0) && Legal(p, s0, events) && Run(p, s0, events) == s;
    WeightPaidRun(p, s0, events, m);
  }

  /** How many peers took the broadcasts of `m`. */
  function FirstHops(h: History, m: Id): (n: nat) {
    match h
    case Start => 0
    case Then(before, r) => FirstHops(before, m) + if r.Originated? && r.env.messageId == m then |r.taken| else 0
  }

  ghost predicate BroadcastWithHops(h: History, m: Id, hops: nat) {
    h.Then? ==> BroadcastWithHops(h.before, m, hops)
                && (h.record.Originated? && h.record.env.messageId == m ==> h.record.env.hopCount == hops)
  }

  lemma {:induction false} BroadcastWeightOf(fanout: nat, h: History, m: Id, hops: nat)
    requires BroadcastWithHops(h, m, hops)
    ensures BroadcastWeight(fanout, h, m) == FirstHops(h, m) * Weight(fanout, hops)
  {
    if h.Then? {
      BroadcastWeightOf(fanout, h.before, m, hops);
    }
  }

  /** With the default fanout and hop limit, a broadcast taken by `d` peers causes at most d * (3^10 - 1) / 2 calls. */
  lemma DefaultCallBound(c: Primitives, handlers: set<uint32>, s: Net, m: Id)
    requires Reachable(DefaultParams(c, handlers), s)
    requires BroadcastWithHops(s.log, m, DEFAULT_MAX_HOPS)
    ensures 2 * HandlerCalls(s.log, m) <= FirstHops(s.log, m) * (Power(3, 10) - 1)
  {
    var p := DefaultParams(c, handlers);
    CallsBoundedByBroadcasts(p, s, m);
    BroadcastWeightOf(3, s.log, m, 10);
    WeightIsGeometric(3, 10);
    var d, w := FirstHops(s.log, m), Weight(3, 10);
    assert 2 * (d * w) == d * (2 * w);
  }

  // ---------- linear traffic while nothing is evicted ----------

  /** Send attempts for `m`, successful or not, anywhere. */
  function Attempts(h: History, m: Id): (n: nat) {
    match h
    case Start => 0
    case Then(before, r) =>
      Attempts(before, m)
      + if (r.Originated? || r.Handled?) && r.env.messageId == m then |r.taken| + |r.refused| else 0
  }

  /** The attempts among them made by broadcasting. */
  function OriginAttempts(h: History, m: Id): (n: nat) {
    match h
    case Start => 0
    case Then(before, r) =>
      OriginAttempts(before, m) + if r.Originated? && r.env.messageId == m then |r.taken| + |r.refused| else 0
  }

  ghost predicate InFlight(flight: seq<Copy>, m: Id) {
    exists i :: 0 <= i < |flight| && flight[i].env.messageId == m
  }

  /** Acceptors and broadcasters of `m` still have it in their seen cache. */
  ghost predicate Holders(s: Net, m: Id) {
    && (forall n :: n in Acceptors(s.log, m) ==> n in s.nodes && m in s.nodes[n].engine.seen)
    && (forall b :: b in Broadcasts(s.log, m) ==> b.0 in s.nodes && m in s.nodes[b.0].engine.seen)
  }

  ghost predicate OnceEach(h: History, m: Id) {
    forall n :: AcceptCount(h, n, m) == if n in Acceptors(h, m) then 1 else 0
  }

  /** Before any broadcast there is no trace of `m`, and a single originator never becomes an acceptor. */
  ghost predicate FromOrigin(s: Net, m: Id) {
    && (|Broadcasts(s.log, m)| == 1 ==> Broadcasts(s.log, m)[0].0 !in Acceptors(s.log, m))
    && (Broadcasts(s.log, m) == [] ==> Acceptors(s.log, m) == {} && !InFlight(s.flight, m))
  }

  /** The attempts that `n` relays may make. */
  function Allowance(fanout: nat, n: nat): (attempts: nat) {
    fanout * n
  }

  lemma AllowanceGrows(fanout: nat, n: nat, more: nat)
    ensures Allowance(fanout, n + 1) == Allowance(fanout, n) + fanout
    ensures n <= more ==> Allowance(fanout, n) <= Allowance(fanout, more) == fanout * more
  {
    if n <= more {
      MulMonotone(n, more, fanout);
    }
  }

  /** Every acceptor pays for at most `fanout` attempts. */
  ghost predicate PaidAttempts(p: Params, h: History, m: Id) {
    Attempts(h, m) <= OriginAttempts(h, m) + Allowance(p.fanout, |Acceptors(h, m)|)
  }

  ghost predicate Spreading(p: Params, s: Net, m: Id) {
    Holders(s, m) && OnceEach(s.log, m) && FromOrigin(s, m) && PaidAttempts(p, s.log, m)
  }

  /** A seen entry outlives every step but its own eviction. */
  lemma SeenStays(p: Params, s: Net, ev: Event, m: Id, n: Id)
    requires Enabled(p, s, ev) && NeverEvicted(Apply(p, s, ev).log, m)
    requires n in s.nodes && m in s.nodes[n].engine.seen
    ensures var t := Apply(p, s, ev); n in t.nodes && m in t.nodes[n].engine.seen
  {
    hide Judge, Admit, ValidTargets, Distinct, Elements;
    if ev.Handle? && GossipType(s.flight[ev.i].env.msgType) {
      hide AfterHandle;
      HandleOutcome(p, s, ev.i, ev.taken, ev.refused);
    }
  }

  lemma WithoutKeepsOut(flight: seq<Copy>, i: nat, m: Id)
    requires i < |flight| && !InFlight(flight, m)
    ensures !InFlight(Without(flight, i), m)
  {
  }

  lemma HandleKeepsOut(p: Params, s: Net, i: nat, taken: seq<Id>, refused: seq<Id>, m: Id)
    requires i < |s.flight| && s.flight[i].dst in s.nodes && !InFlight(s.flight, m)
    ensures !InFlight(AfterHandle(p, s, i, taken, refused).flight, m)
  {
    hide Judge, Admit, Without;
    WithoutKeepsOut(s.flight, i, m);
  }

  /** Copies of `m` come from its broadcasts or from copies of `m`. */
  lemma CopiesComeFromCopies(p: Params, s: Net, ev: Event, m: Id)
    requires Enabled(p, s, ev) && !InFlight(s.flight, m)
    requires ev.Broadcast? ==> ev.env.messageId != m
    ensures !InFlight(Apply(p, s, ev).flight, m)
  {
    hide Judge, Admit, ValidTargets, Distinct, Elements, Without, RelayedCopies, AfterHandle;
    match ev
    case Handle(i, taken, refused) => HandleKeepsOut(p, s, i, taken, refused, m);
    case Lose(i) => WithoutKeepsOut(s.flight, i, m);
    case Clear(i) =>
      hide GrantedOn;
      WithoutKeepsOut(s.flight, i, m);
    case _ =>
  }

  /** A first acceptance adds one acceptor and at most `fanout` attempts; another verdict adds nothing. */
  lemma HandledRecordPays(p: Params, h: History, r: Record, m: Id)
    requires PaidAttempts(p, h, m)
    requires r.Handled? && r.env.messageId == m
    requires r.verdict == Accepted ==> r.node !in Acceptors(h, m)
    requires |r.taken| + |r.refused| <= if r.verdict == Accepted then p.fanout else 0
    ensures PaidAttempts(p, Then(h, r), m)
  {
    hide Allowance, AcceptCount;
    var before, after := Acceptors(h, m), Acceptors(Then(h, r), m);
    assert after == before + if r.verdict == Accepted then {r.node} else {};
    AllowanceGrows(p.fanout, |before|, 0);
  }

  lemma HandledRecordCounts(h: History, r: Record, m: Id)
    requires OnceEach(h, m)
    requires r.Handled? && r.env.messageId == m
    requires r.verdict == Accepted ==> r.node !in Acceptors(h, m)
    ensures OnceEach(Then(h, r), m)
    ensures Acceptors(Then(h, r), m) == Acceptors(h, m) + if r.verdict == Accepted then {r.node} else {}
    ensures Broadcasts(Then(h, r), m) == Broadcasts(h, m)
  {
  }

  lemma SpreadingHandle(p: Params, s: Net, i: nat, taken: seq<Id>, refused: seq<Id>, m: Id)
    requires Spreading(p, s, m) && Enabled(p, s, Handle(i, taken, refused))
    requires s.flight[i].env.messageId == m && GossipType(s.flight[i].env.msgType)
    ensures Spreading(p, AfterHandle(p, s, i, taken, refused), m)
  {
    hide Judge, Admit, Distinct, Elements, AfterHandle, OnceEach, PaidAttempts, Acceptors, Broadcasts,
      RelayedCopies, Without;
    var c, t := s.flight[i], AfterHandle(p, s, i, taken, refused);
    HandleOutcome(p, s, i, taken, refused);
    assert InFlight(s.flight, m);
    assert |taken + refused| == |taken| + |refused|;
    HandledRecordPays(p, s.log, t.log.record, m);
    HandledRecordCounts(s.log, t.log.record, m);
    forall n | n in s.nodes && m in s.nodes[n].engine.seen ensures m in t.nodes[n].engine.seen {
    }
  }

  /** Broadcasting `m` itself: the originator remembers it, and the attempts are its own. */
  lemma SpreadingBroadcast(p: Params, s: Net, ev: Event, m: Id)
    requires Spreading(p, s, m) && Enabled(p, s, ev) && ev.Broadcast? && ev.env.messageId == m
    ensures Spreading(p, Apply(p, s, ev), m)
  {
    hide Distinct, Elements, Launch, Allowance, Attempts, OriginAttempts, OnceEach, PaidAttempts;
    var t := Apply(p, s, ev);
    OriginatedRecord(p, s.log, t.log.record, m);
    assert forall n :: n in s.nodes && m in s.nodes[n].engine.seen ==> m in t.nodes[n].engine.seen;
  }

  lemma OriginatedRecord(p: Params, h: History, r: Record, m: Id)
    requires OnceEach(h, m) && PaidAttempts(p, h, m)
    requires r.Originated? && r.env.messageId == m
    ensures OnceEach(Then(h, r), m) && PaidAttempts(p, Then(h, r), m)
    ensures Acceptors(Then(h, r), m) == Acceptors(h, m)
    ensures Broadcasts(Then(h, r), m) == Broadcasts(h, m) + [(r.node, r.env)]
  {
    hide Allowance;
    assert Acceptors(Then(h, r), m) == Acceptors(h, m);
  }

  lemma SpreadingStep(p: Params, s: Net, ev: Event, m: Id)
    requires Spreading(p, s, m) && Enabled(p, s, ev) && NeverEvicted(Apply(p, s, ev).log, m)
    ensures Spreading(p, Apply(p, s, ev), m)
  {
    var t := Apply(p, s, ev);
    if ev.Handle? && s.flight[ev.i].env.messageId == m && GossipType(s.flight[ev.i].env.msgType) {
      SpreadingHandle(p, s, ev.i, ev.taken, ev.refused, m);
    } else if ev.Broadcast? && ev.env.messageId == m {
      SpreadingBroadcast(p, s, ev, m);
    } else {
      SpreadingOther(p, s, ev, m);
    }
  }

  lemma SpreadingOther(p: Params, s: Net, ev: Event, m: Id)
    requires Spreading(p, s, m) && Enabled(p, s, ev) && NeverEvicted(Apply(p, s, ev).log, m)
    requires ev.Handle? ==> s.flight[ev.i].env.messageId != m || !GossipType(s.flight[ev.i].env.msgType)
    requires ev.Broadcast? ==> ev.env.messageId != m
    ensures Spreading(p, Apply(p, s, ev), m)
  {
    hide Apply, Enabled, InFlight, Acceptors, Broadcasts, AcceptCount, Attempts, OriginAttempts,
      NeverEvicted, Allowance;
    var t := Apply(p, s, ev);
    forall n | n in s.nodes && m in s.nodes[n].engine.seen ensures n in t.nodes && m in t.nodes[n].engine.seen {
      SeenStays(p, s, ev, m, n);
    }
    if !InFlight(s.flight, m) {
      CopiesComeFromCopies(p, s, ev, m);
    }
    SameCounts(p, s, ev, m);
  }

  lemma SameCounts(p: Params, s: Net, ev: Event, m: Id)
    requires Enabled(p, s, ev)
    requires ev.Handle? ==> s.flight[ev.i].env.messageId != m || !GossipType(s.flight[ev.i].env.msgType)
    requires ev.Broadcast? ==> ev.env.messageId != m
    ensures var t := Apply(p, s, ev);
            && Acceptors(t.log, m) == Acceptors(s.log, m) && Broadcasts(t.log, m) == Broadcasts(s.log, m)
            && Attempts(t.log, m) == Attempts(s.log, m) && OriginAttempts(t.log, m) == OriginAttempts(s.log, m)
            && forall n :: AcceptCount(t.log, n, m) == AcceptCount(s.log, n, m)
  {
    hide Judge, Admit, ValidTargets, Distinct, Elements, Without, Launch, RelayedCopies;
  }

  lemma {:induction false} SpreadingRun(p: Params, s: Net, events: seq<Event>, m: Id)
    requires Legal(p, s, events) && NeverEvicted(Run(p, s, events).log, m) && Spreading(p, s, m)
    ensures Spreading(p, Run(p, s, events), m)
    decreases |events|
  {
    if events != [] {
      var t := Apply(p, s, events[0]);
      RunExtends(p, t, events[1..]);
      NeverEvictedBefore(Run(p, s, events).log, t.log, m);
      SpreadingStep(p, s, events[0], m);
      SpreadingRun(p, t, events[1..], m);
    }
  }

  lemma {:induction false} NeverEvictedBefore(later: History, h: History, m: Id)
    requires Extends(later, h) && NeverEvicted(later, m)
    ensures NeverEvicted(h, m)
  {
    if later != h {
      NeverEvictedBefore(later.before, h, m);
    }
  }

  lemma ReachableSpreading(p: Params, s: Net, m: Id)
    requires Reachable(p, s) && NeverEvicted(s.log, m)
    ensures Spreading(p, s, m)
  {
    var s0, events :| Fresh(p, s0) && Legal(p, s0, events) && Run(p, s0, events) == s;
    SpreadingRun(p, s0, events, m);
  }

  /** Exactly-once: while `m` is not evicted no node accepts it twice, and its one originator never accepts it. */
  lemma AcceptedAtMostOnce(p: Params, s: Net, m: Id, n: Id)
    requires Reachable(p, s) && NeverEvicted(s.log, m)
    ensures AcceptCount(s.log, n, m) <= 1
    ensures |Broadcasts(s.log, m)| == 1 && Broadcasts(s.log, m)[0].0 == n ==> AcceptCount(s.log, n, m) == 0
  {
    ReachableSpreading(p, s, m);
  }

  /** While `m` is not evicted, its send attempts are at most the broadcast's plus the fanout for every other node. */
  lemma AttemptsArePaid(p: Params, s: Net, m: Id)
    requires Reachable(p, s) && NeverEvicted(s.log, m) && |Broadcasts(s.log, m)| == 1
    ensures s.nodes != map[]
    ensures Attempts(s.log, m) <= OriginAttempts(s.log, m) + p.fanout * (|s.nodes| - 1)
  {
    ReachableSpreading(p, s, m);
    hide Reachable, OnceEach, AcceptCount, Attempts, OriginAttempts, Acceptors, Broadcasts, Allowance;
    var o, a := Broadcasts(s.log, m)[0].0, Acceptors(s.log, m);
    assert Broadcasts(s.log, m)[0] in Broadcasts(s.log, m);
    SubsetCardinality(a, s.nodes.Keys - {o});
    assert |s.nodes.Keys - {o}| == |s.nodes| - 1;
    AllowanceGrows(p.fanout, |a|, |s.nodes| - 1);
  }

  lemma {:induction false} OriginAttemptsLater(later: History, h: History, m: Id)
    requires Extends(later, h)
    ensures |Broadcasts(h, m)| <= |Broadcasts(later, m)|
    ensures |Broadcasts(h, m)| == |Broadcasts(later, m)| ==> OriginAttempts(later, m) == OriginAttempts(h, m)
  {
    if later != h {
      OriginAttemptsLater(later.before, h, m);
    }
  }

  lemma {:induction false} NoBroadcastNoAttempts(h: History, m: Id)
    requires Broadcasts(h, m) == []
    ensures OriginAttempts(h, m) == 0
  {
    if h.Then? {
      NoBroadcastNoAttempts(h.before, m);
    }
  }

  lemma BroadcastAttempts(p: Params, s: Net, ev: Event)
    requires Enabled(p, s, ev) && ev.Broadcast?
    ensures var m, t := ev.env.messageId, Apply(p, s, ev);
            && OriginAttempts(t.log, m) == OriginAttempts(s.log, m) + |s.nodes[ev.node].peers|
            && |Broadcasts(t.log, m)| == |Broadcasts(s.log, m)| + 1
  {
    hide Launch;
    DistinctCardinality(ev.taken + ev.refused);
  }

  /**
   Linear traffic. `o` broadcasts a message in a reachable state and any run follows, in which nobody evicts or
   broadcasts it again: all send attempts for it number at most the peers `o` had, plus the fanout for every other
   node; the attempts of `o` were exactly one for each of its peers.
   */
  lemma LinearTraffic(p: Params, s: Net, ev: Event, events: seq<Event>)
    requires Reachable(p, s) && Enabled(p, s, ev) && ev.Broadcast? && Legal(p, Apply(p, s, ev), events)
    requires var m, t := ev.env.messageId, Run(p, Apply(p, s, ev), events);
             NeverEvicted(t.log, m) && |Broadcasts(t.log, m)| == 1
    ensures var m, t := ev.env.messageId, Run(p, Apply(p, s, ev), events);
            && OriginAttempts(t.log, m) == |s.nodes[ev.node].peers|
            && t.nodes != map[] && Attempts(t.log, m) <= |s.nodes[ev.node].peers| + p.fanout * (|t.nodes| - 1)
  {
    hide Attempts, OriginAttempts, Broadcasts;
    var m, u := ev.env.messageId, Apply(p, s, ev);
    var t := Run(p, u, events);
    BroadcastAttempts(p, s, ev);
    ReachableStep(p, s, ev);
    hide Enabled, Apply, Legal, Run, Reachable;
    RunExtends(p, u, events);
    ReachableRun(p, u, events);
    OriginAttemptsLater(t.log, u.log, m);
    NoBroadcastNoAttempts(s.log, m);
    AttemptsArePaid(p, t, m);
  }
}
