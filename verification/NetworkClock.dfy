/**
 The clock keeps seen entries for the TTL: within the first TTL after a message is first broadcast nothing can have
 evicted it, so that exactly-once, linear traffic and coverage need no assumption about eviction.
 */
module NetworkClock {
  import opened Crypto
  import opened Envelopes
  import opened SeenCaches
  import opened Gossip
  import opened Network
  import opened NetworkSafety
  import opened NetworkTraffic
  import opened NetworkCoverage
  import TokenBucket
  import opened NetworkRates

  /** Every mark of `m` dates from `start` or later. */
  ghost predicate MarkedSince(s: Net, m: Id, start: real) {
    forall n :: n in s.nodes && m in s.nodes[n].engine.seen ==> s.nodes[n].engine.seen[m] >= start
  }

  lemma MarkedSinceStep(p: Params, s: Net, ev: Event, m: Id, start: real)
    requires MarkedSince(s, m, start) && start <= s.now && Enabled(p, s, ev)
    ensures MarkedSince(Apply(p, s, ev), m, start) && s.now <= Apply(p, s, ev).now
  {
    hide Judge, Admit, ValidTargets, Launch, RelayedCopies, Without, Verified;
    match ev
    case Handle(i, taken, refused) =>
      if GossipType(s.flight[i].env.msgType) {
        hide AfterHandle;
        HandleOutcome(p, s, i, taken, refused);
      }
    case _ =>
  }

  /** A mark that is not older than the TTL survives cleanup. */
  lemma KeptStep(p: Params, s: Net, ev: Event, m: Id, start: real)
    requires MarkedSince(s, m, start) && s.now <= start + p.ttl && NeverEvicted(s.log, m) && Enabled(p, s, ev)
    ensures NeverEvicted(Apply(p, s, ev).log, m)
  {
    hide Judge, Admit, ValidTargets, Launch, RelayedCopies, Without, Verified;
    if ev.ForgetSeen? {
      var seen := s.nodes[ev.node].engine.seen;
      assert m in seen ==> m in Unexpired(seen, p.ttl, s.now);
    }
  }

  lemma {:induction false} ClockGoesOn(p: Params, s: Net, events: seq<Event>)
    requires Legal(p, s, events)
    ensures s.now <= Run(p, s, events).now
    decreases |events|
  {
    if events != [] {
      ClockStep(p, s, events[0]);
      hide Apply, Enabled;
      ClockGoesOn(p, Apply(p, s, events[0]), events[1..]);
    }
  }

  lemma ClockStep(p: Params, s: Net, ev: Event)
    requires Enabled(p, s, ev)
    ensures s.now <= Apply(p, s, ev).now
  {
    hide Judge, Admit, ValidTargets;
  }

  lemma {:induction false} KeptRun(p: Params, s: Net, events: seq<Event>, m: Id, start: real)
    requires MarkedSince(s, m, start) && start <= s.now && NeverEvicted(s.log, m) && Legal(p, s, events)
    requires Run(p, s, events).now <= start + p.ttl
    ensures NeverEvicted(Run(p, s, events).log, m)
    decreases |events|
  {
    hide Apply, Enabled, MarkedSince;
    if events != [] {
      ClockGoesOn(p, s, events);
      MarkedSinceStep(p, s, events[0], m, start);
      KeptStep(p, s, events[0], m, start);
      KeptRun(p, Apply(p, s, events[0]), events[1..], m, start);
    }
  }

  // ---------- before the broadcast ----------

  ghost predicate Untouched(s: Net, m: Id) {
    NeverEvicted(s.log, m) && forall n :: n in s.nodes ==> m !in s.nodes[n].engine.seen
  }

  lemma UntouchedStep(p: Params, s: Net, ev: Event, m: Id)
    requires Ledger(s) && Untouched(s, m) && Enabled(p, s, ev) && Broadcasts(Apply(p, s, ev).log, m) == []
    ensures Untouched(Apply(p, s, ev), m)
  {
    hide Judge, Admit, ValidTargets, Launch, RelayedCopies, Without, Verified, GrantedOn;
    if ev.Handle? && GossipType(s.flight[ev.i].env.msgType) {
      UntouchedHandle(p, s, ev.i, ev.taken, ev.refused, m);
    }
    hide AfterHandle, Ledger, VerdictOn;
  }

  lemma UntouchedHandle(p: Params, s: Net, i: nat, taken: seq<Id>, refused: seq<Id>, m: Id)
    requires Ledger(s) && Untouched(s, m) && Broadcasts(s.log, m) == []
    requires Enabled(p, s, Handle(i, taken, refused)) && GossipType(s.flight[i].env.msgType)
    ensures Untouched(AfterHandle(p, s, i, taken, refused), m)
  {
    var c := s.flight[i];
    assert c in s.flight && InLedger(s.log, c);
    WasBroadcastIsListed(s.log, c.trail[0], c.origin);
    HandleOutcome(p, s, i, taken, refused);
    hide AfterHandle, Ledger, InLedger, WasBroadcast, Judge, ValidTargets;
  }

  lemma {:induction false} UntouchedRun(p: Params, s: Net, events: seq<Event>, m: Id)
    requires Ledger(s) && Untouched(s, m) && Legal(p, s, events) && Broadcasts(Run(p, s, events).log, m) == []
    ensures Untouched(Run(p, s, events), m)
    decreases |events|
  {
    hide Apply, Enabled, Ledger, Untouched;
    if events != [] {
      var t := Apply(p, s, events[0]);
      RunExtends(p, t, events[1..]);
      OriginAttemptsLater(Run(p, s, events).log, t.log, m);
      LedgerStep(p, s, events[0]);
      UntouchedStep(p, s, events[0], m);
      UntouchedRun(p, t, events[1..], m);
    }
  }

  /** Nobody has heard of a message that nobody has broadcast. */
  lemma NothingBeforeBroadcast(p: Params, s: Net, m: Id)
    requires Reachable(p, s) && Broadcasts(s.log, m) == []
    ensures Untouched(s, m)
  {
    var s0, events := FreshStart(p, s);
    UntouchedRun(p, s0, events, m);
  }

  // ---------- the first TTL ----------

  /** From a state in which nobody has broadcast `m`, nobody can have evicted it before the TTL is over. */
  lemma NeverEvictedInFirstTtl(p: Params, s: Net, events: seq<Event>, m: Id)
    requires Reachable(p, s) && Broadcasts(s.log, m) == [] && Legal(p, s, events)
    requires Run(p, s, events).now <= s.now + p.ttl
    ensures NeverEvicted(Run(p, s, events).log, m)
  {
    NothingBeforeBroadcast(p, s, m);
    KeptRun(p, s, events, m, s.now);
  }

  /** Exactly-once for the first TTL: no node accepts the message twice, and its one originator never. */
  lemma AcceptedOnceInFirstTtl(p: Params, s: Net, events: seq<Event>, m: Id, n: Id)
    requires Reachable(p, s) && Broadcasts(s.log, m) == [] && Legal(p, s, events)
    requires Run(p, s, events).now <= s.now + p.ttl
    ensures var t := Run(p, s, events);
            && AcceptCount(t.log, n, m) <= 1
            && (|Broadcasts(t.log, m)| == 1 && Broadcasts(t.log, m)[0].0 == n ==> AcceptCount(t.log, n, m) == 0)
  {
    NeverEvictedInFirstTtl(p, s, events, m);
    hide Reachable, Legal, Run;
    ReachableRun(p, s, events);
    AcceptedAtMostOnce(p, Run(p, s, events), m, n);
  }

  /** Linear traffic for the first TTL after the broadcast. */
  lemma LinearTrafficInFirstTtl(p: Params, s: Net, ev: Event, events: seq<Event>)
    requires Reachable(p, s) && Enabled(p, s, ev) && ev.Broadcast? && Legal(p, Apply(p, s, ev), events)
    requires var m, t := ev.env.messageId, Run(p, Apply(p, s, ev), events);
             Broadcasts(s.log, m) == [] && |Broadcasts(t.log, m)| == 1 && t.now <= s.now + p.ttl
    ensures var m, t := ev.env.messageId, Run(p, Apply(p, s, ev), events);
            t.nodes != map[] && Attempts(t.log, m) <= |s.nodes[ev.node].peers| + p.fanout * (|t.nodes| - 1)
  {
    hide Attempts, OriginAttempts, Broadcasts, Apply, Enabled;
    var all := [ev] + events;
    assert all[0] == ev && all[1..] == events;
    assert Legal(p, s, all) && Run(p, s, all) == Run(p, Apply(p, s, ev), events);
    NeverEvictedInFirstTtl(p, s, all, ev.env.messageId);
    LinearTraffic(p, s, ev, events);
  }

  /** No copy of `m` was lost or refused by a full buffer and no connection changed; entries may have been evicted. */
  ghost predicate Unhindered(h: History, m: Id) {
    h.Then? ==>
      && Unhindered(h.before, m)
      && match h.record
         case Originated(_, env, _, refused) => env.messageId == m ==> refused == []
         case Handled(_, env, _, _, refused) => env.messageId == m ==> refused == []
         case Cleared(_, _) => true
         case Discarded(env) => env.messageId != m
         case Evicted(_, _) => true
         case Relinked(_) => false
  }

  lemma {:induction false} UnhinderedUndisturbed(h: History, m: Id)
    requires Unhindered(h, m) && NeverEvicted(h, m)
    ensures Undisturbed(h, m) && NeverRelinked(h)
  {
    if h.Then? {
      UnhinderedUndisturbed(h.before, m);
    }
  }

  lemma {:induction false} NoneOfThemEvicted(h: History, ids: set<Id>)
    requires forall m :: m in ids ==> NeverEvicted(h, m)
    ensures NoneEvicted(h, ids)
  {
    if h.Then? {
      forall m | m in ids ensures NeverEvicted(h.before, m) {
        assert NeverEvicted(h, m);
      }
      if h.record.Evicted? {
        forall m | m in ids ensures m !in h.record.ids {
          assert NeverEvicted(h, m);
        }
      }
      NoneOfThemEvicted(h.before, ids);
    }
  }

  /**
   Coverage for the first TTL, assuming nothing of eviction or the limiter: from a state in which the sender has
   broadcast nothing yet, if its messages are few for the burst and no copy of this one is lost or refused, then once
   no copy is in flight every other node has accepted it exactly once.
   */
  lemma CoverageInFirstTtl(p: Params, s: Net, events: seq<Event>, origin: Id, env: Envelope, ids: set<Id>, n: Id)
    requires Reachable(p, s) && Legal(p, s, events) && Injective(p.c.sha256) && GoodMessage(p.c, env)
    requires env.messageId in ids && forall m :: m in ids ==> Broadcasts(s.log, m) == []
    requires var t := Run(p, s, events);
             && t.now <= s.now + p.ttl && n in t.nodes
             && Mesh(PeersOf(t), p.fanout, origin) && WithinReach(|t.nodes|, p.fanout, env.hopCount)
             && Unhindered(t.log, env.messageId) && Broadcasts(t.log, env.messageId) == [(origin, env)]
             && OnlyMessagesOf(t.log, env.senderId, ids) && (forall m :: m in ids ==> |Broadcasts(t.log, m)| <= 1)
             && (forall u :: u in t.nodes ==> TokenBucket.WithinBurst(|t.nodes[u].peers| * |ids|, p.rate))
             && !InFlight(t.flight, env.messageId)
    ensures AcceptCount(Run(p, s, events).log, n, env.messageId) == if n == origin then 0 else 1
  {
    var t := Run(p, s, events);
    forall m | m in ids ensures NeverEvicted(t.log, m) {
      NeverEvictedInFirstTtl(p, s, events, m);
    }
    hide Reachable, Legal, Run, Mesh, GoodMessage, WithinReach, TokenBucket.WithinBurst, OnlyMessagesOf;
    ReachableRun(p, s, events);
    NoneOfThemEvicted(t.log, ids);
    UnhinderedUndisturbed(t.log, env.messageId);
    CoverageWithinBurst(p, t, origin, env, ids, n);
  }
}
