/** The rate limiter inside the network: how many tokens a node spends on one sender, and when it cannot interfere. */
module NetworkRates {
  import opened Arithmetic
  import opened Crypto
  import opened Envelopes
  import opened RateLimiters
  import opened SeenCaches
  import opened Sequences
  import TokenBucket
  import opened Gossip
  import opened Network
  import opened NetworkSafety
  import opened NetworkTraffic
  import opened NetworkCoverage

  // ---------- tokens in a window ----------

  /** How many calls for messages of `sender` the limiter of node `n` granted a token. */
  function GrantedTo(h: History, n: Id, sender: Id): (count: nat) {
    match h
    case Start => 0
    case Then(before, r) =>
      GrantedTo(before, n, sender) + if r.Cleared? && r.node == n && r.env.senderId == sender then 1 else 0
  }

  /** How many messages of `sender` node `n` accepted. */
  function AcceptedFrom(h: History, n: Id, sender: Id): (count: nat) {
    match h
    case Start => 0
    case Then(before, r) =>
      AcceptedFrom(before, n, sender)
      + if r.Handled? && r.node == n && r.verdict == Accepted && r.env.senderId == sender then 1 else 0
  }

  ghost predicate LimitersWellFormed(p: Params, s: Net) {
    forall n :: n in s.nodes ==> TokenBucket.WellFormed(s.nodes[n].engine.senders, s.now, p.rate)
  }

  function TokensFor(p: Params, s: Net, n: Id, sender: Id): (tokens: real)
    requires n in s.nodes
  {
    TokenBucket.Level(s.nodes[n].engine.senders, sender, s.now, p.rate)
  }

  /** Every grant takes a token and nothing else does; tokens come back at the rate until the bucket is full. */
  ghost predicate Paid(p: Params, s: Net, t: Net, n: Id, sender: Id) {
    && n in s.nodes && n in t.nodes && s.now <= t.now && GrantedTo(s.log, n, sender) <= GrantedTo(t.log, n, sender)
    && GrantedTo(t.log, n, sender) as real + TokensFor(p, t, n, sender)
       <= GrantedTo(s.log, n, sender) as real + TokensFor(p, s, n, sender) + Credit(t.now - s.now, p.rate)
    && GrantedTo(t.log, n, sender) as real + TokensFor(p, t, n, sender)
       >= GrantedTo(s.log, n, sender) as real
          + MinReal(Burst(p.rate), TokensFor(p, s, n, sender) + Credit(t.now - s.now, p.rate))
  }

  /** One question to the limiter of node `at` about `from`. */
  lemma PaidByAllow(p: Params, s: Net, t: Net, at: Id, from: Id, n: Id, sender: Id)
    requires Burst(p.rate) >= 1.0 && LimitersWellFormed(p, s) && n in s.nodes && at in s.nodes
    requires t.now == s.now && t.nodes.Keys == s.nodes.Keys
    requires forall x :: x in s.nodes && x != at ==> t.nodes[x] == s.nodes[x]
    requires t.nodes[at].engine.senders == Spent(s.nodes[at].engine.senders, from, s.now, p.rate)
    requires var granted := Grants(s.nodes[at].engine.senders, from, s.now, p.rate);
             GrantedTo(t.log, n, sender)
             == GrantedTo(s.log, n, sender) + if granted && n == at && from == sender then 1 else 0
    ensures LimitersWellFormed(p, t) && Paid(p, s, t, n, sender)
  {
    hide Spent, Refilled, Active, Grants, GrantedTo, TokenBucket.Level;
    var op := TokenBucket.Allow(from, s.now);
    TokenBucket.WellFormedStep(s.nodes[at].engine.senders, s.now, op, p.rate);
    TokenBucket.LevelPays(s.nodes[at].engine.senders, s.now, op, sender, p.rate);
    TokenBucket.LevelRises(s.nodes[n].engine.senders, sender, s.now, s.now, p.rate);
    CreditGrows(0.0, 0.0, p.rate);
  }

  lemma PaidByNothing(p: Params, s: Net, t: Net, n: Id, sender: Id)
    requires Burst(p.rate) >= 1.0 && LimitersWellFormed(p, s) && n in s.nodes
    requires t.now == s.now && t.nodes.Keys == s.nodes.Keys
    requires forall x :: x in s.nodes ==> t.nodes[x].engine.senders == s.nodes[x].engine.senders
    requires GrantedTo(t.log, n, sender) == GrantedTo(s.log, n, sender)
    ensures LimitersWellFormed(p, t) && Paid(p, s, t, n, sender)
  {
    hide Refilled, GrantedTo;
    TokenBucket.LevelRises(s.nodes[n].engine.senders, sender, s.now, s.now, p.rate);
    CreditGrows(0.0, 0.0, p.rate);
  }

  lemma PaidByHandling(p: Params, s: Net, i: nat, taken: seq<Id>, refused: seq<Id>, n: Id, sender: Id)
    requires Burst(p.rate) >= 1.0 && LimitersWellFormed(p, s) && n in s.nodes
    requires Enabled(p, s, Handle(i, taken, refused)) && GossipType(s.flight[i].env.msgType)
    ensures var t := AfterHandle(p, s, i, taken, refused);
            t.nodes.Keys == s.nodes.Keys && LimitersWellFormed(p, t) && Paid(p, s, t, n, sender)
  {
    HandleOutcome(p, s, i, taken, refused);
    hide Judge, AfterHandle, Spent, Marked, Enabled, Grants, LimitersWellFormed, Paid;
    var c, t := s.flight[i], AfterHandle(p, s, i, taken, refused);
    if VerdictOn(p, s, c) == RateLimited {
      PaidByAllow(p, s, t, c.dst, c.env.senderId, n, sender);
    } else {
      PaidByNothing(p, s, t, n, sender);
    }
  }

  lemma PaidByClearing(p: Params, s: Net, i: nat, n: Id, sender: Id)
    requires Burst(p.rate) >= 1.0 && LimitersWellFormed(p, s) && n in s.nodes && AtLimiter(p, s, i)
    ensures var t := AfterClear(p, s, i);
            t.nodes.Keys == s.nodes.Keys && LimitersWellFormed(p, t) && Paid(p, s, t, n, sender)
  {
    ClearOutcome(p, s, i);
    hide AfterClear, Spent, Verified, Grants, LimitersWellFormed, Paid;
    PaidByAllow(p, s, AfterClear(p, s, i), s.flight[i].dst, s.flight[i].env.senderId, n, sender);
  }

  lemma PaidByStep(p: Params, s: Net, ev: Event, n: Id, sender: Id)
    requires Burst(p.rate) >= 1.0 && LimitersWellFormed(p, s) && Enabled(p, s, ev) && n in s.nodes
    ensures var t := Apply(p, s, ev);
            t.nodes.Keys == s.nodes.Keys && LimitersWellFormed(p, t) && Paid(p, s, t, n, sender)
  {
    hide Judge, Admit, ValidTargets, Distinct, Elements, Launch, RelayedCopies, Without, Refilled, Active, Spent;
    if ev.Clear? {
      hide AfterClear, Paid, LimitersWellFormed;
      PaidByClearing(p, s, ev.i, n, sender);
    } else if ev.Handle? && GossipType(s.flight[ev.i].env.msgType) {
      hide AfterHandle, Paid, LimitersWellFormed;
      PaidByHandling(p, s, ev.i, ev.taken, ev.refused, n, sender);
    } else {
      PaidByOther(p, s, ev, n, sender);
    }
  }

  lemma PaidByOther(p: Params, s: Net, ev: Event, n: Id, sender: Id)
    requires Burst(p.rate) >= 1.0 && LimitersWellFormed(p, s) && Enabled(p, s, ev) && n in s.nodes
    requires !ev.Clear? && (ev.Handle? ==> !GossipType(s.flight[ev.i].env.msgType))
    ensures var t := Apply(p, s, ev);
            t.nodes.Keys == s.nodes.Keys && LimitersWellFormed(p, t) && Paid(p, s, t, n, sender)
  {
    hide Judge, Admit, ValidTargets, Distinct, Elements, Launch, RelayedCopies, Without, Refilled, Active, Spent,
      Verified;
    var t := Apply(p, s, ev);
    CreditGrows(0.0, 0.0, p.rate);
    match ev
    case Tick(dt) =>
      TokenBucket.LevelRises(s.nodes[n].engine.senders, sender, s.now, t.now, p.rate);
    case ForgetSenders(node) =>
      var op := TokenBucket.Cleanup(s.now);
      TokenBucket.WellFormedStep(s.nodes[node].engine.senders, s.now, op, p.rate);
      TokenBucket.LevelPays(s.nodes[node].engine.senders, s.now, op, sender, p.rate);
    case _ =>
  }

  lemma {:induction false} PaidByRun(p: Params, s: Net, events: seq<Event>, n: Id, sender: Id)
    requires Burst(p.rate) >= 1.0 && LimitersWellFormed(p, s) && Legal(p, s, events) && n in s.nodes
    ensures var t := Run(p, s, events);
            t.nodes.Keys == s.nodes.Keys && LimitersWellFormed(p, t) && Paid(p, s, t, n, sender)
    decreases |events|
  {
    hide Apply, Enabled, TokensFor, GrantedTo;
    if events == [] {
      CreditGrows(0.0, 0.0, p.rate);
    } else {
      var t := Apply(p, s, events[0]);
      PaidByStep(p, s, events[0], n, sender);
      PaidByRun(p, t, events[1..], n, sender);
      PaidOnward(p, s, t, Run(p, s, events), n, sender);
    }
  }

  lemma PaidOnward(p: Params, s: Net, t: Net, u: Net, n: Id, sender: Id)
    requires n in s.nodes && n in t.nodes && n in u.nodes && Burst(p.rate) >= 1.0
    requires Paid(p, s, t, n, sender) && Paid(p, t, u, n, sender)
    ensures Paid(p, s, u, n, sender)
  {
    hide TokensFor, GrantedTo;
    CreditGrows(t.now - s.now, u.now - s.now, p.rate);
    assert u.now - s.now - (t.now - s.now) == u.now - t.now;
  }

  lemma ReachableLimiters(p: Params, s: Net)
    requires Burst(p.rate) >= 1.0 && Reachable(p, s)
    ensures LimitersWellFormed(p, s)
  {
    var s0, before := FreshStart(p, s);
    FreshLimiters(p, s0);
    SameNodesRun(p, s0, before);
    hide Fresh, Legal, Run, LimitersWellFormed, Paid;
    forall n | n in s.nodes ensures LimitersWellFormed(p, s) {
      PaidByRun(p, s0, before, n, n);
    }
    if s.nodes == map[] {
      NoLimiters(p, s);
    }
  }

  lemma FreshLimiters(p: Params, s: Net)
    requires Fresh(p, s)
    ensures LimitersWellFormed(p, s)
  {
  }

  lemma NoLimiters(p: Params, s: Net)
    requires s.nodes == map[]
    ensures LimitersWellFormed(p, s)
  {
  }

  /** In every part of every run, a node grants one sender at most the burst plus the rate times the elapsed time. */
  lemma GrantedInWindow(p: Params, s: Net, events: seq<Event>, n: Id, sender: Id)
    requires Burst(p.rate) >= 1.0 && Reachable(p, s) && Legal(p, s, events) && n in s.nodes
    ensures var t := Run(p, s, events);
            (GrantedTo(t.log, n, sender) - GrantedTo(s.log, n, sender)) as real
            <= Burst(p.rate) + Credit(t.now - s.now, p.rate)
  {
    hide Reachable, Refilled, Legal, Run;
    ReachableLimiters(p, s);
    PaidByRun(p, s, events, n, sender);
    var t := Run(p, s, events);
    TokenBucket.LevelRises(s.nodes[n].engine.senders, sender, s.now, s.now, p.rate);
    TokenBucket.LevelRises(t.nodes[n].engine.senders, sender, t.now, t.now, p.rate);
  }

  // ---------- accepted messages in a window ----------

  /** Calls of node `n` for messages of `sender` that hold a token and have not tested and set yet. */
  function HeldFor(n: Id, sender: Id): (f: Copy -> bool) {
    (c: Copy) => c.cleared && c.dst == n && c.env.senderId == sender
  }

  function Held(s: Net, n: Id, sender: Id): (count: nat) {
    Count(s.flight, HeldFor(n, sender))
  }

  /** A token is held until its call accepts or is overtaken. */
  ghost predicate Redeemed(s: Net, t: Net, n: Id, sender: Id) {
    AcceptedFrom(t.log, n, sender) + Held(t, n, sender) + GrantedTo(s.log, n, sender)
    <= AcceptedFrom(s.log, n, sender) + Held(s, n, sender) + GrantedTo(t.log, n, sender)
  }

  lemma {:induction false} LaunchHoldsNothing(src: Id, targets: seq<Id>, env: Envelope, origin: Envelope,
                                              trail: seq<Id>,
                                              n: Id, sender: Id)
    ensures Count(Launch(src, targets, env, origin, trail), HeldFor(n, sender)) == 0
    decreases |targets|
  {
    if targets != [] {
      var copies := Launch(src, targets, env, origin, trail);
      assert copies[..|copies| - 1] == Launch(src, targets[..|targets| - 1], env, origin, trail);
      LaunchHoldsNothing(src, targets[..|targets| - 1], env, origin, trail, n, sender);
    }
  }

  lemma RedeemedByHandling(p: Params, s: Net, i: nat, taken: seq<Id>, refused: seq<Id>, n: Id, sender: Id)
    requires Enabled(p, s, Handle(i, taken, refused)) && GossipType(s.flight[i].env.msgType)
    ensures Redeemed(s, AfterHandle(p, s, i, taken, refused), n, sender)
  {
    var c, f := s.flight[i], HeldFor(n, sender);
    HandleOutcome(p, s, i, taken, refused);
    HandledFlight(p, s, i, taken, refused);
    hide Judge, Admit, AfterHandle, Enabled;
    CountWithout(s.flight, i, f);
    if Relays(VerdictOn(p, s, c), c.env) {
      CountSplits(Without(s.flight, i), RelayedCopies(c, taken), f);
      LaunchHoldsNothing(c.dst, taken, OneHopLess(c.env), c.origin, c.trail + [c.dst], n, sender);
    } else {
      assert Without(s.flight, i) + [] == Without(s.flight, i);
    }
  }

  lemma RedeemedByClearing(p: Params, s: Net, i: nat, n: Id, sender: Id)
    requires AtLimiter(p, s, i)
    ensures Redeemed(s, AfterClear(p, s, i), n, sender)
  {
    var f := HeldFor(n, sender);
    ClearOutcome(p, s, i);
    hide AfterClear, Verified, Grants;
    CountUpdated(s.flight, i, s.flight[i].(cleared := true), f);
    CountWithout(s.flight, i, f);
  }

  lemma RedeemedByBroadcast(p: Params, s: Net, ev: Event, n: Id, sender: Id)
    requires Enabled(p, s, ev) && ev.Broadcast?
    ensures Redeemed(s, Apply(p, s, ev), n, sender)
  {
    hide Distinct, Elements, Launch;
    CountSplits(s.flight, Launch(ev.node, ev.taken, ev.env, ev.env, [ev.node]), HeldFor(n, sender));
    LaunchHoldsNothing(ev.node, ev.taken, ev.env, ev.env, [ev.node], n, sender);
  }

  lemma RedeemedStep(p: Params, s: Net, ev: Event, n: Id, sender: Id)
    requires Enabled(p, s, ev)
    ensures Redeemed(s, Apply(p, s, ev), n, sender)
  {
    hide Judge, Admit, ValidTargets, Distinct, Elements, Launch, RelayedCopies, Verified, Grants, Count;
    var f := HeldFor(n, sender);
    match ev
    case Broadcast(_, _, _, _) => RedeemedByBroadcast(p, s, ev, n, sender);
    case Clear(i) =>
      hide AfterClear;
      RedeemedByClearing(p, s, i, n, sender);
    case Handle(i, taken, refused) =>
      CountWithout(s.flight, i, f);
      if GossipType(s.flight[i].env.msgType) {
        hide AfterHandle;
        RedeemedByHandling(p, s, i, taken, refused, n, sender);
      }
    case Lose(i) => CountWithout(s.flight, i, f);
    case _ =>
  }

  lemma {:induction false} RedeemedRun(p: Params, s: Net, events: seq<Event>, n: Id, sender: Id)
    requires Legal(p, s, events)
    ensures Redeemed(s, Run(p, s, events), n, sender)
    decreases |events|
  {
    hide Apply, Enabled, Held, AcceptedFrom, GrantedTo;
    if events != [] {
      RedeemedStep(p, s, events[0], n, sender);
      RedeemedRun(p, Apply(p, s, events[0]), events[1..], n, sender);
    }
  }

  /**
   In every part of every run, a node accepts at most the burst plus the rate times the elapsed time of any one
   sender's messages, and one more for each call that held its token already when the part began.
   */
  lemma AcceptedInWindow(p: Params, s: Net, events: seq<Event>, n: Id, sender: Id)
    requires Burst(p.rate) >= 1.0 && Reachable(p, s) && Legal(p, s, events) && n in s.nodes
    ensures var t := Run(p, s, events);
            (AcceptedFrom(t.log, n, sender) - AcceptedFrom(s.log, n, sender)) as real
            <= Burst(p.rate) + Credit(t.now - s.now, p.rate) + Held(s, n, sender) as real
  {
    GrantedInWindow(p, s, events, n, sender);
    RedeemedRun(p, s, events, n, sender);
  }

  // ---------- a sender within its burst is never limited ----------

  /** Every message broadcast under the name `sender` is one of `ids`. */
  ghost predicate OnlyMessagesOf(h: History, sender: Id, ids: set<Id>) {
    h.Then? ==> OnlyMessagesOf(h.before, sender, ids)
                && (h.record.Originated? && h.record.env.senderId == sender ==> h.record.env.messageId in ids)
  }

  ghost predicate NoneEvicted(h: History, ids: set<Id>) {
    h.Then? ==> NoneEvicted(h.before, ids) && (h.record.Evicted? ==> ids !! h.record.ids)
  }

  ghost predicate NeverRelinked(h: History) {
    h.Then? ==> NeverRelinked(h.before) && !h.record.Relinked?
  }

  /** `sender` has broadcast nothing but `ids`, each once; none of them was evicted and no connection changed. */
  ghost predicate FewMessages(h: History, sender: Id, ids: set<Id>) {
    && OnlyMessagesOf(h, sender, ids) && NoneEvicted(h, ids) && NeverRelinked(h)
    && forall m :: m in ids ==> |Broadcasts(h, m)| <= 1
  }

  lemma {:induction false} FewMessagesBefore(later: History, h: History, sender: Id, ids: set<Id>)
    requires Extends(later, h) && FewMessages(later, sender, ids)
    ensures FewMessages(h, sender, ids)
  {
    if later != h {
      forall m | m in ids ensures |Broadcasts(later.before, m)| <= 1 {
        assert |Broadcasts(later.before, m)| <= |Broadcasts(later, m)|;
      }
      FewMessagesBefore(later.before, h, sender, ids);
    }
  }

  lemma {:induction false} SendersMessage(h: History, sender: Id, ids: set<Id>, node: Id, env: Envelope)
    requires OnlyMessagesOf(h, sender, ids) && WasBroadcast(h, node, env) && env.senderId == sender
    ensures env.messageId in ids
  {
    if !(h.record.Originated? && h.record.node == node && h.record.env == env) {
      SendersMessage(h.before, sender, ids, node, env);
    }
  }

  lemma {:induction false} NoneEvictedOf(h: History, ids: set<Id>, m: Id)
    requires NoneEvicted(h, ids) && m in ids
    ensures NeverEvicted(h, m)
  {
    if h.Then? {
      NoneEvictedOf(h.before, ids, m);
    }
  }

  /** The nodes that have `n` among their peers. */
  function Upstream(s: Net, n: Id): (nodes: set<Id>) {
    set u | u in s.nodes && n in s.nodes[u].peers
  }

  /** Which node sent which of `ids` to `n`. */
  function Sendings(h: History, n: Id, ids: set<Id>): (pairs: set<(Id, Id)>) {
    match h
    case Start => {}
    case Then(before, r) => Sendings(before, n, ids) + Sent(r, n, ids)
  }

  function Sent(r: Record, n: Id, ids: set<Id>): (pairs: set<(Id, Id)>) {
    if (r.Originated? || (r.Handled? && r.verdict == Accepted)) && n in r.taken && r.env.messageId in ids
    then {(r.node, r.env.messageId)}
    else {}
  }

  /** Copies of `ids` on their way to `n`, no token spent on them yet. */
  function DueAt(n: Id, ids: set<Id>): (f: Copy -> bool) {
    (c: Copy) => !c.cleared && c.dst == n && c.env.messageId in ids
  }

  lemma {:induction false} LaunchIsDue(src: Id, targets: seq<Id>, env: Envelope, origin: Envelope, trail: seq<Id>,
                                       n: Id, ids: set<Id>)
    requires Distinct(targets)
    ensures Count(Launch(src, targets, env, origin, trail), DueAt(n, ids))
            == if n in targets && env.messageId in ids then 1 else 0
    decreases |targets|
  {
    if targets != [] {
      var copies, init := Launch(src, targets, env, origin, trail), targets[..|targets| - 1];
      assert copies[..|copies| - 1] == Launch(src, init, env, origin, trail);
      LaunchIsDue(src, init, env, origin, trail, n, ids);
      assert targets == init + [targets[|targets| - 1]];
    }
  }

  /** Whoever sent a message had accepted or broadcast it. */
  lemma {:induction false} SendersHadIt(h: History, n: Id, ids: set<Id>, u: Id, m: Id)
    requires (u, m) in Sendings(h, n, ids)
    ensures m in ids && (u in Acceptors(h, m) || exists b :: b in Broadcasts(h, m) && b.0 == u)
  {
    if (u, m) in Sendings(h.before, n, ids) {
      SendersHadIt(h.before, n, ids, u, m);
      if b :| b in Broadcasts(h.before, m) && b.0 == u {
        assert b in Broadcasts(h, m);
      }
    } else if h.record.Originated? {
      assert Broadcasts(h, m)[|Broadcasts(h, m)| - 1] == (u, h.record.env);
    }
  }

  lemma SendersHoldIt(p: Params, s: Net, n: Id, ids: set<Id>, u: Id, m: Id)
    requires Spreading(p, s, m) && (u, m) in Sendings(s.log, n, ids)
    ensures u in s.nodes && m in s.nodes[u].engine.seen && Broadcasts(s.log, m) != []
  {
    SendersHadIt(s.log, n, ids, u, m);
  }

  /** A node sends each of few messages once: on accepting it, or on broadcasting it. */
  lemma FirstSending(p: Params, s: Net, ev: Event, sender: Id, ids: set<Id>, n: Id)
    requires Reachable(p, s) && Enabled(p, s, ev) && FewMessages(Apply(p, s, ev).log, sender, ids)
    requires FewMessages(s.log, sender, ids)
    requires ev.Broadcast? || (ev.Handle? && GossipType(s.flight[ev.i].env.msgType))
    ensures Apply(p, s, ev).log.Then? && Sent(Apply(p, s, ev).log.record, n, ids) !! Sendings(s.log, n, ids)
  {
    hide FewMessages, Reachable, Judge, Admit, ValidTargets, Distinct, Elements, Launch, RelayedCopies,
      Without, Verified, Spreading, Sendings;
    var t := Apply(p, s, ev);
    var m := if ev.Broadcast? then ev.env.messageId else s.flight[ev.i].env.messageId;
    var u := if ev.Broadcast? then ev.node else s.flight[ev.i].dst;
    if m in ids && (u, m) in Sendings(s.log, n, ids) {
      FewMessagesAre(s.log, sender, ids, m);
      FewMessagesAre(t.log, sender, ids, m);
      ReachableSpreading(p, s, m);
      SendersHoldIt(p, s, n, ids, u, m);
    }
    if ev.Handle? {
      HandleOutcome(p, s, ev.i, ev.taken, ev.refused);
      hide AfterHandle;
    }
  }

  lemma FewMessagesAre(h: History, sender: Id, ids: set<Id>, m: Id)
    requires FewMessages(h, sender, ids) && m in ids
    ensures NeverEvicted(h, m) && |Broadcasts(h, m)| <= 1
  {
    NoneEvictedOf(h, ids, m);
  }

  /** Each copy sent to `n` is paid for at most once: tokens spent and copies due are no more than what was sent. */
  ghost predicate CopiesPaid(s: Net, sender: Id, ids: set<Id>, n: Id) {
    GrantedTo(s.log, n, sender) + Count(s.flight, DueAt(n, ids)) <= |Sendings(s.log, n, ids)|
  }

  lemma CopiesPaidHandle(p: Params, s: Net, i: nat, taken: seq<Id>, refused: seq<Id>, sender: Id, ids: set<Id>, n: Id)
    requires CopiesPaid(s, sender, ids, n)
    requires Enabled(p, s, Handle(i, taken, refused)) && GossipType(s.flight[i].env.msgType)
    requires var t := AfterHandle(p, s, i, taken, refused);
             t.log.Then? && Sent(t.log.record, n, ids) !! Sendings(s.log, n, ids)
    ensures CopiesPaid(AfterHandle(p, s, i, taken, refused), sender, ids, n)
  {
    var c, f := s.flight[i], DueAt(n, ids);
    HandleOutcome(p, s, i, taken, refused);
    HandledFlight(p, s, i, taken, refused);
    hide Judge, Admit, AfterHandle;
    CountWithout(s.flight, i, f);
    if Relays(VerdictOn(p, s, c), c.env) {
      DistinctPrefix(taken, refused);
      hide Enabled;
      CountSplits(Without(s.flight, i), RelayedCopies(c, taken), f);
      LaunchIsDue(c.dst, taken, OneHopLess(c.env), c.origin, c.trail + [c.dst], n, ids);
    } else {
      assert Without(s.flight, i) + [] == Without(s.flight, i);
    }
  }

  lemma DistinctPrefix(a: seq<Id>, b: seq<Id>)
    requires Distinct(a + b)
    ensures Distinct(a)
  {
    forall i, j | 0 <= i < j < |a| ensures a[i] != a[j] {
      assert (a + b)[i] != (a + b)[j];
    }
  }

  lemma CopiesPaidBroadcast(p: Params, s: Net, ev: Event, sender: Id, ids: set<Id>, n: Id)
    requires CopiesPaid(s, sender, ids, n) && Enabled(p, s, ev) && ev.Broadcast?
    requires var t := Apply(p, s, ev); t.log.Then? && Sent(t.log.record, n, ids) !! Sendings(s.log, n, ids)
    ensures CopiesPaid(Apply(p, s, ev), sender, ids, n)
  {
    DistinctPrefix(ev.taken, ev.refused);
    CountSplits(s.flight, Launch(ev.node, ev.taken, ev.env, ev.env, [ev.node]), DueAt(n, ids));
    LaunchIsDue(ev.node, ev.taken, ev.env, ev.env, [ev.node], n, ids);
    hide Distinct, Elements, Launch, DueAt;
  }

  lemma CopiesPaidClear(p: Params, s: Net, i: nat, sender: Id, ids: set<Id>, n: Id)
    requires CopiesPaid(s, sender, ids, n) && AtLimiter(p, s, i) && Ledger(s) && OnlyMessagesOf(s.log, sender, ids)
    ensures CopiesPaid(AfterClear(p, s, i), sender, ids, n)
  {
    var c := s.flight[i];
    assert c in s.flight && InLedger(s.log, c);
    if c.env.senderId == sender {
      SendersMessage(s.log, sender, ids, c.trail[0], c.origin);
    }
    ClearOutcome(p, s, i);
    hide AfterClear, Verified, OnlyMessagesOf, Ledger, GrantedOn, Count, Sendings, InLedger, WasBroadcast;
    assert Sendings(AfterClear(p, s, i).log, n, ids) == Sendings(s.log, n, ids) by {
      ClearSendsNothing(s.log, AfterClear(p, s, i).log.record, n, ids);
    }
    CountUpdated(s.flight, i, c.(cleared := true), DueAt(n, ids));
    CountWithout(s.flight, i, DueAt(n, ids));
  }

  lemma ClearSendsNothing(h: History, r: Record, n: Id, ids: set<Id>)
    requires r.Cleared? || (r.Handled? && r.verdict == OvertakenLimited)
    ensures Sendings(Then(h, r), n, ids) == Sendings(h, n, ids)
  {
  }

  lemma CopiesPaidStep(p: Params, s: Net, ev: Event, sender: Id, ids: set<Id>, n: Id)
    requires Reachable(p, s) && CopiesPaid(s, sender, ids, n) && Enabled(p, s, ev)
    requires FewMessages(s.log, sender, ids) && FewMessages(Apply(p, s, ev).log, sender, ids)
    ensures CopiesPaid(Apply(p, s, ev), sender, ids, n)
  {
    hide Judge, Admit, ValidTargets, Distinct, Elements, Reachable, Verified, NoneEvicted, NeverRelinked,
      Broadcasts, CopiesPaid, AfterClear, AfterHandle, Ledger;
    if ev.Broadcast? {
      FirstSending(p, s, ev, sender, ids, n);
      CopiesPaidBroadcast(p, s, ev, sender, ids, n);
    } else if ev.Clear? {
      ReachableIsSafe(p, s);
      CopiesPaidClear(p, s, ev.i, sender, ids, n);
    } else if ev.Handle? && GossipType(s.flight[ev.i].env.msgType) {
      FirstSending(p, s, ev, sender, ids, n);
      CopiesPaidHandle(p, s, ev.i, ev.taken, ev.refused, sender, ids, n);
    } else {
      CopiesPaidOther(p, s, ev, sender, ids, n);
    }
  }

  lemma CopiesPaidOther(p: Params, s: Net, ev: Event, sender: Id, ids: set<Id>, n: Id)
    requires CopiesPaid(s, sender, ids, n) && Enabled(p, s, ev) && !ev.Broadcast? && !ev.Clear?
    requires ev.Handle? ==> !GossipType(s.flight[ev.i].env.msgType)
    ensures CopiesPaid(Apply(p, s, ev), sender, ids, n)
  {
    hide Judge, Admit, ValidTargets, Verified, DueAt, RelayedCopies;
    if ev.Handle? || ev.Lose? {
      CountWithout(s.flight, ev.i, DueAt(n, ids));
    }
  }

  /** Only a node that has `n` among its peers sends to it. */
  ghost predicate SentFromUpstream(s: Net, ids: set<Id>, n: Id) {
    forall pair :: pair in Sendings(s.log, n, ids) ==> pair.0 in Upstream(s, n) && pair.1 in ids
  }

  lemma SentFromBroadcaster(p: Params, s: Net, ev: Event, ids: set<Id>, n: Id)
    requires Enabled(p, s, ev) && ev.Broadcast?
    ensures forall pair :: pair in Sent(Originated(ev.node, ev.env, ev.taken, ev.refused), n, ids) ==>
              pair.0 in Upstream(s, n) && pair.1 in ids
  {
    assert n in ev.taken ==> n in Elements(ev.taken + ev.refused);
  }

  lemma SentFromRelay(p: Params, s: Net, i: nat, taken: seq<Id>, refused: seq<Id>, v: Verdict, ids: set<Id>, n: Id)
    requires Enabled(p, s, Handle(i, taken, refused))
    ensures forall pair :: pair in Sent(Handled(s.flight[i].dst, s.flight[i].env, v, taken, refused), n, ids) ==>
              pair.0 in Upstream(s, n) && pair.1 in ids
  {
    hide Judge, Distinct;
    assert n in taken ==> n in taken + refused;
  }

  /** What a step writes down, nothing for most. */
  lemma UpstreamGrows(s: Net, t: Net, r: Record, ids: set<Id>, n: Id)
    requires SentFromUpstream(s, ids, n) && Upstream(t, n) == Upstream(s, n) && t.log == Then(s.log, r)
    requires forall pair :: pair in Sent(r, n, ids) ==> pair.0 in Upstream(s, n) && pair.1 in ids
    ensures SentFromUpstream(t, ids, n)
  {
    hide Upstream, Sent;
  }

  lemma UpstreamStep(p: Params, s: Net, ev: Event, ids: set<Id>, n: Id)
    requires SentFromUpstream(s, ids, n) && Enabled(p, s, ev) && NeverRelinked(Apply(p, s, ev).log)
    ensures SentFromUpstream(Apply(p, s, ev), ids, n) && Upstream(Apply(p, s, ev), n) == Upstream(s, n)
  {
    SameUpstreamStep(p, s, ev);
    hide Judge, Admit, ValidTargets, Distinct, Elements, Launch, RelayedCopies, Without, Verified, Grants, Upstream;
    hide NeverRelinked, SentFromUpstream;
    var t := Apply(p, s, ev);
    if ev.Broadcast? {
      SentFromBroadcaster(p, s, ev, ids, n);
    } else if ev.Handle? && GossipType(s.flight[ev.i].env.msgType) {
      SentFromRelay(p, s, ev.i, ev.taken, ev.refused, VerdictOn(p, s, s.flight[ev.i]), ids, n);
    }
    if t.log == s.log {
      SameSendings(s, t, ids, n);
    } else {
      UpstreamGrows(s, t, t.log.record, ids, n);
    }
  }

  lemma SameSendings(s: Net, t: Net, ids: set<Id>, n: Id)
    requires SentFromUpstream(s, ids, n) && Upstream(t, n) == Upstream(s, n) && t.log == s.log
    ensures SentFromUpstream(t, ids, n)
  {
  }

  function Pairs(a: set<Id>, b: set<Id>): (pairs: set<(Id, Id)>) {
    set u, m | u in a && m in b :: (u, m)
  }

  lemma {:induction false} PairsCardinality(a: set<Id>, b: set<Id>)
    ensures |Pairs(a, b)| == |a| * |b|
  {
    if a == {} {
      assert Pairs(a, b) == {};
    } else {
      var x :| x in a;
      PairsCardinality(a - {x}, b);
      RowCardinality(x, b);
      PairsSplit(a, b, x);
      hide Pairs;
      assert |a - {x}| == |a| - 1;
      OneRowMore(|a| - 1, |b|);
    }
  }

  lemma OneRowMore(rows: nat, columns: nat)
    ensures (rows + 1) * columns == rows * columns + columns
  {
  }

  lemma PairsSplit(a: set<Id>, b: set<Id>, x: Id)
    requires x in a
    ensures Pairs(a, b) == Pairs(a - {x}, b) + Pairs({x}, b) && Pairs(a - {x}, b) !! Pairs({x}, b)
  {
  }

  lemma {:induction false} RowCardinality(x: Id, b: set<Id>)
    ensures |Pairs({x}, b)| == |b|
  {
    if b == {} {
      assert Pairs({x}, b) == {};
    } else {
      var y :| y in b;
      RowCardinality(x, b - {y});
      assert Pairs({x}, b) == Pairs({x}, b - {y}) + {(x, y)};
    }
  }

  lemma SendingsBounded(s: Net, ids: set<Id>, n: Id)
    requires SentFromUpstream(s, ids, n)
    ensures |Sendings(s.log, n, ids)| <= |Upstream(s, n)| * |ids|
  {
    forall pair | pair in Sendings(s.log, n, ids) ensures pair in Pairs(Upstream(s, n), ids) {
      assert pair == (pair.0, pair.1);
    }
    SubsetCardinality(Sendings(s.log, n, ids), Pairs(Upstream(s, n), ids));
    PairsCardinality(Upstream(s, n), ids);
  }

  /** A bucket comes with the first grant, and the tokens left are at least the burst less one for each. */
  ghost predicate BurstAccounted(p: Params, s: Net, sender: Id, n: Id) {
    && n in s.nodes && (sender in s.nodes[n].engine.senders ==> GrantedTo(s.log, n, sender) >= 1)
    && (Burst(p.rate) >= 1.0 ==> GrantedTo(s.log, n, sender) as real + TokensFor(p, s, n, sender) >= Burst(p.rate))
  }

  lemma BucketStep(p: Params, s: Net, ev: Event, sender: Id, n: Id)
    requires n in s.nodes && Enabled(p, s, ev)
    requires sender in s.nodes[n].engine.senders ==> GrantedTo(s.log, n, sender) >= 1
    ensures var t := Apply(p, s, ev);
            n in t.nodes && (sender in t.nodes[n].engine.senders ==> GrantedTo(t.log, n, sender) >= 1)
  {
    hide Judge, Admit, ValidTargets, Distinct, Elements, Launch, RelayedCopies, Without, Verified, Refilled;
    if ev.Handle? && GossipType(s.flight[ev.i].env.msgType) {
      hide AfterHandle;
      HandleOutcome(p, s, ev.i, ev.taken, ev.refused);
    } else if ev.Clear? {
      hide AfterClear;
      ClearOutcome(p, s, ev.i);
    }
  }

  lemma BurstAccountedStep(p: Params, s: Net, ev: Event, sender: Id, n: Id)
    requires Reachable(p, s) && n in s.nodes && BurstAccounted(p, s, sender, n) && Enabled(p, s, ev)
    ensures n in Apply(p, s, ev).nodes && BurstAccounted(p, Apply(p, s, ev), sender, n)
  {
    hide Apply, Enabled, LimitersWellFormed, TokensFor, GrantedTo, Reachable;
    BucketStep(p, s, ev, sender, n);
    if Burst(p.rate) >= 1.0 {
      ReachableLimiters(p, s);
      PaidByStep(p, s, ev, n, sender);
      CreditGrows(0.0, Apply(p, s, ev).now - s.now, p.rate);
    }
  }

  ghost predicate Affordable(p: Params, s: Net, sender: Id, ids: set<Id>, n: Id) {
    CopiesPaid(s, sender, ids, n) && SentFromUpstream(s, ids, n) && BurstAccounted(p, s, sender, n)
  }

  lemma AffordableStep(p: Params, s: Net, ev: Event, sender: Id, ids: set<Id>, n: Id)
    requires Reachable(p, s) && n in s.nodes && Affordable(p, s, sender, ids, n) && Enabled(p, s, ev)
    requires FewMessages(s.log, sender, ids) && FewMessages(Apply(p, s, ev).log, sender, ids)
    ensures n in Apply(p, s, ev).nodes && Affordable(p, Apply(p, s, ev), sender, ids, n)
    ensures Upstream(Apply(p, s, ev), n) == Upstream(s, n)
  {
    hide Apply, Enabled, CopiesPaid, SentFromUpstream, BurstAccounted, Reachable;
    CopiesPaidStep(p, s, ev, sender, ids, n);
    UpstreamStep(p, s, ev, ids, n);
    BurstAccountedStep(p, s, ev, sender, n);
  }

  /** Wherever a copy of one of few messages is due, there is a token for it. */
  lemma DueIsGranted(p: Params, s: Net, sender: Id, ids: set<Id>, c: Copy)
    requires c in s.flight && c.dst in s.nodes && Affordable(p, s, sender, ids, c.dst)
    requires !c.cleared && c.env.senderId == sender && c.env.messageId in ids
    requires TokenBucket.WithinBurst(|Upstream(s, c.dst)| * |ids|, p.rate)
    ensures GrantedOn(p, s, c)
  {
    hide Refilled, Upstream, Sendings, Grants, BurstAccounted, TokenBucket.WithinBurst;
    var i :| 0 <= i < |s.flight| && s.flight[i] == c;
    CountWithout(s.flight, i, DueAt(c.dst, ids));
    SendingsBounded(s, ids, c.dst);
    OneTokenLeft(p, s, c.dst, sender, |Upstream(s, c.dst)| * |ids|);
  }

  lemma OneTokenLeft(p: Params, s: Net, n: Id, sender: Id, most: nat)
    requires n in s.nodes && BurstAccounted(p, s, sender, n)
    requires GrantedTo(s.log, n, sender) < most && TokenBucket.WithinBurst(most, p.rate)
    ensures Grants(s.nodes[n].engine.senders, sender, s.now, p.rate)
  {
    hide Refilled, Grants;
    var senders := s.nodes[n].engine.senders;
    if sender in senders {
      TokenBucket.GrantsFromOneToken(senders, sender, s.now, p.rate);
    } else {
      UnknownIsGranted(senders, sender, s.now, p.rate);
    }
  }

  lemma UnknownIsGranted(senders: Senders, id: Id, now: real, rate: real)
    requires id !in senders
    ensures Grants(senders, id, now, rate)
  {
  }

  /** No call for a message of the sender was refused for the rate, whether or not another call had overtaken it. */
  ghost predicate NeverRefused(h: History, sender: Id) {
    h.Then? ==> NeverRefused(h.before, sender)
                && !(h.record.Handled? && h.record.env.senderId == sender
                     && h.record.verdict in {RateLimited, OvertakenLimited})
  }

  /** The burst covers one token for every message from every node that may send it here, at every node. */
  ghost predicate BurstCovers(p: Params, s: Net, ids: set<Id>) {
    forall n :: n in s.nodes ==> TokenBucket.WithinBurst(|Upstream(s, n)| * |ids|, p.rate)
  }

  /** An uncleared copy of the sender's finds a token. */
  lemma CopyIsGranted(p: Params, s: Net, sender: Id, ids: set<Id>, i: nat)
    requires Reachable(p, s) && FewMessages(s.log, sender, ids) && BurstCovers(p, s, ids)
    requires forall n :: n in s.nodes ==> Affordable(p, s, sender, ids, n)
    requires i < |s.flight| && s.flight[i].dst in s.nodes
    requires s.flight[i].env.senderId == sender && !s.flight[i].cleared
    ensures GrantedOn(p, s, s.flight[i])
  {
    var c := s.flight[i];
    ReachableIsSafe(p, s);
    assert c in s.flight && InLedger(s.log, c);
    hide Reachable, Affordable, Grants, Upstream, TokenBucket.WithinBurst;
    SendersMessage(s.log, sender, ids, c.trail[0], c.origin);
    DueIsGranted(p, s, sender, ids, c);
  }

  lemma RefusalNeedsCopy(p: Params, s: Net, ev: Event, sender: Id, ids: set<Id>)
    requires Reachable(p, s) && Enabled(p, s, ev) && NeverRefused(s.log, sender) && FewMessages(s.log, sender, ids)
    requires BurstCovers(p, s, ids) && forall n :: n in s.nodes ==> Affordable(p, s, sender, ids, n)
    ensures NeverRefused(Apply(p, s, ev).log, sender)
  {
    hide Reachable, FewMessages, BurstCovers, Affordable, GrantedOn, Verified, Judge, Admit, ValidTargets;
    hide Distinct, Elements, Launch, RelayedCopies, Without, Unexpired;
    if ev.Handle? || ev.Clear? {
      var c := s.flight[ev.i];
      if c.env.senderId == sender && !c.cleared {
        CopyIsGranted(p, s, sender, ids, ev.i);
      }
      if ev.Clear? {
        hide AfterClear;
        ClearOutcome(p, s, ev.i);
      } else if GossipType(c.env.msgType) {
        hide AfterHandle;
        HandleOutcome(p, s, ev.i, ev.taken, ev.refused);
      }
    }
  }

  lemma {:induction false} UnlimitedRun(p: Params, s: Net, events: seq<Event>, sender: Id, ids: set<Id>)
    requires Reachable(p, s) && Legal(p, s, events) && FewMessages(Run(p, s, events).log, sender, ids)
    requires BurstCovers(p, Run(p, s, events), ids)
    requires NeverRefused(s.log, sender) && forall n :: n in s.nodes ==> Affordable(p, s, sender, ids, n)
    ensures NeverRefused(Run(p, s, events).log, sender)
    decreases |events|
  {
    hide Apply, Enabled, Affordable, FewMessages, NeverRefused, Reachable, TokenBucket.WithinBurst, Upstream;
    if events != [] {
      var ev, t := events[0], Apply(p, s, events[0]);
      RunExtends(p, t, events[1..]);
      RunExtends(p, s, events);
      FewMessagesBefore(Run(p, s, events).log, t.log, sender, ids);
      FewMessagesBefore(Run(p, s, events).log, s.log, sender, ids);
      SameUpstream(p, s, events, sender, ids);
      RefusalNeedsCopy(p, s, ev, sender, ids);
      SameNodesStep(p, s, ev);
      forall n | n in t.nodes ensures Affordable(p, t, sender, ids, n) {
        AffordableStep(p, s, ev, sender, ids, n);
      }
      ReachableStep(p, s, ev);
      UnlimitedRun(p, t, events[1..], sender, ids);
    }
  }

  /** Without a change of connections everyone hears from the same nodes throughout. */
  lemma {:induction false} SameUpstream(p: Params, s: Net, events: seq<Event>, sender: Id, ids: set<Id>)
    requires Legal(p, s, events) && FewMessages(Run(p, s, events).log, sender, ids)
    ensures Run(p, s, events).nodes.Keys == s.nodes.Keys
    ensures forall n :: Upstream(Run(p, s, events), n) == Upstream(s, n)
    decreases |events|
  {
    hide Apply, Enabled, Upstream;
    if events != [] {
      var t := Apply(p, s, events[0]);
      RunExtends(p, t, events[1..]);
      FewMessagesBefore(Run(p, s, events).log, t.log, sender, ids);
      SameNodesStep(p, s, events[0]);
      SameUpstreamStep(p, s, events[0]);
      SameUpstream(p, t, events[1..], sender, ids);
    }
  }

  lemma SameUpstreamStep(p: Params, s: Net, ev: Event)
    requires Enabled(p, s, ev) && NeverRelinked(Apply(p, s, ev).log)
    ensures forall n :: Upstream(Apply(p, s, ev), n) == Upstream(s, n)
  {
    hide Judge, Admit, ValidTargets, Distinct, Elements, Launch, RelayedCopies, Without, Verified, Grants;
    var t := Apply(p, s, ev);
    forall n ensures Upstream(t, n) == Upstream(s, n) {
    }
  }

  /**
   A sender whose messages, times the nodes that may send them to a node, are no more than the burst, 20 by default, is
   never refused there, however fast it sends and however the calls for its copies overlap.
   */
  lemma NeverLimitedWithinBurst(p: Params, s: Net, sender: Id, ids: set<Id>)
    requires Reachable(p, s) && FewMessages(s.log, sender, ids) && BurstCovers(p, s, ids)
    ensures NeverRefused(s.log, sender)
  {
    var s0, events := FreshStart(p, s);
    forall n | n in s0.nodes ensures Affordable(p, s0, sender, ids, n) {
      FreshIsAffordable(p, s0, sender, ids, n);
    }
    FreshIsReachable(p, s0);
    hide Affordable, FewMessages, Fresh, Reachable, Legal, Run, Upstream;
    UnlimitedRun(p, s0, events, sender, ids);
  }

  lemma FreshIsReachable(p: Params, s: Net)
    requires Fresh(p, s)
    ensures Reachable(p, s)
  {
    assert Legal(p, s, []) && Run(p, s, []) == s;
  }

  lemma FreshIsAffordable(p: Params, s: Net, sender: Id, ids: set<Id>, n: Id)
    requires Fresh(p, s) && n in s.nodes
    ensures Affordable(p, s, sender, ids, n)
  {
  }

  // ---------- coverage ----------

  /** Every envelope handled under the id of a message broadcast once names its sender. */
  ghost predicate HandledNames(h: History, m: Id, sender: Id) {
    h.Then? ==> HandledNames(h.before, m, sender)
                && (h.record.Handled? && h.record.env.messageId == m ==> h.record.env.senderId == sender)
  }

  lemma HandledNamesStep(p: Params, s: Net, ev: Event, origin: Id, env: Envelope)
    requires Ledger(s) && Enabled(p, s, ev) && HandledNames(s.log, env.messageId, env.senderId)
    requires forall b :: b in Broadcasts(s.log, env.messageId) ==> b == (origin, env)
    ensures HandledNames(Apply(p, s, ev).log, env.messageId, env.senderId)
  {
    hide Judge, Admit, ValidTargets, Distinct, Elements, Launch, RelayedCopies, Without, Verified, Grants;
    if ev.Handle? || ev.Clear? {
      var c := s.flight[ev.i];
      assert c in s.flight && InLedger(s.log, c);
      WasBroadcastIsListed(s.log, c.trail[0], c.origin);
    }
  }

  lemma {:induction false} HandledNamesRun(p: Params, s: Net, events: seq<Event>, origin: Id, env: Envelope)
    requires Ledger(s) && Legal(p, s, events) && HandledNames(s.log, env.messageId, env.senderId)
    requires forall b :: b in Broadcasts(Run(p, s, events).log, env.messageId) ==> b == (origin, env)
    ensures HandledNames(Run(p, s, events).log, env.messageId, env.senderId)
    decreases |events|
  {
    hide Apply, Enabled, Ledger, HandledNames;
    if events != [] {
      var t := Apply(p, s, events[0]);
      RunExtends(p, s, events);
      EarlierBroadcasts(Run(p, s, events).log, s.log, env.messageId);
      HandledNamesStep(p, s, events[0], origin, env);
      LedgerStep(p, s, events[0]);
      HandledNamesRun(p, t, events[1..], origin, env);
    }
  }

  lemma {:induction false} RefusedNeverLimited(h: History, m: Id, sender: Id)
    requires NeverRefused(h, sender) && HandledNames(h, m, sender)
    ensures NeverLimited(h, m)
  {
    if h.Then? {
      RefusedNeverLimited(h.before, m, sender);
    }
  }

  /**
   Coverage without assuming anything of the limiter: if the messages of the good message's sender, times the peers of
   any node, are no more than the burst, every other node accepts it exactly once, whatever else is going on.
   */
  lemma CoverageWithinBurst(p: Params, s: Net, origin: Id, env: Envelope, ids: set<Id>, n: Id)
    requires Reachable(p, s) && Injective(p.c.sha256) && GoodMessage(p.c, env)
    requires Mesh(PeersOf(s), p.fanout, origin) && WithinReach(|s.nodes|, p.fanout, env.hopCount)
    requires Undisturbed(s.log, env.messageId) && Broadcasts(s.log, env.messageId) == [(origin, env)]
    requires FewMessages(s.log, env.senderId, ids)
    requires forall u :: u in s.nodes ==> TokenBucket.WithinBurst(|s.nodes[u].peers| * |ids|, p.rate)
    requires !InFlight(s.flight, env.messageId)
    requires n in s.nodes
    ensures AcceptCount(s.log, n, env.messageId) == if n == origin then 0 else 1
  {
    forall u | u in s.nodes ensures Upstream(s, u) == s.nodes[u].peers {
      PeersAreUpstream(s, p.fanout, origin, u);
    }
    NeverLimitedWithinBurst(p, s, env.senderId, ids);
    var s0, events := FreshStart(p, s);
    HandledNamesRun(p, s0, events, origin, env);
    RefusedNeverLimited(s.log, env.messageId, env.senderId);
    Coverage(p, s, origin, env, n);
  }

  /** In a mesh, whom a node hears from are its peers. */
  lemma PeersAreUpstream(s: Net, fanout: nat, origin: Id, n: Id)
    requires Mesh(PeersOf(s), fanout, origin) && n in s.nodes
    ensures Upstream(s, n) == s.nodes[n].peers
  {
    hide Connected;
    var g := PeersOf(s);
    forall u ensures u in Upstream(s, n) <==> u in s.nodes[n].peers {
      if u in Upstream(s, n) {
        assert n in g[u];
      }
      if u in s.nodes[n].peers {
        assert u in g[n];
        assert u in g && n in g[u];
      }
    }
  }
}
