/**
 One engine under concurrent calls of HandleIncoming (internal/gossip/gossip.go): every peer's receive loop calls
 it, and a call takes the locks of the seen cache, the keyring and the limiter one after the other. A step is one
 such lock, one atomic counter, or the handler; steps of all calls and of the cleanup loops interleave freely.
 */
module EngineThreads {
  import opened ByteStrings
  import opened Crypto
  import opened Envelopes
  import opened KeyRings
  import opened RateLimiters
  import opened SeenCaches
  import opened Sequences
  import TokenBucket
  import opened Gossip

  type Tid = nat

  /** The next thing a call does. */
  datatype Pc = Has | Lookup | Learn | LookupAgain | Allow | Check | CountReceived | RunHandler | CountDelivered | Done

  /**
   A call in progress. `grant` is the place in the limiter's trace where it got its token, `pass` the index of its own
   pass of Check, each once it has one; `counted`, `ran` and `reported` record what it has done since. No step reads
   these five.
   */
  datatype Call = Call(env: Envelope, pc: Pc, key: Key, grant: int, pass: int, counted: bool, ran: bool, reported: bool)

  /** A call of Check that found its id unmarked, with the grant it had; a broadcast marks its id without one. */
  datatype Pass = Pass(id: Id, at: real, grant: int)

  /** A run of the local handler, with the pass of Check that led to it. */
  datatype HandlerRun = HandlerRun(env: Envelope, pass: int)

  /** `trace` is what the limiter was asked, in order. */
  datatype Shared = Shared(
    seen: Seen,
    keys: Ring,
    senders: Senders,
    received: nat,
    delivered: nat,
    now: real,
    calls: map<Tid, Call>,
    passes: seq<Pass>,
    runs: seq<HandlerRun>,
    trace: seq<TokenBucket.Op>)

  datatype Event =
    | Arrive(tid: Tid, env: Envelope)
    | Advance(tid: Tid)
    | MarkOwn(id: Id)
    | SweepSeen
    | SweepSenders
    | AddKey(key: Key, trust: Trust)
    | Tick(dt: real)

  predicate Enabled(s: Shared, ev: Event) {
    match ev
    case Arrive(tid, _) => tid !in s.calls
    case Advance(tid) => tid in s.calls && s.calls[tid].pc != Done
    case AddKey(key, _) => |key| == PUBLIC_KEY_SIZE
    case Tick(dt) => dt >= 0.0
    case _ => true
  }

  function Put(s: Shared, tid: Tid, call: Call): (r: Shared) {
    s.(calls := s.calls[tid := call])
  }

  /** After a lookup: verify with the key found, or go on to learn it, or drop. */
  function AfterLookup(p: Params, s: Shared, call: Call, mayLearn: bool): (r: Call) {
    var env := call.env;
    if env.senderId in s.keys then
      var key := s.keys[env.senderId].pubKey;
      if Verifies(p.c, env, key) then call.(pc := Allow, key := key) else call.(pc := Done)
    else if mayLearn && BoundTo(p.c, env.senderPubkey, env.senderId) then call.(pc := Learn)
    else call.(pc := Done)
  }

  /** Check finds the id unmarked, and marks it, in one step under the lock. */
  predicate Passes(s: Shared, call: Call) {
    call.pc == Check && call.env.messageId !in s.seen
  }

  /** Where the call goes on, given what its step finds. */
  function NextCall(p: Params, s: Shared, call: Call): (r: Call) {
    var env := call.env;
    match call.pc
    case Has => call.(pc := if env.messageId in s.seen then Done else Lookup)
    case Lookup => AfterLookup(p, s, call, true)
    case Learn => call.(pc := LookupAgain)
    case LookupAgain => AfterLookup(p, s, call, false)
    case Allow =>
      if Grants(s.senders, env.senderId, s.now, p.rate) then call.(pc := Check, grant := |s.trace|)
      else call.(pc := Done)
    case Check => if Passes(s, call) then call.(pc := CountReceived, pass := |s.passes|) else call.(pc := Done)
    case CountReceived => call.(pc := if env.msgType in p.handlers then RunHandler else Done, counted := true)
    case RunHandler => call.(pc := CountDelivered, ran := true)
    case CountDelivered => call.(pc := Done, reported := true)
    case Done => call
  }

  /** The call moves on, and the one shared object its step locks or counts on changes. */
  function AdvanceCall(p: Params, s: Shared, tid: Tid): (r: Shared)
    requires tid in s.calls
  {
    var call := s.calls[tid];
    var env := call.env;
    s.(calls := s.calls[tid := NextCall(p, s, call)],
       keys := if call.pc == Learn then Added(s.keys, env.senderId, env.senderPubkey, GossipLearned) else s.keys,
       senders := if call.pc == Allow then Spent(s.senders, env.senderId, s.now, p.rate) else s.senders,
       seen := if Passes(s, call) then Marked(s.seen, env.messageId, s.now) else s.seen,
       passes := if Passes(s, call) then s.passes + [Pass(env.messageId, s.now, call.grant)] else s.passes,
       received := s.received + (if call.pc == CountReceived then 1 else 0),
       runs := if call.pc == RunHandler then s.runs + [HandlerRun(env, call.pass)] else s.runs,
       delivered := s.delivered + (if call.pc == CountDelivered then 1 else 0),
       trace := if call.pc == Allow then s.trace + [TokenBucket.Allow(env.senderId, s.now)] else s.trace)
  }

  /** The state after an enabled event; a step of a call that does not exist changes nothing. */
  function Apply(p: Params, s: Shared, ev: Event): (r: Shared) {
    match ev
    case Arrive(tid, env) =>
      Put(s, tid, Call(env, if WellFormedEnvelope(env) then Has else Done, [], -1, -1, false, false, false))
    case Advance(tid) => if tid in s.calls then AdvanceCall(p, s, tid) else s
    case MarkOwn(id) =>
      if id in s.seen then s else s.(seen := Marked(s.seen, id, s.now), passes := s.passes + [Pass(id, s.now, -1)])
    case SweepSeen => s.(seen := Unexpired(s.seen, p.ttl, s.now))
    case SweepSenders => s.(senders := Active(s.senders, s.now), trace := s.trace + [TokenBucket.Cleanup(s.now)])
    case AddKey(key, trust) => s.(keys := Added(s.keys, NodeIdOf(p.c, key), key, trust))
    case Tick(dt) => s.(now := s.now + dt)
  }

  predicate Legal(p: Params, s: Shared, events: seq<Event>)
    decreases |events|
  {
    events == [] || (Enabled(s, events[0]) && Legal(p, Apply(p, s, events[0]), events[1..]))
  }

  function Run(p: Params, s: Shared, events: seq<Event>): (r: Shared)
    decreases |events|
  {
    if events == [] then s else Run(p, Apply(p, s, events[0]), events[1..])
  }

  ghost predicate Fresh(p: Params, s: Shared) {
    s == Shared(map[], s.keys, map[], 0, 0, s.now, map[], [], [], []) && Bound(p.c, s.keys)
  }

  ghost predicate Reachable(p: Params, s: Shared) {
    exists s0, events :: Fresh(p, s0) && Legal(p, s0, events) && Run(p, s0, events) == s
  }

  lemma ReachableStep(p: Params, s: Shared, ev: Event)
    requires Reachable(p, s) && Enabled(s, ev)
    ensures Reachable(p, Apply(p, s, ev))
  {
    hide Enabled, Apply, Fresh;
    var s0, events :| Fresh(p, s0) && Legal(p, s0, events) && Run(p, s0, events) == s;
    RunOneMore(p, s0, events, ev);
  }

  lemma {:induction false} RunOneMore(p: Params, s: Shared, events: seq<Event>, ev: Event)
    requires Legal(p, s, events) && Enabled(Run(p, s, events), ev)
    ensures Legal(p, s, events + [ev]) && Run(p, s, events + [ev]) == Apply(p, Run(p, s, events), ev)
    decreases |events|
  {
    hide Enabled, Apply;
    var t := Run(p, s, events);
    if events == [] {
      assert [] + [ev] == [ev] && [ev][1..] == [];
      assert Legal(p, Apply(p, t, ev), []);
    } else {
      RunOneMore(p, Apply(p, s, events[0]), events[1..], ev);
      assert (events + [ev])[1..] == events[1..] + [ev];
    }
  }

  // ---------- passes of Check ----------

  /** Later passes of one id come more than the TTL after earlier ones. */
  ghost predicate Separated(p: Params, s: Shared) {
    forall i, j :: 0 <= i < j < |s.passes| && s.passes[i].id == s.passes[j].id ==>
      s.passes[j].at - s.passes[i].at > p.ttl
  }

  /** A marked id was marked at its last pass; the passes of an unmarked id have all expired. */
  ghost predicate PassesKnown(p: Params, s: Shared) {
    forall i :: 0 <= i < |s.passes| ==>
      && s.passes[i].at <= s.now
      && (if s.passes[i].id in s.seen then s.passes[i].at <= s.seen[s.passes[i].id]
          else s.passes[i].at < s.now - p.ttl)
  }

  lemma PassesStep(p: Params, s: Shared, ev: Event)
    requires Separated(p, s) && PassesKnown(p, s) && Enabled(s, ev)
    ensures Separated(p, Apply(p, s, ev)) && PassesKnown(p, Apply(p, s, ev))
  {
    hide Verifies, BoundTo, Spent, Grants, Active, Added;
  }

  // ---------- calls ----------

  predicate Follows(pc: Pc, next: Pc) {
    match pc
    case Has => next in {Lookup, Done}
    case Lookup => next in {Allow, Learn, Done}
    case Learn => next == LookupAgain
    case LookupAgain => next in {Allow, Done}
    case Allow => next in {Check, Done}
    case Check => next in {CountReceived, Done}
    case CountReceived => next in {RunHandler, Done}
    case RunHandler => next == CountDelivered
    case CountDelivered => next == Done
    case Done => false
  }

  /** One step of one call: where it may go on, and what it records. */
  lemma CallOutcome(p: Params, s: Shared, c: Call)
    requires c.pc != Done
    ensures var c' := NextCall(p, s, c);
            && c'.env == c.env && Follows(c.pc, c'.pc)
            && c'.counted == (c.counted || c.pc == CountReceived)
            && c'.ran == (c.ran || c.pc == RunHandler)
            && c'.reported == (c.reported || c.pc == CountDelivered)
            && (c'.pc == CountReceived <==> Passes(s, c))
            && c'.pass == (if Passes(s, c) then |s.passes| else c.pass)
            && c'.grant == (if c.pc == Allow && c'.pc == Check then |s.trace| else c.grant)
            && (c.pc == Allow ==> (c'.pc == Check <==> Grants(s.senders, c.env.senderId, s.now, p.rate)))
  {
    hide Verifies, BoundTo, Grants;
  }

  /** What a call has done agrees with where it stands. */
  ghost predicate CallOrdered(passes: seq<Pass>, call: Call) {
    && (call.pc in {Has, Lookup, Learn, LookupAgain, Allow, Check} ==> call.pass == -1)
    && (call.pc in {CountReceived, RunHandler, CountDelivered} ==> call.pass >= 0)
    && (call.pass >= 0 ==> call.pass < |passes| && passes[call.pass].id == call.env.messageId)
    && (call.pc == CountReceived ==> !call.counted)
    && (call.pc in {RunHandler, CountDelivered} ==> call.counted)
    && (call.reported ==> call.ran) && (call.ran ==> call.counted) && (call.counted ==> call.pass >= 0)
    && (call.pc in {CountReceived, RunHandler} ==> !call.ran)
    && (call.pc == CountDelivered ==> call.ran && !call.reported)
  }

  /** Every call is in order, and every pass is one call's own. */
  ghost predicate Ordered(s: Shared) {
    && (forall t :: t in s.calls ==> CallOrdered(s.passes, s.calls[t]))
    && (forall t, u :: t in s.calls && u in s.calls && t != u && s.calls[t].pass >= 0 ==>
          s.calls[t].pass != s.calls[u].pass)
  }

  lemma CallStaysOrdered(passes: seq<Pass>, c: Call, c': Call, now: real)
    requires CallOrdered(passes, c) && Follows(c.pc, c'.pc) && c'.env == c.env
    requires c'.counted == (c.counted || c.pc == CountReceived)
    requires c'.ran == (c.ran || c.pc == RunHandler)
    requires c'.reported == (c.reported || c.pc == CountDelivered)
    requires c'.pass == if c'.pc == CountReceived then |passes| else c.pass
    ensures CallOrdered(if c'.pc == CountReceived then passes + [Pass(c.env.messageId, now, c.grant)] else passes, c')
  {
  }

  lemma OrderedStep(p: Params, s: Shared, ev: Event)
    requires Ordered(s) && Enabled(s, ev)
    ensures Ordered(Apply(p, s, ev))
  {
    hide NextCall, Passes, Marked, Unexpired, Active, Added, Spent, AdvanceCall;
    if ev.Advance? {
      CallsStayOrdered(p, s, ev.tid);
      PassesStayDistinct(p, s, ev.tid);
    }
  }

  lemma CallsStayOrdered(p: Params, s: Shared, tid: Tid)
    requires Ordered(s) && Enabled(s, Advance(tid))
    ensures var t := AdvanceCall(p, s, tid); forall u :: u in t.calls ==> CallOrdered(t.passes, t.calls[u])
  {
    var t := AdvanceCall(p, s, tid);
    hide NextCall, Passes, Marked, Added, Spent, Follows, CallOrdered;
    CallOutcome(p, s, s.calls[tid]);
    CallStaysOrdered(s.passes, s.calls[tid], t.calls[tid], s.now);
    forall u | u in s.calls && u != tid ensures CallOrdered(t.passes, t.calls[u]) {
      LaterPasses(s.passes, t.passes, s.calls[u]);
    }
  }

  lemma PassesStayDistinct(p: Params, s: Shared, tid: Tid)
    requires Ordered(s) && Enabled(s, Advance(tid))
    ensures var t := AdvanceCall(p, s, tid);
            forall u, v :: u in t.calls && v in t.calls && u != v && t.calls[u].pass >= 0 ==>
              t.calls[u].pass != t.calls[v].pass
  {
    hide NextCall, Passes, Marked, Added, Spent, Follows, CallOrdered;
    PassesInRange(s);
    CallOutcome(p, s, s.calls[tid]);
  }

  lemma LaterPasses(passes: seq<Pass>, more: seq<Pass>, call: Call)
    requires CallOrdered(passes, call) && passes <= more
    ensures CallOrdered(more, call)
  {
  }

  lemma PassesInRange(s: Shared)
    requires Ordered(s)
    ensures forall t :: t in s.calls ==> s.calls[t].pass < |s.passes|
  {
    forall t | t in s.calls ensures s.calls[t].pass < |s.passes| {
      assert CallOrdered(s.passes, s.calls[t]);
    }
  }

  // ---------- handler runs ----------

  /** Each handler run stems from a pass of its own message, and no two from the same pass. */
  ghost predicate RunsOwnPasses(s: Shared) {
    && (forall i :: 0 <= i < |s.runs| ==>
          0 <= s.runs[i].pass < |s.passes| && s.passes[s.runs[i].pass].id == s.runs[i].env.messageId)
    && (forall i, j :: 0 <= i < j < |s.runs| ==> s.runs[i].pass != s.runs[j].pass)
    && (forall i, t :: 0 <= i < |s.runs| && t in s.calls && s.calls[t].pass >= 0 && !s.calls[t].ran ==>
          s.runs[i].pass != s.calls[t].pass)
  }

  lemma RunsStep(p: Params, s: Shared, ev: Event)
    requires Ordered(s) && RunsOwnPasses(s) && Enabled(s, ev)
    ensures RunsOwnPasses(Apply(p, s, ev))
  {
    hide NextCall, Passes, Marked, Unexpired, Active, Added, Spent, Follows, CallOrdered, AdvanceCall;
    if ev.Advance? {
      RunsAdvance(p, s, ev.tid);
    }
  }

  /** What the order of a call says about the handler run it may be about to make. */
  lemma RunnerOrdered(passes: seq<Pass>, c: Call)
    requires CallOrdered(passes, c)
    ensures c.pass < |passes|
    ensures c.pc == RunHandler ==> 0 <= c.pass && passes[c.pass].id == c.env.messageId && !c.ran
    ensures c.pc == Check ==> c.pass == -1
  {
  }

  lemma RunsAdvance(p: Params, s: Shared, tid: Tid)
    requires Ordered(s) && RunsOwnPasses(s) && Enabled(s, Advance(tid))
    ensures RunsOwnPasses(AdvanceCall(p, s, tid))
  {
    hide NextCall, Marked, Added, Spent, Follows, CallOrdered;
    var c := s.calls[tid];
    assert CallOrdered(s.passes, c);
    RunnerOrdered(s.passes, c);
    CallOutcome(p, s, c);
  }

  // ---------- counters ----------

  type Calls = map<Tid, Call>

  function Counted(calls: Calls): (r: set<Tid>) {
    set t | t in calls && calls[t].counted
  }

  function Ran(calls: Calls): (r: set<Tid>) {
    set t | t in calls && calls[t].ran
  }

  function Reported(calls: Calls): (r: set<Tid>) {
    set t | t in calls && calls[t].reported
  }

  /** The counters count the calls that have passed them. */
  ghost predicate CountersExact(s: Shared) {
    s.received == |Counted(s.calls)| && |s.runs| == |Ran(s.calls)| && s.delivered == |Reported(s.calls)|
  }

  // A call that moves on joins each of the three sets exactly at its own step.

  lemma CallJoinsCounted(calls: Calls, tid: Tid, c: Call, joins: bool)
    requires tid in calls && c.counted == (calls[tid].counted || joins) && (joins ==> !calls[tid].counted)
    ensures |Counted(calls[tid := c])| == |Counted(calls)| + if joins then 1 else 0
  {
    if joins {
      assert Counted(calls[tid := c]) == Counted(calls) + {tid};
    } else {
      assert Counted(calls[tid := c]) == Counted(calls);
    }
  }

  lemma CallJoinsRan(calls: Calls, tid: Tid, c: Call, joins: bool)
    requires tid in calls && c.ran == (calls[tid].ran || joins) && (joins ==> !calls[tid].ran)
    ensures |Ran(calls[tid := c])| == |Ran(calls)| + if joins then 1 else 0
  {
    if joins {
      assert Ran(calls[tid := c]) == Ran(calls) + {tid};
    } else {
      assert Ran(calls[tid := c]) == Ran(calls);
    }
  }

  lemma CallJoinsReported(calls: Calls, tid: Tid, c: Call, joins: bool)
    requires tid in calls && c.reported == (calls[tid].reported || joins) && (joins ==> !calls[tid].reported)
    ensures |Reported(calls[tid := c])| == |Reported(calls)| + if joins then 1 else 0
  {
    if joins {
      assert Reported(calls[tid := c]) == Reported(calls) + {tid};
    } else {
      assert Reported(calls[tid := c]) == Reported(calls);
    }
  }

  lemma CallOrderedFlags(passes: seq<Pass>, c: Call)
    requires CallOrdered(passes, c)
    ensures c.pc == CountReceived ==> !c.counted
    ensures c.pc == RunHandler ==> !c.ran
    ensures c.pc == CountDelivered ==> !c.reported
  {
  }

  lemma NewCallJoinsNothing(calls: Calls, tid: Tid, c: Call)
    requires tid !in calls && !c.counted && !c.ran && !c.reported
    ensures var more := calls[tid := c];
            Counted(more) == Counted(calls) && Ran(more) == Ran(calls) && Reported(more) == Reported(calls)
  {
  }

  lemma CountersStep(p: Params, s: Shared, ev: Event)
    requires Ordered(s) && CountersExact(s) && Enabled(s, ev)
    ensures CountersExact(Apply(p, s, ev))
  {
    hide NextCall, Passes, Spent, Active, Added, Marked, Unexpired, Follows, CallOrdered, Counted, Ran, Reported;
    match ev
    case Arrive(tid, env) => NewCallJoinsNothing(s.calls, tid, Apply(p, s, ev).calls[tid]);
    case Advance(tid) =>
      CallOutcome(p, s, s.calls[tid]);
      var c, c' := s.calls[tid], NextCall(p, s, s.calls[tid]);
      CallOrderedFlags(s.passes, c);
      CallJoinsCounted(s.calls, tid, c', c.pc == CountReceived);
      CallJoinsRan(s.calls, tid, c', c.pc == RunHandler);
      CallJoinsReported(s.calls, tid, c', c.pc == CountDelivered);
    case _ =>
  }

  // ---------- authenticity ----------

  /** A call past verification carries a key bound to its sender under which its envelope verifies. */
  ghost predicate Authentic(p: Params, s: Shared) {
    && Bound(p.c, s.keys)
    && forall t :: t in s.calls && (s.calls[t].pc in {Allow, Check} || s.calls[t].pass >= 0) ==>
         BoundTo(p.c, s.calls[t].key, s.calls[t].env.senderId) && Verifies(p.c, s.calls[t].env, s.calls[t].key)
  }

  /** A call that is about to learn a key has checked that it is bound. */
  ghost predicate LearnsBoundKeys(p: Params, s: Shared) {
    forall t :: t in s.calls && s.calls[t].pc == Learn ==>
      BoundTo(p.c, s.calls[t].env.senderPubkey, s.calls[t].env.senderId)
  }

  /** Verification is what a call must get through on its way from a lookup to the limiter. */
  lemma CallStaysAuthentic(p: Params, s: Shared, c: Call)
    requires Bound(p.c, s.keys) && c.pc != Done && (c.pass >= 0 ==> c.pc in {CountReceived, RunHandler, CountDelivered})
    requires c.pc in {Allow, Check} || c.pass >= 0 ==>
               BoundTo(p.c, c.key, c.env.senderId) && Verifies(p.c, c.env, c.key)
    ensures var c' := NextCall(p, s, c);
            && (c'.pc in {Allow, Check} || c'.pass >= 0 ==>
                  BoundTo(p.c, c'.key, c'.env.senderId) && Verifies(p.c, c'.env, c'.key))
            && (c'.pc == Learn ==> BoundTo(p.c, c'.env.senderPubkey, c'.env.senderId))
  {
    hide Verifies, Grants, NodeIdOf;
  }

  lemma AuthenticStep(p: Params, s: Shared, ev: Event)
    requires Ordered(s) && Authentic(p, s) && LearnsBoundKeys(p, s) && Enabled(s, ev)
    ensures Authentic(p, Apply(p, s, ev)) && LearnsBoundKeys(p, Apply(p, s, ev))
  {
    hide NextCall, Verifies, Spent, Active, Marked, Unexpired, NodeIdOf, WellFormedEnvelope, Passes;
    if ev.Advance? {
      var c := s.calls[ev.tid];
      assert CallOrdered(s.passes, c);
      CallStaysAuthentic(p, s, c);
    }
    hide CallOrdered, Ordered;
  }

  /** A call outside the limits is over as soon as it arrives. */
  ghost predicate LimitsKept(s: Shared) {
    forall t :: t in s.calls && (s.calls[t].pc != Done || s.calls[t].pass >= 0) ==> WithinLimits(s.calls[t].env)
  }

  lemma LimitsKeptStep(p: Params, s: Shared, ev: Event)
    requires LimitsKept(s) && Enabled(s, ev)
    ensures LimitsKept(Apply(p, s, ev))
  {
    hide NextCall, Spent, Active, Marked, Unexpired;
    if ev.Arrive? {
      assert WellFormedEnvelope(ev.env) ==> WithinLimits(ev.env);
    } else if ev.Advance? {
      assert WithinLimits(s.calls[ev.tid].env);
      CallKeepsEnvelope(p, s, s.calls[ev.tid]);
    }
    hide WithinLimits, WellFormedEnvelope;
  }

  lemma CallKeepsEnvelope(p: Params, s: Shared, c: Call)
    ensures NextCall(p, s, c).env == c.env
  {
    hide Verifies, Grants, BoundTo;
  }

  // ---------- every reachable state ----------

  ghost predicate Safe(p: Params, s: Shared) {
    && Separated(p, s) && PassesKnown(p, s) && Ordered(s) && RunsOwnPasses(s) && CountersExact(s)
    && Authentic(p, s) && LearnsBoundKeys(p, s) && LimitsKept(s)
  }

  lemma {:induction false} SafeRun(p: Params, s: Shared, events: seq<Event>)
    requires Safe(p, s) && Legal(p, s, events)
    ensures Safe(p, Run(p, s, events))
    decreases |events|
  {
    hide Separated, PassesKnown, Ordered, RunsOwnPasses, CountersExact, Authentic, LearnsBoundKeys, LimitsKept, Apply,
      Enabled;
    if events != [] {
      PassesStep(p, s, events[0]);
      OrderedStep(p, s, events[0]);
      RunsStep(p, s, events[0]);
      CountersStep(p, s, events[0]);
      AuthenticStep(p, s, events[0]);
      LimitsKeptStep(p, s, events[0]);
      SafeRun(p, Apply(p, s, events[0]), events[1..]);
    }
  }

  lemma ReachableIsSafe(p: Params, s: Shared)
    requires Reachable(p, s)
    ensures Safe(p, s)
  {
    var s0, events :| Fresh(p, s0) && Legal(p, s0, events) && Run(p, s0, events) == s;
    SafeRun(p, s0, events);
  }

  /** Two passes of Check for one id, by whichever calls, are more than the TTL apart. */
  lemma PassesAreSeparated(p: Params, s: Shared, i: nat, j: nat)
    requires Reachable(p, s) && i < j < |s.passes| && s.passes[i].id == s.passes[j].id
    ensures s.passes[j].at - s.passes[i].at > p.ttl
  {
    ReachableIsSafe(p, s);
  }

  /** Two runs of the handler for one message stem from passes more than the TTL apart. */
  lemma HandlerRunsAreSeparated(p: Params, s: Shared, i: nat, j: nat)
    requires Reachable(p, s) && i < j < |s.runs| && s.runs[i].env.messageId == s.runs[j].env.messageId
    ensures 0 <= s.runs[i].pass < |s.passes| && 0 <= s.runs[j].pass < |s.passes|
    ensures var a, b := s.passes[s.runs[i].pass].at, s.passes[s.runs[j].pass].at;
            a - b > p.ttl || b - a > p.ttl
  {
    ReachableIsSafe(p, s);
  }

  /** The delivered counter never runs ahead of the handler, nor the handler of the received counter. */
  lemma DeliveredNeverExceedsReceived(p: Params, s: Shared)
    requires Reachable(p, s)
    ensures s.delivered <= |s.runs| <= s.received
  {
    ReachableIsSafe(p, s);
    assert Reported(s.calls) <= Ran(s.calls) <= Counted(s.calls) by {
      forall t | t in s.calls ensures s.calls[t].reported ==> s.calls[t].ran
        ensures s.calls[t].ran ==> s.calls[t].counted {
        assert CallOrdered(s.passes, s.calls[t]);
      }
    }
    SubsetCardinality(Reported(s.calls), Ran(s.calls));
    SubsetCardinality(Ran(s.calls), Counted(s.calls));
  }

  /** However calls interleave, a call that passed Check has a key bound to its sender that verifies its envelope. */
  lemma PassedCallsAreAuthentic(p: Params, s: Shared, tid: Tid)
    requires Reachable(p, s) && tid in s.calls && s.calls[tid].pass >= 0
    ensures var call := s.calls[tid];
            && call.pass < |s.passes| && s.passes[call.pass].id == call.env.messageId
            && BoundTo(p.c, call.key, call.env.senderId) && Verifies(p.c, call.env, call.key)
            && 1 <= |call.env.messageId| <= 128 && 1 <= |call.env.senderId| <= 128 && |call.env.payload| <= 65536
  {
    ReachableIsSafe(p, s);
    assert CallOrdered(s.passes, s.calls[tid]);
  }

  /** So if nobody forges, it carries in every signed field what the sender it names has signed. */
  lemma PassedCallsAreSigned(p: Params, s: Shared, tid: Tid, priv: Bytes, signed: set<Envelope>)
    returns (e: Envelope)
    requires Reachable(p, s) && Injective(p.c.sha256) && tid in s.calls && s.calls[tid].pass >= 0
    requires s.calls[tid].env.senderId == NodeIdOf(p.c, p.c.publicKey(priv))
    requires OnlySigned(p.c, priv, signed) && SameLengths(signed, s.calls[tid].env)
    ensures e in signed && SameSignedFields(e, s.calls[tid].env)
  {
    hide OnlySigned, Verifies, Reachable;
    var call := s.calls[tid];
    PassedCallsAreAuthentic(p, s, tid);
    NodeIdDeterminesKey(p.c, call.key, p.c.publicKey(priv));
    e := VerifiedMeansSigned(p.c, priv, signed, call.env);
  }
}
