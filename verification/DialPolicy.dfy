/**
 Which peers are dialed and how long one that failed is left alone, over whole runs of the discovery loop
 (internal/transport/discovery.go).
 */
module DialPolicy {
  import opened Arithmetic
  import opened Crypto
  import opened Sequences
  import opened PeerTables
  import PeerMerge
  import opened DialScheduler
  import opened DialTasks

  /** Seconds without a dial after `failCount` failures in a row. */
  function Wait(failCount: int): (secs: nat) {
    if failCount <= 0 then 0 else Min(Power(2, failCount - 1), 30)
  }

  /** A record of another node that is neither connected nor being dialed, can be dialed, and has waited long enough. */
  ghost predicate Due(site: Site, cfg: Config, s: State, n: Id) {
    n in s.known &&
    var r := s.known[n];
    && r.nodeId == n != site.self
    && r.reachable && r.addr != [] && r.addr !in cfg.bootstrap
    && n !in s.connected && n !in s.dialing
    && (r.failCount > 0 ==> s.now >= (r.lastFail + Wait(r.failCount)) as real)
  }

  ghost function AllDue(site: Site, cfg: Config, s: State): (ids: set<Id>) {
    set n | n in s.known && Due(site, cfg, s, n)
  }

  lemma DueMeansEligible(site: Site, cfg: Config, s: State, n: Id)
    requires Filed(s.known)
    ensures Eligible(ViewOf(site, cfg, s), n) <==> Due(site, cfg, s, n)
  {
  }

  /**
   In every reachable state: what a tick selects is due and has no task, each id once; nothing at capacity, all that
   is due if that is at most three, and three of it otherwise.
   */
  lemma SelectionIsExact(site: Site, cfg: Config, s: State, chosen: seq<Id>)
    requires Reachable(site, cfg, s) && Enabled(site, cfg, s, Select(chosen))
    ensures Distinct(chosen) && forall id :: id in chosen ==> Due(site, cfg, s, id) && id !in LiveIds(s.tasks)
    ensures var full := cfg.maxPeers > 0 && |s.connected| >= cfg.maxPeers;
            && |chosen| == (if full then 0 else Min(3, |AllDue(site, cfg, s)|))
            && (!full && |AllDue(site, cfg, s)| <= 3 ==> forall id :: Due(site, cfg, s, id) ==> id in chosen)
  {
    ReachableIsSafe(site, cfg, s);
    var v := ViewOf(site, cfg, s);
    forall n ensures Eligible(v, n) <==> Due(site, cfg, s, n) {
      DueMeansEligible(site, cfg, s, n);
    }
    assert forall n :: Due(site, cfg, s, n) <==> n in AllDue(site, cfg, s);
    hide Eligible, Due, Reachable;
    assert EligibleIds(v) == AllDue(site, cfg, s);
    forall id | id in chosen ensures Due(site, cfg, s, id) && id !in LiveIds(s.tasks) {
      assert id in Elements(chosen);
      EligibleIsUnmarked(v, chosen, id);
    }
    DistinctCardinality(chosen);
    if |chosen| == |AllDue(site, cfg, s)| {
      SubsetCardinality(Elements(chosen), AllDue(site, cfg, s));
    }
  }

  // ---------- from the selection to the task ----------

  /** Nobody waiting for its task is connected. */
  ghost predicate Apart(s: State) {
    forall id :: id in Rest(s.loop) || id in MarkedIds(s.loop) ==> id !in s.connected
  }

  lemma ApartStep(site: Site, cfg: Config, s: State, ev: Event)
    requires Filed(s.known) && Apart(s) && Enabled(site, cfg, s, ev) && !ev.Peers?
    ensures Apart(Apply(site, cfg, s, ev))
  {
    hide MergeAll, Validated, Connected, DialFailed, EligibleIds;
    match ev
    case Select(chosen) => SelectedApart(site, cfg, s, chosen);
    case Mark => assert s.loop.rest == [s.loop.rest[0]] + s.loop.rest[1..];
    case _ =>
  }

  lemma SelectedApart(site: Site, cfg: Config, s: State, chosen: seq<Id>)
    requires Filed(s.known) && Enabled(site, cfg, s, Select(chosen))
    ensures forall id :: id in chosen ==> id !in s.connected
  {
    forall id | id in chosen ensures id !in s.connected {
      assert id in Elements(chosen);
      DueMeansEligible(site, cfg, s, id);
    }
  }

  lemma {:induction false} ApartRun(site: Site, cfg: Config, s: State, events: seq<Event>)
    requires Filed(s.known) && Apart(s) && Legal(site, cfg, s, events)
    requires forall i :: 0 <= i < |events| ==> !events[i].Peers?
    ensures Apart(Run(site, cfg, s, events))
    decreases |events|
  {
    hide Filed, Apart, Apply, Enabled;
    if events != [] {
      ApartStep(site, cfg, s, events[0]);
      FiledStep(site, cfg, s, events[0]);
      ApartRun(site, cfg, Apply(site, cfg, s, events[0]), events[1..]);
    }
  }

  /**
   Whatever else happens between the selection and the start of a task, the node dialed is not connected, unless the
   connections have changed in between.
   */
  lemma TaskIsForUnconnected(site: Site, cfg: Config, s: State, chosen: seq<Id>, events: seq<Event>, task: nat)
    requires Reachable(site, cfg, s) && Enabled(site, cfg, s, Select(chosen))
    requires Legal(site, cfg, Apply(site, cfg, s, Select(chosen)), events)
    requires forall i :: 0 <= i < |events| ==> !events[i].Peers?
    requires Enabled(site, cfg, Run(site, cfg, Apply(site, cfg, s, Select(chosen)), events), Spawn(task))
    ensures var t := Run(site, cfg, Apply(site, cfg, s, Select(chosen)), events);
            t.loop.Marked? && t.loop.id !in t.connected
  {
    ReachableIsSafe(site, cfg, s);
    hide Reachable, Legal, Run;
    SelectedApart(site, cfg, s, chosen);
    ApartRun(site, cfg, Apply(site, cfg, s, Select(chosen)), events);
  }

  // ---------- failures in a row ----------

  /** The event is the end of a failed dial of `id`. */
  predicate Fails(s: State, ev: Event, id: Id) {
    ev.Note? && ev.task in s.tasks && s.tasks[ev.task].node == id
  }

  ghost function Failures(site: Site, cfg: Config, s: State, events: seq<Event>, id: Id): (n: nat)
    decreases |events|
  {
    if events == [] then 0
    else (if Fails(s, events[0], id) then 1 else 0)
         + Failures(site, cfg, Apply(site, cfg, s, events[0]), events[1..], id)
  }

  /** When the last of them was; `was` if there is none. */
  ghost function LastFailure(site: Site, cfg: Config, s: State, events: seq<Event>, id: Id, was: int64): (at: int64)
    decreases |events|
  {
    if events == [] then was
    else LastFailure(site, cfg, Apply(site, cfg, s, events[0]), events[1..], id,
                     if Fails(s, events[0], id) then events[0].at else was)
  }

  /** Merging keeps what is known of a node's failures. */
  lemma MergeKeepsFailures(table: Table, infos: seq<PeerInfo>, id: Id)
    requires id in table
    ensures var r := MergeAll(table, infos);
            id in r && r[id].failCount == table[id].failCount && r[id].lastFail == table[id].lastFail
  {
    PeerMerge.MergeLeavesBest(table, infos, id);
  }

  lemma FailureStep(site: Site, cfg: Config, s: State, ev: Event, id: Id)
    requires Enabled(site, cfg, s, ev) && id in s.known && !(ev.Hello? && ev.id == id)
    ensures var r, t := s.known[id], Apply(site, cfg, s, ev);
            && id in t.known
            && t.known[id].failCount == r.failCount + (if Fails(s, ev, id) then 1 else 0)
            && t.known[id].lastFail == if Fails(s, ev, id) then ev.at else r.lastFail
  {
    hide MergeAll, Validated, ValidChoice;
    if ev.Merge? {
      MergeKeepsFailures(s.known, Validated(site, ev.infos), id);
    }
  }

  lemma {:induction false} FailuresAddUp(site: Site, cfg: Config, s: State, events: seq<Event>, id: Id)
    requires Legal(site, cfg, s, events) && id in s.known
    requires forall i :: 0 <= i < |events| ==> !(events[i].Hello? && events[i].id == id)
    ensures var r, t := s.known[id], Run(site, cfg, s, events);
            && id in t.known
            && t.known[id].failCount == r.failCount + Failures(site, cfg, s, events, id)
            && t.known[id].lastFail == LastFailure(site, cfg, s, events, id, r.lastFail)
    decreases |events|
  {
    hide Apply, Enabled, Fails;
    if events != [] {
      assert !(events[0].Hello? && events[0].id == id);
      FailureStep(site, cfg, s, events[0], id);
      FailuresAddUp(site, cfg, Apply(site, cfg, s, events[0]), events[1..], id);
    }
  }

  /** The waits double from one second up to 30. */
  lemma WaitDoubles(k: nat)
    ensures Wait(1) == 1 && (k >= 1 ==> Wait(k + 1) == Min(2 * Wait(k), 30))
  {
    assert Power(2, 0) == 1;
  }

  /**
   A node says hello, and then, with merges and everything else in between but no other hello of it, its dials fail
   `k` times: it is selected again only when the k-th wait is over since the last failure.
   */
  lemma FailuresAreWaitedOut(site: Site, cfg: Config, s: State, hello: Event, events: seq<Event>, chosen: seq<Id>)
    requires Reachable(site, cfg, s) && hello.Hello? && Legal(site, cfg, s, [hello] + events)
    requires forall i :: 0 <= i < |events| ==> !(events[i].Hello? && events[i].id == hello.id)
    requires hello.id in chosen && Enabled(site, cfg, Run(site, cfg, s, [hello] + events), Select(chosen))
    ensures var greeted := Apply(site, cfg, s, hello);
            var k := Failures(site, cfg, greeted, events, hello.id);
            k > 0 ==>
              Run(site, cfg, s, [hello] + events).now
              >= (LastFailure(site, cfg, greeted, events, hello.id, 0) + Min(Power(2, k - 1), 30)) as real
  {
    var id, greeted := hello.id, Apply(site, cfg, s, hello);
    assert ([hello] + events)[0] == hello && ([hello] + events)[1..] == events;
    FailuresAddUp(site, cfg, greeted, events, id);
    var t := Run(site, cfg, greeted, events);
    hide Apply, Legal, Failures, LastFailure, Power, Min;
    assert id in Elements(chosen) && Eligible(ViewOf(site, cfg, t), id);
  }
}
