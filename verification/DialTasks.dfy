/**
 The discovery loop and the dial tasks it starts (internal/transport/discovery.go) as a step system. The loop
 selects under the lock, releases it, and takes it again to mark each choice before starting its task; tables,
 connections and other tasks move in between.
 */
module DialTasks {
  import opened ByteStrings
  import opened Crypto
  import opened Sequences
  import opened PeerTables
  import PeerMerge
  import opened DialScheduler

  /** Where the single discovery loop stands; `started` counts the tasks started in this tick. */
  datatype Loop =
    | Waiting
    | Selected(rest: seq<Id>, started: nat)
    | Marked(id: Id, rest: seq<Id>, started: nat)

  /** A task sleeps, dials and serves the connection, notes a failure, and clears its mark on the way out. */
  datatype TaskPc = Jitter | Dialing | Noting | Clearing | Ended

  datatype Task = Task(node: Id, pc: TaskPc)

  type Tasks = map<nat, Task>

  datatype State = State(
    loop: Loop,
    dialing: set<Id>,
    tasks: Tasks,
    connected: set<Id>,
    known: Table,
    now: real)

  datatype Event =
    | Tick(dt: real)
    | Merge(infos: seq<PeerInfo>)
    | Hello(id: Id, key: Key, addr: Bytes, reachable: bool, lastSeen: int64)
    | Peers(connected: set<Id>)
    | Select(chosen: seq<Id>)
    | Mark
    | Spawn(task: nat)
    | EndTick
    | Wake(task: nat)
    | Cancel(task: nat)
    | Fail(task: nat)
    | Finish(task: nat)
    | Note(task: nat, at: int64)
    | Clear(task: nat)

  predicate At(s: State, t: nat, pc: TaskPc) {
    t in s.tasks && s.tasks[t].pc == pc
  }

  function ViewOf(site: Site, cfg: Config, s: State): (v: View) {
    View(site.self, cfg, s.known, s.connected, s.dialing, s.now)
  }

  ghost predicate Enabled(site: Site, cfg: Config, s: State, ev: Event) {
    match ev
    case Tick(dt) => dt >= 0.0
    case Select(chosen) => s.loop.Waiting? && ValidChoice(ViewOf(site, cfg, s), chosen)
    case Mark => s.loop.Selected? && s.loop.rest != []
    case Spawn(t) => s.loop.Marked? && t !in s.tasks
    case EndTick => s.loop.Selected? && s.loop.rest == []
    case Wake(t) => At(s, t, Jitter)
    case Cancel(t) => At(s, t, Jitter)
    case Fail(t) => At(s, t, Dialing)
    case Finish(t) => At(s, t, Dialing)
    case Note(t, _) => At(s, t, Noting)
    case Clear(t) => At(s, t, Clearing)
    case _ => true
  }

  function Goto(s: State, t: nat, pc: TaskPc): (r: State)
    requires t in s.tasks
  {
    s.(tasks := s.tasks[t := s.tasks[t].(pc := pc)])
  }

  /** The state after an event; one that is not enabled changes nothing. */
  ghost function Apply(site: Site, cfg: Config, s: State, ev: Event): (r: State) {
    if !Enabled(site, cfg, s, ev) then s else
    match ev
    case Tick(dt) => s.(now := s.now + dt)
    case Merge(infos) => s.(known := MergeAll(s.known, Validated(site, infos)))
    case Hello(id, key, addr, reachable, lastSeen) =>
      s.(known := Connected(s.known, id, key, addr, reachable, lastSeen))
    case Peers(connected) => s.(connected := connected)
    case Select(chosen) => s.(loop := Selected(chosen, 0))
    case Mark =>
      var id := s.loop.rest[0];
      s.(loop := Marked(id, s.loop.rest[1..], s.loop.started), dialing := s.dialing + {id})
    case Spawn(t) =>
      s.(loop := Selected(s.loop.rest, s.loop.started + 1), tasks := s.tasks[t := Task(s.loop.id, Jitter)])
    case EndTick => s.(loop := Waiting)
    case Wake(t) => Goto(s, t, Dialing)
    case Cancel(t) => Goto(s, t, Clearing)
    case Fail(t) => Goto(s, t, Noting)
    case Finish(t) => Goto(s, t, Clearing)
    case Note(t, at) => Goto(s, t, Clearing).(known := DialFailed(s.known, s.tasks[t].node, at))
    case Clear(t) => Goto(s, t, Ended).(dialing := s.dialing - {s.tasks[t].node})
  }

  ghost predicate Legal(site: Site, cfg: Config, s: State, events: seq<Event>)
    decreases |events|
  {
    events == [] || (Enabled(site, cfg, s, events[0])
                     && Legal(site, cfg, Apply(site, cfg, s, events[0]), events[1..]))
  }

  ghost function Run(site: Site, cfg: Config, s: State, events: seq<Event>): (r: State)
    decreases |events|
  {
    if events == [] then s else Run(site, cfg, Apply(site, cfg, s, events[0]), events[1..])
  }

  /** Records are filed under their own id, as loading leaves them. */
  ghost predicate Filed(table: Table) {
    forall n :: n in table ==> table[n].nodeId == n
  }

  ghost predicate Fresh(s: State) {
    s.loop == Waiting && s.dialing == {} && s.tasks == map[] && Filed(s.known)
  }

  ghost predicate Reachable(site: Site, cfg: Config, s: State) {
    exists s0, events :: Fresh(s0) && Legal(site, cfg, s0, events) && Run(site, cfg, s0, events) == s
  }

  // ---------- one task per id ----------

  function LiveIds(tasks: Tasks): (ids: set<Id>) {
    set t | t in tasks && tasks[t].pc != Ended :: tasks[t].node
  }

  /** The id marked but not yet handed to a task. */
  function MarkedIds(loop: Loop): (ids: set<Id>) {
    if loop.Marked? then {loop.id} else {}
  }

  /** The ids selected but not yet marked. */
  function Rest(loop: Loop): (ids: seq<Id>) {
    if loop.Waiting? then [] else loop.rest
  }

  ghost predicate OneTaskEach(tasks: Tasks) {
    forall t, u :: t in tasks && u in tasks && t != u && tasks[t].pc != Ended && tasks[u].pc != Ended ==>
      tasks[t].node != tasks[u].node
  }

  /** The marks are exactly the live tasks and the id in hand, and nothing selected is already marked. */
  ghost predicate Marks(s: State) {
    && s.dialing == LiveIds(s.tasks) + MarkedIds(s.loop)
    && OneTaskEach(s.tasks)
    && LiveIds(s.tasks) !! MarkedIds(s.loop)
    && Distinct(Rest(s.loop))
    && (forall id :: id in Rest(s.loop) ==> id !in s.dialing)
  }

  /** A tick starts at most three tasks. */
  ghost predicate FewDials(s: State) {
    !s.loop.Waiting? ==> s.loop.started + |MarkedIds(s.loop)| + |Rest(s.loop)| <= MAX_DIALS_PER_TICK
  }

  lemma MovingTask(tasks: Tasks, t: nat, pc: TaskPc)
    requires t in tasks && tasks[t].pc != Ended && pc != Ended
    ensures LiveIds(tasks[t := tasks[t].(pc := pc)]) == LiveIds(tasks)
    ensures OneTaskEach(tasks) ==> OneTaskEach(tasks[t := tasks[t].(pc := pc)])
  {
    var more := tasks[t := tasks[t].(pc := pc)];
    forall id ensures id in LiveIds(more) <==> id in LiveIds(tasks) {
      if id in LiveIds(tasks) {
        var u :| u in tasks && tasks[u].pc != Ended && tasks[u].node == id;
        assert more[u].node == id && more[u].pc != Ended;
      }
    }
  }

  lemma StartingTask(tasks: Tasks, t: nat, id: Id)
    requires t !in tasks && id !in LiveIds(tasks) && OneTaskEach(tasks)
    ensures LiveIds(tasks[t := Task(id, Jitter)]) == LiveIds(tasks) + {id}
    ensures OneTaskEach(tasks[t := Task(id, Jitter)])
  {
    var more := tasks[t := Task(id, Jitter)];
    assert more[t].node == id && more[t].pc != Ended;
    forall x | x in LiveIds(tasks) ensures x in LiveIds(more) {
      var u :| u in tasks && tasks[u].pc != Ended && tasks[u].node == x;
      assert more[u] == tasks[u];
    }
    forall u | u in tasks && tasks[u].pc != Ended ensures tasks[u].node != id {
      assert tasks[u].node in LiveIds(tasks);
    }
  }

  lemma EndingTask(tasks: Tasks, t: nat)
    requires t in tasks && tasks[t].pc != Ended && OneTaskEach(tasks)
    ensures LiveIds(tasks[t := tasks[t].(pc := Ended)]) == LiveIds(tasks) - {tasks[t].node}
    ensures OneTaskEach(tasks[t := tasks[t].(pc := Ended)])
  {
    var fewer := tasks[t := tasks[t].(pc := Ended)];
    forall id ensures id in LiveIds(fewer) <==> id in LiveIds(tasks) && id != tasks[t].node {
      if id in LiveIds(tasks) && id != tasks[t].node {
        var u :| u in tasks && tasks[u].pc != Ended && tasks[u].node == id;
        assert fewer[u] == tasks[u];
      }
    }
  }

  lemma MarksMovingTask(s: State, t: nat, pc: TaskPc)
    requires Marks(s) && t in s.tasks && s.tasks[t].pc != Ended && pc != Ended
    ensures Marks(Goto(s, t, pc))
  {
    hide LiveIds, OneTaskEach, Distinct, MarkedIds, Rest;
    MovingTask(s.tasks, t, pc);
  }

  lemma MarksEndingTask(s: State, t: nat)
    requires Marks(s) && t in s.tasks && s.tasks[t].pc != Ended
    ensures Marks(Goto(s, t, Ended).(dialing := s.dialing - {s.tasks[t].node}))
  {
    hide LiveIds, OneTaskEach, Distinct, MarkedIds, Rest;
    EndingTask(s.tasks, t);
    LiveTaskId(s.tasks, t);
  }

  lemma MarksSelect(site: Site, cfg: Config, s: State, chosen: seq<Id>)
    requires Marks(s) && Enabled(site, cfg, s, Select(chosen))
    ensures var t := Apply(site, cfg, s, Select(chosen)); Marks(t) && FewDials(t)
  {
    hide LiveIds, OneTaskEach, EligibleIds;
    forall id | id in chosen ensures id !in s.dialing {
      EligibleIsUnmarked(ViewOf(site, cfg, s), chosen, id);
    }
  }

  lemma MarksMark(site: Site, cfg: Config, s: State)
    requires Marks(s) && FewDials(s) && Enabled(site, cfg, s, Mark)
    ensures var t := Apply(site, cfg, s, Mark); Marks(t) && FewDials(t)
  {
    hide LiveIds, OneTaskEach;
    var rest := s.loop.rest;
    assert rest == [rest[0]] + rest[1..];
    assert rest[0] in rest;
  }

  lemma MarksSpawn(site: Site, cfg: Config, s: State, t: nat)
    requires Marks(s) && FewDials(s) && Enabled(site, cfg, s, Spawn(t))
    ensures var r := Apply(site, cfg, s, Spawn(t)); Marks(r) && FewDials(r)
  {
    hide LiveIds, OneTaskEach, Distinct;
    StartingTask(s.tasks, t, s.loop.id);
  }

  lemma MarksStep(site: Site, cfg: Config, s: State, ev: Event)
    requires Marks(s) && FewDials(s) && Enabled(site, cfg, s, ev)
    ensures Marks(Apply(site, cfg, s, ev)) && FewDials(Apply(site, cfg, s, ev))
  {
    hide LiveIds, OneTaskEach, MergeAll, Validated, Connected, DialFailed, EligibleIds, ValidChoice;
    match ev
    case Select(chosen) => MarksSelect(site, cfg, s, chosen);
    case Mark => MarksMark(site, cfg, s);
    case Spawn(t) => MarksSpawn(site, cfg, s, t);
    case Wake(t) => MarksMovingTask(s, t, Dialing);
    case Cancel(t) => MarksMovingTask(s, t, Clearing);
    case Fail(t) => MarksMovingTask(s, t, Noting);
    case Finish(t) => MarksMovingTask(s, t, Clearing);
    case Note(t, _) => MarksMovingTask(s, t, Clearing);
    case Clear(t) => MarksEndingTask(s, t);
    case _ =>
  }

  lemma LiveTaskId(tasks: Tasks, t: nat)
    requires t in tasks && tasks[t].pc != Ended
    ensures tasks[t].node in LiveIds(tasks)
  {
  }

  lemma EligibleIsUnmarked(v: View, chosen: seq<Id>, id: Id)
    requires ValidChoice(v, chosen) && id in chosen
    ensures id !in v.dialing && id in v.known && BackoffElapsed(v.known[id], v.now)
  {
    assert id in Elements(chosen);
  }

  // ---------- the backoff still holds when the task starts ----------

  /** Everything selected or marked is a known peer whose backoff has elapsed. */
  ghost predicate Rested(s: State) {
    forall id :: id in Rest(s.loop) || id in MarkedIds(s.loop) ==> id in s.known && BackoffElapsed(s.known[id], s.now)
  }

  /** Merging neither adds failures nor forgets a peer. */
  lemma MergeKeepsBackoff(table: Table, infos: seq<PeerInfo>, id: Id, now: real)
    requires id in table && BackoffElapsed(table[id], now)
    ensures id in MergeAll(table, infos) && BackoffElapsed(MergeAll(table, infos)[id], now)
  {
    PeerMerge.MergeLeavesBest(table, infos, id);
  }

  lemma RestedStep(site: Site, cfg: Config, s: State, ev: Event)
    requires Marks(s) && Rested(s) && Enabled(site, cfg, s, ev)
    ensures Rested(Apply(site, cfg, s, ev))
  {
    hide LiveIds, OneTaskEach, MergeAll, Validated, EligibleIds, Backoff;
    var t := Apply(site, cfg, s, ev);
    match ev
    case Select(chosen) =>
      forall id | id in chosen ensures id in s.known && BackoffElapsed(s.known[id], s.now) {
        EligibleIsUnmarked(ViewOf(site, cfg, s), chosen, id);
      }
    case Merge(infos) =>
      forall id | id in Rest(s.loop) || id in MarkedIds(s.loop)
        ensures id in t.known && BackoffElapsed(t.known[id], t.now) {
        MergeKeepsBackoff(s.known, Validated(site, infos), id, s.now);
      }
    case Note(task, _) => LiveTaskId(s.tasks, task);
    case _ =>
  }

  lemma FiledStep(site: Site, cfg: Config, s: State, ev: Event)
    requires Filed(s.known) && Enabled(site, cfg, s, ev)
    ensures Filed(Apply(site, cfg, s, ev).known)
  {
    hide MergeAll, Validated, ValidChoice;
    if ev.Merge? {
      var valid := Validated(site, ev.infos);
      forall n | n in MergeAll(s.known, valid) ensures MergeAll(s.known, valid)[n].nodeId == n {
        PeerMerge.MergeLeavesBest(s.known, valid, n);
        PeerMerge.BestIsBest(valid, n);
      }
    }
  }

  lemma {:induction false} SafeRun(site: Site, cfg: Config, s: State, events: seq<Event>)
    requires Marks(s) && FewDials(s) && Rested(s) && Filed(s.known) && Legal(site, cfg, s, events)
    ensures var t := Run(site, cfg, s, events); Marks(t) && FewDials(t) && Rested(t) && Filed(t.known)
    decreases |events|
  {
    hide Marks, FewDials, Rested, Filed, Apply, Enabled;
    if events != [] {
      MarksStep(site, cfg, s, events[0]);
      RestedStep(site, cfg, s, events[0]);
      FiledStep(site, cfg, s, events[0]);
      SafeRun(site, cfg, Apply(site, cfg, s, events[0]), events[1..]);
    }
  }

  lemma ReachableIsSafe(site: Site, cfg: Config, s: State)
    requires Reachable(site, cfg, s)
    ensures Marks(s) && FewDials(s) && Rested(s) && Filed(s.known)
  {
    var s0, events :| Fresh(s0) && Legal(site, cfg, s0, events) && Run(site, cfg, s0, events) == s;
    SafeRun(site, cfg, s0, events);
  }

  /**
   Although the lock is released between selection and marking: each node id has at most one live task, and the
   dialing set is exactly the ids of the live tasks and the one marked id not yet handed over.
   */
  lemma AtMostOneTaskPerNode(site: Site, cfg: Config, s: State, t: nat, u: nat)
    requires Reachable(site, cfg, s)
    requires t in s.tasks && u in s.tasks && t != u && s.tasks[t].pc != Ended && s.tasks[u].pc != Ended
    ensures s.tasks[t].node != s.tasks[u].node
    ensures s.dialing == LiveIds(s.tasks) + MarkedIds(s.loop)
  {
    ReachableIsSafe(site, cfg, s);
  }

  /** The task started next is the third of its tick at most, for an id no live task has, whose backoff has elapsed. */
  lemma StartsFewRestedDials(site: Site, cfg: Config, s: State, t: nat)
    requires Reachable(site, cfg, s) && Enabled(site, cfg, s, Spawn(t))
    ensures s.loop.started + 1 <= MAX_DIALS_PER_TICK
    ensures s.loop.id in s.known && BackoffElapsed(s.known[s.loop.id], s.now)
    ensures s.loop.id !in LiveIds(s.tasks)
  {
    ReachableIsSafe(site, cfg, s);
  }
}
