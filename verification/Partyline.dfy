/**
 The partyline hub (internal/partyline/partyline.go) as a step system: one owner of the session map, clients that
 post requests and read their own bounded queues, and a transport that reads what the hub forwards.
 */
module Partyline {
  import opened Options

  const QUEUE_SIZE := 64

  type SessionId = nat

  datatype RemoteMsg = RemoteMsg(nick: string, text: string)

  datatype Msg = UserMsg(from: SessionId, text: string) | SystemMsg(text: string)

  /** A session and its send channel. A session outlives its membership: callers keep the pointer. */
  datatype Session = Session(nick: string, queue: seq<string>, closed: bool)

  /**
   `live` are the keys of the session map, `sessions` every session ever handed out, `remote` the channel to the
   transport if there is one. `panicked` is set by a send on a closed channel and by closing one twice.
   */
  datatype Hub = Hub(
    live: set<SessionId>,
    sessions: map<SessionId, Session>,
    lastId: nat,
    inbox: seq<Msg>,
    remote: Option<seq<RemoteMsg>>,
    stopped: bool,
    panicked: bool)

  function Start(transport: bool): (h: Hub) {
    Hub({}, map[], 0, [], if transport then Some([]) else None, false, false)
  }

  // ---------- lines ----------

  /** A line of the hub and the one session it is not shown to, if any. */
  datatype Line = Line(text: string, exclude: Option<SessionId>)

  function Chat(nick: string, text: string): (s: string) {
    "[" + nick + "] " + text
  }

  function JoinedLine(nick: string): (s: string) {
    "* " + nick + " joined the partyline"
  }

  function LeftLine(nick: string): (s: string) {
    "* " + nick + " left the partyline"
  }

  function RenamedLine(was: string, nick: string): (s: string) {
    "* " + was + " is now known as " + nick
  }

  // ---------- sends ----------

  predicate Addresses(line: Line, id: SessionId) {
    line.exclude != Some(id)
  }

  /** A non-blocking send: a full queue drops the line. */
  function Offer(s: Session, line: string): (r: Session) {
    if |s.queue| < QUEUE_SIZE then s.(queue := s.queue + [line]) else s
  }

  predicate Offered(h: Hub, line: Line, id: SessionId) {
    id in h.live && Addresses(line, id)
  }

  function WithOffered(sessions: map<SessionId, Session>, live: set<SessionId>, line: Line):
    (r: map<SessionId, Session>) {
    map id | id in sessions ::
      if id in live && Addresses(line, id) then Offer(sessions[id], line.text) else sessions[id]
  }

  function SendAll(h: Hub, line: Line): (r: Hub) {
    h.(sessions := WithOffered(h.sessions, h.live, line),
       panicked := h.panicked || (set id | id in h.sessions && Offered(h, line, id) && h.sessions[id].closed) != {})
  }

  function SayIfAny(h: Hub, line: Option<Line>): (r: Hub) {
    match line
    case None => h
    case Some(l) => SendAll(h, l)
  }

  function WithClosed(sessions: map<SessionId, Session>, ids: set<SessionId>): (r: map<SessionId, Session>) {
    map id | id in sessions :: if id in ids then sessions[id].(closed := true) else sessions[id]
  }

  function Close(h: Hub, ids: set<SessionId>): (r: Hub) {
    h.(live := h.live - ids,
       sessions := WithClosed(h.sessions, ids),
       panicked := h.panicked || (set id | id in h.sessions && id in ids && h.sessions[id].closed) != {})
  }

  /** The non-blocking send to the transport. */
  function Forward(h: Hub, m: RemoteMsg): (r: Hub) {
    if h.remote.Some? && |h.remote.value| < QUEUE_SIZE then h.(remote := Some(h.remote.value + [m])) else h
  }

  // ---------- steps ----------

  datatype Event =
    | Join(nick: string, id: SessionId)
    | Leave(session: SessionId)
    | Broadcast(from: SessionId, text: string)
    | SystemMessage(text: string)
    | DeliverRemote(nick: string, text: string)
    | TakeBroadcast
    | Who
    | SetNick(session: SessionId, nick: string)
    | Stop
    | ReadLine(session: SessionId)
    | ReadRemote

  /** A request waits while the hub has stopped or the broadcast channel is full. Ids come from a counter. */
  predicate Enabled(h: Hub, ev: Event) {
    match ev
    case Join(_, id) => !h.stopped && h.lastId < id
    case Leave(id) => !h.stopped && id in h.sessions
    case Broadcast(from, _) => from in h.sessions && |h.inbox| < QUEUE_SIZE
    case SystemMessage(_) => |h.inbox| < QUEUE_SIZE
    case DeliverRemote(_, _) => |h.inbox| < QUEUE_SIZE
    case TakeBroadcast => !h.stopped && h.inbox != [] && (h.inbox[0].UserMsg? ==> h.inbox[0].from in h.sessions)
    case Who => !h.stopped
    case SetNick(id, _) => !h.stopped && id in h.sessions
    case Stop => !h.stopped
    case ReadLine(id) => id in h.sessions && h.sessions[id].queue != []
    case ReadRemote => h.remote.Some? && h.remote.value != []
  }

  /** What the hub says to the sessions in a step. */
  function Said(h: Hub, ev: Event): (line: Option<Line>)
    requires Enabled(h, ev)
  {
    match ev
    case Join(nick, _) => Some(Line(JoinedLine(nick), None))
    case Leave(id) => if id in h.live then Some(Line(LeftLine(h.sessions[id].nick), None)) else None
    case TakeBroadcast =>
      (match h.inbox[0]
       case SystemMsg(text) => Some(Line(text, None))
       case UserMsg(from, text) => Some(Line(Chat(h.sessions[from].nick, text), Some(from))))
    case SetNick(id, nick) => Some(Line(RenamedLine(h.sessions[id].nick, nick), None))
    case _ => None
  }

  /** What a step does to the state before anything is said. */
  function Update(h: Hub, ev: Event): (r: Hub)
    requires Enabled(h, ev)
  {
    match ev
    case Join(nick, id) =>
      h.(live := h.live + {id}, sessions := h.sessions[id := Session(nick, [], false)], lastId := id)
    case Leave(id) => if id in h.live then Close(h, {id}) else h
    case Broadcast(from, text) => h.(inbox := h.inbox + [UserMsg(from, text)])
    case SystemMessage(text) => h.(inbox := h.inbox + [SystemMsg(text)])
    case DeliverRemote(nick, text) => h.(inbox := h.inbox + [SystemMsg(Chat(nick, text))])
    case TakeBroadcast => h.(inbox := h.inbox[1..])
    case Who => h
    case SetNick(id, nick) => h.(sessions := h.sessions[id := h.sessions[id].(nick := nick)])
    case Stop => Close(h, h.live).(stopped := true)
    case ReadLine(id) => h.(sessions := h.sessions[id := h.sessions[id].(queue := h.sessions[id].queue[1..])])
    case ReadRemote => h.(remote := Some(h.remote.value[1..]))
  }

  /** What a step offers to the transport: the message of a local user, after the sessions have been told. */
  function Forwarded(h: Hub, ev: Event): (m: Option<RemoteMsg>)
    requires Enabled(h, ev)
  {
    if ev.TakeBroadcast? && h.inbox[0].UserMsg? then Some(RemoteMsg(h.sessions[h.inbox[0].from].nick, h.inbox[0].text))
    else None
  }

  /** The state after an event; one that is not enabled changes nothing. */
  function Apply(h: Hub, ev: Event): (r: Hub) {
    if !Enabled(h, ev) then h else
    var told := SayIfAny(Update(h, ev), Said(h, ev));
    match Forwarded(h, ev)
    case None => told
    case Some(m) => Forward(told, m)
  }

  // ---------- history ----------

  /**
   The lines of the hub in order; when each session joined and when its membership ended, as positions in them; what
   each session has read and how many lines its full queue has dropped; what local users said and what of it the
   transport channel took.
   */
  datatype History = History(
    lines: seq<Line>,
    since: map<SessionId, nat>,
    until: map<SessionId, nat>,
    read: map<SessionId, seq<string>>,
    dropped: map<SessionId, nat>,
    users: seq<RemoteMsg>,
    taken: seq<RemoteMsg>,
    delivered: seq<RemoteMsg>)

  datatype World = World(hub: Hub, past: History)

  function Drops(h: Hub, line: Option<Line>, id: SessionId): (n: nat) {
    if line.Some? && id in h.sessions && Offered(h, line.value, id) && |h.sessions[id].queue| >= QUEUE_SIZE
    then 1 else 0
  }

  function Ended(h: Hub, ev: Event): (ids: set<SessionId>) {
    match ev
    case Leave(id) => h.live * {id}
    case Stop => h.live
    case _ => {}
  }

  function Opened(ev: Event): (ids: set<SessionId>) {
    if ev.Join? then {ev.id} else {}
  }

  /** Dates every one of `ids` at `n`. */
  function Stamp(dates: map<SessionId, nat>, ids: set<SessionId>, n: nat): (r: map<SessionId, nat>)
    ensures r.Keys == dates.Keys + ids
    ensures forall id :: id in r ==> r[id] == if id in ids then n else dates[id]
  {
    dates + (map id | id in ids :: n)
  }

  function Record(h: Hub, past: History, ev: Event): (r: History) {
    if !Enabled(h, ev) then past else
    var n := |past.lines|;
    var mid, line, m := Update(h, ev), Said(h, ev), Forwarded(h, ev);
    History(
      past.lines + (if line.Some? then [line.value] else []),
      Stamp(past.since, Opened(ev), n),
      Stamp(past.until, Ended(h, ev), n),
      (if ev.ReadLine? then past.read[ev.session := ReadBy(past, ev.session) + [h.sessions[ev.session].queue[0]]]
       else past.read),
      (map id | id in mid.sessions :: DroppedBy(past, id) + Drops(mid, line, id)),
      past.users + (if m.Some? then [m.value] else []),
      past.taken + (if m.Some? && h.remote.Some? && |h.remote.value| < QUEUE_SIZE then [m.value] else []),
      past.delivered + (if ev.ReadRemote? then [h.remote.value[0]] else []))
  }

  function ReadBy(past: History, id: SessionId): (lines: seq<string>) {
    if id in past.read then past.read[id] else []
  }

  function DroppedBy(past: History, id: SessionId): (n: nat) {
    if id in past.dropped then past.dropped[id] else 0
  }

  function Step(w: World, ev: Event): (r: World) {
    World(Apply(w.hub, ev), Record(w.hub, w.past, ev))
  }

  predicate Legal(w: World, events: seq<Event>)
    decreases |events|
  {
    events == [] || (Enabled(w.hub, events[0]) && Legal(Step(w, events[0]), events[1..]))
  }

  function Run(w: World, events: seq<Event>): (r: World)
    decreases |events|
  {
    if events == [] then w else Run(Step(w, events[0]), events[1..])
  }

  function Begin(transport: bool): (w: World) {
    World(Start(transport), History([], map[], map[], map[], map[], [], [], []))
  }

  ghost predicate Reachable(w: World) {
    exists transport, events :: Legal(Begin(transport), events) && Run(Begin(transport), events) == w
  }

  // ---------- channels ----------

  /** A session's channel is closed exactly when the session has left the map. */
  ghost predicate Sound(h: Hub) {
    && !h.panicked
    && h.live <= h.sessions.Keys
    && (forall id :: id in h.sessions ==> id <= h.lastId && (h.sessions[id].closed <==> id !in h.live))
    && (h.stopped ==> h.live == {})
    && (forall i :: 0 <= i < |h.inbox| && h.inbox[i].UserMsg? ==> h.inbox[i].from in h.sessions)
  }

  ghost predicate WithinCapacity(h: Hub) {
    && |h.inbox| <= QUEUE_SIZE
    && (h.remote.Some? ==> |h.remote.value| <= QUEUE_SIZE)
    && (forall id :: id in h.sessions ==> |h.sessions[id].queue| <= QUEUE_SIZE)
  }

  lemma SoundUpdate(h: Hub, ev: Event)
    requires Sound(h) && Enabled(h, ev)
    ensures Sound(Update(h, ev))
  {
  }

  lemma SoundSendAll(h: Hub, line: Line)
    requires Sound(h)
    ensures Sound(SendAll(h, line))
  {
  }

  lemma SoundStep(h: Hub, ev: Event)
    requires Sound(h) && Enabled(h, ev)
    ensures Sound(Apply(h, ev))
  {
    SoundUpdate(h, ev);
    hide Update, SendAll, Said;
    if Said(h, ev).Some? {
      SoundSendAll(Update(h, ev), Said(h, ev).value);
    }
  }

  lemma WithinCapacityStep(h: Hub, ev: Event)
    requires WithinCapacity(h) && Enabled(h, ev)
    ensures WithinCapacity(Apply(h, ev))
  {
    assert WithinCapacity(Update(h, ev));
    hide Update, Said;
  }

  // ---------- what a session gets ----------

  /** `a` arises from `b` by leaving elements out. */
  predicate Subsequence<T(==)>(a: seq<T>, b: seq<T>)
    decreases |b|
  {
    if b == [] then a == []
    else Subsequence(a, b[..|b| - 1])
         || (a != [] && a[|a| - 1] == b[|b| - 1] && Subsequence(a[..|a| - 1], b[..|b| - 1]))
  }

  lemma SubsequenceKeep<T>(a: seq<T>, b: seq<T>, x: T)
    requires Subsequence(a, b)
    ensures Subsequence(a + [x], b + [x])
  {
    assert (a + [x])[..|a|] == a && (b + [x])[..|b|] == b;
  }

  lemma SubsequenceSkip<T>(a: seq<T>, b: seq<T>, x: T)
    requires Subsequence(a, b)
    ensures Subsequence(a, b + [x])
  {
    assert (b + [x])[..|b|] == b;
  }

  /** A subsequence is never longer, and one of the same length is the whole. */
  lemma {:induction false} SubsequenceLength<T>(a: seq<T>, b: seq<T>)
    requires Subsequence(a, b)
    ensures |a| <= |b|
    ensures |a| == |b| ==> a == b
    decreases |b|
  {
    if b != [] {
      var b' := b[..|b| - 1];
      assert b == b' + [b[|b| - 1]];
      if Subsequence(a, b') {
        SubsequenceLength(a, b');
      } else {
        SubsequenceLength(a[..|a| - 1], b');
        assert a == a[..|a| - 1] + [a[|a| - 1]];
      }
    }
  }

  /** The texts of the lines that are not kept from the session. */
  function Addressed(lines: seq<Line>, id: SessionId): (r: seq<string>)
    decreases |lines|
  {
    if lines == [] then []
    else
      var init, last := lines[..|lines| - 1], lines[|lines| - 1];
      Addressed(init, id) + (if Addresses(last, id) then [last.text] else [])
  }

  /** The lines the hub said while the session was in the map. */
  function During(past: History, id: SessionId): (lines: seq<Line>)
    requires id in past.since && past.since[id] <= |past.lines|
    requires id in past.until ==> past.since[id] <= past.until[id] <= |past.lines|
  {
    if id in past.until then past.lines[past.since[id]..past.until[id]] else past.lines[past.since[id]..]
  }

  function Received(w: World, id: SessionId): (lines: seq<string>)
    requires id in w.hub.sessions
  {
    ReadBy(w.past, id) + w.hub.sessions[id].queue
  }

  ghost predicate Dated(w: World) {
    && w.past.since.Keys == w.hub.sessions.Keys
    && w.past.until.Keys == w.hub.sessions.Keys - w.hub.live
    && w.past.read.Keys <= w.hub.sessions.Keys
    && w.past.dropped.Keys == w.hub.sessions.Keys
    && (forall id :: id in w.past.since ==> w.past.since[id] <= |w.past.lines|)
    && (forall id :: id in w.past.until ==>
          id in w.past.since && w.past.since[id] <= w.past.until[id] <= |w.past.lines|)
  }

  /** What the session has got, and the lines its full queue has cost it, account for every line meant for it. */
  ghost predicate Accounted(w: World, id: SessionId)
    requires Dated(w) && id in w.hub.sessions
  {
    var meant := Addressed(During(w.past, id), id);
    Subsequence(Received(w, id), meant) && |Received(w, id)| + DroppedBy(w.past, id) == |meant|
  }

  ghost predicate AllAccounted(w: World) {
    Dated(w) && forall id :: id in w.hub.sessions ==> Accounted(w, id)
  }

  /** Who is in the map, and who is known, after a step. */
  lemma MembershipStep(h: Hub, ev: Event)
    requires Sound(h) && Enabled(h, ev)
    ensures Update(h, ev).sessions.Keys == Apply(h, ev).sessions.Keys == h.sessions.Keys + Opened(ev)
    ensures Update(h, ev).live == Apply(h, ev).live == (h.live - Ended(h, ev)) + Opened(ev)
    ensures Opened(ev) !! h.sessions.Keys && Ended(h, ev) <= h.live <= h.sessions.Keys && Opened(ev) !! Ended(h, ev)
  {
    UpdateMembership(h, ev);
    hide Update, Said, Forwarded, Sound, Enabled;
    SayMembership(Update(h, ev), Said(h, ev));
  }

  lemma UpdateMembership(h: Hub, ev: Event)
    requires Sound(h) && Enabled(h, ev)
    ensures Update(h, ev).sessions.Keys == h.sessions.Keys + Opened(ev)
    ensures Update(h, ev).live == (h.live - Ended(h, ev)) + Opened(ev)
    ensures Opened(ev) !! h.sessions.Keys && Ended(h, ev) <= h.live <= h.sessions.Keys && Opened(ev) !! Ended(h, ev)
  {
  }

  lemma SayMembership(h: Hub, line: Option<Line>)
    ensures SayIfAny(h, line).sessions.Keys == h.sessions.Keys && SayIfAny(h, line).live == h.live
  {
  }

  /** What a step writes down about joining and leaving. */
  lemma StepDates(w: World, ev: Event)
    requires Enabled(w.hub, ev)
    ensures var past, past', n := w.past, Step(w, ev).past, |w.past.lines|;
            && past'.lines == past.lines + (if Said(w.hub, ev).Some? then [Said(w.hub, ev).value] else [])
            && past'.since == Stamp(past.since, Opened(ev), n)
            && past'.until == Stamp(past.until, Ended(w.hub, ev), n)
  {
    hide Stamp, Apply, Update, Said, Forwarded, Enabled, Opened, Ended;
  }

  lemma StepKeys(w: World, ev: Event)
    requires Enabled(w.hub, ev)
    ensures Step(w, ev).hub == Apply(w.hub, ev)
    ensures Step(w, ev).past.dropped.Keys == Update(w.hub, ev).sessions.Keys
    ensures Step(w, ev).past.read.Keys <= w.past.read.Keys + w.hub.sessions.Keys
  {
    hide Apply, Update, Said, Forwarded;
  }

  lemma DatedStep(w: World, ev: Event)
    requires Sound(w.hub) && Dated(w) && Enabled(w.hub, ev)
    ensures Dated(Step(w, ev))
  {
    hide Stamp, Step, Apply, Update, Said, Forwarded, Sound, Enabled, Opened, Ended;
    MembershipStep(w.hub, ev);
    StepDates(w, ev);
    StepKeys(w, ev);
  }

  lemma AddressedAppend(lines: seq<Line>, line: Line, id: SessionId)
    ensures Addressed(lines + [line], id) == Addressed(lines, id) + (if Addresses(line, id) then [line.text] else [])
  {
    assert (lines + [line])[..|lines|] == lines;
  }

  /** The lines meant for a session grow by what is said while it is in the map. */
  lemma DuringStep(w: World, ev: Event, id: SessionId)
    requires Sound(w.hub) && Dated(w) && Enabled(w.hub, ev) && id in w.hub.sessions
    requires Dated(Step(w, ev))
    ensures var line := Said(w.hub, ev);
            During(Step(w, ev).past, id)
            == During(w.past, id) + (if line.Some? && id in Update(w.hub, ev).live then [line.value] else [])
  {
    hide Stamp, Step, Apply, Update, Said, Forwarded, Sound, Enabled, Opened, Ended;
    MembershipStep(w.hub, ev);
    StepDates(w, ev);
    StepKeys(w, ev);
    var past, past' := w.past, Step(w, ev).past;
    var n := |past.lines|;
    assert id in w.past.since && past'.since[id] == past.since[id];
    assert past.lines == past'.lines[..n];
    if id in w.hub.live && id in Ended(w.hub, ev) {
      assert past'.until[id] == n;
      assert past'.lines[past.since[id]..n] == past.lines[past.since[id]..];
    } else if id in w.hub.live {
      assert id !in past'.until;
    } else {
      assert past'.until[id] == past.until[id];
    }
  }

  /** Only a client's own read takes a line from its queue. */
  lemma QueueUpdate(h: Hub, ev: Event, id: SessionId)
    requires Sound(h) && Enabled(h, ev) && id in h.sessions
    ensures id in Update(h, ev).sessions && (ev == ReadLine(id) ==> h.sessions[id].queue != [])
    ensures Update(h, ev).sessions[id].queue
            == if ev == ReadLine(id) then h.sessions[id].queue[1..] else h.sessions[id].queue
  {
  }

  lemma QueueApply(h: Hub, ev: Event, id: SessionId)
    requires Enabled(h, ev) && id in Update(h, ev).sessions
    ensures id in Apply(h, ev).sessions
    ensures var mid, line := Update(h, ev), Said(h, ev);
            Apply(h, ev).sessions[id].queue
            == mid.sessions[id].queue
               + (if line.Some? && Offered(mid, line.value, id) && |mid.sessions[id].queue| < QUEUE_SIZE
                  then [line.value.text] else [])
  {
    hide Update, Said, Forwarded, Enabled;
  }

  lemma ReadStep(h: Hub, past: History, ev: Event, id: SessionId)
    requires Enabled(h, ev)
    ensures ReadBy(Record(h, past, ev), id)
            == ReadBy(past, id) + (if ev == ReadLine(id) then [h.sessions[id].queue[0]] else [])
  {
    hide Update, Said, Forwarded;
  }

  /** What a session has got grows by the line it was offered, if its queue had room. */
  lemma ReceivedStep(w: World, ev: Event, id: SessionId)
    requires Sound(w.hub) && Enabled(w.hub, ev) && id in w.hub.sessions
    ensures var mid, line := Update(w.hub, ev), Said(w.hub, ev);
            && id in mid.sessions && id in Step(w, ev).hub.sessions
            && Received(Step(w, ev), id)
               == Received(w, id)
                  + (if line.Some? && Offered(mid, line.value, id) && |mid.sessions[id].queue| < QUEUE_SIZE
                     then [line.value.text] else [])
  {
    hide Update, Said, Apply, Record, Sound, ReadBy, Enabled, Offered;
    QueueUpdate(w.hub, ev, id);
    QueueApply(w.hub, ev, id);
    ReadStep(w.hub, w.past, ev, id);
    var queue, mid := w.hub.sessions[id].queue, Update(w.hub, ev).sessions[id].queue;
    var taken := if ev == ReadLine(id) then [queue[0]] else [];
    assert taken + mid == queue;
    hide Step;
    Regroup(ReadBy(w.past, id), taken, mid);
  }

  lemma Regroup<T>(a: seq<T>, b: seq<T>, c: seq<T>)
    ensures forall d: seq<T> :: (a + b) + (c + d) == (a + (b + c)) + d
  {
  }

  lemma DroppedStep(w: World, ev: Event, id: SessionId)
    requires Enabled(w.hub, ev) && id in Update(w.hub, ev).sessions
    ensures DroppedBy(Step(w, ev).past, id) == DroppedBy(w.past, id) + Drops(Update(w.hub, ev), Said(w.hub, ev), id)
  {
    hide Update, Said, Forwarded, Enabled, Drops, Apply;
  }

  lemma JoinStarts(h: Hub, ev: Event)
    requires Enabled(h, ev) && ev.Join?
    ensures var mid := Update(h, ev); ev.id in mid.live && ev.id in mid.sessions && mid.sessions[ev.id].queue == []
    ensures Said(h, ev) == Some(Line(JoinedLine(ev.nick), None))
  {
  }

  /** A newcomer reads about its own arrival first. */
  lemma NewcomerReceives(w: World, ev: Event)
    requires Dated(w) && Sound(w.hub) && Enabled(w.hub, ev) && ev.Join?
    ensures ev.id in Step(w, ev).hub.sessions && Received(Step(w, ev), ev.id) == [JoinedLine(ev.nick)]
    ensures DroppedBy(Step(w, ev).past, ev.id) == 0
  {
    hide Update, Said, Apply, Record, ReadBy, Forwarded, Stamp, Sound, Enabled, DroppedBy;
    JoinStarts(w.hub, ev);
    MembershipStep(w.hub, ev);
    NothingReadYet(w, ev.id);
    QueueApply(w.hub, ev, ev.id);
    ReadStep(w.hub, w.past, ev, ev.id);
    DroppedStep(w, ev, ev.id);
  }

  lemma NewcomerHears(w: World, ev: Event)
    requires Sound(w.hub) && Dated(w) && Enabled(w.hub, ev) && ev.Join?
    requires Dated(Step(w, ev)) && ev.id in Step(w, ev).past.since
    ensures During(Step(w, ev).past, ev.id) == [Line(JoinedLine(ev.nick), None)]
  {
    hide Update, Said, Apply, Record, Forwarded, Sound, Enabled;
    JoinStarts(w.hub, ev);
    MembershipStep(w.hub, ev);
    StepDates(w, ev);
  }

  lemma NewcomerAccounted(w: World, ev: Event)
    requires Sound(w.hub) && Dated(w) && Enabled(w.hub, ev) && ev.Join?
    requires Dated(Step(w, ev))
    ensures ev.id in Step(w, ev).hub.sessions && Accounted(Step(w, ev), ev.id)
  {
    hide Update, Said, Apply, Record, Received, During, DroppedBy, Forwarded, Sound, Enabled, Subsequence, Step;
    var id, line := ev.id, Line(JoinedLine(ev.nick), None);
    NewcomerReceives(w, ev);
    NewcomerHears(w, ev);
    assert [] + [line] == [line] && [] + [line.text] == [line.text];
    AddressedAppend([], line, id);
    SubsequenceKeep([], [], line.text);
  }

  lemma NothingReadYet(w: World, id: SessionId)
    requires Dated(w) && id !in w.hub.sessions
    ensures ReadBy(w.past, id) == [] && DroppedBy(w.past, id) == 0
  {
  }

  /** One line meant for a session is either got or counted as dropped. */
  lemma AccountOffer(got: seq<string>, dropped: nat, lines: seq<Line>, line: Line, id: SessionId, room: bool)
    requires Subsequence(got, Addressed(lines, id)) && |got| + dropped == |Addressed(lines, id)|
    ensures var meant := Addressed(lines + [line], id);
            var mine := Addresses(line, id);
            && Subsequence(got + (if mine && room then [line.text] else []), meant)
            && |got + (if mine && room then [line.text] else [])|
               + dropped + (if mine && !room then 1 else 0) == |meant|
  {
    var meant := Addressed(lines, id);
    AddressedAppend(lines, line, id);
    SubsequenceKeep(got, meant, line.text);
    SubsequenceSkip(got, meant, line.text);
    assert got + [] == got && meant + [] == meant;
  }

  lemma AccountedStep(w: World, ev: Event, id: SessionId)
    requires Sound(w.hub) && Dated(w) && Enabled(w.hub, ev) && id in w.hub.sessions
    requires Dated(Step(w, ev)) && Accounted(w, id)
    ensures id in Step(w, ev).hub.sessions && Accounted(Step(w, ev), id)
  {
    hide Update, Said, Forwarded, Subsequence, During, Addressed, Received, Step, Sound, Enabled, DroppedBy;
    DuringStep(w, ev, id);
    ReceivedStep(w, ev, id);
    DroppedStep(w, ev, id);
    var mid, line := Update(w.hub, ev), Said(w.hub, ev);
    var got, lines := Received(w, id), During(w.past, id);
    if line.Some? && id in mid.live {
      AccountOffer(got, DroppedBy(w.past, id), lines, line.value, id, |mid.sessions[id].queue| < QUEUE_SIZE);
    } else {
      assert got + [] == got && lines + [] == lines;
    }
  }

  lemma AllAccountedStep(w: World, ev: Event)
    requires Sound(w.hub) && Dated(w) && AllAccounted(w) && Enabled(w.hub, ev)
    ensures Dated(Step(w, ev)) && AllAccounted(Step(w, ev))
  {
    DatedStep(w, ev);
    MembershipStep(w.hub, ev);
    var w' := Step(w, ev);
    forall id | id in w'.hub.sessions
      ensures Accounted(w', id)
    {
      if id in w.hub.sessions {
        AccountedStep(w, ev, id);
      } else {
        hide Accounted, Sound, Dated, Step, Enabled;
        NewcomerAccounted(w, ev);
      }
    }
  }

  // ---------- what the transport gets ----------

  /** What is on the transport channel and what has been read from it are, in order, messages of local users. */
  ghost predicate RemoteAccounted(w: World) {
    && Subsequence(w.past.taken, w.past.users)
    && w.past.taken == w.past.delivered + (if w.hub.remote.Some? then w.hub.remote.value else [])
  }

  lemma RemoteUpdate(h: Hub, ev: Event)
    requires Enabled(h, ev)
    ensures SayIfAny(Update(h, ev), Said(h, ev)).remote
            == if ev.ReadRemote? then Some(h.remote.value[1..]) else h.remote
    ensures ev.ReadRemote? ==> Forwarded(h, ev) == None
  {
  }

  lemma RemoteStep(w: World, ev: Event)
    requires Enabled(w.hub, ev)
    ensures var h, m, past, past' := w.hub, Forwarded(w.hub, ev), w.past, Step(w, ev).past;
            var room := h.remote.Some? && |h.remote.value| < QUEUE_SIZE;
            && past'.users == past.users + (if m.Some? then [m.value] else [])
            && past'.taken == past.taken + (if m.Some? && room then [m.value] else [])
            && past'.delivered == past.delivered + (if ev.ReadRemote? then [h.remote.value[0]] else [])
            && Step(w, ev).hub.remote
               == (if ev.ReadRemote? then Some(h.remote.value[1..])
                   else if m.Some? && room then Some(h.remote.value + [m.value]) else h.remote)
            && (ev.ReadRemote? ==> m == None)
  {
    RemoteUpdate(w.hub, ev);
    hide Said, Update, Forwarded, SayIfAny, Enabled;
  }

  lemma TakenStep(w: World, ev: Event)
    requires Subsequence(w.past.taken, w.past.users) && Enabled(w.hub, ev)
    ensures Subsequence(Step(w, ev).past.taken, Step(w, ev).past.users)
  {
    hide Step, Subsequence, Forwarded, Enabled;
    RemoteStep(w, ev);
    var m, users, taken := Forwarded(w.hub, ev), w.past.users, w.past.taken;
    assert users + [] == users && taken + [] == taken;
    if m.Some? {
      SubsequenceKeep(taken, users, m.value);
      SubsequenceSkip(taken, users, m.value);
    }
  }

  lemma RemoteAccountedStep(w: World, ev: Event)
    requires RemoteAccounted(w) && Enabled(w.hub, ev)
    ensures RemoteAccounted(Step(w, ev))
  {
    TakenStep(w, ev);
    assert ev.ReadRemote? ==> w.hub.remote.Some? && w.hub.remote.value != [];
    hide Step, Subsequence, Forwarded, Enabled;
    RemoteStep(w, ev);
    var taken, delivered := w.past.taken, w.past.delivered;
    assert taken + [] == taken && delivered + [] == delivered;
    if ev.ReadRemote? {
      var q := w.hub.remote.value;
      assert delivered + ([q[0]] + q[1..]) == (delivered + [q[0]]) + q[1..];
    }
  }

  // ---------- whole runs ----------

  ghost predicate Safe(w: World) {
    Sound(w.hub) && WithinCapacity(w.hub) && Dated(w) && AllAccounted(w) && RemoteAccounted(w)
  }

  lemma SafeStep(w: World, ev: Event)
    requires Safe(w) && Enabled(w.hub, ev)
    ensures Safe(Step(w, ev))
  {
    SoundStep(w.hub, ev);
    WithinCapacityStep(w.hub, ev);
    AllAccountedStep(w, ev);
    RemoteAccountedStep(w, ev);
  }

  lemma {:induction false} SafeRun(w: World, events: seq<Event>)
    requires Safe(w) && Legal(w, events)
    ensures Safe(Run(w, events))
    decreases |events|
  {
    hide Safe, Step;
    if events != [] {
      SafeStep(w, events[0]);
      SafeRun(Step(w, events[0]), events[1..]);
    }
  }

  lemma BeginIsSafe(transport: bool)
    ensures Safe(Begin(transport))
  {
  }

  lemma ReachableIsSafe(w: World)
    requires Reachable(w)
    ensures Safe(w)
  {
    hide Safe, Begin, Legal, Run;
    var transport, events :| Legal(Begin(transport), events) && Run(Begin(transport), events) == w;
    BeginIsSafe(transport);
    SafeRun(Begin(transport), events);
  }

  /** No run sends on a closed channel or closes one twice, and no bounded channel ever holds more than it can. */
  lemma NeverPanics(w: World, ev: Event)
    requires Reachable(w) && Enabled(w.hub, ev)
    ensures !Step(w, ev).hub.panicked
    ensures |w.hub.inbox| <= QUEUE_SIZE && (w.hub.remote.Some? ==> |w.hub.remote.value| <= QUEUE_SIZE)
    ensures forall id :: id in w.hub.sessions ==>
              |w.hub.sessions[id].queue| <= QUEUE_SIZE && (w.hub.sessions[id].closed <==> id !in w.hub.live)
  {
    ReachableIsSafe(w);
    SoundStep(w.hub, ev);
  }

  /**
   Whatever the interleaving, a session gets a subsequence of the lines said while it was in the map and not kept
   from it; all of them if and only if its queue was never full when one was said.
   */
  lemma SessionGetsSubsequence(w: World, id: SessionId)
    requires Reachable(w) && id in w.hub.sessions
    ensures Dated(w)
    ensures var meant := Addressed(During(w.past, id), id);
            && Subsequence(Received(w, id), meant)
            && (Received(w, id) == meant <==> DroppedBy(w.past, id) == 0)
  {
    ReachableIsSafe(w);
    assert Accounted(w, id);
    SubsequenceLength(Received(w, id), Addressed(During(w.past, id), id));
  }

  /** The transport only ever gets messages of local users, in the order in which the hub told the sessions. */
  lemma TransportGetsUserMessages(w: World)
    requires Reachable(w)
    ensures Subsequence(w.past.delivered + (if w.hub.remote.Some? then w.hub.remote.value else []), w.past.users)
  {
    ReachableIsSafe(w);
  }

  // ---------- remote messages leave no trace on the transport channel ----------

  /** The posts of local users among those in the broadcast channel. */
  function UserPosts(inbox: seq<Msg>): (r: seq<Msg>)
    decreases |inbox|
  {
    if inbox == [] then []
    else (if inbox[0].UserMsg? then [inbox[0]] else []) + UserPosts(inbox[1..])
  }

  lemma {:induction false} UserPostsAppend(inbox: seq<Msg>, m: Msg)
    ensures UserPosts(inbox + [m]) == UserPosts(inbox) + (if m.UserMsg? then [m] else [])
    ensures |UserPosts(inbox)| <= |inbox|
    decreases |inbox|
  {
    if inbox != [] {
      UserPostsAppend(inbox[1..], m);
      assert (inbox + [m])[1..] == inbox[1..] + [m];
    }
  }

  /** A step of the run without system messages: they are neither posted nor taken, and nobody reads any lines. */
  predicate Kept(h: Hub, ev: Event) {
    match ev
    case SystemMessage(_) => false
    case DeliverRemote(_, _) => false
    case ReadLine(_) => false
    case TakeBroadcast => h.inbox != [] && h.inbox[0].UserMsg?
    case _ => true
  }

  function Erase(w: World, events: seq<Event>): (r: seq<Event>)
    decreases |events|
  {
    if events == [] then []
    else (if Kept(w.hub, events[0]) then [events[0]] else []) + Erase(Step(w, events[0]), events[1..])
  }

  /** The two runs agree on everything but lines and the system messages in the broadcast channel. */
  ghost predicate Similar(h: Hub, g: Hub) {
    && h.live == g.live && h.sessions.Keys == g.sessions.Keys && h.lastId == g.lastId && h.stopped == g.stopped
    && (forall id :: id in h.sessions ==> h.sessions[id].nick == g.sessions[id].nick)
    && h.remote == g.remote && g.inbox == UserPosts(h.inbox)
  }

  ghost predicate SameTraffic(w: World, v: World) {
    Similar(w.hub, v.hub) && w.past.users == v.past.users && w.past.taken == v.past.taken
    && w.past.delivered == v.past.delivered
  }

  lemma SayingIsSimilar(h: Hub, g: Hub, hl: Option<Line>, gl: Option<Line>)
    requires Similar(h, g)
    ensures Similar(SayIfAny(h, hl), SayIfAny(g, gl))
  {
  }

  lemma ErasedStepSimilar(h: Hub, ev: Event, g: Hub)
    requires Enabled(h, ev) && Similar(h, g) && !Kept(h, ev)
    ensures Similar(Update(h, ev), g) && Forwarded(h, ev) == None
  {
    match ev
    case SystemMessage(text) => UserPostsAppend(h.inbox, SystemMsg(text));
    case DeliverRemote(nick, text) => UserPostsAppend(h.inbox, SystemMsg(Chat(nick, text)));
    case _ =>
  }

  lemma KeptStepSimilar(h: Hub, ev: Event, g: Hub)
    requires Enabled(h, ev) && Similar(h, g) && Kept(h, ev)
    ensures Enabled(g, ev) && Similar(Update(h, ev), Update(g, ev)) && Forwarded(h, ev) == Forwarded(g, ev)
    ensures h.remote == g.remote && (ev.ReadRemote? ==> h.remote.Some? && h.remote.value != [])
  {
    match ev
    case Broadcast(from, text) => UserPostsAppend(h.inbox, UserMsg(from, text));
    case TakeBroadcast => assert UserPosts(h.inbox) == [h.inbox[0]] + UserPosts(h.inbox[1..]);
    case _ =>
  }

  lemma ErasedStep(w: World, ev: Event, v: World)
    requires Enabled(w.hub, ev) && SameTraffic(w, v) && !Kept(w.hub, ev)
    ensures SameTraffic(Step(w, ev), v)
  {
    hide Update, Said, Similar, Forwarded, Enabled, SendAll;
    ErasedStepSimilar(w.hub, ev, v.hub);
    SayingIsSimilar(Update(w.hub, ev), v.hub, Said(w.hub, ev), None);
    assert !ev.ReadRemote?;
  }

  lemma KeptStep(w: World, ev: Event, v: World)
    requires Enabled(w.hub, ev) && SameTraffic(w, v) && Kept(w.hub, ev)
    ensures Enabled(v.hub, ev) && SameTraffic(Step(w, ev), Step(v, ev))
  {
    hide Update, Said, Similar, Forwarded, Enabled, SayIfAny, Forward;
    KeptStepSimilar(w.hub, ev, v.hub);
    var (h, g) := (Update(w.hub, ev), Update(v.hub, ev));
    SayingIsSimilar(h, g, Said(w.hub, ev), Said(v.hub, ev));
    if Forwarded(w.hub, ev).Some? {
      ForwardingIsSimilar(SayIfAny(h, Said(w.hub, ev)), SayIfAny(g, Said(v.hub, ev)), Forwarded(w.hub, ev).value);
    }
  }

  lemma ForwardingIsSimilar(h: Hub, g: Hub, m: RemoteMsg)
    requires Similar(h, g)
    ensures Similar(Forward(h, m), Forward(g, m))
  {
  }

  lemma {:induction false} ErasedRun(w: World, events: seq<Event>, v: World)
    requires Legal(w, events) && SameTraffic(w, v)
    ensures Legal(v, Erase(w, events)) && SameTraffic(Run(w, events), Run(v, Erase(w, events)))
    decreases |events|
  {
    hide SameTraffic, Step, Enabled, Kept;
    if events != [] {
      var ev, rest := events[0], Erase(Step(w, events[0]), events[1..]);
      if Kept(w.hub, ev) {
        KeptStep(w, ev, v);
        ErasedRun(Step(w, ev), events[1..], Step(v, ev));
        var erased := [ev] + rest;
        assert erased[0] == ev && erased[1..] == rest;
      } else {
        ErasedStep(w, ev, v);
        ErasedRun(Step(w, ev), events[1..], v);
        assert [] + rest == rest;
      }
    }
  }

  /**
   Take out of any run everything injected by remote delivery, and every other system message: what is left is
   still a run, and what the transport gets in it is the same, message for message.
   */
  lemma RemoteDeliveryIsInvisibleToTransport(transport: bool, events: seq<Event>)
    requires Legal(Begin(transport), events)
    ensures var erased := Erase(Begin(transport), events);
            Legal(Begin(transport), erased) &&
            var w, v := Run(Begin(transport), events), Run(Begin(transport), erased);
            w.hub.remote == v.hub.remote && w.past.delivered == v.past.delivered && w.past.users == v.past.users
  {
    ErasedRun(Begin(transport), events, Begin(transport));
  }
}
