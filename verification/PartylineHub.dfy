/** The hub as an object (internal/partyline/partyline.go): the cases of Run's select, each one step of Partyline. */
module PartylineHubs {
  import opened Options
  import opened Sequences
  import P = Partyline

  class Session {
    const id: P.SessionId
    var nick: string
    var queue: seq<string>
    var closed: bool

    function Value(): (s: P.Session)
      reads this
    {
      P.Session(nick, queue, closed)
    }

    constructor (id: P.SessionId, nick: string)
      ensures this.id == id && Value() == P.Session(nick, [], false)
    {
      this.id, this.nick := id, nick;
      queue, closed := [], false;
    }

    /** A non-blocking send. On a closed channel it would panic. */
    method TrySend(line: string)
      requires !closed
      modifies this`queue
      ensures Value() == P.Offer(old(Value()), line)
    {
      if |queue| < P.QUEUE_SIZE {
        queue := queue + [line];
      }
    }

    /** Closing twice would panic. */
    method CloseQueue()
      requires !closed
      modifies this`closed
      ensures Value() == old(Value()).(closed := true)
    {
      closed := true;
    }
  }

  /** The session counter of the process, which all its hubs share. */
  class Counter {
    var value: nat

    constructor ()
      ensures value == 0
    {
      value := 0;
    }

    method Add() returns (id: P.SessionId)
      modifies this
      ensures id == value == old(value) + 1
    {
      value := value + 1;
      id := value;
    }
  }

  datatype BcastMsg = User(from: Session, text: string) | System(text: string)

  function Posted(m: BcastMsg): (r: P.Msg) {
    match m
    case User(from, text) => P.UserMsg(from.id, text)
    case System(text) => P.SystemMsg(text)
  }

  class Hub {
    const counter: Counter
    var sessions: map<P.SessionId, Session>
    /** Every session that callers may still hold, by id. */
    ghost var known: map<P.SessionId, Session>
    var lastId: nat
    var broadcast: seq<BcastMsg>
    var remoteSend: Option<seq<P.RemoteMsg>>
    var stopped: bool

    ghost predicate Linked()
      reads this
    {
      && (forall id :: id in known ==> known[id].id == id)
      && (forall id :: id in sessions ==> id in known && known[id] == sessions[id])
      && (forall m :: m in broadcast && m.User? ==> Knows(m.from))
    }

    ghost function Members(): (r: map<P.SessionId, P.Session>)
      reads this, known.Values
    {
      map id | id in known :: known[id].Value()
    }

    ghost function Inbox(): (r: seq<P.Msg>)
      reads this
    {
      var posts := broadcast;
      seq(|posts|, i requires 0 <= i < |posts| => Posted(posts[i]))
    }

    /** The value of the hub; a panic would violate a precondition of the session's methods. */
    ghost function State(): (h: P.Hub)
      reads this, known.Values
    {
      P.Hub(sessions.Keys, Members(), lastId, Inbox(), remoteSend, stopped, false)
    }

    ghost predicate Valid()
      reads this, known.Values
    {
      Linked() && P.Sound(State())
    }

    /** A session that this hub has handed out. */
    ghost predicate Knows(s: Session)
      reads this
    {
      s.id in known && known[s.id] == s
    }

    /** The counter has never run behind the ids this hub has given out. */
    predicate Counted()
      reads this, counter
    {
      lastId <= counter.value
    }

    constructor (counter: Counter, transport: bool)
      ensures Valid() && Counted() && this.counter == counter && State() == P.Start(transport)
    {
      this.counter := counter;
      sessions, known := map[], map[];
      lastId, broadcast, stopped := 0, [], false;
      remoteSend := if transport then Some([]) else None;
    }

    method OfferAll(exclude: Option<Session>, line: string)
      requires Linked() && forall id :: id in sessions ==> !sessions[id].closed
      modifies sessions.Values`queue
      ensures Linked()
      ensures Members() == P.WithOffered(old(Members()), sessions.Keys, P.Line(line, ExcludedId(exclude)))
    {
      hide P.Offer;
      SendAll(sessions, exclude, line);
    }

    method Say(exclude: Option<Session>, line: string)
      requires Valid()
      modifies sessions.Values`queue
      ensures Valid()
      ensures State() == P.SendAll(old(State()), P.Line(line, ExcludedId(exclude)))
    {
      hide P.Sound, P.SendAll, P.WithOffered;
      ghost var before := State();
      TellingIsSound(before, P.Line(line, ExcludedId(exclude)));
      assert forall id :: id in sessions ==> !before.sessions[id].closed;
      OfferAll(exclude, line);
    }

    method Register(nick: string, id: P.SessionId) returns (s: Session)
      requires Valid() && !stopped && lastId < id
      modifies this
      ensures fresh(s) && Valid() && s.id == id == lastId && P.Enabled(old(State()), P.Join(nick, id))
      ensures known == old(known)[id := s] && sessions == old(sessions)[id := s]
      ensures State() == P.Update(old(State()), P.Join(nick, id))
    {
      hide P.Sound, P.Update;
      ghost var before := State();
      JoinedHub(before, nick, id);
      s := new Session(id, nick);
      Enter(s);
    }

    method Enter(s: Session)
      requires Linked() && s.id !in known
      modifies this`sessions, this`known, this`lastId
      ensures Linked() && lastId == s.id
      ensures known == old(known)[s.id := s] && sessions == old(sessions)[s.id := s]
      ensures var was := old(State());
              State() == was.(live := was.live + {s.id}, sessions := was.sessions[s.id := s.Value()], lastId := s.id)
    {
      ghost var members, inbox := Members(), Inbox();
      sessions, known, lastId := sessions[s.id := s], known[s.id := s], s.id;
      assert Members() == members[s.id := s.Value()];
      assert Inbox() == inbox;
    }

    /** The id is the next of the process, above every id this hub has given out. */
    method Join(nick: string) returns (s: Session)
      requires Valid() && Counted() && !stopped
      modifies this, counter, sessions.Values`queue
      ensures Valid() && Counted() && fresh(s) && known == old(known)[s.id := s]
      ensures s.id == counter.value == old(counter.value) + 1 > old(lastId)
      ensures State() == P.Apply(old(State()), P.Join(nick, s.id))
    {
      hide P.Sound, P.Update, P.SendAll, State, Valid;
      var id := counter.Add();
      s := Register(nick, id);
      Say(None, "* " + nick + " joined the partyline");
    }

    method Unregister(s: Session)
      requires Valid() && !stopped && Knows(s) && s.id in sessions
      modifies this`sessions, s`closed
      ensures Valid() && s.nick == old(s.nick) && sessions == old(sessions) - {s.id}
      ensures State() == P.Update(old(State()), P.Leave(s.id))
    {
      hide P.Sound, P.Update;
      ghost var before, ev := State(), P.Leave(s.id);
      LeftHub(before, s.id);
      P.SoundUpdate(before, ev);
      assert !before.sessions[s.id].closed;
      sessions := sessions - {s.id};
      s.CloseQueue();
      assert Members() == P.Update(before, ev).sessions;
      assert State() == P.Update(before, ev);
    }

    method Leave(s: Session)
      requires Valid() && !stopped && Knows(s)
      modifies this, sessions.Values
      ensures Valid() && known == old(known)
      ensures State() == P.Apply(old(State()), P.Leave(s.id))
    {
      hide P.Sound, P.Update, P.Said, P.SendAll;
      ghost var before := State();
      LeavingSays(before, s.id);
      assert before.sessions[s.id].nick == s.nick;
      if s.id in sessions {
        Unregister(s);
        hide State, Valid;
        Say(None, "* " + s.nick + " left the partyline");
      }
    }

    method Post(m: BcastMsg)
      requires Valid() && |broadcast| < P.QUEUE_SIZE && (m.User? ==> Knows(m.from))
      modifies this`broadcast
      ensures Valid()
      ensures State() == old(State()).(inbox := old(State()).inbox + [Posted(m)])
    {
      ghost var inbox := Inbox();
      broadcast := broadcast + [m];
      assert Inbox() == inbox + [Posted(m)];
    }

    method Broadcast(from: Session, text: string)
      requires Valid() && |broadcast| < P.QUEUE_SIZE && Knows(from)
      modifies this`broadcast
      ensures Valid()
      ensures State() == P.Apply(old(State()), P.Broadcast(from.id, text))
    {
      Post(User(from, text));
    }

    method SystemMessage(text: string)
      requires Valid() && |broadcast| < P.QUEUE_SIZE
      modifies this`broadcast
      ensures Valid()
      ensures State() == P.Apply(old(State()), P.SystemMessage(text))
    {
      Post(System(text));
    }

    method DeliverRemote(nick: string, text: string)
      requires Valid() && |broadcast| < P.QUEUE_SIZE
      modifies this`broadcast
      ensures Valid()
      ensures State() == P.Apply(old(State()), P.DeliverRemote(nick, text))
    {
      Post(System("[" + nick + "] " + text));
    }

    method NextBroadcast() returns (msg: BcastMsg)
      requires Valid() && !stopped && broadcast != []
      modifies this`broadcast
      ensures msg == old(broadcast[0])
      ensures msg.User? ==> Knows(msg.from) && old(State()).sessions[msg.from.id].nick == msg.from.nick
      ensures Posted(msg) == old(State()).inbox[0]
      ensures Valid() && P.Enabled(old(State()), P.TakeBroadcast) && State() == P.Update(old(State()), P.TakeBroadcast)
    {
      hide P.Sound, P.Update;
      ghost var before := State();
      msg := broadcast[0];
      TakenHub(before);
      broadcast := broadcast[1..];
      assert Inbox() == before.inbox[1..];
      assert State() == P.Update(before, P.TakeBroadcast);
    }

    /** The non-blocking send to the transport. */
    method TrySendRemote(m: P.RemoteMsg)
      requires Valid()
      modifies this`remoteSend
      ensures Valid() && State() == P.Forward(old(State()), m)
    {
      if remoteSend.Some? && |remoteSend.value| < P.QUEUE_SIZE {
        remoteSend := Some(remoteSend.value + [m]);
      }
    }

    /** Tells the sessions, then offers a user's message to the transport. */
    method HandleBroadcast()
      requires Valid() && !stopped && broadcast != []
      modifies this`broadcast, this`remoteSend, sessions.Values`queue
      ensures Valid()
      ensures P.Enabled(old(State()), P.TakeBroadcast) && State() == P.Apply(old(State()), P.TakeBroadcast)
    {
      hide P.Sound, P.Update, P.SendAll, P.Forward, State, Valid;
      var msg := NextBroadcast();
      match msg
      case System(text) => Say(None, text);
      case User(from, text) =>
        Say(Some(from), "[" + from.nick + "] " + text);
        TrySendRemote(P.RemoteMsg(from.nick, text));
    }

    /** `nicks` are the nicks of the sessions `ids` in the map. */
    ghost predicate AreNicks(nicks: seq<string>, ids: seq<P.SessionId>)
      reads this, known.Values
    {
      && |nicks| == |ids|
      && forall i :: 0 <= i < |ids| ==> ids[i] in State().sessions && nicks[i] == State().sessions[ids[i]].nick
    }

    /** The nicks of the connected sessions, each once, in arbitrary order. */
    method Who() returns (nicks: seq<string>)
      requires Valid()
      ensures exists ids: seq<P.SessionId> :: Distinct(ids) && Elements(ids) == State().live && AreNicks(nicks, ids)
    {
      nicks := [];
      ghost var ids: seq<P.SessionId> := [];
      var unvisited := sessions.Keys;
      while unvisited != {}
        invariant Distinct(ids) && unvisited <= sessions.Keys
        invariant Elements(ids) == sessions.Keys - unvisited
        invariant AreNicks(nicks, ids)
        decreases unvisited
      {
        var id :| id in unvisited;
        assert id !in Elements(ids);
        ElementsAppend(ids, id);
        nicks, unvisited := nicks + [sessions[id].nick], unvisited - {id};
        ids := ids + [id];
      }
    }

    method Rename(s: Session, nick: string)
      requires Linked() && Knows(s)
      modifies s`nick
      ensures Linked()
      ensures var was := old(State());
              State() == was.(sessions := was.sessions[s.id := was.sessions[s.id].(nick := nick)])
    {
      ghost var members := Members();
      s.nick := nick;
      assert Members() == members[s.id := members[s.id].(nick := nick)];
    }

    method SetNick(s: Session, nick: string) returns (previous: string)
      requires Valid() && !stopped && Knows(s)
      modifies s, sessions.Values`queue
      ensures Valid() && previous == old(s.nick)
      ensures State() == P.Apply(old(State()), P.SetNick(s.id, nick))
    {
      hide P.Sound, P.Update, P.Said, P.SendAll;
      ghost var before := State();
      RenamedHub(before, s.id, nick);
      assert before.sessions[s.id].nick == s.nick;
      previous := s.nick;
      Rename(s, nick);
      hide State, Valid;
      Say(None, "* " + previous + " is now known as " + nick);
    }

    method CloseAll()
      requires Linked() && forall id :: id in sessions ==> !sessions[id].closed
      modifies sessions.Values`closed
      ensures Linked()
      ensures Members() == P.WithClosed(old(Members()), sessions.Keys)
    {
      var unvisited := sessions.Keys;
      while unvisited != {}
        invariant unvisited <= sessions.Keys
        invariant forall id :: id in known ==>
                    known[id].closed == (if id in sessions then id !in unvisited else old(known[id].closed))
        decreases unvisited
      {
        var id :| id in unvisited;
        unvisited := unvisited - {id};
        sessions[id].CloseQueue();
      }
    }

    method Vacate()
      requires Linked()
      modifies this`sessions, this`stopped
      ensures Linked() && known == old(known)
      ensures State() == old(State()).(live := {}, stopped := true)
    {
      ghost var members, inbox := Members(), Inbox();
      sessions, stopped := map[], true;
      assert Members() == members;
      assert Inbox() == inbox;
    }

    /** Closes every queue; the loop, and the session map with it, is gone. */
    method Stop()
      requires Valid() && !stopped
      modifies this`sessions, this`stopped, sessions.Values`closed
      ensures Valid() && known == old(known)
      ensures State() == P.Apply(old(State()), P.Stop)
    {
      hide P.Sound, P.Apply, P.WithClosed;
      ghost var before := State();
      StoppedHub(before);
      assert forall id :: id in sessions ==> !before.sessions[id].closed;
      CloseAll();
      Vacate();
    }
  }

  function ExcludedId(exclude: Option<Session>): (id: Option<P.SessionId>) {
    match exclude
    case None => None
    case Some(s) => Some(s.id)
  }

  /** Offers the line to every session but the excluded one, in arbitrary order. */
  method SendAll(sessions: map<P.SessionId, Session>, exclude: Option<Session>, line: string)
    requires forall id :: id in sessions ==> sessions[id].id == id && !sessions[id].closed
    modifies sessions.Values`queue
    ensures forall id :: id in sessions ==>
              sessions[id].Value() == if P.Addresses(P.Line(line, ExcludedId(exclude)), id)
                                      then P.Offer(old(sessions[id].Value()), line)
                                      else old(sessions[id].Value())
  {
    var unvisited := sessions.Keys;
    while unvisited != {}
      invariant unvisited <= sessions.Keys
      invariant forall id :: id in sessions ==>
                  sessions[id].queue == if id !in unvisited && P.Addresses(P.Line(line, ExcludedId(exclude)), id)
                                        then P.Offer(old(sessions[id].Value()), line).queue else old(sessions[id].queue)
      decreases unvisited
    {
      var id :| id in unvisited;
      unvisited := unvisited - {id};
      var s := sessions[id];
      if exclude.Some? && s.id == exclude.value.id {
        continue;
      }
      s.TrySend(line);
    }
  }

  lemma JoinedHub(h: P.Hub, nick: string, id: P.SessionId)
    requires P.Sound(h) && P.Enabled(h, P.Join(nick, id))
    ensures id !in h.sessions && P.Sound(P.Update(h, P.Join(nick, id)))
    ensures P.Update(h, P.Join(nick, id))
            == h.(live := h.live + {id}, sessions := h.sessions[id := P.Session(nick, [], false)], lastId := id)
  {
    P.SoundUpdate(h, P.Join(nick, id));
  }

  lemma TakenHub(h: P.Hub)
    requires P.Sound(h) && !h.stopped && h.inbox != []
    ensures P.Enabled(h, P.TakeBroadcast) && P.Sound(P.Update(h, P.TakeBroadcast))
    ensures P.Update(h, P.TakeBroadcast) == h.(inbox := h.inbox[1..])
  {
    P.SoundUpdate(h, P.TakeBroadcast);
  }

  lemma RenamedHub(h: P.Hub, id: P.SessionId, nick: string)
    requires P.Sound(h) && P.Enabled(h, P.SetNick(id, nick))
    ensures var end := P.Update(h, P.SetNick(id, nick));
            P.Sound(end) && end == h.(sessions := h.sessions[id := h.sessions[id].(nick := nick)])
    ensures P.Said(h, P.SetNick(id, nick)) == Some(P.Line(P.RenamedLine(h.sessions[id].nick, nick), None))
  {
    P.SoundUpdate(h, P.SetNick(id, nick));
  }

  lemma LeavingSays(h: P.Hub, id: P.SessionId)
    requires P.Enabled(h, P.Leave(id))
    ensures P.Said(h, P.Leave(id)) == if id in h.live then Some(P.Line(P.LeftLine(h.sessions[id].nick), None)) else None
    ensures id !in h.live ==> P.Apply(h, P.Leave(id)) == h
  {
  }

  lemma LeftHub(h: P.Hub, id: P.SessionId)
    requires P.Sound(h) && !h.stopped && id in h.live
    ensures id in h.sessions && !h.sessions[id].closed
    ensures var end := P.Update(h, P.Leave(id));
            end == h.(live := h.live - {id}, sessions := h.sessions[id := h.sessions[id].(closed := true)])
  {
    assert P.Close(h, {id}).sessions == h.sessions[id := h.sessions[id].(closed := true)];
  }

  lemma StoppedHub(h: P.Hub)
    requires P.Sound(h) && !h.stopped
    ensures forall id :: id in h.live ==> id in h.sessions && !h.sessions[id].closed
    ensures P.Sound(P.Apply(h, P.Stop))
    ensures var end := P.Apply(h, P.Stop);
            end == h.(live := {}, sessions := P.WithClosed(h.sessions, h.live), stopped := true)
  {
  }

  lemma TellingIsSound(h: P.Hub, line: P.Line)
    requires P.Sound(h)
    ensures forall id :: id in h.live ==> id in h.sessions && !h.sessions[id].closed
    ensures P.Sound(P.SendAll(h, line))
    ensures P.SendAll(h, line) == h.(sessions := P.WithOffered(h.sessions, h.live, line))
  {
    P.SoundSendAll(h, line);
  }
}
