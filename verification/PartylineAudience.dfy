/**
 Who hears what: the lines of the hub written out, to whom each of them goes, and that nothing a session gets stems
 from what it posted itself (internal/partyline/partyline.go).
 */
module PartylineAudience {
  import opened Options
  import opened Partyline

  // ---------- one step ----------

  /** The session's queue has grown by the line, if there was a place in it; nothing else about it has changed. */
  ghost predicate Hears(h: Hub, t: Hub, id: SessionId, line: string) {
    id in h.sessions && id in t.sessions &&
    var s := h.sessions[id];
    t.sessions[id] == if |s.queue| < 64 then s.(queue := s.queue + [line]) else s
  }

  ghost predicate HearsNothing(h: Hub, t: Hub, id: SessionId) {
    id in h.sessions && id in t.sessions && t.sessions[id] == h.sessions[id]
  }

  /** Everybody in the map but `except` hears the line, and nobody else does. */
  ghost predicate Told(h: Hub, t: Hub, line: string, except: set<SessionId>) {
    && (forall id :: id in h.live && id !in except ==> Hears(h, t, id, line))
    && (forall id :: id in h.sessions && (id !in h.live || id in except) ==> HearsNothing(h, t, id))
  }

  /** One line to everybody, or to all but one. */
  lemma SendingTells(h: Hub, line: Line)
    requires h.live <= h.sessions.Keys
    ensures var t := SendAll(h, line);
            && Told(h, t, line.text, if line.exclude.Some? then {line.exclude.value} else {})
            && t.live == h.live && t.inbox == h.inbox && t.remote == h.remote && t.sessions.Keys == h.sessions.Keys
  {
  }

  lemma ForwardingTells(h: Hub, t: Hub, line: string, except: set<SessionId>, m: RemoteMsg)
    requires Told(h, t, line, except)
    ensures Told(h, Forward(t, m), line, except)
  {
  }

  lemma SoundIsClosed(w: World)
    requires Reachable(w)
    ensures w.hub.live <= w.hub.sessions.Keys
    ensures forall i :: 0 <= i < |w.hub.inbox| && w.hub.inbox[i].UserMsg? ==> w.hub.inbox[i].from in w.hub.sessions
    ensures forall id :: id in w.hub.sessions ==> id <= w.hub.lastId
  {
    ReachableIsSafe(w);
  }

  lemma TakingApplied(h: Hub)
    requires Enabled(h, TakeBroadcast)
    ensures var taken := h.(inbox := h.inbox[1..]);
            Apply(h, TakeBroadcast)
            == match h.inbox[0]
               case UserMsg(from, text) =>
                 var nick := h.sessions[from].nick;
                 Forward(SendAll(taken, Line("[" + nick + "] " + text, Some(from))), RemoteMsg(nick, text))
               case SystemMsg(text) => SendAll(taken, Line(text, None))
  {
    hide SendAll, Forward;
  }

  /**
   A user's message: everybody in the map hears it under the user's nick, except the user; and the transport gets it,
   if its channel has a place.
   */
  lemma ChatGoesToTheOthers(w: World, from: SessionId, text: string)
    requires Reachable(w) && !w.hub.stopped && w.hub.inbox != [] && w.hub.inbox[0] == UserMsg(from, text)
    ensures from in w.hub.sessions && Enabled(w.hub, TakeBroadcast)
    ensures var h, t := w.hub, Step(w, TakeBroadcast).hub;
            var nick := h.sessions[from].nick;
            && Told(h, t, "[" + nick + "] " + text, {from})
            && t.inbox == h.inbox[1..]
            && t.remote == (match h.remote
                            case None => None
                            case Some(q) => Some(if |q| < 64 then q + [RemoteMsg(nick, text)] else q))
  {
    SoundIsClosed(w);
    var h := w.hub;
    var taken, line := h.(inbox := h.inbox[1..]), Line("[" + h.sessions[from].nick + "] " + text, Some(from));
    SendingTells(taken, line);
    TakingApplied(h);
    hide SendAll, Apply, Record, Reachable, Enabled, Told;
    TellingEarlier(h, taken, SendAll(taken, line), line.text, {from});
    ForwardingTells(h, SendAll(taken, line), line.text, {from}, RemoteMsg(h.sessions[from].nick, text));
  }

  /** A system message: everybody in the map hears it as it is, and the transport does not get it. */
  lemma SystemMessageGoesToAll(w: World, text: string)
    requires Reachable(w) && !w.hub.stopped && w.hub.inbox != [] && w.hub.inbox[0] == SystemMsg(text)
    ensures Enabled(w.hub, TakeBroadcast)
    ensures var h, t := w.hub, Step(w, TakeBroadcast).hub;
            Told(h, t, text, {}) && t.inbox == h.inbox[1..] && t.remote == h.remote
  {
    SoundIsClosed(w);
    var taken := w.hub.(inbox := w.hub.inbox[1..]);
    SendingTells(taken, Line(text, None));
    TakingApplied(w.hub);
    hide SendAll, Apply, Record, Reachable, Enabled, Told;
    TellingEarlier(w.hub, taken, SendAll(taken, Line(text, None)), text, {});
  }

  /** Posts join the end of the channel, a remote one as a system message; nobody hears anything yet. */
  lemma PostsQueueUp(h: Hub, ev: Event)
    requires Enabled(h, ev) && (ev.Broadcast? || ev.SystemMessage? || ev.DeliverRemote?)
    ensures Apply(h, ev) == h.(inbox := h.inbox + [
              match ev
              case Broadcast(from, text) => UserMsg(from, text)
              case SystemMessage(text) => SystemMsg(text)
              case DeliverRemote(nick, text) => SystemMsg("[" + nick + "] " + text)])
  {
  }

  /** Everybody in the map hears of a newcomer, itself included, whose first line that is. */
  lemma JoiningIsTold(w: World, nick: string, id: SessionId)
    requires Reachable(w) && Enabled(w.hub, Join(nick, id))
    ensures var h, t, line := w.hub, Step(w, Join(nick, id)).hub, "* " + nick + " joined the partyline";
            && Told(h, t, line, {}) && id !in h.sessions && t.live == h.live + {id}
            && id in t.sessions && t.sessions[id] == Session(nick, [line], false)
  {
    SoundIsClosed(w);
    assert id !in w.hub.sessions;
    hide Reachable, Record;
    var h, line := w.hub, Line("* " + nick + " joined the partyline", None);
    var mid := h.(live := h.live + {id}, sessions := h.sessions[id := Session(nick, [], false)], lastId := id);
    SendingTells(mid, line);
    assert Step(w, Join(nick, id)).hub == SendAll(mid, line);
    hide SendAll, Step, Enabled;
    TellingEarlier(h, mid, SendAll(mid, line), line.text, {});
    assert Hears(mid, SendAll(mid, line), id, line.text);
    assert [] + [line.text] == [line.text];
  }

  /** What the members of `mid` are told, those of `h` are told too, if they are among them. */
  lemma TellingEarlier(h: Hub, mid: Hub, t: Hub, line: string, except: set<SessionId>)
    requires Told(mid, t, line, except)
    requires forall o :: o in h.sessions ==>
               o in mid.sessions && mid.sessions[o] == h.sessions[o] && (o in h.live <==> o in mid.live)
    requires h.live <= h.sessions.Keys
    ensures Told(h, t, line, except)
  {
  }

  lemma LeavingCloses(h: Hub, id: SessionId)
    requires Enabled(h, Leave(id)) && id in h.live
    ensures var mid := Close(h, {id});
            && Apply(h, Leave(id)) == SendAll(mid, Line("* " + h.sessions[id].nick + " left the partyline", None))
            && mid.live == h.live - {id} && mid.sessions.Keys == h.sessions.Keys
            && (forall o :: o in h.sessions ==>
                  mid.sessions[o] == if o == id then h.sessions[o].(closed := true) else h.sessions[o])
  {
    hide SendAll;
  }

  /** The others hear of a session that leaves, whose channel is closed; leaving twice is nothing. */
  lemma LeavingIsTold(w: World, id: SessionId)
    requires Reachable(w) && Enabled(w.hub, Leave(id))
    ensures var h, t := w.hub, Step(w, Leave(id)).hub;
            var s := h.sessions[id];
            if id !in h.live then t == h
            else
              && t.live == h.live - {id} && id in t.sessions && t.sessions[id] == s.(closed := true)
              && forall o :: o in h.sessions && o != id ==>
                   if o in h.live then Hears(h, t, o, "* " + s.nick + " left the partyline") else HearsNothing(h, t, o)
  {
    SoundIsClosed(w);
    hide Reachable, Record;
    if id in w.hub.live {
      LeavingCloses(w.hub, id);
      hide SendAll, Close, Apply, Enabled;
      var mid, line := Close(w.hub, {id}), Line("* " + w.hub.sessions[id].nick + " left the partyline", None);
      SendingTells(mid, line);
      assert HearsNothing(mid, SendAll(mid, line), id);
    }
  }

  /** Everybody in the map hears of a new nick, its owner included. */
  lemma RenamingIsTold(w: World, id: SessionId, nick: string)
    requires Reachable(w) && Enabled(w.hub, SetNick(id, nick))
    ensures var h, t := w.hub, Step(w, SetNick(id, nick)).hub;
            var renamed := h.(sessions := h.sessions[id := h.sessions[id].(nick := nick)]);
            Told(renamed, t, "* " + h.sessions[id].nick + " is now known as " + nick, {}) && t.live == h.live
  {
    SoundIsClosed(w);
    var h := w.hub;
    var renamed := h.(sessions := h.sessions[id := h.sessions[id].(nick := nick)]);
    var line := Line("* " + h.sessions[id].nick + " is now known as " + nick, None);
    hide SendAll, Reachable, Record, Told;
    assert Apply(h, SetNick(id, nick)) == SendAll(renamed, line);
    SendingTells(renamed, line);
  }

  // ---------- nothing a session gets stems from its own posts ----------

  /** The posts in the broadcast channel that are not those of session `id`. */
  function PostsOfOthers(inbox: seq<Msg>, id: SessionId): (r: seq<Msg>)
    decreases |inbox|
  {
    if inbox == [] then []
    else (if IsPostOf(inbox[0], id) then [] else [inbox[0]]) + PostsOfOthers(inbox[1..], id)
  }

  predicate IsPostOf(m: Msg, id: SessionId) {
    m.UserMsg? && m.from == id
  }

  lemma {:induction false} PostsOfOthersAppend(inbox: seq<Msg>, m: Msg, id: SessionId)
    ensures PostsOfOthers(inbox + [m], id) == PostsOfOthers(inbox, id) + (if IsPostOf(m, id) then [] else [m])
    ensures |PostsOfOthers(inbox, id)| <= |inbox|
    decreases |inbox|
  {
    if inbox != [] {
      PostsOfOthersAppend(inbox[1..], m, id);
      assert (inbox + [m])[1..] == inbox[1..] + [m];
    }
  }

  /** A step of the run without the posts of `id`; what other sessions and the transport read is left out too. */
  predicate Matters(h: Hub, ev: Event, id: SessionId) {
    match ev
    case Broadcast(from, _) => from != id
    case TakeBroadcast => h.inbox != [] && !IsPostOf(h.inbox[0], id)
    case ReadLine(s) => s == id
    case ReadRemote => false
    case _ => true
  }

  function WithoutPostsOf(w: World, events: seq<Event>, id: SessionId): (r: seq<Event>)
    decreases |events|
  {
    if events == [] then []
    else (if Matters(w.hub, events[0], id) then [events[0]] else [])
         + WithoutPostsOf(Step(w, events[0]), events[1..], id)
  }

  /** The two hubs have the same members and nicks and look the same to `id`, whose posts only the first one holds. */
  ghost predicate AlikeHubs(h: Hub, g: Hub, id: SessionId) {
    && h.live == g.live && h.sessions.Keys == g.sessions.Keys && h.lastId == g.lastId && h.stopped == g.stopped
    && (forall o :: o in h.sessions ==> h.sessions[o].nick == g.sessions[o].nick)
    && (id in h.sessions ==> h.sessions[id] == g.sessions[id])
    && g.inbox == PostsOfOthers(h.inbox, id)
  }

  ghost predicate Alike(w: World, v: World, id: SessionId) {
    && AlikeHubs(w.hub, v.hub, id)
    && ReadBy(w.past, id) == ReadBy(v.past, id) && DroppedBy(w.past, id) == DroppedBy(v.past, id)
    && (id !in w.hub.sessions ==> ReadBy(w.past, id) == [] && DroppedBy(w.past, id) == 0)
  }

  /** What a step adds to the history of a session. */
  lemma PastStep(w: World, ev: Event, id: SessionId)
    requires Enabled(w.hub, ev) && (id !in w.hub.sessions ==> DroppedBy(w.past, id) == 0)
    ensures var past, past' := w.past, Step(w, ev).past;
            && DroppedBy(past', id) == DroppedBy(past, id) + Drops(Update(w.hub, ev), Said(w.hub, ev), id)
            && ReadBy(past', id)
               == ReadBy(past, id) + (if ev == ReadLine(id) then [w.hub.sessions[id].queue[0]] else [])
    ensures Step(w, ev).hub.sessions.Keys == w.hub.sessions.Keys + Opened(ev)
    ensures id !in Step(w, ev).hub.sessions ==>
              ev != ReadLine(id) && Drops(Update(w.hub, ev), Said(w.hub, ev), id) == 0
  {
    ReadStep(w.hub, w.past, ev, id);
    UpdateKeys(w.hub, ev);
    hide Update, Said, Forwarded, Enabled, ReadBy, Apply;
    if id in Update(w.hub, ev).sessions {
      DroppedStep(w, ev, id);
    }
  }

  lemma UpdateKeys(h: Hub, ev: Event)
    requires Enabled(h, ev)
    ensures Apply(h, ev).sessions.Keys == Update(h, ev).sessions.Keys == h.sessions.Keys + Opened(ev)
    ensures ev.ReadLine? ==> ev.session in h.sessions
  {
    assert Update(h, ev).sessions.Keys == h.sessions.Keys + Opened(ev);
    hide Update, Said, Forwarded;
    SayMembership(Update(h, ev), Said(h, ev));
  }

  lemma SayingSame(h: Hub, g: Hub, line: Option<Line>, id: SessionId)
    requires AlikeHubs(h, g, id)
    ensures AlikeHubs(SayIfAny(h, line), SayIfAny(g, line), id)
    ensures Drops(h, line, id) == Drops(g, line, id)
  {
  }

  lemma SayingToOthers(h: Hub, g: Hub, line: Option<Line>, id: SessionId)
    requires AlikeHubs(h, g, id) && (line.Some? ==> !Addresses(line.value, id))
    ensures AlikeHubs(SayIfAny(h, line), g, id)
    ensures Drops(h, line, id) == 0
  {
  }

  lemma LeftOutUpdate(h: Hub, ev: Event, g: Hub, id: SessionId)
    requires Enabled(h, ev) && AlikeHubs(h, g, id) && !Matters(h, ev, id)
    ensures AlikeHubs(Update(h, ev), g, id)
    ensures Said(h, ev).Some? ==> !Addresses(Said(h, ev).value, id)
  {
    match ev
    case Broadcast(from, text) => PostsOfOthersAppend(h.inbox, UserMsg(from, text), id);
    case _ =>
  }

  lemma KeptSaying(h: Hub, ev: Event, g: Hub, id: SessionId)
    requires Enabled(h, ev) && AlikeHubs(h, g, id) && Matters(h, ev, id)
    ensures Enabled(g, ev) && Said(h, ev) == Said(g, ev)
    ensures h.sessions.Keys == g.sessions.Keys
    ensures ev == ReadLine(id) ==> h.sessions[id].queue != [] && h.sessions[id].queue == g.sessions[id].queue
  {
    PostsOfOthersAppend(h.inbox, SystemMsg(""), id);
  }

  lemma KeptUpdate(h: Hub, ev: Event, g: Hub, id: SessionId)
    requires Enabled(h, ev) && Enabled(g, ev) && AlikeHubs(h, g, id) && Matters(h, ev, id)
    ensures AlikeHubs(Update(h, ev), Update(g, ev), id)
  {
    match ev
    case Broadcast(from, text) => PostsOfOthersAppend(h.inbox, UserMsg(from, text), id);
    case SystemMessage(text) => PostsOfOthersAppend(h.inbox, SystemMsg(text), id);
    case DeliverRemote(nick, text) => PostsOfOthersAppend(h.inbox, SystemMsg(Chat(nick, text)), id);
    case TakeBroadcast =>
      assert PostsOfOthers(h.inbox, id) == [h.inbox[0]] + PostsOfOthers(h.inbox[1..], id);
    case _ =>
  }

  /** Forwarding to the transport is all a step does after telling the sessions. */
  lemma ForwardingIsUnheard(h: Hub, ev: Event, g: Hub, id: SessionId)
    requires Enabled(h, ev)
    ensures AlikeHubs(SayIfAny(Update(h, ev), Said(h, ev)), g, id) ==> AlikeHubs(Apply(h, ev), g, id)
    ensures AlikeHubs(g, SayIfAny(Update(h, ev), Said(h, ev)), id) ==> AlikeHubs(g, Apply(h, ev), id)
  {
    hide Update, Said, Enabled, SayIfAny, Forwarded;
  }

  lemma LeftOutStep(w: World, ev: Event, v: World, id: SessionId)
    requires Enabled(w.hub, ev) && Alike(w, v, id) && !Matters(w.hub, ev, id)
    ensures Alike(Step(w, ev), v, id)
  {
    hide AlikeHubs, Update, Said, Enabled, Apply, Addresses, Drops;
    LeftOutUpdate(w.hub, ev, v.hub, id);
    SayingToOthers(Update(w.hub, ev), v.hub, Said(w.hub, ev), id);
    ForwardingIsUnheard(w.hub, ev, v.hub, id);
    PastStep(w, ev, id);
    hide Step, DroppedBy, ReadBy;
    assert ReadBy(w.past, id) + [] == ReadBy(w.past, id);
  }

  lemma KeptStep(w: World, ev: Event, v: World, id: SessionId)
    requires Enabled(w.hub, ev) && Alike(w, v, id) && Matters(w.hub, ev, id)
    ensures Enabled(v.hub, ev) && Alike(Step(w, ev), Step(v, ev), id)
  {
    hide AlikeHubs, Update, Said, Enabled, Apply, Addresses, Drops;
    KeptSaying(w.hub, ev, v.hub, id);
    KeptUpdate(w.hub, ev, v.hub, id);
    var line, h, g := Said(w.hub, ev), Update(w.hub, ev), Update(v.hub, ev);
    SayingSame(h, g, line, id);
    ForwardingIsUnheard(w.hub, ev, SayIfAny(g, line), id);
    ForwardingIsUnheard(v.hub, ev, Apply(w.hub, ev), id);
    PastStep(w, ev, id);
    PastStep(v, ev, id);
    hide Step, DroppedBy, ReadBy;
  }

  lemma {:induction false} WithoutPostsRun(w: World, events: seq<Event>, v: World, id: SessionId)
    requires Legal(w, events) && Alike(w, v, id)
    ensures Legal(v, WithoutPostsOf(w, events, id))
    ensures Alike(Run(w, events), Run(v, WithoutPostsOf(w, events, id)), id)
    decreases |events|
  {
    hide Alike, Step, Enabled, Matters;
    if events != [] {
      var ev, rest := events[0], WithoutPostsOf(Step(w, events[0]), events[1..], id);
      if Matters(w.hub, ev, id) {
        KeptStep(w, ev, v, id);
        WithoutPostsRun(Step(w, ev), events[1..], Step(v, ev), id);
        var kept := [ev] + rest;
        assert kept[0] == ev && kept[1..] == rest;
      } else {
        LeftOutStep(w, ev, v, id);
        WithoutPostsRun(Step(w, ev), events[1..], v, id);
        assert [] + rest == rest;
      }
    }
  }

  /**
   Take all posts of a session out of any run: what is left is a run, in which the session gets the same lines, one
   for one, and loses as many. So nothing a session gets stems from its own posts.
   */
  lemma OwnPostsAreUnheard(transport: bool, events: seq<Event>, id: SessionId)
    requires Legal(Begin(transport), events)
    ensures var others := WithoutPostsOf(Begin(transport), events, id);
            Legal(Begin(transport), others) &&
            var w, v := Run(Begin(transport), events), Run(Begin(transport), others);
            && (id in w.hub.sessions <==> id in v.hub.sessions)
            && (id in w.hub.sessions ==> Received(w, id) == Received(v, id))
            && DroppedBy(w.past, id) == DroppedBy(v.past, id)
  {
    WithoutPostsRun(Begin(transport), events, Begin(transport), id);
  }
}
