/**
 How far coverage goes, exactly. In a mesh with more nodes than the hops of a message can visit in a row, some run
 leaves a node without it, even a node two links from the originator: the copy that takes the long way round arrives
 first with no hop left, and the copy that took the short way is then dropped as a duplicate.
 */
module NetworkTightness {
  import opened Crypto
  import opened Envelopes
  import opened Sequences
  import opened Gossip
  import opened Network
  import opened NetworkTraffic
  import opened NetworkCoverage

  // ---------- coverage as a statement about runs ----------

  /** `env` was broadcast once in a mesh, by `origin`, nothing disturbed it, and no copy of it is under way. */
  ghost predicate Quiescent(p: Params, s: Net, origin: Id, env: Envelope) {
    && Reachable(p, s) && Mesh(PeersOf(s), p.fanout, origin)
    && OneBroadcast(s.log, origin, env) && Broadcasts(s.log, env.messageId) == [(origin, env)]
    && !InFlight(s.flight, env.messageId)
  }

  ghost predicate Covered(s: Net, origin: Id, env: Envelope) {
    forall n :: n in s.nodes ==> AcceptCount(s.log, n, env.messageId) == if n == origin then 0 else 1
  }

  // ---------- a path with a chord ----------

  function IdleEngine(): (e: EngineState) {
    EngineState(map[], map[], map[], 0, 0, 0, 0, 0)
  }

  /** Node `i` of the witness; its index is the length of its id. */
  function Name(i: nat): (id: Id)
    ensures |id| == i
  {
    seq(i, j => 0)
  }

  predicate Linked(chord: nat, i: nat, j: nat) {
    j == i + 1 || i == j + 1 || (i == 0 && j == chord) || (i == chord && j == 0)
  }

  function Names(n: nat): (ids: set<Id>) {
    set i | 0 <= i < n :: Name(i)
  }

  function Neighbours(n: nat, chord: nat, i: nat): (ids: set<Id>) {
    set j | 0 <= j < n && Linked(chord, i, j) :: Name(j)
  }

  /** Nodes 0 to n - 1 in a row, and a link from 0 to `chord`. */
  function Lasso(n: nat, chord: nat): (g: Graph) {
    map u | u in Names(n) :: Neighbours(n, chord, |u|)
  }

  function LassoNet(n: nat, chord: nat): (s: Net) {
    Net(map u | u in Names(n) :: Node(IdleEngine(), Neighbours(n, chord, |u|)), [], 0.0, Start)
  }

  lemma NameOf(n: nat, u: Id)
    ensures u in Names(n) <==> |u| < n && u == Name(|u|)
  {
  }

  lemma {:induction false} NamesCardinality(n: nat)
    ensures |Names(n)| == n
  {
    if n > 0 {
      NamesCardinality(n - 1);
      assert Names(n) == Names(n - 1) + {Name(n - 1)};
      NameOf(n - 1, Name(n - 1));
    }
  }

  lemma NeighbourOf(n: nat, chord: nat, i: nat, v: Id)
    ensures v in Neighbours(n, chord, i) <==> |v| < n && v == Name(|v|) && Linked(chord, i, |v|)
  {
  }

  lemma LassoDegree(n: nat, chord: nat, i: nat, fanout: nat)
    requires 1 <= chord && 1 <= i && fanout >= 1 && (fanout >= 2 || chord == 1)
    ensures |Neighbours(n, chord, i)| <= fanout + 1
  {
    var most: set<Id> := {Name(i - 1), Name(i + 1)} + (if chord == 1 then {} else {Name(0)});
    forall v | v in Neighbours(n, chord, i) ensures v in most {
      NeighbourOf(n, chord, i, v);
    }
    SubsetCardinality(Neighbours(n, chord, i), most);
  }

  /** The walk along the row from `i` to `j`. */
  function Walk(i: nat, j: nat): (path: seq<Id>)
    ensures path != [] && path[0] == Name(i)
    decreases if i < j then j - i else i - j
  {
    if i == j then [Name(i)] else [Name(i)] + Walk(if i < j then i + 1 else i - 1, j)
  }

  lemma {:induction false} WalkIsPath(n: nat, chord: nat, i: nat, j: nat)
    requires i < n && j < n
    ensures Path(Lasso(n, chord), Walk(i, j)) && Walk(i, j)[|Walk(i, j)| - 1] == Name(j)
    decreases if i < j then j - i else i - j
  {
    NameOf(n, Name(i));
    if i != j {
      var next := if i < j then i + 1 else i - 1;
      WalkIsPath(n, chord, next, j);
      NeighbourOf(n, chord, i, Name(next));
      assert Walk(i, j)[1..] == Walk(next, j);
    }
  }

  lemma LassoIsConnected(n: nat, chord: nat)
    ensures Connected(Lasso(n, chord))
  {
    var g := Lasso(n, chord);
    forall u, v | u in g && v in g ensures exists path :: Path(g, path) && path[0] == u && path[|path| - 1] == v {
      NameOf(n, u);
      NameOf(n, v);
      WalkIsPath(n, chord, |u|, |v|);
      assert Path(g, Walk(|u|, |v|)) && Walk(|u|, |v|)[0] == u;
    }
  }

  lemma LassoIsMesh(n: nat, chord: nat, fanout: nat)
    requires 1 <= chord && fanout >= 1 && (fanout >= 2 || chord == 1)
    ensures Mesh(Lasso(n, chord), fanout, Name(0))
  {
    hide Connected, Neighbours, Names;
    var g := Lasso(n, chord);
    LassoIsConnected(n, chord);
    forall u, v | u in g && v in g[u] ensures v in g && u in g[v] {
      NameOf(n, u);
      NameOf(n, v);
      NeighbourOf(n, chord, |u|, v);
      NeighbourOf(n, chord, |v|, u);
    }
    forall u | u in g && u != Name(0) ensures |g[u]| <= fanout + 1 {
      NameOf(n, u);
      LassoDegree(n, chord, |u|, fanout);
    }
  }

  // ---------- the run ----------

  /** The copy that waits on the chord while the message travels along the row. */
  function Waiting(env: Envelope, chord: nat): (copies: seq<Copy>) {
    if chord == 1 then [] else [Copy(Name(0), Name(chord), env, env, [Name(0)], false)]
  }

  /** The copy on its way to node `i` along the row. */
  function Front(env: Envelope, i: nat): (c: Copy)
    requires 1 <= i <= Reach(env.hopCount)
  {
    Copy(Name(i - 1), Name(i), env.(hopCount := env.hopCount - (i - 1)), env,
         seq(i, j requires 0 <= j < i => Name(j)), false)
  }

  /** The history of the one broadcast, in which nodes from `i` on have accepted nothing. */
  ghost predicate Told(h: History, env: Envelope, i: nat) {
    && OneBroadcast(h, Name(0), env) && Broadcasts(h, env.messageId) == [(Name(0), env)]
    && forall j :: i <= j ==> AcceptCount(h, Name(j), env.messageId) == 0
  }

  ghost predicate IdleFrom(s: Net, n: nat, i: nat) {
    forall j :: i <= j < n ==> Name(j) in s.nodes && s.nodes[Name(j)].engine == IdleEngine()
  }

  /** Nodes up to `i - 1` have heard the message, the others are idle. */
  ghost predicate Wave(p: Params, s: Net, env: Envelope, n: nat, chord: nat, i: nat) {
    Reachable(p, s) && PeersOf(s) == Lasso(n, chord) && Told(s.log, env, i) && IdleFrom(s, n, i)
  }

  lemma LassoIsFresh(p: Params, n: nat, chord: nat)
    ensures Fresh(p, LassoNet(n, chord)) && PeersOf(LassoNet(n, chord)) == Lasso(n, chord)
    ensures Reachable(p, LassoNet(n, chord)) && IdleFrom(LassoNet(n, chord), n, 0)
  {
    assert Legal(p, LassoNet(n, chord), []) && Run(p, LassoNet(n, chord), []) == LassoNet(n, chord);
  }

  lemma OriginHears(env: Envelope, chord: nat, taken: seq<Id>)
    ensures Told(Then(Start, Originated(Name(0), env, taken, [])), env, 0)
  {
    var h := Then(Start, Originated(Name(0), env, taken, []));
    var m := env.messageId;
    assert Broadcasts(Start, m) == [] && Broadcasts(h, m) == [] + [(Name(0), env)];
    assert Undisturbed(Start, m) && NeverLimited(Start, m);
  }

  /** The originator sends to its neighbours, the one across the chord first. */
  function FirstTargets(chord: nat): (ids: seq<Id>) {
    (if chord == 1 then [] else [Name(chord)]) + [Name(1)]
  }

  lemma OriginBroadcasts(p: Params, env: Envelope, n: nat, chord: nat)
    requires 1 <= chord < n && n >= 2
    ensures Enabled(p, LassoNet(n, chord), Broadcast(Name(0), env, FirstTargets(chord), []))
  {
    var s0, taken := LassoNet(n, chord), FirstTargets(chord);
    OriginsPeers(n, chord);
    NameOf(n, Name(0));
    assert taken + [] == taken;
    assert s0.nodes[Name(0)].peers == Neighbours(n, chord, 0);
    assert Elements(taken) == Neighbours(n, chord, 0);
  }

  lemma FirstCopies(env: Envelope, chord: nat)
    requires 1 <= chord
    ensures Launch(Name(0), FirstTargets(chord), env, env, [Name(0)]) == Waiting(env, chord) + [Front(env, 1)]
  {
    assert Front(env, 1).trail == [Name(0)];
    assert env.(hopCount := env.hopCount - 0) == env;
  }

  lemma WaveStarts(p: Params, env: Envelope, n: nat, chord: nat) returns (s: Net)
    requires 1 <= chord < n && n >= 2
    ensures Wave(p, s, env, n, chord, 1) && s.flight == Waiting(env, chord) + [Front(env, 1)]
    ensures s.now == 0.0 && s.log.Then? && s.log.before == Start && s.log.record.Originated?
  {
    hide Told, Reachable, Neighbours, FirstTargets, Launch, Waiting;
    var s0, ev := LassoNet(n, chord), Broadcast(Name(0), env, FirstTargets(chord), []);
    LassoIsFresh(p, n, chord);
    OriginBroadcasts(p, env, n, chord);
    ReachableStep(p, s0, ev);
    s := Apply(p, s0, ev);
    OriginHears(env, chord, FirstTargets(chord));
    ToldLater(s.log, env, 0, 1);
    FirstCopies(env, chord);
    assert PeersOf(s) == PeersOf(s0);
  }

  lemma ToldLater(h: History, env: Envelope, i: nat, j: nat)
    requires Told(h, env, i) && i <= j
    ensures Told(h, env, j)
  {
  }

  lemma OriginsPeers(n: nat, chord: nat)
    requires 1 <= chord < n && n >= 2
    ensures Neighbours(n, chord, 0) == {Name(1), Name(chord)}
  {
    forall v ensures v in Neighbours(n, chord, 0) <==> v in {Name(1), Name(chord)} {
      NeighbourOf(n, chord, 0, v);
    }
  }

  /** A node on the way passes the message on to the next one only. */
  lemma RowPeers(n: nat, chord: nat, i: nat, fanout: nat)
    requires 1 <= i && i + 1 < n && (chord == 1 || i < chord) && fanout >= 1
    ensures ValidTargets(Neighbours(n, chord, i), Name(i - 1), fanout, [Name(i + 1)] + [])
  {
    NeighbourOf(n, chord, i, Name(i + 1));
    forall v | v in Neighbours(n, chord, i) ensures v in {Name(i - 1), Name(i + 1)} {
      NeighbourOf(n, chord, i, v);
    }
    assert Name(i + 1) != Name(i - 1);
    assert Neighbours(n, chord, i) - {Name(i - 1)} == {Name(i + 1)};
    assert [Name(i + 1)] + [] == [Name(i + 1)];
  }

  lemma FrontIsAccepted(p: Params, s: Net, env: Envelope, n: nat, chord: nat, i: nat)
    requires Injective(p.c.sha256) && GoodMessage(p.c, env) && 1 <= i <= Reach(env.hopCount) && i < n
    requires Wave(p, s, env, n, chord, i)
    ensures Name(i) in s.nodes && s.nodes[Name(i)] == Node(IdleEngine(), Neighbours(n, chord, i))
    ensures GossipType(env.msgType) && VerdictOn(p, s, Front(env, i)) == Accepted
  {
    hide Reachable, Told, Judge, Neighbours, Verifies;
    var c := Front(env, i);
    NameOf(n, Name(i));
    assert PeersOf(s)[Name(i)] == Neighbours(n, chord, i);
    RelayingKeepsSignature(p.c, env, c.env.hopCount, env.senderPubkey, env.senderPubkey);
    GoodMessageAccepted(p, IdleEngine(), s.now, c.env);
  }

  lemma AcceptedIsTold(h: History, env: Envelope, i: nat, hops: nat, taken: seq<Id>)
    requires Told(h, env, i) && hops <= env.hopCount
    ensures var copy := env.(hopCount := hops);
            Told(Then(Then(h, Cleared(Name(i), copy)), Handled(Name(i), copy, Accepted, taken, [])), env, i + 1)
  {
    var cleared := Then(h, Cleared(Name(i), env.(hopCount := hops)));
    assert Undisturbed(cleared, env.messageId) && NeverLimited(cleared, env.messageId);
    assert Broadcasts(cleared, env.messageId) == Broadcasts(h, env.messageId);
  }

  /** Handling the front copy: node `i` accepts it, the others stay as they are. */
  lemma WaveMoves(p: Params, s: Net, env: Envelope, n: nat, chord: nat, i: nat, taken: seq<Id>) returns (t: Net)
    requires Injective(p.c.sha256) && GoodMessage(p.c, env) && 1 <= i <= Reach(env.hopCount) && i < n
    requires Wave(p, s, env, n, chord, i) && s.flight == Waiting(env, chord) + [Front(env, i)]
    requires if Front(env, i).env.hopCount > 1
             then ValidTargets(Neighbours(n, chord, i), Name(i - 1), p.fanout, taken + [])
             else taken == []
    ensures Wave(p, t, env, n, chord, i + 1)
    ensures Name(i) in t.nodes && env.messageId in t.nodes[Name(i)].engine.seen
    ensures t.flight == Waiting(env, chord)
                + if Front(env, i).env.hopCount > 1 then RelayedCopies(Front(env, i), taken) else []
  {
    hide Judge, Admit, Reachable, Neighbours, Lasso, Told, Without, GoodMessage, ValidTargets, RelayedCopies;
    FrontIsAccepted(p, s, env, n, chord, i);
    var at, c := |Waiting(env, chord)|, Front(env, i);
    LastOf(Waiting(env, chord), c);
    hide Waiting;
    t := AcceptInTwoSteps(p, s, at, taken);
    AcceptedIsTold(s.log, env, i, c.env.hopCount, taken);
    assert PeersOf(t) == PeersOf(s);
  }

  lemma LastOf(copies: seq<Copy>, c: Copy)
    ensures (copies + [c])[|copies|] == c && Without(copies + [c], |copies|) == copies
  {
  }

  lemma {:induction false} WaveTravels(p: Params, s: Net, env: Envelope, n: nat, chord: nat, i: nat) returns (t: Net)
    requires Injective(p.c.sha256) && GoodMessage(p.c, env) && p.fanout >= 1
    requires 1 <= i <= Reach(env.hopCount) && Reach(env.hopCount) + 1 < n
             && (chord == 1 || chord == Reach(env.hopCount))
    requires Wave(p, s, env, n, chord, i) && s.flight == Waiting(env, chord) + [Front(env, i)]
    ensures Wave(p, t, env, n, chord, Reach(env.hopCount) + 1) && t.flight == Waiting(env, chord)
    ensures Name(Reach(env.hopCount)) in t.nodes && env.messageId in t.nodes[Name(Reach(env.hopCount))].engine.seen
    decreases Reach(env.hopCount) - i
  {
    hide Wave, GoodMessage, Waiting, Neighbours, ValidTargets;
    if i == Reach(env.hopCount) {
      t := WaveMoves(p, s, env, n, chord, i, []);
      assert Waiting(env, chord) + [] == Waiting(env, chord);
      WaveKnows(p, t, env, n, chord, i + 1, i);
    } else {
      RowPeers(n, chord, i, p.fanout);
      var next := WaveMoves(p, s, env, n, chord, i, [Name(i + 1)]);
      var trail := Front(env, i).trail + [Name(i)];
      assert trail == Front(env, i + 1).trail;
      assert RelayedCopies(Front(env, i), [Name(i + 1)]) == [Front(env, i + 1)];
      t := WaveTravels(p, next, env, n, chord, i + 1);
    }
  }

  lemma WaveKnows(p: Params, s: Net, env: Envelope, n: nat, chord: nat, i: nat, j: nat)
    requires Wave(p, s, env, n, chord, i) && j < n
    ensures Name(j) in s.nodes
  {
    NameOf(n, Name(j));
    assert Name(j) in PeersOf(s);
  }

  /** The copy that waited on the chord is a duplicate now. */
  lemma ChordIsTooLate(p: Params, s: Net, env: Envelope, n: nat, chord: nat) returns (t: Net)
    requires GoodMessage(p.c, env) && chord != 1
    requires Wave(p, s, env, n, chord, chord + 1) && s.flight == Waiting(env, chord)
    requires Name(chord) in s.nodes && env.messageId in s.nodes[Name(chord)].engine.seen
    ensures Wave(p, t, env, n, chord, chord + 1) && t.flight == []
  {
    var ev := Handle(0, [], []);
    hide Verifies, Lasso, Reachable, Told;
    assert VerdictOn(p, s, s.flight[0]) == Duplicate;
    assert Enabled(p, s, ev);
    ReachableStep(p, s, ev);
    t := Apply(p, s, ev);
    HandleOutcome(p, s, 0, [], []);
    DuplicateIsTold(s.log, env, chord);
    assert PeersOf(t) == PeersOf(s);
  }

  lemma DuplicateIsTold(h: History, env: Envelope, i: nat)
    requires Told(h, env, i + 1)
    ensures Told(Then(h, Handled(Name(i), env, Duplicate, [], [])), env, i + 1)
  {
  }

  /**
   Whatever the number of hops, from two nodes more than it on there is a mesh in which an undisturbed broadcast
   never reaches one node; and with a fanout of at least two that node is two links away from the originator.
   */
  lemma CoverageNeedsNodeBound(p: Params, env: Envelope, n: nat) returns (s: Net, missed: Id, via: Id)
    requires Injective(p.c.sha256) && GoodMessage(p.c, env) && !WithinReach(n, p.fanout, env.hopCount)
    ensures Quiescent(p, s, Name(0), env) && |s.nodes| == n
    ensures missed in s.nodes && missed != Name(0) && AcceptCount(s.log, missed, env.messageId) == 0
    ensures p.fanout >= 2 ==> Path(PeersOf(s), [Name(0), via, missed])
  {
    hide GoodMessage, Mesh, Path, Quiescent, Wave;
    var r := Reach(env.hopCount);
    var chord := if p.fanout >= 2 then r else 1;
    var first := WaveStarts(p, env, n, chord);
    var last := WaveTravels(p, first, env, n, chord, 1);
    s := last;
    if chord != 1 {
      s := ChordIsTooLate(p, last, env, n, chord);
    }
    missed, via := Name(r + 1), Name(r);
    WaveEnds(p, s, env, n, chord);
    if p.fanout >= 2 {
      TwoLinks(n, chord);
    }
  }

  lemma WaveEnds(p: Params, s: Net, env: Envelope, n: nat, chord: nat)
    requires var r := Reach(env.hopCount); r + 1 < n && Wave(p, s, env, n, chord, r + 1) && s.flight == []
    requires 1 <= chord && p.fanout >= 1 && (p.fanout >= 2 || chord == 1)
    ensures Quiescent(p, s, Name(0), env) && |s.nodes| == n && PeersOf(s) == Lasso(n, chord)
    ensures var missed := Name(Reach(env.hopCount) + 1);
            missed in s.nodes && AcceptCount(s.log, missed, env.messageId) == 0
  {
    hide Mesh, Reachable, Neighbours, Names, OneBroadcast;
    var r := Reach(env.hopCount);
    LassoIsMesh(n, chord, p.fanout);
    WaveKnows(p, s, env, n, chord, r + 1, r + 1);
    assert s.nodes.Keys == PeersOf(s).Keys == Names(n);
    NamesCardinality(n);
    assert |s.nodes| == |s.nodes.Keys|;
  }

  lemma TwoLinks(n: nat, chord: nat)
    requires 1 <= chord && chord + 1 < n
    ensures Path(Lasso(n, chord), [Name(0), Name(chord), Name(chord + 1)])
  {
    var g, path := Lasso(n, chord), [Name(0), Name(chord), Name(chord + 1)];
    NameOf(n, Name(0));
    NameOf(n, Name(chord));
    NameOf(n, Name(chord + 1));
    NeighbourOf(n, chord, 0, Name(chord));
    NeighbourOf(n, chord, chord, Name(chord + 1));
    assert path[1..] == [Name(chord), Name(chord + 1)] && path[1..][1..] == [Name(chord + 1)];
    assert Path(g, [Name(chord + 1)]) && Path(g, path[1..]);
  }

  /**
   The exact condition. For every message, fanout and number of nodes: every undisturbed broadcast of it in every
   mesh of that many nodes reaches every node exactly once if and only if the mesh has at most one node more than
   the message has hops (two if it has none), or no node but the originator ever passes anything on.
   */
  lemma CoverageIsExact(p: Params, env: Envelope, n: nat)
    requires Injective(p.c.sha256) && GoodMessage(p.c, env)
    ensures (forall s, origin :: Quiescent(p, s, origin, env) && |s.nodes| == n ==> Covered(s, origin, env))
            <==> WithinReach(n, p.fanout, env.hopCount)
  {
    if WithinReach(n, p.fanout, env.hopCount) {
      forall s, origin | Quiescent(p, s, origin, env) && |s.nodes| == n ensures Covered(s, origin, env) {
        forall node | node in s.nodes
          ensures AcceptCount(s.log, node, env.messageId) == if node == origin then 0 else 1
        {
          Coverage(p, s, origin, env, node);
        }
      }
    } else {
      var s, missed, _ := CoverageNeedsNodeBound(p, env, n);
      assert !Covered(s, Name(0), env);
    }
  }
}
