/**
 Whole networks from their first boot: local events on any servers at any time, each stamped state sent to
 all others, deliveries and re-broadcasts in any order, restarts, lost packets, and snapshots sent when
 servers connect. Whenever nothing is in flight, every server has observed every state issued but those it
 missed by a restart or a loss, and holds the highest of all exactly when it is not displaced and has
 stamped or heard a state above all it missed. One way to hear it is the origin's answer to a lower state.
 */
module Agreement {
  import opened Basics
  import opened Precedence
  import opened SyncServer
  import opened Convergence
  import opened Quiescence
  import BootClocks
  import AtMostOnce

  /**
   What a server has observed since its last boot, the highest of it, whether a tick has put the register
   behind it, and what was issued before that boot or lost on the way.
   */
  datatype View = View(seen: set<PlaybackState>, top: PlaybackState, lagging: bool, missed: set<PlaybackState>)

  function ViewAfter(v: View, s: Server, a: Action): View {
    View(v.seen + SeenBy(s, a), Higher(v.top, s, a), Lags(v.lagging, v.top, s, a), v.missed)
  }

  /** A network with what each server has observed and all that was issued. */
  datatype World = World(net: Network, views: map<string, View>, issued: set<PlaybackState>)

  ghost function Others(issued: set<PlaybackState>, id: string): set<PlaybackState> {
    set m | m in issued && m.deviceId != Some(id)
  }

  /** Engines work, clocks are below the guard, new states have new event ids and go to everyone. */
  ghost predicate Proper(w: World, fanout: nat, t: Turn) {
    && Possible(w.net, fanout, t)
    && var s := w.net.servers[Actor(w.net, t)];
       match t
       case Receive(_, _, _, enabled, engine, _) => enabled && engine.AllApplied()
       case Act(id, a, copies) =>
         Stamps(s, a) ==>
           && s.lamport + 1 < LAMPORT_GUARD
           && (forall m :: m in w.issued ==> m.eventId != Some(a.newId))
           && (forall other :: other in w.net.servers && other != id ==> other in copies)
  }

  ghost function WorldStep(w: World, fanout: nat, t: Turn): World
    requires Possible(w.net, fanout, t) && Actor(w.net, t) in w.views
  {
    var id, a := Actor(w.net, t), ActionOf(w.net, t);
    var s := w.net.servers[id];
    World(NetStep(w.net, fanout, t), w.views[id := ViewAfter(w.views[id], s, a)], w.issued + News(w.net, t))
  }

  /** The state that a turn stamps, if any. */
  ghost function News(n: Network, t: Turn): set<PlaybackState>
    requires (t.Receive? ==> t.i < |n.inFlight|) && Actor(n, t) in n.servers
  {
    var s, a := n.servers[Actor(n, t)], ActionOf(n, t);
    if Stamps(s, a) then SeenBy(s, a) else {}
  }

  ghost predicate Awaits(n: Network, id: string, m: PlaybackState) {
    exists p :: p in n.inFlight && p.dest == id && Erase(p.m) == m
  }

  ghost predicate Sits(s: Server, v: View, remote: set<PlaybackState>) {
    Tracks(s, v.seen, remote, v.top, v.lagging)
  }

  ghost predicate Settled(w: World, id: string)
    requires id in w.net.servers && id in w.views
  {
    && w.views[id].seen <= w.issued
    && w.views[id].missed <= w.issued
    && Sits(w.net.servers[id], w.views[id], Others(w.issued, id))
    && Outlived(w.net.servers[id], w.views[id].missed)
    && forall m :: m in w.issued && m !in w.views[id].seen && m !in w.views[id].missed ==>
         m.deviceId != Some(id) && Awaits(w.net, id, m)
  }

  /** The boot that a server is in outranks the states of its own that it has missed. */
  ghost predicate Outlived(s: Server, missed: set<PlaybackState>) {
    forall m :: m in missed && m.deviceId == Some(s.id) ==>
      m.epoch.GetOr(0) < s.epoch && m.lamport.GetOr(0) <= s.lamport
  }

  /** Everything but the servers' own accounts. */
  ghost predicate Consistent(w: World) {
    && WellFormed(w.net) && w.views.Keys == w.net.servers.Keys && Coherent(w.issued)
    && (forall m :: m in w.issued ==> m.lamport.value < LAMPORT_GUARD)
    && (forall p :: p in w.net.inFlight ==> Erase(p.m) in w.issued)
  }

  ghost predicate Sound(w: World) {
    Consistent(w) && forall id :: id in w.net.servers ==> Settled(w, id)
  }

  /** A proper turn of a settled server. */
  ghost predicate Ready(w: World, fanout: nat, t: Turn) {
    Consistent(w) && Proper(w, fanout, t) && Settled(w, Actor(w.net, t))
  }

  lemma OthersAreRemote(issued: set<PlaybackState>, id: string)
    requires Coherent(issued)
    ensures RemoteStates(id, Others(issued, id))
  {
  }

  /** New states of other devices, under new event ids, disturb no one's account. */
  lemma SitsWithMore(s: Server, v: View, remote: set<PlaybackState>, more: set<PlaybackState>)
    requires Sits(s, v, remote) && remote <= more
    requires forall n, k :: n in more - remote && k in v.seen ==> k.eventId != n.eventId
    ensures Sits(s, v, more)
  {
  }

  /** A stamp's provenance names its server and its event id and is one past the clock. */
  lemma StampNamed(s: Server, a: Action)
    requires Stamps(s, a) && s.lamport < U64_MAX && s.id != ""
    ensures var n := Step(s, a).server.current;
            && n.deviceId == Some(s.id) && n.eventId == Some(a.newId) && n.lamport == Some(s.lamport + 1)
            && n.epoch == Some(s.epoch) && Stamped(n)
  {
  }

  /** A new state is compatible with everything issued before, and above everything of its own device. */
  lemma NewsCompatible(s: Server, a: Action, v: View, issued: set<PlaybackState>, k: PlaybackState)
    requires Accounted(s, v.seen, Others(issued, s.id)) && Admissible(s, v.seen, Others(issued, s.id), a)
    requires Stamps(s, a) && Outlived(s, v.missed) && k in issued && Stamped(k) && k.eventId != Some(a.newId)
    requires k.deviceId == Some(s.id) ==> k in v.seen || k in v.missed
    ensures Compatible(k, Erase(Step(s, a).server.current))
    ensures k.deviceId == Some(s.id) ==> HasPrecedenceOver(Erase(Step(s, a).server.current), k)
  {
    StampNamed(s, a);
    if k.deviceId == Some(s.id) && k in v.seen {
      LocalStampAbove(s, a, k, v.seen, Others(issued, s.id));
    }
  }

  lemma NewsCoherent(s: Server, a: Action, v: View, issued: set<PlaybackState>)
    requires Accounted(s, v.seen, Others(issued, s.id)) && Admissible(s, v.seen, Others(issued, s.id), a)
    requires Stamps(s, a) && Outlived(s, v.missed) && Coherent(issued)
    requires forall k :: k in issued ==> k.eventId != Some(a.newId)
    requires forall k :: k in issued && k.deviceId == Some(s.id) ==> k in v.seen || k in v.missed
    ensures Coherent(issued + {Erase(Step(s, a).server.current)})
  {
    var n := Erase(Step(s, a).server.current);
    StampNamed(s, a);
    forall k | k in issued
      ensures Compatible(k, n)
    {
      NewsCompatible(s, a, v, issued, k);
    }
    CoherentExtended(issued, n);
  }

  /** A new state is its server's, has a new event id, and fits in with everything issued before. */
  lemma NewsFits(w: World, fanout: nat, t: Turn)
    requires Ready(w, fanout, t)
    ensures Coherent(w.issued + News(w.net, t))
    ensures forall n :: n in News(w.net, t) ==> Fresh(w, n, Actor(w.net, t))
  {
    var id, a := Actor(w.net, t), ActionOf(w.net, t);
    var s := w.net.servers[id];
    if Stamps(s, a) {
      ActorAdmissible(w, fanout, t);
      StampNamed(s, a);
      NewsCoherent(s, a, w.views[id], w.issued);
    } else {
      assert w.issued + News(w.net, t) == w.issued;
    }
  }

  ghost predicate Fresh(w: World, n: PlaybackState, id: string) {
    n.deviceId == Some(id) && n.lamport.Some? && n.lamport.value < LAMPORT_GUARD
    && forall k :: k in w.issued ==> k.eventId != n.eventId
  }

  lemma ActorAdmissible(w: World, fanout: nat, t: Turn)
    requires Ready(w, fanout, t)
    ensures var id := Actor(w.net, t);
            Admissible(w.net.servers[id], w.views[id].seen, Others(w.issued, id), ActionOf(w.net, t))
  {
    if t.Receive? {
      var p := w.net.inFlight[t.i];
      assert p in w.net.inFlight && Erase(p.m) in w.issued;
      assert Stamped(Erase(p.m));
    }
  }

  lemma CopyElsewhere(ps: seq<Packet>, i: nat, p: Packet, rest: seq<Packet>)
    requires i < |ps| && p in ps && p != ps[i] && rest == ps[..i] + ps[i + 1..]
    ensures p in rest
  {
    var j :| 0 <= j < |ps| && ps[j] == p;
    assert rest[if j < i then j else j - 1] == p;
  }

  /** What a server awaits is still under way unless this turn delivers it. */
  lemma StillAwaits(n: Network, fanout: nat, t: Turn, id: string, m: PlaybackState)
    requires Possible(n, fanout, t) && Awaits(n, id, m)
    requires t.Receive? ==> n.inFlight[t.i].dest != id || Erase(n.inFlight[t.i].m) != m
    ensures Awaits(NetStep(n, fanout, t), id, m)
  {
    var p :| p in n.inFlight && p.dest == id && Erase(p.m) == m;
    if t.Receive? {
      CopyElsewhere(n.inFlight, t.i, p, Remaining(n, t));
    }
    assert p in NetStep(n, fanout, t).inFlight;
  }

  lemma NewsUnderWay(w: World, fanout: nat, t: Turn, other: string, n: PlaybackState)
    requires Ready(w, fanout, t) && n in News(w.net, t)
    requires other in w.net.servers && other != Actor(w.net, t)
    ensures Awaits(NetStep(w.net, fanout, t), other, n)
  {
    var s, a := w.net.servers[Actor(w.net, t)], ActionOf(w.net, t);
    var c := Step(s, a).server.current;
    StepSends(s, a);
    CopiesCarry(t.copies, c);
    assert Packet(other, c) in NetStep(w.net, fanout, t).inFlight;
  }

  lemma SentIsIssued(w: World, fanout: nat, t: Turn)
    requires Ready(w, fanout, t)
    ensures var sent := Step(w.net.servers[Actor(w.net, t)], ActionOf(w.net, t)).sent;
            sent.Some? ==> Erase(sent.value) in w.issued + News(w.net, t)
  {
    var id := Actor(w.net, t);
    StepSends(w.net.servers[id], ActionOf(w.net, t));
  }

  lemma CarryOnly(ps: seq<Packet>, dests: seq<string>, sent: Option<PlaybackState>, issued: set<PlaybackState>)
    requires forall p :: p in ps ==> Erase(p.m) in issued
    requires sent.Some? ==> Erase(sent.value) in issued
    ensures forall p :: p in ps + Outgoing(dests, sent) ==> Erase(p.m) in issued
  {
    if sent.Some? {
      CopiesCarry(dests, sent.value);
    }
  }

  lemma PacketsIssued(w: World, fanout: nat, t: Turn)
    requires Ready(w, fanout, t)
    ensures forall p :: p in NetStep(w.net, fanout, t).inFlight ==> Erase(p.m) in w.issued + News(w.net, t)
  {
    var sent := Step(w.net.servers[Actor(w.net, t)], ActionOf(w.net, t)).sent;
    SentIsIssued(w, fanout, t);
    assert forall p :: p in Remaining(w.net, t) ==> p in w.net.inFlight;
    CarryOnly(Remaining(w.net, t), t.copies, sent, w.issued + News(w.net, t));
    assert NetStep(w.net, fanout, t).inFlight == Remaining(w.net, t) + Outgoing(t.copies, sent);
  }

  lemma GotIsIssued(w: World, fanout: nat, t: Turn)
    requires Ready(w, fanout, t)
    ensures SeenBy(w.net.servers[Actor(w.net, t)], ActionOf(w.net, t)) <= w.issued + News(w.net, t)
  {
    if t.Receive? {
      assert w.net.inFlight[t.i] in w.net.inFlight;
    }
  }

  lemma ActorSits(w: World, fanout: nat, t: Turn)
    requires Ready(w, fanout, t)
    ensures var id, a := Actor(w.net, t), ActionOf(w.net, t);
            var s := w.net.servers[id];
            Sits(Step(s, a).server, ViewAfter(w.views[id], s, a), Others(w.issued, id))
  {
    var id := Actor(w.net, t);
    var v := w.views[id];
    ActorAdmissible(w, fanout, t);
    OthersAreRemote(w.issued, id);
    TracksStep(w.net.servers[id], ActionOf(w.net, t), v.seen, Others(w.issued, id), v.top, v.lagging);
  }

  /** Identity and epoch stay, the clock does not go back. */
  lemma StepClocks(s: Server, a: Action)
    ensures var t := Step(s, a).server; t.id == s.id && t.epoch == s.epoch && s.lamport <= t.lamport
  {
  }

  /** What one turn of `id` does to the world, by the states it got and issued. */
  ghost predicate Moves(w: World, w': World, id: string, got: set<PlaybackState>, news: set<PlaybackState>)
    requires w.views.Keys == w.net.servers.Keys
  {
    && WellFormed(w'.net) && id in w.net.servers && id in w'.net.servers && id in w'.views
    && w'.net.servers == w.net.servers[id := w'.net.servers[id]]
    && w'.views == w.views[id := w'.views[id]] && w'.views[id].seen == w.views[id].seen + got
    && w'.views[id].missed == w.views[id].missed && Outlived(w'.net.servers[id], w.views[id].missed)
    && w'.issued == w.issued + news && news <= got <= w'.issued
    && Coherent(w'.issued) && (forall n :: n in news ==> Fresh(w, n, id))
    && Sits(w'.net.servers[id], w'.views[id], Others(w.issued, id))
    && (forall p :: p in w'.net.inFlight ==> Erase(p.m) in w'.issued)
    && (forall n, other :: n in news && other in w.net.servers && other != id ==> Awaits(w'.net, other, n))
    && (forall m, other :: Awaits(w.net, other, m) && !(other == id && (m in got || m.deviceId == Some(id))) ==>
          Awaits(w'.net, other, m))
  }

  lemma TurnMoves(w: World, fanout: nat, t: Turn)
    requires Ready(w, fanout, t)
    ensures var id := Actor(w.net, t);
            Moves(w, WorldStep(w, fanout, t), id, SeenBy(w.net.servers[id], ActionOf(w.net, t)), News(w.net, t))
  {
    var id, a := Actor(w.net, t), ActionOf(w.net, t);
    var w' := WorldStep(w, fanout, t);
    var got := SeenBy(w.net.servers[id], a);
    NetStepWellFormed(w.net, fanout, t);
    PacketsIssued(w, fanout, t);
    GotIsIssued(w, fanout, t);
    NewsFits(w, fanout, t);
    ActorSits(w, fanout, t);
    StepClocks(w.net.servers[id], a);
    assert w'.net.servers[id] == Step(w.net.servers[id], a).server;
    forall n, other | n in News(w.net, t) && other in w.net.servers && other != id
      ensures Awaits(w'.net, other, n)
    {
      NewsUnderWay(w, fanout, t, other, n);
    }
    forall m, other | Awaits(w.net, other, m) && !(other == id && (m in got || m.deviceId == Some(id)))
      ensures Awaits(w'.net, other, m)
    {
      StillAwaits(w.net, fanout, t, other, m);
    }
  }

  lemma SettledAfterTurn(w: World, w': World, id: string, got: set<PlaybackState>, news: set<PlaybackState>)
    requires w.views.Keys == w.net.servers.Keys && Moves(w, w', id, got, news) && Settled(w, id)
    ensures Settled(w', id)
  {
    assert Others(w'.issued, id) == Others(w.issued, id);
  }

  lemma SettledAside(w: World, w': World, other: string, news: set<PlaybackState>)
    requires other in w.net.servers && other in w.views && Settled(w, other)
    requires other in w'.net.servers && w'.net.servers[other] == w.net.servers[other]
    requires other in w'.views && w'.views[other] == w.views[other] && w'.issued == w.issued + news
    requires forall n :: n in news ==> n.deviceId != Some(other) && Awaits(w'.net, other, n)
    requires forall n, k :: n in news && k in w.issued ==> k.eventId != n.eventId
    requires forall m :: Awaits(w.net, other, m) ==> Awaits(w'.net, other, m)
    ensures Settled(w', other)
  {
    SitsWithMore(w.net.servers[other], w.views[other], Others(w.issued, other), Others(w'.issued, other));
  }

  lemma SoundStep(w: World, fanout: nat, t: Turn)
    requires Sound(w) && Proper(w, fanout, t)
    ensures Sound(WorldStep(w, fanout, t))
  {
    var id := Actor(w.net, t);
    TurnMoves(w, fanout, t);
    SoundAfter(w, WorldStep(w, fanout, t), id, SeenBy(w.net.servers[id], ActionOf(w.net, t)), News(w.net, t));
  }

  lemma ConsistentAfter(w: World, w': World, id: string, got: set<PlaybackState>, news: set<PlaybackState>)
    requires Consistent(w) && Moves(w, w', id, got, news)
    ensures Consistent(w')
  {
  }

  lemma OtherAfter(w: World, w': World, id: string, got: set<PlaybackState>, news: set<PlaybackState>, other: string)
    requires w.views.Keys == w.net.servers.Keys && Moves(w, w', id, got, news)
    requires other in w.net.servers && other != id && Settled(w, other)
    ensures Settled(w', other)
  {
    SettledAside(w, w', other, news);
  }

  lemma SoundAfter(w: World, w': World, id: string, got: set<PlaybackState>, news: set<PlaybackState>)
    requires Sound(w) && Moves(w, w', id, got, news)
    ensures Sound(w')
  {
    ConsistentAfter(w, w', id, got, news);
    forall other | other in w'.net.servers
      ensures Settled(w', other)
    {
      if other == id {
        SettledAfterTurn(w, w', id, got, news);
      } else {
        OtherAfter(w, w', id, got, news, other);
      }
    }
  }

  // ---- Restarts, connections, losses ----

  datatype Happening =
    | Plain(t: Turn)
    | Restart(id: string, epoch: u64, bootId: nat, lamport: u64, initial: PlaybackState)
    | Connect(from: string, to: string)
    | Lose(i: nat)

  /**
   A restart gets an epoch and a clock past those of its earlier boots; a connecting server sends its
   register, unless nothing was stamped into it yet.
   */
  ghost predicate CanHappen(w: World, fanout: nat, h: Happening) {
    match h
    case Plain(t) => Proper(w, fanout, t) && Actor(w.net, t) in w.views
    case Restart(id, epoch, _, lamport, initial) =>
      && id in w.net.servers && Blank(initial)
      && forall m :: m in w.issued && m.deviceId == Some(id) ==>
           m.epoch.GetOr(0) < epoch && m.lamport.GetOr(0) <= lamport
    case Connect(from, to) =>
      from in w.net.servers && to in w.net.servers && !Blank(w.net.servers[from].current)
    case Lose(i) => i < |w.net.inFlight| && w.net.inFlight[i].dest in w.views
  }

  function NewBoot(id: string, epoch: u64, bootId: nat, lamport: u64, initial: PlaybackState): Server {
    Server(id, epoch, bootId, 0, lamport, initial, Local, map[], {})
  }

  ghost function After(w: World, fanout: nat, h: Happening): World
    requires CanHappen(w, fanout, h)
  {
    match h
    case Plain(t) => WorldStep(w, fanout, t)
    case Restart(id, epoch, bootId, lamport, initial) =>
      World(w.net.(servers := w.net.servers[id := NewBoot(id, epoch, bootId, lamport, initial)]),
            w.views[id := View({}, Erase(initial), false, w.issued)], w.issued)
    case Connect(from, to) =>
      w.(net := w.net.(inFlight := w.net.inFlight + [Packet(to, w.net.servers[from].current)]))
    case Lose(i) =>
      var p := w.net.inFlight[i];
      var v := w.views[p.dest];
      World(w.net.(inFlight := w.net.inFlight[..i] + w.net.inFlight[i + 1..]),
            if p.m.deviceId == Some(p.dest) then w.views
            else w.views[p.dest := v.(missed := v.missed + {Erase(p.m)})],
            w.issued)
  }

  lemma HappeningIsConsistent(w: World, fanout: nat, h: Happening)
    requires Consistent(w) && CanHappen(w, fanout, h) && !h.Plain?
    requires h.Connect? ==> Settled(w, h.from)
    ensures Consistent(After(w, fanout, h)) && After(w, fanout, h).net.servers.Keys == w.net.servers.Keys
  {
    var w' := After(w, fanout, h);
    if h.Lose? {
      assert forall p :: p in w'.net.inFlight ==> p in w.net.inFlight;
    }
  }

  lemma SettledAfterRestart(w: World, fanout: nat, h: Happening, id: string)
    requires Consistent(w) && CanHappen(w, fanout, h) && h.Restart? && id in w.net.servers && Settled(w, id)
    ensures Settled(After(w, fanout, h), id)
  {
    var w' := After(w, fanout, h);
    if id == h.id {
      assert Sits(w'.net.servers[id], w'.views[id], Others(w.issued, id));
    } else {
      SettledAside(w, w', id, {});
    }
  }

  lemma SettledAfterConnect(w: World, fanout: nat, h: Happening, id: string)
    requires Consistent(w) && CanHappen(w, fanout, h) && h.Connect? && id in w.net.servers && Settled(w, id)
    ensures Settled(After(w, fanout, h), id)
  {
    var w' := After(w, fanout, h);
    MorePackets(w.net, w'.net, id);
    SettledAside(w, w', id, {});
  }

  lemma MorePackets(n: Network, n': Network, id: string)
    requires forall p :: p in n.inFlight && p.dest == id ==> p in n'.inFlight
    ensures forall m :: Awaits(n, id, m) ==> Awaits(n', id, m)
  {
  }

  lemma SettledAfterLoss(w: World, fanout: nat, h: Happening, id: string)
    requires Consistent(w) && CanHappen(w, fanout, h) && h.Lose? && id in w.net.servers && Settled(w, id)
    ensures Settled(After(w, fanout, h), id)
  {
    var w' := After(w, fanout, h);
    var lost := w.net.inFlight[h.i];
    assert lost in w.net.inFlight;
    forall m | m in w.issued && m !in w'.views[id].seen && m !in w'.views[id].missed
      ensures m.deviceId != Some(id) && Awaits(w'.net, id, m)
    {
      var p :| p in w.net.inFlight && p.dest == id && Erase(p.m) == m;
      CopyElsewhere(w.net.inFlight, h.i, p, w'.net.inFlight);
    }
  }

  lemma HappeningIsSound(w: World, fanout: nat, h: Happening)
    requires Sound(w) && CanHappen(w, fanout, h)
    ensures Sound(After(w, fanout, h))
  {
    if h.Plain? {
      SoundStep(w, fanout, h.t);
    } else {
      HappeningIsConsistent(w, fanout, h);
      forall id | id in w.net.servers
        ensures Settled(After(w, fanout, h), id)
      {
        if h.Restart? {
          SettledAfterRestart(w, fanout, h, id);
        } else if h.Connect? {
          SettledAfterConnect(w, fanout, h, id);
        } else {
          SettledAfterLoss(w, fanout, h, id);
        }
      }
    }
  }

  // ---- Histories ----

  /** Each happening is possible when it comes. */
  ghost predicate History(w: World, fanout: nat, hs: seq<Happening>)
    decreases |hs|
  {
    hs == [] || (CanHappen(w, fanout, hs[0]) && History(After(w, fanout, hs[0]), fanout, hs[1..]))
  }

  ghost function WorldRun(w: World, fanout: nat, hs: seq<Happening>): World
    requires History(w, fanout, hs)
    decreases |hs|
  {
    if hs == [] then w else WorldRun(After(w, fanout, hs[0]), fanout, hs[1..])
  }

  lemma {:induction false} RunIsSound(w: World, fanout: nat, hs: seq<Happening>)
    requires Sound(w) && History(w, fanout, hs)
    ensures Sound(WorldRun(w, fanout, hs))
    decreases |hs|
  {
    if hs != [] {
      HappeningIsSound(w, fanout, hs[0]);
      RunIsSound(After(w, fanout, hs[0]), fanout, hs[1..]);
    }
  }

  /** All servers have just booted and nothing is in flight. */
  ghost predicate FirstBoot(w: World) {
    && w.net.inFlight == [] && w.issued == {} && w.views.Keys == w.net.servers.Keys
    && forall id :: id in w.net.servers ==>
         && Booted(w.net.servers[id]) && w.net.servers[id].id == id && id != UNNAMED_PEER
         && w.views[id] == View({}, Erase(w.net.servers[id].current), false, {})
  }

  lemma FirstBootIsSound(w: World)
    requires FirstBoot(w)
    ensures Sound(w)
  {
    forall id | id in w.net.servers
      ensures Settled(w, id)
    {
      assert Sits(w.net.servers[id], w.views[id], Others({}, id));
    }
  }

  /** The server has stamped or heard, since its last boot, a state at or above everything it missed. */
  ghost predicate CaughtUp(v: View) {
    v.seen != {} && forall m :: m in v.missed ==> m == v.top || HasPrecedenceOver(v.top, m)
  }

  /** Everything issued was observed or missed; the register is on the highest exactly under the conditions named. */
  ghost predicate Agreed(w: World, id: string)
    requires id in w.net.servers && id in w.views
  {
    && w.views[id].seen <= w.issued <= w.views[id].seen + w.views[id].missed
    && (w.issued != {} ==>
          (IsMaximum(Erase(w.net.servers[id].current), w.issued) <==>
             !w.views[id].lagging && CaughtUp(w.views[id])))
  }

  lemma QuietMeansAgreed(w: World, id: string)
    requires w.net.inFlight == [] && id in w.net.servers && id in w.views && Settled(w, id) && Coherent(w.issued)
    ensures Agreed(w, id)
  {
    var v, c := w.views[id], Erase(w.net.servers[id].current);
    forall m | m in w.issued
      ensures m in v.seen + v.missed
    {
      assert !Awaits(w.net, id, m);
    }
    if w.issued != {} && IsMaximum(c, w.issued) {
      assert Stamped(c);
      MaximumUnique(c, v.top, v.seen);
    }
  }

  /**
   After any history, whenever nothing is in flight every server has observed every state issued but those
   it missed, and holds the highest of all exactly when it is not displaced and has caught up.
   */
  lemma AgreeWhenQuiet(w: World, fanout: nat, hs: seq<Happening>)
    requires FirstBoot(w) && History(w, fanout, hs)
    ensures var last := WorldRun(w, fanout, hs);
            last.net.inFlight == [] ==>
              forall id :: id in last.net.servers ==> id in last.views && Agreed(last, id)
  {
    FirstBootIsSound(w);
    RunIsSound(w, fanout, hs);
    var last := WorldRun(w, fanout, hs);
    if last.net.inFlight == [] {
      forall id | id in last.net.servers
        ensures Agreed(last, id)
      {
        QuietMeansAgreed(last, id);
      }
    }
  }

  ghost predicate NoneMissed(w: World) {
    forall id :: id in w.views ==> w.views[id].missed == {}
  }

  /** Without restarts and losses nothing is missed. */
  lemma {:induction false} NothingMissed(w: World, fanout: nat, hs: seq<Happening>)
    requires History(w, fanout, hs) && NoneMissed(w)
    requires forall i :: 0 <= i < |hs| ==> hs[i].Plain? || hs[i].Connect?
    ensures NoneMissed(WorldRun(w, fanout, hs))
    decreases |hs|
  {
    if hs != [] {
      NothingMissed(After(w, fanout, hs[0]), fanout, hs[1..]);
    }
  }

  /**
   The origin of the highest state cannot hear it again after a restart, but whatever it stamps next is the
   highest: its clock and epoch are past its earlier boots.
   */
  lemma OriginRegains(w: World, fanout: nat, t: Turn, top: PlaybackState, n: PlaybackState)
    requires Ready(w, fanout, t) && IsMaximum(top, w.issued) && top.deviceId == Some(Actor(w.net, t))
    requires n in News(w.net, t)
    ensures IsMaximum(n, w.issued + {n})
  {
    var id, a := Actor(w.net, t), ActionOf(w.net, t);
    NewsFits(w, fanout, t);
    ActorAdmissible(w, fanout, t);
    NewsCompatible(w.net.servers[id], a, w.views[id], w.issued, top);
    assert News(w.net, t) == {n};
    CoherentIsOrderly(w.issued + {n});
    Trichotomy(StampOf(top), StampOf(n));
    MaximumReplaced(top, n, w.issued);
  }

  // ---- Recovery by re-broadcast ----

  /** A state other than the highest is delivered to the origin of the highest, which is connected to `id`. */
  ghost predicate Challenged(w: World, fanout: nat, t: Turn, id: string, top: PlaybackState) {
    && Sound(w) && Proper(w, fanout, t) && t.Receive? && IsMaximum(top, w.issued)
    && top.deviceId == Some(Actor(w.net, t)) && Erase(w.net.inFlight[t.i].m) != top
    && id in w.net.servers && id in t.copies && id != Actor(w.net, t)
  }

  /** The origin still holds the highest state, and nothing it remembers drops the one it receives. */
  ghost predicate Answers(w: World, t: Turn, top: PlaybackState)
    requires t.Receive? && t.i < |w.net.inFlight| && Actor(w.net, t) in w.net.servers
  {
    var s := w.net.servers[Actor(w.net, t)];
    Unfiltered(s, w.net.inFlight[t.i].m) && Erase(s.current) == top
  }

  lemma AnsweringSends(w: World, fanout: nat, t: Turn, id: string, top: PlaybackState)
    requires Challenged(w, fanout, t, id, top)
    ensures var s := w.net.servers[Actor(w.net, t)];
            var sent := Step(s, ActionOf(w.net, t)).sent;
            && (Answers(w, t, top) ==> sent == Some(s.current))
            && (sent.Some? && Erase(sent.value) == top ==> Answers(w, t, top))
  {
    var s, p := w.net.servers[Actor(w.net, t)], w.net.inFlight[t.i];
    ApplySends(s, ActionOf(w.net, t).d);
    assert p in w.net.inFlight && Erase(p.m) in w.issued;
    if Erase(s.current) == top {
      assert Stamped(top) && Stamped(Erase(p.m)) && Identified(top, Erase(p.m));
      TimeIrrelevant(s.current, p.m);
    }
  }

  /**
   A server to which the highest state is not under way gets it sent again by the origin's answer to a lower
   one exactly when the origin still holds it and the lower state passes its filters: one that the origin has
   applied before is dropped without an answer.
   */
  lemma AnsweredIff(w: World, fanout: nat, t: Turn, id: string, top: PlaybackState)
    requires Challenged(w, fanout, t, id, top) && !Awaits(w.net, id, top)
    ensures Awaits(NetStep(w.net, fanout, t), id, top) <==> Answers(w, t, top)
  {
    if Answers(w, t, top) {
      AnswerUnderWay(w, fanout, t, id, top);
    }
    if Awaits(NetStep(w.net, fanout, t), id, top) {
      NewlyAwaited(w.net, fanout, t, id, top);
      AnsweringSends(w, fanout, t, id, top);
    }
  }

  /** What comes under way in a turn is what the turn sends. */
  lemma NewlyAwaited(n: Network, fanout: nat, t: Turn, id: string, m: PlaybackState)
    requires Possible(n, fanout, t) && !Awaits(n, id, m) && Awaits(NetStep(n, fanout, t), id, m)
    ensures var sent := Step(n.servers[Actor(n, t)], ActionOf(n, t)).sent;
            sent.Some? && Erase(sent.value) == m
  {
    var sent := Step(n.servers[Actor(n, t)], ActionOf(n, t)).sent;
    assert forall q :: q in Remaining(n, t) ==> q in n.inFlight;
    var p :| p in NetStep(n, fanout, t).inFlight && p.dest == id && Erase(p.m) == m;
    assert p in Outgoing(t.copies, sent);
    CopiesCarry(t.copies, sent.value);
  }

  lemma AnswerUnderWay(w: World, fanout: nat, t: Turn, id: string, top: PlaybackState)
    requires Challenged(w, fanout, t, id, top) && Answers(w, t, top)
    ensures Awaits(NetStep(w.net, fanout, t), id, top)
  {
    AnsweringSends(w, fanout, t, id, top);
    SentUnderWay(w.net, fanout, t, id);
  }

  lemma SentUnderWay(n: Network, fanout: nat, t: Turn, id: string)
    requires Possible(n, fanout, t) && id in t.copies
    ensures var sent := Step(n.servers[Actor(n, t)], ActionOf(n, t)).sent;
            sent.Some? ==> Awaits(NetStep(n, fanout, t), id, Erase(sent.value))
  {
    var sent := Step(n.servers[Actor(n, t)], ActionOf(n, t)).sent;
    if sent.Some? {
      CopiesCarry(t.copies, sent.value);
      assert Packet(id, sent.value) in NetStep(n, fanout, t).inFlight;
    }
  }

  lemma HighestTaken(s: Server, v: View, d: Delivery, issued: set<PlaybackState>, top: PlaybackState)
    requires Sits(s, v, Others(issued, s.id)) && v.seen <= issued && IsMaximum(top, issued)
    requires Erase(d.m) == top && top.deviceId != Some(s.id) && Stamped(top)
    ensures var v' := ViewAfter(v, s, Deliver(d));
            v'.top == top && !v'.lagging && top in v'.seen && v'.missed == v.missed
  {
    Trichotomy(StampOf(v.top), StampOf(top));
  }

  lemma TurnSettles(w: World, fanout: nat, t: Turn)
    requires Sound(w) && Proper(w, fanout, t)
    ensures Settled(w, Actor(w.net, t)) && Settled(WorldStep(w, fanout, t), Actor(w.net, t))
  {
    SoundStep(w, fanout, t);
  }

  lemma OnHighest(w: World, id: string, top: PlaybackState)
    requires id in w.net.servers && id in w.views && Settled(w, id) && IsMaximum(top, w.issued)
    requires w.views[id].top == top && !w.views[id].lagging && top in w.views[id].seen
    ensures CaughtUp(w.views[id]) && IsMaximum(Erase(w.net.servers[id].current), w.issued)
  {
  }

  /** Whoever receives the highest state of another device is on it, and has caught up with all it missed. */
  lemma HighestArrives(w: World, fanout: nat, t: Turn, top: PlaybackState)
    requires Sound(w) && Proper(w, fanout, t) && t.Receive? && IsMaximum(top, w.issued)
    requires Erase(w.net.inFlight[t.i].m) == top && top.deviceId != Some(Actor(w.net, t))
    ensures var id, w' := Actor(w.net, t), WorldStep(w, fanout, t);
            && w'.views[id].top == top && CaughtUp(w'.views[id])
            && w'.issued == w.issued && IsMaximum(Erase(w'.net.servers[id].current), w'.issued)
  {
    var id, w' := Actor(w.net, t), WorldStep(w, fanout, t);
    TurnSettles(w, fanout, t);
    HighestTaken(w.net.servers[id], w.views[id], ActionOf(w.net, t).d, w.issued, top);
    assert w'.issued == w.issued;
    OnHighest(w', id, top);
  }

  /** The history does not restart the server and loses nothing sent to it. */
  ghost predicate Spares(w: World, fanout: nat, hs: seq<Happening>, id: string)
    requires History(w, fanout, hs)
    decreases |hs|
  {
    hs != [] ==>
      && (hs[0].Restart? ==> hs[0].id != id)
      && (hs[0].Lose? ==> w.net.inFlight[hs[0].i].dest != id)
      && Spares(After(w, fanout, hs[0]), fanout, hs[1..], id)
  }

  /** The server has observed `m` or it is under way, and nothing more than `missed` was missed. */
  ghost predicate Underway(w: World, id: string, m: PlaybackState, missed: set<PlaybackState>) {
    id in w.net.servers && id in w.views && w.views[id].missed == missed
    && (m in w.views[id].seen || Awaits(w.net, id, m))
  }

  lemma TurnStaysUnderway(w: World, fanout: nat, t: Turn, id: string, m: PlaybackState, missed: set<PlaybackState>)
    requires Ready(w, fanout, t) && Underway(w, id, m, missed) && m.deviceId != Some(id)
    ensures Underway(WorldStep(w, fanout, t), id, m, missed)
  {
    var actor := Actor(w.net, t);
    TurnMoves(w, fanout, t);
    MovesUnderway(w, WorldStep(w, fanout, t), actor, SeenBy(w.net.servers[actor], ActionOf(w.net, t)), News(w.net, t),
                  id, m, missed);
  }

  lemma MovesUnderway(w: World, w': World, actor: string, got: set<PlaybackState>, news: set<PlaybackState>,
                      id: string, m: PlaybackState, missed: set<PlaybackState>)
    requires w.views.Keys == w.net.servers.Keys && Moves(w, w', actor, got, news)
    requires Underway(w, id, m, missed) && m.deviceId != Some(id)
    ensures Underway(w', id, m, missed)
  {
  }

  lemma StaysUnderway(w: World, fanout: nat, h: Happening, id: string, m: PlaybackState, missed: set<PlaybackState>)
    requires CanHappen(w, fanout, h) && !h.Plain? && Underway(w, id, m, missed)
    requires (h.Restart? ==> h.id != id) && (h.Lose? ==> w.net.inFlight[h.i].dest != id)
    ensures Underway(After(w, fanout, h), id, m, missed)
  {
    if Awaits(w.net, id, m) && !h.Restart? {
      var p :| p in w.net.inFlight && p.dest == id && Erase(p.m) == m;
      if h.Lose? {
        CopyElsewhere(w.net.inFlight, h.i, p, After(w, fanout, h).net.inFlight);
      }
      assert p in After(w, fanout, h).net.inFlight;
    }
  }

  lemma {:induction false} RunStaysUnderway(w: World, fanout: nat, hs: seq<Happening>, id: string, m: PlaybackState,
                                            missed: set<PlaybackState>)
    requires Sound(w) && History(w, fanout, hs) && Spares(w, fanout, hs, id)
    requires Underway(w, id, m, missed) && m.deviceId != Some(id)
    ensures Sound(WorldRun(w, fanout, hs)) && Underway(WorldRun(w, fanout, hs), id, m, missed)
    decreases |hs|
  {
    if hs != [] {
      HappeningIsSound(w, fanout, hs[0]);
      if hs[0].Plain? {
        TurnStaysUnderway(w, fanout, hs[0].t, id, m, missed);
      } else {
        StaysUnderway(w, fanout, hs[0], id, m, missed);
      }
      RunStaysUnderway(After(w, fanout, hs[0]), fanout, hs[1..], id, m, missed);
    }
  }

  /** A server that has observed a state above all it missed has caught up. */
  lemma ObservedCatchesUp(w: World, id: string, m: PlaybackState)
    requires Consistent(w) && id in w.net.servers && Settled(w, id) && m in w.views[id].seen
    requires forall k :: k in w.views[id].missed ==> k == m || HasPrecedenceOver(m, k)
    ensures CaughtUp(w.views[id])
  {
    var v := w.views[id];
    forall k | k in v.missed
      ensures k == v.top || HasPrecedenceOver(v.top, k)
    {
      if k != m && m != v.top {
        PrecedenceTransitive(w.issued, v.top, m, k);
      }
    }
  }

  lemma AnswerStarts(w: World, fanout: nat, t: Turn, id: string, top: PlaybackState)
    requires Challenged(w, fanout, t, id, top) && Answers(w, t, top)
    ensures Sound(WorldStep(w, fanout, t)) && Underway(WorldStep(w, fanout, t), id, top, w.views[id].missed)
    ensures top.deviceId != Some(id) && forall k :: k in w.views[id].missed ==> k == top || HasPrecedenceOver(top, k)
  {
    SoundStep(w, fanout, t);
    AnswerUnderWay(w, fanout, t, id, top);
    MissedBelow(w, id, top);
  }

  lemma MissedBelow(w: World, id: string, top: PlaybackState)
    requires Sound(w) && id in w.net.servers && IsMaximum(top, w.issued)
    ensures forall k :: k in w.views[id].missed ==> k == top || HasPrecedenceOver(top, k)
  {
    assert Settled(w, id);
  }

  /** A server to which the state was under way has observed it once nothing is in flight. */
  lemma UnderwayArrives(w: World, id: string, top: PlaybackState, missed: set<PlaybackState>)
    requires Sound(w) && Underway(w, id, top, missed) && w.net.inFlight == []
    requires forall k :: k in missed ==> k == top || HasPrecedenceOver(top, k)
    ensures CaughtUp(w.views[id])
    ensures IsMaximum(Erase(w.net.servers[id].current), w.issued) <==> !w.views[id].lagging
  {
    assert Settled(w, id);
    ObservedCatchesUp(w, id, top);
    QuietMeansAgreed(w, id);
  }

  /**
   What the re-broadcast is for. A server has lost the highest state, and a lower one reaches its origin,
   which answers. In every history after that which spares the server, local events and losses elsewhere
   included, the server has caught up once nothing is in flight, and is on the highest state of all unless
   it is displaced.
   */
  lemma RebroadcastRecovers(w: World, fanout: nat, t: Turn, id: string, top: PlaybackState, hs: seq<Happening>)
    requires Challenged(w, fanout, t, id, top) && Answers(w, t, top)
    requires var next := WorldStep(w, fanout, t); History(next, fanout, hs) && Spares(next, fanout, hs, id)
    ensures var last := WorldRun(WorldStep(w, fanout, t), fanout, hs);
            last.net.inFlight == [] ==>
              && id in last.net.servers && id in last.views && CaughtUp(last.views[id])
              && (IsMaximum(Erase(last.net.servers[id].current), last.issued) <==> !last.views[id].lagging)
  {
    var next := WorldStep(w, fanout, t);
    AnswerStarts(w, fanout, t, id, top);
    RunStaysUnderway(next, fanout, hs, id, top, w.views[id].missed);
    var last := WorldRun(next, fanout, hs);
    if last.net.inFlight == [] {
      UnderwayArrives(last, id, top, w.views[id].missed);
    }
  }

  // ---- An example ----

  const BLANK := PlaybackState(NO_PAYLOAD, 0, None, None, None, None, None, None)

  /** Two servers that have just booted. */
  ghost function Pair(): World {
    var none := View({}, BLANK, false, {});
    World(Network(map["a" := NewBoot("a", 1, 1, 0, BLANK), "b" := NewBoot("b", 1, 2, 0, BLANK)], []),
          map["a" := none, "b" := none], {})
  }

  /** The first state that either stamps, under the event id of its boot. */
  function FirstOf(id: string, n: nat): PlaybackState {
    PlaybackState(NO_PAYLOAD, 0, Some(id), Some(n), Some(1), Some(1), Some(n), Some(1))
  }

  function Plays(id: string, n: nat, other: string): Happening {
    Plain(Act(id, Command(true, Some(NO_PAYLOAD), 0, n), [other]))
  }

  ghost function PairAfterOne(): World {
    var a := NewBoot("a", 1, 1, 1, FirstOf("a", 1)).(localSequence := 1);
    World(Network(Pair().net.servers["a" := a], [Packet("b", FirstOf("a", 1))]),
          Pair().views["a" := View({FirstOf("a", 1)}, FirstOf("a", 1), false, {})], {FirstOf("a", 1)})
  }

  ghost function PairAfterBoth(): World {
    var b := NewBoot("b", 1, 2, 1, FirstOf("b", 2)).(localSequence := 1);
    World(Network(PairAfterOne().net.servers["b" := b], [Packet("b", FirstOf("a", 1)), Packet("a", FirstOf("b", 2))]),
          PairAfterOne().views["b" := View({FirstOf("b", 2)}, FirstOf("b", 2), false, {})],
          {FirstOf("a", 1), FirstOf("b", 2)})
  }

  ghost function PairAfterLoss(): World {
    var w := PairAfterBoth();
    World(w.net.(inFlight := [Packet("b", FirstOf("a", 1))]),
          w.views["a" := w.views["a"].(missed := {FirstOf("b", 2)})], w.issued)
  }

  lemma FirstPlays()
    ensures CanHappen(Pair(), 1, Plays("a", 1, "b")) && After(Pair(), 1, Plays("a", 1, "b")) == PairAfterOne()
  {
    var w' := After(Pair(), 1, Plays("a", 1, "b"));
    CopiesCarry(["b"], FirstOf("a", 1));
    assert w'.net.inFlight == PairAfterOne().net.inFlight;
    assert w'.issued == PairAfterOne().issued;
  }

  lemma SecondPlays()
    ensures CanHappen(PairAfterOne(), 1, Plays("b", 2, "a"))
    ensures After(PairAfterOne(), 1, Plays("b", 2, "a")) == PairAfterBoth()
  {
    var w' := After(PairAfterOne(), 1, Plays("b", 2, "a"));
    CopiesCarry(["a"], FirstOf("b", 2));
    assert w'.net.servers["b"] == PairAfterBoth().net.servers["b"];
    assert w'.net.servers == PairAfterBoth().net.servers;
    assert w'.net.inFlight == PairAfterBoth().net.inFlight;
    assert w'.views["b"] == PairAfterBoth().views["b"];
    assert w'.issued == PairAfterBoth().issued;
  }

  lemma SecondIsLost()
    ensures CanHappen(PairAfterBoth(), 1, Lose(1)) && After(PairAfterBoth(), 1, Lose(1)) == PairAfterLoss()
  {
    var w' := After(PairAfterBoth(), 1, Lose(1));
    assert w'.net.inFlight == PairAfterLoss().net.inFlight;
    assert w'.views["a"] == PairAfterLoss().views["a"];
  }

  /** Both play at the same time, and what "b" sends is lost. */
  function Mishap(): seq<Happening> {
    [Plays("a", 1, "b")] + ([Plays("b", 2, "a")] + ([Lose(1)] + []))
  }

  lemma {:induction false} HistoryFrom(w: World, w': World, h: Happening, hs: seq<Happening>, last: World)
    requires CanHappen(w, 1, h) && After(w, 1, h) == w' && History(w', 1, hs) && WorldRun(w', 1, hs) == last
    ensures History(w, 1, [h] + hs) && WorldRun(w, 1, [h] + hs) == last
  {
    assert ([h] + hs)[1..] == hs;
  }

  lemma MishapHappens()
    ensures History(Pair(), 1, Mishap()) && WorldRun(Pair(), 1, Mishap()) == PairAfterLoss()
  {
    FirstPlays();
    SecondPlays();
    SecondIsLost();
    HistoryFrom(PairAfterBoth(), PairAfterLoss(), Lose(1), [], PairAfterLoss());
    HistoryFrom(PairAfterOne(), PairAfterBoth(), Plays("b", 2, "a"), [Lose(1)] + [], PairAfterLoss());
    HistoryFrom(Pair(), PairAfterOne(), Plays("a", 1, "b"), [Plays("b", 2, "a")] + ([Lose(1)] + []), PairAfterLoss());
  }

  lemma PairBooted()
    ensures FirstBoot(Pair())
  {
  }

  lemma MishapIsSound()
    ensures FirstBoot(Pair()) && Sound(PairAfterLoss())
  {
    PairBooted();
    FirstBootIsSound(Pair());
    MishapHappens();
    RunIsSound(Pair(), 1, Mishap());
  }

  lemma LowerArrives(engine: Engine)
    requires engine.AllApplied()
    ensures var w, t, top := PairAfterLoss(), Receive(0, 0, 3, true, engine, ["a"]), FirstOf("b", 2);
            && Proper(w, 1, t) && IsMaximum(top, w.issued) && Answers(w, t, top)
            && (Sound(w) ==> Challenged(w, 1, t, "a", top))
  {
    assert StrLess("a", "b");
    assert HasPrecedenceOver(FirstOf("b", 2), FirstOf("a", 1));
  }

  /** Two servers stamp at the same time and the higher state is lost: when the lower one arrives, it is answered. */
  lemma AnswerExample(engine: Engine)
    requires engine.AllApplied()
    ensures FirstBoot(Pair()) && History(Pair(), 1, Mishap())
    ensures var w, t := WorldRun(Pair(), 1, Mishap()), Receive(0, 0, 3, true, engine, ["a"]);
            Challenged(w, 1, t, "a", FirstOf("b", 2)) && Answers(w, t, FirstOf("b", 2))
  {
    MishapHappens();
    MishapIsSound();
    LowerArrives(engine);
  }

  // ---- The life of a boot ----

  /** What an action is to the clocks of the boot that performs it. */
  function LifeOf(s: Server, a: Action): seq<BootClocks.Event> {
    if Stamps(s, a) then [BootClocks.Issue]
    else if a.Deliver? && a.d.enabled && !IsEcho(s, a) && a.d.m.lamport.Some? then [BootClocks.Hear(a.d.m.lamport.value)]
    else []
  }

  /** The counters of a replica move as those of its boot do, and what it stamps is what its boot logs. */
  lemma StepIsLife(s: Server, a: Action, o: BootClocks.Origin)
    requires o.running == Some(BootClocks.Live(s.epoch, s.localSequence, s.lamport))
    ensures var t, o' := Step(s, a).server, BootClocks.Run(o, LifeOf(s, a));
            && o'.running == Some(BootClocks.Live(t.epoch, t.localSequence, t.lamport))
            && (!Stamps(s, a) ==> o'.log == o.log)
            && (Stamps(s, a) ==>
                  && o'.log == o.log + [BootClocks.Issued(AtMostOnce.Position(t.epoch, t.localSequence), t.lamport)]
                  && t.current.epoch == Some(t.epoch) && t.current.sequence == Some(t.localSequence)
                  && t.current.lamport == Some(t.lamport) && t.current.deviceId == Some(s.id))
  {
    var life := LifeOf(s, a);
    if life != [] {
      assert life[..0] == [];
    }
  }

  /** The next boot of an orderly origin may restart: its epoch and clock are past everything it issued. */
  lemma OrderlyBootMayRestart(w: World, fanout: nat, id: string, life: seq<BootClocks.Event>, boot: BootClocks.Event,
                              bootId: nat, initial: PlaybackState)
    requires id in w.net.servers && Blank(initial) && boot.Boot? && BootClocks.OrderlyRun(life)
    requires BootClocks.Orderly(BootClocks.Run(BootClocks.NEW, life), boot)
    requires forall m :: m in w.issued && m.deviceId == Some(id) ==> BootClocks.IssuedIn(m, map[id := life])
    ensures var live := BootClocks.Step(BootClocks.Run(BootClocks.NEW, life), boot).running.value;
            CanHappen(w, fanout, Restart(id, live.epoch, bootId, live.lamport, initial))
  {
    BootClocks.NextBootIsPast(life, boot);
    var log := BootClocks.LogOf(life);
    forall m | m in w.issued && m.deviceId == Some(id)
      ensures exists i :: 0 <= i < |log| && BootClocks.IssuedIn(m, map[id := life]) && BootClocks.Carries(m, log[i])
    {
      assert BootClocks.IssuedIn(m, map[id := life]);
    }
  }
}
