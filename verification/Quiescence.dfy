/**
 Any number of replicas exchanging states over a network that delivers in any order. Without new local
 events the exchange stops after a bounded number of deliveries, whatever is in flight, whatever order
 the states are in and however the engines behave.
 */
module Quiescence {
  import opened Basics
  import opened Precedence
  import opened SyncServer
  import opened Convergence

  datatype Packet = Packet(dest: string, m: PlaybackState)

  datatype Network = Network(servers: map<string, Server>, inFlight: seq<Packet>)

  /** The delivery of packet `i`, or an action of one server's own; what it sends reaches `copies`. */
  datatype Turn =
    | Receive(i: nat, at: int, newId: nat, enabled: bool, engine: Engine, copies: seq<string>)
    | Act(id: string, a: Action, copies: seq<string>)

  ghost predicate WellFormed(n: Network) {
    && (forall id :: id in n.servers ==> n.servers[id].id == id && Sane(n.servers[id]))
    && (forall p :: p in n.inFlight ==> p.dest in n.servers)
  }

  predicate Possible(n: Network, fanout: nat, t: Turn) {
    && |t.copies| <= fanout && (forall c :: c in t.copies ==> c in n.servers)
    && match t
       case Receive(i, _, _, _, _, _) => i < |n.inFlight| && n.inFlight[i].dest in n.servers
       case Act(id, a, _) => id in n.servers && !a.Deliver?
  }

  function Copies(dests: seq<string>, m: PlaybackState): seq<Packet> {
    if dests == [] then [] else [Packet(dests[0], m)] + Copies(dests[1..], m)
  }

  /** The server whose turn it is, and the action it performs. */
  function Actor(n: Network, t: Turn): string
    requires t.Receive? ==> t.i < |n.inFlight|
  {
    match t
    case Receive(i, _, _, _, _, _) => n.inFlight[i].dest
    case Act(id, _, _) => id
  }

  function ActionOf(n: Network, t: Turn): Action
    requires t.Receive? ==> t.i < |n.inFlight|
  {
    match t
    case Receive(i, at, newId, enabled, engine, _) => Deliver(Delivery(n.inFlight[i].m, at, newId, enabled, engine))
    case Act(_, a, _) => a
  }

  function Remaining(n: Network, t: Turn): seq<Packet>
    requires t.Receive? ==> t.i < |n.inFlight|
  {
    if t.Receive? then n.inFlight[..t.i] + n.inFlight[t.i + 1..] else n.inFlight
  }

  function NetStep(n: Network, fanout: nat, t: Turn): Network
    requires Possible(n, fanout, t)
  {
    var id := Actor(n, t);
    var e := Step(n.servers[id], ActionOf(n, t));
    Network(n.servers[id := e.server], Remaining(n, t) + Outgoing(t.copies, e.sent))
  }

  function Outgoing(dests: seq<string>, sent: Option<PlaybackState>): seq<Packet> {
    match sent
    case Some(m) => Copies(dests, m)
    case None => []
  }

  lemma {:induction false} CopiesCarry(dests: seq<string>, m: PlaybackState)
    ensures |Copies(dests, m)| == |dests|
    ensures forall p :: p in Copies(dests, m) <==> p.m == m && p.dest in dests
  {
    if dests != [] {
      CopiesCarry(dests[1..], m);
    }
  }

  /** The timeline is not this server's own under another name. */
  predicate Sane(s: Server) {
    s.id != UNNAMED_PEER && (s.timeline.Remote? ==> s.timeline.originDeviceId != s.id)
  }

  lemma EnactFrame(s: Server, d: Delivery)
    requires Sane(s) && d.m.deviceId != Some(s.id)
    ensures Enact(s, d).id == s.id && Sane(Enact(s, d))
    ensures Enact(s, d).current == s.current || Enact(s, d).current.deviceId != Some(s.id)
  {
  }

  /** An application leaves no new state under this server's name. */
  lemma ApplyFrame(s: Server, d: Delivery)
    requires Sane(s)
    ensures var t := Apply(s, d).server;
            t.id == s.id && Sane(t) && (t.current == s.current || t.current.deviceId != Some(s.id))
  {
    if d.m.deviceId != Some(s.id) {
      EnactFrame(if d.m.lamport.Some? then s.(lamport := ObserveLamport(s.lamport, d.m.lamport.value)) else s, d);
    }
  }

  /**
   It sends nothing but the register, and that exactly when a state no filter drops meets a local state that
   precedes it. Whatever does not reach the engine leaves the replica as it was, but for the clock.
   */
  lemma ApplySends(s: Server, d: Delivery)
    ensures var e := Apply(s, d);
            var answers := d.enabled && Unfiltered(s, d.m) && s.current.deviceId == Some(s.id)
                           && HasPrecedenceOver(s.current, d.m);
            && e.sent == (if answers then Some(s.current) else None)
            && (!e.outcome.Attempted? ==> e.server == s.(lamport := e.server.lamport))
            && (!d.enabled || d.m.deviceId == Some(s.id) ==> e.server == s)
  {
  }

  /** What one step may send, and what it leaves as a locally stamped state. */
  lemma StepSends(s: Server, a: Action)
    requires Sane(s)
    ensures var e := Step(s, a);
            && e.server.id == s.id && Sane(e.server)
            && (Stamps(s, a) ==> e.sent == Some(e.server.current))
            && (!Stamps(s, a) && e.sent.Some? ==>
                  && a.Deliver? && e.sent.value == s.current && s.current.deviceId == Some(s.id)
                  && a.d.m.deviceId != Some(s.id) && HasPrecedenceOver(s.current, a.d.m))
            && (!Stamps(s, a) && e.server.current.deviceId == Some(s.id) ==> e.server.current == s.current)
  {
    if a.Deliver? {
      ApplyFrame(s, a.d);
      ApplySends(s, a.d);
    }
  }

  lemma NetStepWellFormed(n: Network, fanout: nat, t: Turn)
    requires WellFormed(n) && Possible(n, fanout, t)
    ensures WellFormed(NetStep(n, fanout, t)) && NetStep(n, fanout, t).servers.Keys == n.servers.Keys
  {
    var s, a := n.servers[Actor(n, t)], ActionOf(n, t);
    StepSends(s, a);
    if Step(s, a).sent.Some? {
      CopiesCarry(t.copies, Step(s, a).sent.value);
    }
  }

  /** A turn that stamps nothing: a delivery, an event on a peer's timeline, a command without events. */
  predicate Quiet(n: Network, t: Turn)
    requires t.Receive? ==> t.i < |n.inFlight|
  {
    Actor(n, t) in n.servers && !Stamps(n.servers[Actor(n, t)], ActionOf(n, t))
  }

  ghost predicate QuietRun(n: Network, fanout: nat, turns: seq<Turn>)
    decreases |turns|
  {
    turns == [] ||
    (Possible(n, fanout, turns[0]) && Quiet(n, turns[0])
     && QuietRun(NetStep(n, fanout, turns[0]), fanout, turns[1..]))
  }

  function Deliveries(turns: seq<Turn>): nat {
    if turns == [] then 0 else (if turns[0].Receive? then 1 else 0) + Deliveries(turns[1..])
  }

  /** The states that some replica holds and stamped itself: all that can ever be re-broadcast. */
  ghost function LocalStates(n: Network): set<PlaybackState> {
    set id | id in n.servers && n.servers[id].current.deviceId == Some(id) :: n.servers[id].current
  }

  ghost predicate OnePerDevice(u: set<PlaybackState>) {
    forall a, b :: a in u && b in u ==> a.deviceId.Some? && (a.deviceId == b.deviceId ==> a == b)
  }

  ghost function Above(u: set<PlaybackState>, m: PlaybackState): set<PlaybackState> {
    set a | a in u && HasPrecedenceOver(a, m)
  }

  ghost function Rank(u: set<PlaybackState>, m: PlaybackState): nat {
    if m in u then |Above(u, m)| else |u|
  }

  lemma SubsetSize<T>(a: set<T>, b: set<T>)
    requires a <= b
    ensures |a| <= |b|
    ensures a != b ==> |a| < |b|
  {
    assert b == a + (b - a);
    assert |b| == |a| + |b - a|;
  }

  /** A re-broadcast state ranks strictly below the rank of the state that provoked it. */
  lemma RankDrops(u: set<PlaybackState>, c: PlaybackState, m: PlaybackState)
    requires OnePerDevice(u) && c in u && HasPrecedenceOver(c, m) && m.deviceId != c.deviceId
    ensures Rank(u, c) < Rank(u, m)
  {
    Trichotomy(StampOf(c), StampOf(c));
    assert c !in Above(u, c);
    if m in u {
      forall a | a in Above(u, c)
        ensures a in Above(u, m)
      {
        Trichotomy(StampOf(a), StampOf(c));
        Trichotomy(StampOf(c), StampOf(m));
        assert a.deviceId != c.deviceId && a.deviceId != m.deviceId;
        assert !Inverted(StampOf(a), StampOf(c)) && !Inverted(StampOf(c), StampOf(m))
               && !Inverted(StampOf(m), StampOf(a));
        Transitive(StampOf(a), StampOf(c), StampOf(m));
      }
      assert c in Above(u, m);
      SubsetSize(Above(u, c), Above(u, m));
    } else {
      assert c in u;
      SubsetSize(Above(u, c), u);
    }
  }

  function Power(base: nat, exponent: nat): (r: nat)
    requires base > 0
    ensures r > 0
  {
    if exponent == 0 then 1 else base * Power(base, exponent - 1)
  }

  lemma {:induction false} PowerGrows(base: nat, i: nat, j: nat)
    requires base > 0 && i <= j
    ensures Power(base, i) <= Power(base, j)
  {
    if i < j {
      PowerGrows(base, i, j - 1);
      assert Power(base, j) == base * Power(base, j - 1) >= Power(base, j - 1);
    }
  }

  /** Weight of a collection of packets: one more copy of a higher state never pays for a lower one. */
  ghost function Weight(u: set<PlaybackState>, fanout: nat, ps: seq<Packet>): nat {
    if ps == [] then 0 else Power(fanout + 1, Rank(u, ps[0].m)) + Weight(u, fanout, ps[1..])
  }

  lemma {:induction false} WeightConcat(u: set<PlaybackState>, fanout: nat, a: seq<Packet>, b: seq<Packet>)
    ensures Weight(u, fanout, a + b) == Weight(u, fanout, a) + Weight(u, fanout, b)
  {
    if a == [] {
      assert a + b == b;
    } else {
      WeightConcat(u, fanout, a[1..], b);
      assert (a + b)[1..] == a[1..] + b && (a + b)[0] == a[0];
    }
  }

  lemma {:induction false} WeightOfCopies(u: set<PlaybackState>, fanout: nat, dests: seq<string>, m: PlaybackState)
    ensures Weight(u, fanout, Copies(dests, m)) == |dests| * Power(fanout + 1, Rank(u, m))
  {
    if dests != [] {
      WeightOfCopies(u, fanout, dests[1..], m);
      var ps := Copies(dests, m);
      assert ps[1..] == Copies(dests[1..], m) && ps[0] == Packet(dests[0], m);
      var w := Power(fanout + 1, Rank(u, m));
      assert w + (|dests| - 1) * w == |dests| * w;
    }
  }

  lemma WeightWithout(u: set<PlaybackState>, fanout: nat, ps: seq<Packet>, i: nat)
    requires i < |ps|
    ensures Weight(u, fanout, ps[..i] + ps[i + 1..]) + Power(fanout + 1, Rank(u, ps[i].m)) == Weight(u, fanout, ps)
  {
    var one := [ps[i]];
    assert ps == ps[..i] + (one + ps[i + 1..]);
    WeightConcat(u, fanout, ps[..i], one + ps[i + 1..]);
    WeightConcat(u, fanout, one, ps[i + 1..]);
    WeightConcat(u, fanout, ps[..i], ps[i + 1..]);
    assert one[1..] == [] && Weight(u, fanout, one) == Power(fanout + 1, Rank(u, ps[i].m));
  }

  /** `fanout` copies of a strictly higher-ranked state weigh less than the state they answer. */
  lemma CopiesAreLighter(fanout: nat, copies: nat, low: nat, high: nat)
    requires copies <= fanout && low < high
    ensures copies * Power(fanout + 1, low) < Power(fanout + 1, high)
  {
    var p := Power(fanout + 1, low);
    PowerGrows(fanout + 1, low + 1, high);
    assert Power(fanout + 1, low + 1) == (fanout + 1) * p;
    assert copies * p <= fanout * p < (fanout + 1) * p;
  }

  lemma LocalStatesShrink(n: Network, fanout: nat, t: Turn)
    requires WellFormed(n) && Possible(n, fanout, t) && Quiet(n, t)
    ensures LocalStates(NetStep(n, fanout, t)) <= LocalStates(n)
  {
    StepSends(n.servers[Actor(n, t)], ActionOf(n, t));
  }

  /** A delivery lowers the weight, answers included; other quiet turns leave it. */
  lemma WeightDrops(n: Network, fanout: nat, t: Turn, u: set<PlaybackState>)
    requires WellFormed(n) && Possible(n, fanout, t) && Quiet(n, t)
    requires LocalStates(n) <= u && OnePerDevice(u)
    ensures Weight(u, fanout, NetStep(n, fanout, t).inFlight) + (if t.Receive? then 1 else 0)
            <= Weight(u, fanout, n.inFlight)
  {
    var s, a := n.servers[Actor(n, t)], ActionOf(n, t);
    var rest := Remaining(n, t);
    StepSends(s, a);
    if t.Receive? {
      WeightWithout(u, fanout, n.inFlight, t.i);
    }
    match Step(s, a).sent {
      case None =>
        assert NetStep(n, fanout, t).inFlight == rest;
      case Some(c) =>
        assert c in LocalStates(n);
        RankDrops(u, c, a.d.m);
        WeightConcat(u, fanout, rest, Copies(t.copies, c));
        WeightOfCopies(u, fanout, t.copies, c);
        CopiesAreLighter(fanout, |t.copies|, Rank(u, c), Rank(u, a.d.m));
    }
  }

  lemma LocalStatesPerDevice(n: Network)
    requires WellFormed(n)
    ensures OnePerDevice(LocalStates(n))
  {
  }

  lemma {:induction false} RunIsBounded(n: Network, fanout: nat, turns: seq<Turn>, u: set<PlaybackState>)
    requires WellFormed(n) && QuietRun(n, fanout, turns)
    requires LocalStates(n) <= u && OnePerDevice(u)
    ensures Deliveries(turns) <= Weight(u, fanout, n.inFlight)
    decreases |turns|
  {
    if turns != [] {
      var t := turns[0];
      NetStepWellFormed(n, fanout, t);
      LocalStatesShrink(n, fanout, t);
      WeightDrops(n, fanout, t, u);
      RunIsBounded(NetStep(n, fanout, t), fanout, turns[1..], u);
    }
  }

  /** Without new local events every exchange stops: the packets in flight bound the number of deliveries. */
  lemma ExchangeStops(n: Network, fanout: nat, turns: seq<Turn>)
    requires WellFormed(n) && QuietRun(n, fanout, turns)
    ensures Deliveries(turns) <= Weight(LocalStates(n), fanout, n.inFlight)
  {
    LocalStatesPerDevice(n);
    RunIsBounded(n, fanout, turns, LocalStates(n));
  }
}
