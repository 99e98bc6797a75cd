/**
 Where the replicated register keeps its promises and where it does not: for each side condition of
 `Convergence`, the exact inputs on which the outcome starts to depend on the order of delivery, on a wall
 clock, or on a failed attempt.
 */
module SyncLimits {
  import opened Basics
  import opened Precedence
  import opened SyncServer
  import opened Convergence

  /** An engine that does what it is told. */
  function Working(m: PlaybackState): Engine {
    Engine(true, Answer(true, true), Answer(true, true), true, m.payload)
  }

  function Receive(m: PlaybackState, at: int): Action {
    Deliver(Delivery(m, at, 0, true, Working(m)))
  }

  /** States received in this order, each projected at time `at` by a working engine. */
  function DeliverAll(ms: seq<PlaybackState>, at: int): seq<Action> {
    if ms == [] then [] else DeliverAll(ms[..|ms| - 1], at) + [Receive(ms[|ms| - 1], at)]
  }

  ghost function Final(s: Server, ms: seq<PlaybackState>, at: int): PlaybackState {
    Erase(Run(s, DeliverAll(ms, at)).current)
  }

  function Deliver1(s: Server, m: PlaybackState, at: int): Server {
    Apply(s, Delivery(m, at, 0, true, Working(m))).server
  }

  /** The same, one state at a time. */
  function AfterAll(s: Server, ms: seq<PlaybackState>, at: int): Server {
    if ms == [] then s else Deliver1(AfterAll(s, ms[..|ms| - 1], at), ms[|ms| - 1], at)
  }

  lemma {:induction false} RunIsAfterAll(s: Server, ms: seq<PlaybackState>, at: int)
    ensures Run(s, DeliverAll(ms, at)) == AfterAll(s, ms, at)
  {
    if ms != [] {
      RunIsAfterAll(s, ms[..|ms| - 1], at);
      var acts := DeliverAll(ms, at);
      assert acts[..|acts| - 1] == DeliverAll(ms[..|ms| - 1], at);
    }
  }

  function Deliver3(s: Server, a: PlaybackState, b: PlaybackState, c: PlaybackState, at: int): Server {
    Deliver1(Deliver1(Deliver1(s, a, at), b, at), c, at)
  }

  lemma AfterOne(s: Server, ms: seq<PlaybackState>, m: PlaybackState, at: int)
    ensures AfterAll(s, ms + [m], at) == Deliver1(AfterAll(s, ms, at), m, at)
  {
    assert (ms + [m])[..|ms|] == ms;
  }

  lemma FinalOfThree(s: Server, a: PlaybackState, b: PlaybackState, c: PlaybackState, at: int)
    ensures Final(s, [a, b, c], at) == Erase(Deliver3(s, a, b, c, at).current)
  {
    RunIsAfterAll(s, [a, b, c], at);
    var none: seq<PlaybackState> := [];
    AfterOne(s, none, a, at);
    AfterOne(s, none + [a], b, at);
    AfterOne(s, none + [a] + [b], c, at);
    assert none + [a] + [b] + [c] == [a, b, c];
  }

  /** A stamped state from a peer not heard before, not preceded by the current one, is taken over. */
  lemma Accepted(s: Server, m: PlaybackState, at: int)
    requires Stamped(m) && m.deviceId != Some(s.id)
    requires m.deviceId.value !in s.cursors && m.eventId.value !in s.processed
    requires !HasPrecedenceOver(s.current, m)
    ensures var t := Deliver1(s, m, at);
            && t.id == s.id && t.current == m.(updatedAt := at) && t.timeline == OriginOf(m, 0)
            && t.cursors.Keys <= s.cursors.Keys + {m.deviceId.value}
            && t.processed <= s.processed + {m.eventId.value}
  {
  }

  /** A stamped state preceded by the current one changes nothing but the clock. */
  lemma Refused(s: Server, m: PlaybackState, at: int)
    requires Stamped(m) && m.deviceId != Some(s.id) && HasPrecedenceOver(s.current, m)
    ensures var t := Deliver1(s, m, at);
            t.id == s.id && t.current == s.current && t.cursors == s.cursors && t.processed == s.processed
  {
  }

  /** A stamped state of a third device. */
  predicate ThirdParty(z: PlaybackState, x: PlaybackState, y: PlaybackState, id: string) {
    && Stamped(z) && z.lamport.value < LAMPORT_GUARD
    && z.deviceId != x.deviceId && z.deviceId != Some(id)
    && z.eventId != x.eventId && z.eventId != y.eventId
  }

  /** A later state `x` and an earlier state `y` of one remote device. */
  predicate Pair(x: PlaybackState, y: PlaybackState, id: string) {
    && Stamped(x) && x.lamport.value < LAMPORT_GUARD
    && Stamped(y) && y.lamport.value < LAMPORT_GUARD
    && x.deviceId == y.deviceId != Some(id)
    && Identified(Erase(x), Erase(y)) && x.eventId != y.eventId
    && HasPrecedenceOver(x, y)
  }

  /** With the later state first, its predecessor is dropped and the third party prevails. */
  lemma LaterFirst(s: Server, x: PlaybackState, y: PlaybackState, z: PlaybackState, at: int)
    requires Booted(s) && Pair(x, y, s.id) && ThirdParty(z, x, y, s.id) && HasPrecedenceOver(z, x)
    ensures Erase(Deliver3(s, x, y, z, at).current) == Erase(z)
  {
    var s1 := Deliver1(s, x, at);
    Accepted(s, x, at);
    SameProvenance(x, s1.current, y);
    var s2 := Deliver1(s1, y, at);
    Refused(s1, y, at);
    SameProvenance(x, s2.current, z);
    Accepted(s2, z, at);
  }

  /** With the third party first, the later state is refused and its predecessor prevails. */
  lemma ThirdFirst(s: Server, x: PlaybackState, y: PlaybackState, z: PlaybackState, at: int)
    requires Booted(s) && Pair(x, y, s.id) && ThirdParty(z, x, y, s.id)
    requires HasPrecedenceOver(z, x) && HasPrecedenceOver(y, z)
    ensures Erase(Deliver3(s, z, x, y, at).current) == Erase(y)
  {
    var s1 := Deliver1(s, z, at);
    Accepted(s, z, at);
    SameProvenance(z, s1.current, x);
    var s2 := Deliver1(s1, x, at);
    Refused(s1, x, at);
    SameProvenance(z, s2.current, y);
    Accepted(s2, y, at);
  }

  /** A projected copy stands to a state of other provenance as the state it copies, and one of two precedes. */
  lemma SameProvenance(m: PlaybackState, copy: PlaybackState, k: PlaybackState)
    requires Stamped(m) && Stamped(k) && Erase(copy) == Erase(m)
    requires Identified(Erase(m), Erase(k)) && Erase(m) != Erase(k)
    ensures HasPrecedenceOver(copy, k) == HasPrecedenceOver(m, k) == !HasPrecedenceOver(k, m)
  {
    TimeIrrelevant(m, k);
    TimeIrrelevant(copy, k);
  }

  /** A device name just above `dev`. */
  lemma {:induction false} SuffixIsLarger(dev: string)
    ensures StrLess(dev, dev + "~")
  {
    if dev != "" {
      SuffixIsLarger(dev[1..]);
      assert (dev + "~")[1..] == dev[1..] + "~";
    }
  }

  /** Some name above `dev` differs from `id`. */
  lemma LargerName(dev: string, id: string) returns (name: string)
    ensures name != "" && name != id && name != dev && StrLess(dev, name)
  {
    SuffixIsLarger(dev);
    name := dev + "~";
    if name == id {
      SuffixIsLarger(name);
      StrLessTransitive(dev, name, name + "~");
      name := name + "~";
    }
    StrLessTotal(dev, name);
  }

  function Someone(x: PlaybackState, y: PlaybackState, name: string): PlaybackState
    requires Stamped(x) && Stamped(y)
  {
    Erase(x).(deviceId := Some(name), eventId := Some(x.eventId.value + y.eventId.value + 1))
  }

  function Elements(ms: seq<PlaybackState>): set<PlaybackState> {
    set m | m in ms
  }

  lemma InvertedDiverges(s: Server, x: PlaybackState, y: PlaybackState, at: int) returns (z: PlaybackState)
    requires Booted(s) && Pair(x, y, s.id) && Inverted(StampOf(x), StampOf(y))
    ensures ThirdParty(z, x, y, s.id)
    ensures Final(s, [x, y, z], at) == Erase(z) && Final(s, [z, x, y], at) == Erase(y) && Erase(y) != Erase(z)
  {
    var name := LargerName(x.deviceId.value, s.id);
    z := Someone(x, y, name);
    assert HasPrecedenceOver(z, x) && HasPrecedenceOver(y, z);
    LaterFirst(s, x, y, z, at);
    FinalOfThree(s, x, y, z, at);
    ThirdFirst(s, x, y, z, at);
    FinalOfThree(s, z, x, y, at);
  }

  /**
   Two states of one device, with sequence numbers or without, are safe to circulate exactly when they are
   not inverted: if they are, one further state makes the outcome depend on the order of delivery; if not,
   no further state does, in any order and with any repetitions.
   */
  lemma DivergesIffInverted(s: Server, x: PlaybackState, y: PlaybackState, at: int)
    requires Booted(s) && Pair(x, y, s.id)
    ensures Inverted(StampOf(x), StampOf(y)) <==>
            exists z, ms, ns :: ThirdParty(z, x, y, s.id) && Elements(ms) == Elements(ns) == {x, y, z}
                                && Final(s, ms, at) != Final(s, ns, at)
  {
    if Inverted(StampOf(x), StampOf(y)) {
      var z := InvertedDiverges(s, x, y, at);
      var ms, ns := [x, y, z], [z, x, y];
      assert Elements(ms) == Elements(ns) == {x, y, z};
      assert Final(s, ms, at) != Final(s, ns, at);
    } else {
      forall z, ms, ns | ThirdParty(z, x, y, s.id) && Elements(ms) == Elements(ns) == {x, y, z}
        ensures Final(s, ms, at) == Final(s, ns, at)
      {
        SafeOrders(s, x, y, z, ms, ns, at);
      }
    }
  }

  lemma {:induction false} DeliverAllLegal(s: Server, ms: seq<PlaybackState>, at: int, remote: set<PlaybackState>)
    requires forall m :: m in ms ==> Stamped(m) && m.lamport.value < LAMPORT_GUARD
                                     && Erase(m) in remote && m.deviceId != Some(s.id)
    ensures Legal(s, DeliverAll(ms, at), remote) && !Displaced(s, DeliverAll(ms, at))
    ensures Observed(s, DeliverAll(ms, at)) == set m | m in ms :: Erase(m)
    ensures Run(s, DeliverAll(ms, at)).id == s.id
  {
    if ms != [] {
      var front, m := ms[..|ms| - 1], ms[|ms| - 1];
      assert ms == front + [m];
      DeliverAllLegal(s, front, at, remote);
      var acts := DeliverAll(ms, at);
      assert acts[..|acts| - 1] == DeliverAll(front, at) && acts[|acts| - 1] == Receive(m, at);
      assert Admissible(Run(s, DeliverAll(front, at)), Observed(s, DeliverAll(front, at)), remote, Receive(m, at));
    }
  }

  lemma SafeTriple(x: PlaybackState, y: PlaybackState, z: PlaybackState, id: string)
    requires Pair(x, y, id) && ThirdParty(z, x, y, id) && !Inverted(StampOf(x), StampOf(y))
    ensures RemoteStates(id, {Erase(x), Erase(y), Erase(z)})
  {
    Trichotomy(StampOf(x), StampOf(y));
    TimeIrrelevant(x, y);
  }

  lemma SafeOrders(s: Server, x: PlaybackState, y: PlaybackState, z: PlaybackState, ms: seq<PlaybackState>,
                   ns: seq<PlaybackState>, at: int)
    requires Booted(s) && Pair(x, y, s.id) && ThirdParty(z, x, y, s.id)
    requires !Inverted(StampOf(x), StampOf(y)) && Elements(ms) == Elements(ns) == {x, y, z}
    ensures Final(s, ms, at) == Final(s, ns, at)
  {
    var remote := {Erase(x), Erase(y), Erase(z)};
    assert forall m :: m in ms <==> m in Elements(ms);
    assert forall n :: n in ns <==> n in Elements(ns);
    SafeTriple(x, y, z, s.id);
    DeliverAllLegal(s, ms, at, remote);
    DeliverAllLegal(s, ns, at, remote);
    assert x in ms && (set m | m in ms :: Erase(m)) == (set n | n in ns :: Erase(n));
    ReplicasConverge(s, DeliverAll(ms, at), remote, s, DeliverAll(ns, at), remote);
  }

  /** Neither clock nor epoch tells the two states apart, so precedence reads the wall-clock times. */
  predicate WallClockDecides(a: PlaybackState, b: PlaybackState) {
    a.lamport.GetOr(0) == b.lamport.GetOr(0) == 0 && a.epoch.GetOr(0) == b.epoch.GetOr(0)
  }

  /** What the replica shows after taking over `m` at time `at`: a state without a device id gets a name. */
  function Taken(m: PlaybackState, at: int): PlaybackState {
    m.(updatedAt := at, deviceId := Some(m.deviceId.GetOr(UNNAMED_PEER)), eventId := Some(m.eventId.GetOr(0)))
  }

  lemma TakenFirst(s: Server, a: PlaybackState, at: int)
    requires Booted(s) && a.deviceId != Some(s.id) && !HasPrecedenceOver(s.current, a)
    ensures var t := Deliver1(s, a, at);
            && t.id == s.id && t.current == Taken(a, at)
            && (forall dev :: dev in t.cursors ==> a.deviceId == Some(dev))
            && t.processed == if a.eventId.Some? then {a.eventId.value} else {}
  {
  }

  lemma TakenSecond(t: Server, b: PlaybackState, at: int)
    requires b.deviceId != Some(t.id) && (b.deviceId.Some? ==> b.deviceId.value !in t.cursors)
    requires b.eventId.Some? ==> b.eventId.value !in t.processed
    ensures Deliver1(t, b, at).current == if HasPrecedenceOver(t.current, b) then t.current else Taken(b, at)
  {
  }

  /** Two states, neither an echo nor a duplicate of the other, that a booted server would take over. */
  predicate Contenders(s: Server, a: PlaybackState, b: PlaybackState, at: int) {
    && Booted(s) && a.deviceId != Some(s.id) && b.deviceId != Some(s.id)
    && (a.deviceId.Some? ==> a.deviceId != b.deviceId)
    && (a.eventId.Some? ==> a.eventId != b.eventId)
    && a.updatedAt < at && b.updatedAt < at
    && !HasPrecedenceOver(s.current, a) && !HasPrecedenceOver(s.current, b)
  }

  function Resolved(s: Server, a: PlaybackState, b: PlaybackState, at: int): PlaybackState {
    Deliver1(Deliver1(s, a, at), b, at).current
  }

  lemma ResolvedBy(s: Server, a: PlaybackState, b: PlaybackState, at: int)
    requires Contenders(s, a, b, at)
    ensures Resolved(s, a, b, at) == if HasPrecedenceOver(Taken(a, at), b) then Taken(a, at) else Taken(b, at)
  {
    TakenFirst(s, a, at);
    TakenSecond(Deliver1(s, a, at), b, at);
  }

  /**
   A projection replaces the sender's time by the receiver's. Two states of different named devices,
   received after both were sent, are resolved in favour of whichever comes first exactly when precedence
   between them reads the wall clock; otherwise both orders have the same winner.
   */
  lemma FirstReceivedWinsIff(s: Server, a: PlaybackState, b: PlaybackState, at: int)
    requires Contenders(s, a, b, at) && a.deviceId.Some? && b.deviceId.Some?
    ensures var ab, ba := Resolved(s, a, b, at), Resolved(s, b, a, at);
            && (WallClockDecides(a, b) <==> ab == Taken(a, at) && ba == Taken(b, at))
            && (!WallClockDecides(a, b) ==> ab == ba)
  {
    ResolvedBy(s, a, b, at);
    ResolvedBy(s, b, a, at);
    StrLessTotal(a.deviceId.value, b.deviceId.value);
  }

  /** Clocks, or epochs where there are no clocks, do not tell the two states apart. */
  predicate Tied(a: PlaybackState, b: PlaybackState) {
    a.lamport.GetOr(0) == b.lamport.GetOr(0) && (a.lamport.GetOr(0) > 0 || a.epoch.GetOr(0) == b.epoch.GetOr(0))
  }

  /**
   A projection also gives a state without a device id a name, which raises its rank. Against a named
   device the first received wins exactly when they are tied and, where there are clocks, that device's
   name is below the given one.
   */
  lemma UnnamedFirstReceivedWinsIff(s: Server, a: PlaybackState, b: PlaybackState, at: int)
    requires Contenders(s, a, b, at) && a.deviceId.None?
    requires b.deviceId.Some? && b.deviceId.value != "" && b.deviceId.value != UNNAMED_PEER
    ensures var ab, ba := Resolved(s, a, b, at), Resolved(s, b, a, at);
            var decides := Tied(a, b) && (a.lamport.GetOr(0) > 0 ==> StrLess(b.deviceId.value, UNNAMED_PEER));
            && (decides <==> ab == Taken(a, at) && ba == Taken(b, at))
            && (!decides ==> ab == ba)
  {
    ResolvedBy(s, a, b, at);
    ResolvedBy(s, b, a, at);
    StrLessTotal(b.deviceId.value, UNNAMED_PEER);
  }

  /** Of two states without a device id the first received wins exactly when they are tied. */
  lemma BothUnnamedFirstReceivedWinsIff(s: Server, a: PlaybackState, b: PlaybackState, at: int)
    requires Contenders(s, a, b, at) && a.deviceId.None? && b.deviceId.None?
    ensures var ab, ba := Resolved(s, a, b, at), Resolved(s, b, a, at);
            && (Tied(a, b) ==> ab == Taken(a, at) && ba == Taken(b, at))
            && (!Tied(a, b) ==> ab == ba)
  {
    ResolvedBy(s, a, b, at);
    ResolvedBy(s, b, a, at);
    assert StrLess("", UNNAMED_PEER);
  }

  /** Position, then clock: what the comparison of two states of one device reads before the time. */
  predicate NoLater(b: PlaybackState, a: PlaybackState) {
    if b.epoch.GetOr(0) != a.epoch.GetOr(0) then b.epoch.GetOr(0) < a.epoch.GetOr(0)
    else if b.sequence.GetOr(0) != a.sequence.GetOr(0) then b.sequence.GetOr(0) < a.sequence.GetOr(0)
    else b.lamport.GetOr(0) <= a.lamport.GetOr(0)
  }

  /** Clock first, then epoch, which only counts without clocks if a `name` stands against none. */
  predicate NoHigher(b: PlaybackState, a: PlaybackState, name: bool) {
    || b.lamport.GetOr(0) < a.lamport.GetOr(0)
    || (b.lamport.GetOr(0) == a.lamport.GetOr(0)
        && ((name && a.lamport.GetOr(0) > 0) || b.epoch.GetOr(0) <= a.epoch.GetOr(0)))
  }

  /**
   Against a device that goes by the given name itself, or has an empty one, the two orders are judged by
   different rules. Each is given; the outcome depends on the order of arrival exactly when both keep the
   first state or neither does.
   */
  lemma UnnamedAgainstOddNameIff(s: Server, a: PlaybackState, b: PlaybackState, at: int)
    requires Contenders(s, a, b, at) && a.deviceId.None? && Taken(a, at) != Taken(b, at)
    requires b.deviceId == Some(UNNAMED_PEER) || b.deviceId == Some("")
    ensures var ab, ba := Resolved(s, a, b, at), Resolved(s, b, a, at);
            var given := b.deviceId == Some(UNNAMED_PEER);
            var keepsA := if given then NoLater(b, a) else NoHigher(b, a, true);
            var keepsB := NoHigher(a, b, given);
            && (ab == Taken(a, at) <==> keepsA) && (ba == Taken(b, at) <==> keepsB)
            && (ab != ba <==> keepsA == keepsB)
  {
    ResolvedBy(s, a, b, at);
    ResolvedBy(s, b, a, at);
    var given := b.deviceId == Some(UNNAMED_PEER);
    assert StrLess("", UNNAMED_PEER) && !StrLess("", "");
    assert HasPrecedenceOver(Taken(a, at), b) <==> if given then NoLater(b, a) else NoHigher(b, a, true);
    assert HasPrecedenceOver(Taken(b, at), a) <==> NoHigher(a, b, given);
  }

  /** The failing input: equal running clocks, so the wall clock is never read, yet the first received wins. */
  lemma UnnamedExample(s: Server, content: Payload, initial: int)
    requires s == Server("zz", 1, 1, 0, 0, PlaybackState(content, initial, None, None, None, None, None, None), Local,
                         map[], {})
    ensures var a := PlaybackState(content, 0, None, Some(1), None, None, None, Some(5));
            var b := a.(deviceId := Some("alpha"), eventId := Some(2));
            && !WallClockDecides(a, b) && Resolved(s, a, b, 10).deviceId == Some("remote_peer")
            && Resolved(s, a, b, 10) == Taken(a, 10) && Resolved(s, b, a, 10) == Taken(b, 10)
  {
    var a := PlaybackState(content, 0, None, Some(1), None, None, None, Some(5));
    var b := a.(deviceId := Some("alpha"), eventId := Some(2));
    assert StrLess("alpha", UNNAMED_PEER);
    assert Contenders(s, a, b, 10);
    UnnamedFirstReceivedWinsIff(s, a, b, 10);
  }

  lemma AttemptedIff(s: Server, d: Delivery)
    ensures Apply(s, d).outcome.Attempted? <==>
            d.enabled && Unfiltered(s, d.m) && !HasPrecedenceOver(s.current, d.m)
    ensures Apply(s, d).outcome == Attempted(false) ==>
              var t := Apply(s, d).server;
              && t.id == s.id && t.cursors == s.cursors && t.processed == s.processed
              && t.current == (if d.engine.Emits() then Projection(d.m, d.engine.shown, d.at, d.newId) else s.current)
              && (d.engine.reached ==> t.timeline == OriginOf(d.m, d.newId))
  {
  }

  /** What a projection of `m` leaves in the register. */
  function Projection(m: PlaybackState, shown: Payload, at: int, newId: nat): PlaybackState {
    m.(payload := shown, updatedAt := at, deviceId := Some(m.deviceId.GetOr(UNNAMED_PEER)),
       eventId := Some(m.eventId.GetOr(newId)))
  }

  /** A projection at time `at` does not stand in the way of the state it projects. */
  predicate LeavesRoom(m: PlaybackState, at: int) {
    if m.deviceId.Some? then at <= m.updatedAt else m.lamport.GetOr(0) == 0 && at < m.updatedAt
  }

  lemma ProjectionPrecedesIff(m: PlaybackState, shown: Payload, at: int, newId: nat)
    ensures HasPrecedenceOver(Projection(m, shown, at, newId), m) <==> !LeavesRoom(m, at)
  {
    StrLessTotal(m.deviceId.GetOr(""), m.deviceId.GetOr(""));
    assert StrLess("", UNNAMED_PEER);
  }

  /**
   A failed application is not recorded, so that the sender may retry it. The retry reaches the engine
   exactly when the attempt emitted no event, or its projection leaves room: no newer than the state, and
   if the state has no device id, older than it and without a clock.
   */
  lemma RetryReachesEngineIff(s: Server, d: Delivery, again: Delivery)
    requires Apply(s, d).outcome == Attempted(false) && again.m == d.m && again.enabled
    ensures Apply(Apply(s, d).server, again).outcome.Attempted? <==> !d.engine.Emits() || LeavesRoom(d.m, d.at)
  {
    AttemptedIff(s, d);
    AttemptedIff(Apply(s, d).server, again);
    ProjectionPrecedesIff(d.m, d.engine.shown, d.at, d.newId);
  }

  /** Once the first command has reached the engine, the next tick has the same effect as an emitted event. */
  lemma RetryAfterTickIff(s: Server, d: Delivery, tick: Action, again: Delivery)
    requires Apply(s, d).outcome == Attempted(false) && d.engine.reached && tick.Tick?
    requires again.m == d.m && again.enabled
    ensures Apply(Step(Apply(s, d).server, tick).server, again).outcome.Attempted? <==> LeavesRoom(d.m, tick.at)
  {
    var t := Apply(s, d).server;
    AttemptedIff(s, d);
    TickProjects(t, tick, d.m, d.newId);
    AttemptedIff(Step(t, tick).server, again);
    ProjectionPrecedesIff(d.m, tick.payload, tick.at, d.newId);
  }

  lemma TickProjects(t: Server, tick: Action, m: PlaybackState, newId: nat)
    requires tick.Tick? && t.timeline == OriginOf(m, newId)
    ensures Step(t, tick).server == t.(current := Projection(m, tick.payload, tick.at, newId))
  {
  }

  /**
   A clock reading at or above the guard is not observed but its state is still applied: the next local
   command outranks the state it replaces exactly when the reading was below the guard or the local clock
   was not behind it anyway.
   */
  lemma LocalOutranksIff(s: Server, m: PlaybackState, at: int, next: Action)
    requires Stamped(m) && s.id != "" && next.Command? && next.event.Some? && s.lamport < U64_MAX - 2
    requires Unfiltered(s, m) && !HasPrecedenceOver(s.current, m)
    ensures var t := Deliver1(s, m, at);
            && t.current == m.(updatedAt := at)
            && (HasPrecedenceOver(Step(t, next).server.current, t.current) <==>
                  || m.lamport.value < LAMPORT_GUARD
                  || m.lamport.value <= s.lamport
                  || (m.lamport.value == s.lamport + 1 && StrLess(m.deviceId.value, s.id)))
  {
    StrLessTotal(m.deviceId.value, s.id);
  }

  /**
   A winning local state is sent again to help a peer that is behind, but not to one whose state was applied
   here before: that state meets the event-id set first and gets no answer.
   */
  lemma AppliedGetsNoAnswer(s: Server, m: PlaybackState, at: int, command: Action, again: Delivery)
    requires Booted(s) && s.lamport < LAMPORT_GUARD && command.Command? && command.event.Some?
    requires Stamped(m) && m.lamport.value < LAMPORT_GUARD && m.deviceId != Some(s.id) && again.m == m
    ensures var t := Step(Deliver1(s, m, at), command).server;
            t.current.deviceId == Some(s.id) && HasPrecedenceOver(t.current, m) && Apply(t, again).sent == None
  {
    Accepted(s, m, at);
  }

  /** The replica after receiving `m`, changing the volume, and the next position checkpoint. */
  function Reverted(s: Server, m: PlaybackState, volume: Action, tick: Action, at: int): Server {
    Step(Step(Deliver1(s, m, at), volume).server, tick).server
  }

  /**
   A checkpoint on a peer's timeline undoes a local command that kept that timeline. Server `s` receives
   `m`, changes its volume (stamped `n` and sent to `t`) and plays on: it is back on `m` while `t` holds
   `n`. A state `z` between the two is then taken over by `s` and refused by `t`.
   */
  lemma CheckpointReverts(s: Server, t: Server, m: PlaybackState, volume: Action, tick: Action, z: PlaybackState, at: int)
    requires Booted(s) && Booted(t) && s.id != t.id && s.lamport < LAMPORT_GUARD
    requires Stamped(m) && m.lamport.value < LAMPORT_GUARD && m.deviceId != Some(s.id) && m.deviceId != Some(t.id)
    requires volume.Command? && !volume.sets && volume.event.Some? && m.eventId != Some(volume.newId) && tick.Tick?
    requires var n := Step(Deliver1(s, m, at), volume).server.current;
             && Stamped(z) && z.deviceId != m.deviceId && z.deviceId != n.deviceId && z.deviceId != Some(t.id)
             && z.eventId != m.eventId && z.eventId != n.eventId
             && HasPrecedenceOver(n, z) && HasPrecedenceOver(z, m)
    ensures var n := Step(Deliver1(s, m, at), volume).server.current;
            var s' := Reverted(s, m, volume, tick, at);
            var t' := Deliver1(Deliver1(t, m, at), n, at);
            && Erase(s'.current) == Erase(m) && Erase(t'.current) == Erase(n)
            && HasPrecedenceOver(n, s'.current)
            && Erase(Deliver1(s', z, at).current) == Erase(z)
            && Erase(Deliver1(t', z, at).current) == Erase(n)
  {
    var s1, t1 := Deliver1(s, m, at), Deliver1(t, m, at);
    Accepted(s, m, at);
    Accepted(t, m, at);
    var s2 := Step(s1, volume).server;
    var n := s2.current;
    assert m.lamport.value < n.lamport.value;
    Accepted(t1, n, at);
    var t', s' := Deliver1(t1, n, at), Step(s2, tick).server;
    assert Erase(s'.current) == Erase(m);
    OtherDevices(m, z, s'.current);
    OtherDevices(n, z, t'.current);
    Accepted(s', z, at);
    Refused(t', z, at);
  }

  /** Between stamped states of different devices only provenance counts. */
  lemma OtherDevices(m: PlaybackState, z: PlaybackState, copy: PlaybackState)
    requires Stamped(m) && Stamped(z) && m.deviceId != z.deviceId && Erase(copy) == Erase(m)
    ensures HasPrecedenceOver(copy, z) == HasPrecedenceOver(m, z) == !HasPrecedenceOver(z, m)
  {
    StrLessTotal(m.deviceId.value, z.deviceId.value);
  }

  /**
   Echo suppression goes by device id alone, so a server that has restarted drops its own earlier states:
   two servers that have just booted agree on a state they both receive exactly when neither of them is
   the device it came from.
   */
  lemma BootedServersAgreeIff(s: Server, t: Server, m: PlaybackState, at: int)
    requires Booted(s) && Booted(t) && s.id != t.id && Stamped(m)
    ensures Erase(Deliver1(s, m, at).current) == Erase(Deliver1(t, m, at).current)
            <==> m.deviceId != Some(s.id) && m.deviceId != Some(t.id)
  {
    if m.deviceId != Some(s.id) {
      Accepted(s, m, at);
    }
    if m.deviceId != Some(t.id) {
      Accepted(t, m, at);
    }
  }

  /** The state that the direct playback-state route broadcasts: a fresh clock reading but no sequence. */
  function UnsequencedState(s: Server, payload: Payload, at: int, newId: nat): PlaybackState {
    PlaybackState(payload, at, Some(s.id), Some(newId), None, Some(s.epoch), Some(s.bootId),
                  Some(SaturatingAdd(s.lamport, 1)))
  }

  /** That route breaks the order: its state is inverted against any state the same boot stamped before. */
  lemma UnsequencedStateInverts(s: Server, payload: Payload, at: int, newId: nat)
    requires s.id != "" && s.lamport < U64_MAX
    requires s.current.deviceId == Some(s.id) && s.current.epoch == Some(s.epoch)
    requires s.current.sequence.GetOr(0) > 0 && s.current.lamport.GetOr(0) <= s.lamport
    ensures Inverted(StampOf(s.current), StampOf(UnsequencedState(s, payload, at, newId)))
  {
  }

  /** So a third device's state can make any other replica's outcome depend on the order of delivery. */
  lemma DirectRouteDiverges(o: Server, payload: Payload, at: int, newId: nat, r: Server)
    requires o.id != "" && Stamped(o.current) && o.current.deviceId == Some(o.id) && o.current.epoch == Some(o.epoch)
    requires o.current.sequence.GetOr(0) > 0 && o.current.lamport.value <= o.lamport && o.lamport + 1 < LAMPORT_GUARD
    requires Booted(r) && r.id != o.id && o.current.eventId != Some(newId)
    ensures var x, y := o.current, UnsequencedState(o, payload, at, newId);
            exists z, ms, ns :: ThirdParty(z, x, y, r.id) && Elements(ms) == Elements(ns) == {x, y, z}
                                && Final(r, ms, at) != Final(r, ns, at)
  {
    UnsequencedStateInverts(o, payload, at, newId);
    DivergesIffInverted(r, o.current, UnsequencedState(o, payload, at, newId), at);
  }
}
