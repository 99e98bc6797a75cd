/**
 Runs of one replica: any interleaving of local commands, engine events of its own accord, reconciled
 snapshots and received states, with duplicates, echoes and reordering. The highest state observed is the
 one a plain maximum would keep. The register holds it exactly as long as no event on a peer's timeline
 puts that peer's older state back over a newer local one.
 */
module Convergence {
  import opened Basics
  import opened Precedence
  import opened SyncServer

  /** A tick is an engine event that no command caused, or a snapshot reconciled after lost events. */
  datatype Action =
    | Deliver(d: Delivery)
    | Command(sets: bool, event: Option<Payload>, at: int, newId: nat)
    | Tick(payload: Payload, at: int, newId: nat)

  function Step(s: Server, a: Action): Effect {
    match a
    case Deliver(d) => Apply(s, d)
    case Command(sets, event, at, newId) => Issue(s, sets, event, at, newId)
    case Tick(payload, at, newId) => Project(s, s.timeline, payload, at, newId)
  }

  function Run(s: Server, acts: seq<Action>): Server {
    if acts == [] then s else Step(Run(s, acts[..|acts| - 1]), acts[|acts| - 1]).server
  }

  /** The action stamps a new local state. */
  predicate Stamps(s: Server, a: Action) {
    (a.Command? && a.event.Some?) || (a.Tick? && s.timeline.Local?)
  }

  const NO_PAYLOAD := Payload(None, 0, false, 0, Modes(false, "off"))

  /** The provenance of a state: what is left without payload and time, which every projection overwrites. */
  function Erase(s: PlaybackState): PlaybackState {
    s.(payload := NO_PAYLOAD, updatedAt := 0)
  }

  /** The provenance that an event of a remote origin leaves in the register. */
  function Provenance(o: CommandOrigin): PlaybackState
    requires o.Remote?
  {
    PlaybackState(NO_PAYLOAD, 0, Some(o.originDeviceId), Some(o.eventId), o.sequence, o.epoch, o.bootId, o.lamport)
  }

  predicate IsEcho(s: Server, a: Action) {
    a.Deliver? && a.d.m.deviceId == Some(s.id)
  }

  /** The state an action brings, if any: the one received from another device, or the one stamped. */
  function SeenBy(s: Server, a: Action): set<PlaybackState> {
    if IsEcho(s, a) then {}
    else if a.Deliver? then {Erase(a.d.m)}
    else if Stamps(s, a) then {Erase(Step(s, a).server.current)}
    else {}
  }

  /** The states a run has received from other devices or stamped; echoes, of this boot or an earlier one, bring nothing. */
  function Observed(s: Server, acts: seq<Action>): set<PlaybackState> {
    if acts == [] then {} else
    var before, a := acts[..|acts| - 1], acts[|acts| - 1];
    Observed(s, before) + SeenBy(Run(s, before), a)
  }

  /** One action on a plain register without filters, which keeps whatever precedes. */
  function Higher(top: PlaybackState, s: Server, a: Action): PlaybackState {
    if IsEcho(s, a) then top
    else if a.Deliver? then if HasPrecedenceOver(top, Erase(a.d.m)) then top else Erase(a.d.m)
    else if Stamps(s, a) then Erase(Step(s, a).server.current)
    else top
  }

  /** What a plain register would hold after the run. */
  function Highest(s: Server, acts: seq<Action>): PlaybackState {
    if acts == [] then Erase(s.current) else
    var before, a := acts[..|acts| - 1], acts[|acts| - 1];
    Higher(Highest(s, before), Run(s, before), a)
  }

  /** The timeline is a peer's, yet the register shows a state of this server: the next tick will revert it. */
  predicate Overtaken(s: Server) {
    s.timeline.Remote? && s.current.deviceId == Some(s.id)
  }

  /** One action's effect on whether the register lags behind: only a tick on an overtaken timeline makes it. */
  predicate Lags(lagging: bool, top: PlaybackState, s: Server, a: Action) {
    match a
    case Deliver(d) => lagging && Higher(top, s, a) == top
    case Command(_, event, _, _) => lagging && event.None?
    case Tick(_, _, _) => s.timeline.Remote? && (lagging || Overtaken(s))
  }

  /** A tick has reverted the register, and neither a local event nor a state above all others came since. */
  predicate Displaced(s: Server, acts: seq<Action>) {
    acts != [] &&
    var before, a := acts[..|acts| - 1], acts[|acts| - 1];
    Lags(Displaced(s, before), Highest(s, before), Run(s, before), a)
  }

  /** A state that carries a Lamport clock: named device, event id and running clock. */
  predicate Stamped(m: PlaybackState) {
    && m.deviceId.Some? && m.deviceId.value != ""
    && m.eventId.Some? && m.lamport.Some? && m.lamport.value > 0
  }

  predicate SamePlace(a: PlaybackState, b: PlaybackState) {
    && a.deviceId == b.deviceId && a.epoch.GetOr(0) == b.epoch.GetOr(0)
    && a.sequence == b.sequence && a.sequence.Some?
  }

  /** Provenance identifies a state: by its stamp, by its place in the sequence, and by its event id. */
  predicate Identified(a: PlaybackState, b: PlaybackState) {
    && (StampOf(a) == StampOf(b) ==> a == b)
    && (SamePlace(a, b) ==> a == b)
    && (a.eventId == b.eventId ==> a == b)
  }

  ghost predicate Coherent(states: set<PlaybackState>) {
    && (forall a :: a in states ==> Stamped(a) && Erase(a) == a)
    && (forall a, b :: a in states && b in states ==>
          Identified(a, b) && !Inverted(StampOf(a), StampOf(b)))
  }

  predicate Blank(m: PlaybackState) {
    m.deviceId == None && m.lamport.GetOr(0) == 0
  }

  /** A replica that has just booted: nothing seen, nothing stamped. */
  predicate Booted(s: Server) {
    && s.id != "" && Blank(s.current) && s.timeline == Local
    && s.cursors == map[] && s.processed == {} && s.localSequence == 0
  }

  /** What one action must satisfy after `seen`: the engine works, clocks are below their guards, ids are new. */
  ghost predicate Admissible(s: Server, seen: set<PlaybackState>, remote: set<PlaybackState>, a: Action) {
    if IsEcho(s, a) then true
    else if a.Deliver? then
      && a.d.enabled && a.d.engine.AllApplied() && Stamped(a.d.m) && a.d.m.lamport.value < LAMPORT_GUARD
      && Erase(a.d.m) in remote
    else Stamps(s, a) ==>
      s.lamport < U64_MAX && forall k :: k in seen + remote ==> k.eventId != Some(a.newId)
  }

  ghost predicate Legal(s: Server, acts: seq<Action>, remote: set<PlaybackState>) {
    acts == [] ||
    var before := acts[..|acts| - 1];
    && Legal(s, before, remote)
    && Admissible(Run(s, before), Observed(s, before), remote, acts[|acts| - 1])
  }

  /** The states of other devices that reach the replica. */
  ghost predicate RemoteStates(id: string, remote: set<PlaybackState>) {
    Coherent(remote) && forall r :: r in remote ==> r.deviceId != Some(id)
  }

  /** The replica's bookkeeping speaks of observed states only, and its clock is not behind them. */
  ghost predicate Accounted(s: Server, seen: set<PlaybackState>, remote: set<PlaybackState>) {
    && s.id != "" && Coherent(seen)
    && (forall k :: k in seen ==>
          && k.lamport.value <= s.lamport
          && (if k.deviceId == Some(s.id)
              then k.epoch == Some(s.epoch) && k.sequence.GetOr(0) <= s.localSequence
                   && forall r :: r in remote ==> r.eventId != k.eventId
              else k in remote))
    && (forall dev :: dev in s.cursors ==> exists k :: k in seen && RecordedAs(k, dev, s.cursors[dev]))
    && (forall e :: e in s.processed ==> exists k :: k in seen && k.eventId == Some(e))
  }

  predicate RecordedAs(k: PlaybackState, dev: string, c: PeerCursor) {
    k.deviceId == Some(dev) && k.epoch.GetOr(0) == c.epoch && k.sequence == Some(c.sequence)
  }

  /** Where register and timeline stand relative to the highest state. */
  ghost predicate Placed(s: Server, seen: set<PlaybackState>, top: PlaybackState, lagging: bool) {
    if seen == {} then Blank(s.current) && s.timeline == Local && top == Erase(s.current) && !lagging
    else
      && IsMaximum(top, seen) && Erase(s.current) in seen
      && (lagging <==> Erase(s.current) != top)
      && (lagging ==> top.deviceId == Some(s.id))
      && (s.timeline.Remote? ==>
            && Provenance(s.timeline) in seen && s.timeline.originDeviceId != s.id
            && (top == Provenance(s.timeline) || top.deviceId == Some(s.id)))
  }

  ghost predicate Tracks(s: Server, seen: set<PlaybackState>, remote: set<PlaybackState>, top: PlaybackState,
                         lagging: bool)
  {
    Accounted(s, seen, remote) && Placed(s, seen, top, lagging)
  }

  /** Between identified stamped states, precedence never reads the wall clock. */
  lemma TimeIrrelevant(a: PlaybackState, b: PlaybackState)
    requires Stamped(a) && Stamped(b) && Identified(Erase(a), Erase(b)) && Erase(a) != Erase(b)
    ensures HasPrecedenceOver(a, b) == HasPrecedenceOver(Erase(a), Erase(b))
    ensures HasPrecedenceOver(a, b) != HasPrecedenceOver(b, a)
  {
    StrLessTotal(a.deviceId.value, b.deviceId.value);
  }

  lemma PrecedenceTransitive(states: set<PlaybackState>, a: PlaybackState, b: PlaybackState, c: PlaybackState)
    requires Coherent(states) && a in states && b in states && c in states
    requires HasPrecedenceOver(a, b) && HasPrecedenceOver(b, c)
    ensures HasPrecedenceOver(a, c)
  {
    Transitive(StampOf(a), StampOf(b), StampOf(c));
  }

  lemma CoherentIsOrderly(states: set<PlaybackState>)
    requires Coherent(states)
    ensures Orderly(states)
  {
  }

  /** Two states that can stand side by side. */
  predicate Compatible(a: PlaybackState, b: PlaybackState) {
    && Identified(a, b) && Identified(b, a)
    && !Inverted(StampOf(a), StampOf(b)) && !Inverted(StampOf(b), StampOf(a))
  }

  lemma CoherentExtended(seen: set<PlaybackState>, m: PlaybackState)
    requires Coherent(seen) && Stamped(m) && Erase(m) == m
    requires forall k :: k in seen ==> Compatible(k, m)
    ensures Coherent(seen + {m})
  {
  }

  lemma CoherentWithRemote(s: Server, m: PlaybackState, seen: set<PlaybackState>, remote: set<PlaybackState>)
    requires Accounted(s, seen, remote) && RemoteStates(s.id, remote) && m in remote
    ensures Coherent(seen + {m})
  {
    forall k | k in seen
      ensures Compatible(k, m)
    {
      if k.deviceId != Some(s.id) {
        assert k in remote;
      }
    }
    CoherentExtended(seen, m);
  }

  /** A received state that a filter drops is at or below one observed before. */
  lemma FilteredIsBelow(s: Server, m: PlaybackState, seen: set<PlaybackState>, remote: set<PlaybackState>,
                        top: PlaybackState)
    requires Accounted(s, seen, remote) && RemoteStates(s.id, remote)
    requires Stamped(m) && Erase(m) in remote
    requires m.eventId.value in s.processed || IsStale(s, m)
    ensures exists k :: k in seen && (k == Erase(m) || HasPrecedenceOver(k, Erase(m)))
    ensures IsMaximum(top, seen) ==> top == Erase(m) || HasPrecedenceOver(top, Erase(m))
  {
    var e := Erase(m);
    CoherentWithRemote(s, e, seen, remote);
    var k: PlaybackState;
    if m.eventId.value in s.processed {
      k :| k in seen && k.eventId == m.eventId;
      assert Identified(k, e);
    } else {
      k :| k in seen && RecordedAs(k, m.deviceId.value, s.cursors[m.deviceId.value]);
      assert Identified(k, e);
    }
    assert k == e || HasPrecedenceOver(k, e);
    if IsMaximum(top, seen) && k != e && k != top {
      PrecedenceTransitive(seen + {e}, top, k, e);
    }
  }

  /** The plain register moves to the maximum of what is then observed. */
  lemma HigherIsMaximum(seen: set<PlaybackState>, top: PlaybackState, m: PlaybackState)
    requires Coherent(seen + {m}) && (if seen == {} then Blank(top) else IsMaximum(top, seen))
    ensures IsMaximum(if HasPrecedenceOver(top, m) then top else m, seen + {m})
  {
    CoherentIsOrderly(seen + {m});
    if seen != {} && !HasPrecedenceOver(top, m) {
      MaximumReplaced(top, m, seen);
    }
  }

  /** What a delivery does to the register, by where the state stands relative to the current one. */
  lemma Accepts(s: Server, d: Delivery)
    requires d.enabled && d.engine.AllApplied() && Stamped(d.m) && d.m.deviceId != Some(s.id)
    ensures var t := Apply(s, d).server;
            if d.m.eventId.value in s.processed || IsStale(s, d.m) || HasPrecedenceOver(s.current, d.m)
            then t.current == s.current && t.timeline == s.timeline
            else Erase(t.current) == Erase(d.m) && t.timeline.Remote? && Provenance(t.timeline) == Erase(d.m)
  {
  }

  /** A state taken over is the new maximum, unless the register lagged behind a local state. */
  lemma TakenIsHighest(s: Server, m: PlaybackState, seen: set<PlaybackState>, top: PlaybackState, lagging: bool)
    requires Placed(s, seen, top, lagging) && Coherent(seen + {Erase(m)}) && Stamped(m) && m.deviceId != Some(s.id)
    ensures !HasPrecedenceOver(s.current, m) ==>
              if HasPrecedenceOver(top, Erase(m)) then lagging else lagging ==> Erase(m) != top
    ensures HasPrecedenceOver(s.current, m) ==> seen != {} && (top == Erase(m) || HasPrecedenceOver(top, Erase(m)))
  {
    var c, e := Erase(s.current), Erase(m);
    if seen != {} && c == e {
      assert HasPrecedenceOver(top, e) ==> c != top by {
        Trichotomy(StampOf(e), StampOf(e));
      }
      Trichotomy(StampOf(s.current), StampOf(m));
    } else if seen != {} {
      assert Stamped(c) && Identified(c, e);
      TimeIrrelevant(s.current, m);
      if c != top && HasPrecedenceOver(c, e) {
        PrecedenceTransitive(seen + {e}, top, c, e);
      }
    }
  }

  lemma PlacedDeliver(s: Server, d: Delivery, seen: set<PlaybackState>, remote: set<PlaybackState>,
                      top: PlaybackState, lagging: bool)
    requires Tracks(s, seen, remote, top, lagging) && RemoteStates(s.id, remote)
    requires Admissible(s, seen, remote, Deliver(d)) && d.m.deviceId != Some(s.id)
    ensures Placed(Apply(s, d).server, seen + {Erase(d.m)}, Higher(top, s, Deliver(d)),
                   Lags(lagging, top, s, Deliver(d)))
  {
    var m, e := d.m, Erase(d.m);
    CoherentWithRemote(s, e, seen, remote);
    HigherIsMaximum(seen, top, e);
    Accepts(s, d);
    if m.eventId.value in s.processed || IsStale(s, m) {
      FilteredIsBelow(s, m, seen, remote, top);
    } else {
      TakenIsHighest(s, m, seen, top, lagging);
    }
  }

  lemma AccountedDeliver(s: Server, d: Delivery, seen: set<PlaybackState>, remote: set<PlaybackState>)
    requires Accounted(s, seen, remote) && RemoteStates(s.id, remote)
    requires Admissible(s, seen, remote, Deliver(d)) && d.m.deviceId != Some(s.id)
    ensures Accounted(Apply(s, d).server, seen + {Erase(d.m)}, remote)
  {
    CoherentWithRemote(s, Erase(d.m), seen, remote);
    Bookkeeping(s, d, seen);
  }

  lemma TracksDeliver(s: Server, d: Delivery, seen: set<PlaybackState>, remote: set<PlaybackState>,
                      top: PlaybackState, lagging: bool)
    requires Tracks(s, seen, remote, top, lagging) && RemoteStates(s.id, remote)
    requires Admissible(s, seen, remote, Deliver(d))
    ensures Tracks(Apply(s, d).server, seen + SeenBy(s, Deliver(d)), remote, Higher(top, s, Deliver(d)),
                   Lags(lagging, top, s, Deliver(d)))
    ensures Apply(s, d).server.id == s.id
  {
    if d.m.deviceId == Some(s.id) {
      assert seen + SeenBy(s, Deliver(d)) == seen && Apply(s, d).server == s;
    } else {
      assert SeenBy(s, Deliver(d)) == {Erase(d.m)};
      AccountedDeliver(s, d, seen, remote);
      PlacedDeliver(s, d, seen, remote, top, lagging);
      Bookkeeping(s, d, seen);
    }
  }

  lemma Bookkeeping(s: Server, d: Delivery, seen: set<PlaybackState>)
    requires Stamped(d.m) && d.m.lamport.value < LAMPORT_GUARD && d.m.deviceId != Some(s.id) && d.enabled
    requires forall dev :: dev in s.cursors ==> exists k :: k in seen && RecordedAs(k, dev, s.cursors[dev])
    requires forall e :: e in s.processed ==> exists k :: k in seen && k.eventId == Some(e)
    ensures var s' := Apply(s, d).server;
            var seen' := seen + {Erase(d.m)};
            && s'.id == s.id && s'.epoch == s.epoch && s'.localSequence == s.localSequence
            && s.lamport <= s'.lamport && d.m.lamport.value <= s'.lamport
            && (forall dev :: dev in s'.cursors ==> exists k :: k in seen' && RecordedAs(k, dev, s'.cursors[dev]))
            && (forall e :: e in s'.processed ==> exists k :: k in seen' && k.eventId == Some(e))
  {
    var m := d.m;
    var s' := Apply(s, d).server;
    var seen' := seen + {Erase(m)};
    forall dev | dev in s'.cursors
      ensures exists k :: k in seen' && RecordedAs(k, dev, s'.cursors[dev])
    {
      if dev in s.cursors && s'.cursors[dev] == s.cursors[dev] {
        var k :| k in seen && RecordedAs(k, dev, s.cursors[dev]);
        assert k in seen';
      } else {
        assert RecordedAs(Erase(m), dev, s'.cursors[dev]);
      }
    }
    forall e | e in s'.processed
      ensures exists k :: k in seen' && k.eventId == Some(e)
    {
      if e in s.processed {
        var k :| k in seen && k.eventId == Some(e);
        assert k in seen';
      } else {
        assert Erase(m).eventId == Some(e);
      }
    }
  }

  /** A local stamp lies above every state the replica has seen, and is in conflict with none of them. */
  lemma LocalStampAbove(s: Server, a: Action, k: PlaybackState, seen: set<PlaybackState>, remote: set<PlaybackState>)
    requires Accounted(s, seen, remote) && k in seen
    requires Stamps(s, a) && Admissible(s, seen, remote, a)
    ensures var n := Step(s, a).server.current;
            HasPrecedenceOver(n, k) && HasPrecedenceOver(Erase(n), k) && Compatible(k, Erase(n))
  {
  }

  lemma AccountedStamp(s: Server, a: Action, seen: set<PlaybackState>, remote: set<PlaybackState>)
    requires Accounted(s, seen, remote) && RemoteStates(s.id, remote)
    requires Stamps(s, a) && Admissible(s, seen, remote, a)
    ensures var s' := Step(s, a).server;
            Accounted(s', seen + {Erase(s'.current)}, remote)
    ensures IsMaximum(Erase(Step(s, a).server.current), seen + {Erase(Step(s, a).server.current)})
  {
    var n := Erase(Step(s, a).server.current);
    forall k | k in seen
      ensures HasPrecedenceOver(n, k) && Compatible(k, n)
    {
      LocalStampAbove(s, a, k, seen, remote);
    }
    CoherentExtended(seen, n);
    StillRecorded(s, seen, seen + {n});
  }

  lemma TracksStamp(s: Server, a: Action, seen: set<PlaybackState>, remote: set<PlaybackState>,
                    top: PlaybackState, lagging: bool)
    requires Tracks(s, seen, remote, top, lagging) && RemoteStates(s.id, remote)
    requires Stamps(s, a) && Admissible(s, seen, remote, a)
    ensures var s' := Step(s, a).server;
            var n := Erase(s'.current);
            Tracks(s', seen + {n}, remote, n, false)
  {
    AccountedStamp(s, a, seen, remote);
  }

  lemma StillRecorded(s: Server, seen: set<PlaybackState>, more: set<PlaybackState>)
    requires seen <= more
    requires forall dev :: dev in s.cursors ==> exists k :: k in seen && RecordedAs(k, dev, s.cursors[dev])
    requires forall e :: e in s.processed ==> exists k :: k in seen && k.eventId == Some(e)
    ensures forall dev :: dev in s.cursors ==> exists k :: k in more && RecordedAs(k, dev, s.cursors[dev])
    ensures forall e :: e in s.processed ==> exists k :: k in more && k.eventId == Some(e)
  {
  }

  /** An event on a peer's timeline puts that peer's state back, and makes the register lag if it was overtaken. */
  lemma TracksRevert(s: Server, a: Action, seen: set<PlaybackState>, remote: set<PlaybackState>,
                     top: PlaybackState, lagging: bool)
    requires Tracks(s, seen, remote, top, lagging) && a.Tick? && s.timeline.Remote?
    ensures Tracks(Step(s, a).server, seen, remote, top, lagging || Overtaken(s))
  {
    assert Erase(Step(s, a).server.current) == Provenance(s.timeline);
  }

  lemma TracksStep(s: Server, a: Action, seen: set<PlaybackState>, remote: set<PlaybackState>,
                   top: PlaybackState, lagging: bool)
    requires Tracks(s, seen, remote, top, lagging) && RemoteStates(s.id, remote) && Admissible(s, seen, remote, a)
    ensures Tracks(Step(s, a).server, seen + SeenBy(s, a), remote, Higher(top, s, a), Lags(lagging, top, s, a))
    ensures Step(s, a).server.id == s.id
  {
    if a.Deliver? {
      TracksDeliver(s, a.d, seen, remote, top, lagging);
    } else if Stamps(s, a) {
      TracksStamp(s, a, seen, remote, top, lagging);
    } else {
      assert seen + SeenBy(s, a) == seen;
      if a.Tick? {
        TracksRevert(s, a, seen, remote, top, lagging);
      }
    }
  }

  /** The invariant of every legal run, reverted registers included. */
  lemma {:induction false} RunTracks(s: Server, acts: seq<Action>, remote: set<PlaybackState>)
    requires Booted(s) && RemoteStates(s.id, remote) && Legal(s, acts, remote)
    ensures Run(s, acts).id == s.id
    ensures Tracks(Run(s, acts), Observed(s, acts), remote, Highest(s, acts), Displaced(s, acts))
  {
    if acts != [] {
      var before, a := acts[..|acts| - 1], acts[|acts| - 1];
      RunTracks(s, before, remote);
      TracksStep(Run(s, before), a, Observed(s, before), remote, Highest(s, before), Displaced(s, before));
    }
  }

  /**
   After any run a plain register would hold the maximum of everything stamped and received; the replica,
   with its echo suppression, event-id set and cursors, holds it exactly when it is not displaced.
   */
  lemma HoldsMaximumIff(s: Server, acts: seq<Action>, remote: set<PlaybackState>)
    requires Booted(s) && RemoteStates(s.id, remote) && Legal(s, acts, remote) && Observed(s, acts) != {}
    ensures IsMaximum(Highest(s, acts), Observed(s, acts))
    ensures Erase(Run(s, acts).current) == Highest(s, acts) <==> !Displaced(s, acts)
    ensures IsMaximum(Erase(Run(s, acts).current), Observed(s, acts)) <==> !Displaced(s, acts)
  {
    RunTracks(s, acts, remote);
    if IsMaximum(Erase(Run(s, acts).current), Observed(s, acts)) {
      MaximumUnique(Erase(Run(s, acts).current), Highest(s, acts), Observed(s, acts));
    }
  }

  /** No tick of the run comes while the timeline is overtaken. */
  predicate TicksInTime(s: Server, acts: seq<Action>) {
    acts == [] ||
    var before, a := acts[..|acts| - 1], acts[|acts| - 1];
    TicksInTime(s, before) && (a.Tick? ==> !Overtaken(Run(s, before)))
  }

  /** The register holds the highest state after every prefix of the run. */
  predicate AlwaysHighest(s: Server, acts: seq<Action>) {
    && Erase(Run(s, acts).current) == Highest(s, acts)
    && (acts == [] || AlwaysHighest(s, acts[..|acts| - 1]))
  }

  /** The replica is on the maximum throughout a run exactly when no tick comes on an overtaken timeline. */
  lemma {:induction false} OnMaximumThroughoutIff(s: Server, acts: seq<Action>, remote: set<PlaybackState>)
    requires Booted(s) && RemoteStates(s.id, remote) && Legal(s, acts, remote)
    ensures AlwaysHighest(s, acts) <==> TicksInTime(s, acts)
    ensures TicksInTime(s, acts) ==> !Displaced(s, acts)
  {
    if acts != [] {
      OnMaximumThroughoutIff(s, acts[..|acts| - 1], remote);
    }
    RunTracks(s, acts, remote);
  }

  /**
   A local command that takes the timeline over cannot be reverted by the engine's own events: as long as
   nothing is received, the register stays on states stamped here.
   */
  lemma {:induction false} SettingCommandHolds(s: Server, acts: seq<Action>, k: nat)
    requires k < |acts| && acts[k].Command? && acts[k].sets && acts[k].event.Some?
    requires forall i :: k < i < |acts| ==> !acts[i].Deliver?
    ensures var t := Run(s, acts);
            t.timeline == Local && t.current.deviceId == Some(t.id) && !Displaced(s, acts)
  {
    if k < |acts| - 1 {
      SettingCommandHolds(s, acts[..|acts| - 1], k);
    }
  }

  /** On a peer's timeline, the tick after a local event leaves the register local exactly if its command took the timeline over. */
  lemma TickRevertsIff(s: Server, command: Action, tick: Action)
    requires s.timeline.Remote? && s.timeline.originDeviceId != s.id
    requires command.Command? && command.event.Some? && tick.Tick?
    ensures var t := Step(Step(s, command).server, tick).server;
            && (command.sets ==> t.current.deviceId == Some(s.id) && t.current.payload == tick.payload)
            && (!command.sets ==> Erase(t.current) == Provenance(s.timeline))
  {
  }

  /** After any run that is not displaced the replica holds the maximum of everything it stamped and received. */
  lemma EndsOnMaximum(s: Server, acts: seq<Action>, remote: set<PlaybackState>)
    requires Booted(s) && RemoteStates(s.id, remote) && Legal(s, acts, remote)
    requires !Displaced(s, acts) && Observed(s, acts) != {}
    ensures IsMaximum(Erase(Run(s, acts).current), Observed(s, acts))
  {
    RunTracks(s, acts, remote);
  }

  /** Two replicas that observed the same states, in whatever orders, hold the same one. */
  lemma ReplicasConverge(s: Server, acts: seq<Action>, remoteS: set<PlaybackState>,
                         t: Server, bcts: seq<Action>, remoteT: set<PlaybackState>)
    requires Booted(s) && RemoteStates(s.id, remoteS) && Legal(s, acts, remoteS) && !Displaced(s, acts)
    requires Booted(t) && RemoteStates(t.id, remoteT) && Legal(t, bcts, remoteT) && !Displaced(t, bcts)
    requires Observed(s, acts) == Observed(t, bcts) != {}
    ensures Erase(Run(s, acts).current) == Erase(Run(t, bcts).current)
  {
    EndsOnMaximum(s, acts, remoteS);
    EndsOnMaximum(t, bcts, remoteT);
    MaximumUnique(Erase(Run(s, acts).current), Erase(Run(t, bcts).current), Observed(s, acts));
  }

  /** An engine that does what it is told, and whose position stands still meanwhile. */
  function Obey(p: Payload, c: EngineCommand): Payload {
    match c
    case LoadTrack(track, position) => p.(trackId := Some(track), positionMs := position, playing := false)
    case SeekTo(position) => p.(positionMs := position)
    case Resume => p.(playing := true)
    case Pause => p.(playing := false)
    case SetVolume(percent) => p.(volume := percent)
  }

  function ObeyAll(p: Payload, cs: seq<EngineCommand>): Payload {
    if cs == [] then p else Obey(ObeyAll(p, cs[..|cs| - 1]), cs[|cs| - 1])
  }

  /** The commands can convey all of `told` to an engine that shows `before`. */
  predicate Conveyable(before: Payload, told: Payload) {
    (told.trackId.Some? || before.trackId.None?) && 0 <= told.volume <= 100
  }

  /**
   Obeying all commands for a state leaves an engine on its track, position, transport and volume exactly
   when the volume is in range and the state has a track or none is loaded: seeking never unloads a track.
   */
  lemma ObeyingShowsIff(before: Payload, told: Payload)
    ensures var shown := ObeyAll(before, CommandsFor(told));
            && (Audible(shown) == Audible(told) <==> Conveyable(before, told))
            && shown.positionMs == told.positionMs && shown.playing == told.playing && shown.modes == before.modes
  {
    var cs := CommandsFor(told);
    assert cs[..2][..1] == cs[..1] && cs[..1][..0] == [];
    assert ObeyAll(before, cs[..1]) == Obey(before, cs[0]);
  }

  /** What each state plays, as it was commanded at its origin. */
  type Contents = map<PlaybackState, Payload>

  /** What the projected event shows, as the engine or the command says it. */
  function Commanded(a: Action): Payload
    requires a.Tick? || (a.Command? && a.event.Some?)
  {
    if a.Tick? then a.payload else a.event.value
  }

  ghost predicate Obedient(d: Delivery) {
    exists before :: d.engine.shown == ObeyAll(before, CommandsFor(d.m.payload)) && Conveyable(before, d.m.payload)
  }

  /** Messages say what was commanded, engines do what they are told, and no tick touches a peer's state. */
  ghost predicate Faithful(s: Server, a: Action, contents: Contents) {
    if IsEcho(s, a) then true
    else if a.Deliver? then
      Erase(a.d.m) in contents && Audible(a.d.m.payload) == contents[Erase(a.d.m)] && Obedient(a.d)
    else if Stamps(s, a) then
      var n := Erase(Step(s, a).server.current);
      n in contents && Audible(Commanded(a)) == contents[n]
    else !a.Tick?
  }

  ghost predicate FaithfulRun(s: Server, acts: seq<Action>, contents: Contents) {
    acts == [] ||
    (FaithfulRun(s, acts[..|acts| - 1], contents) && Faithful(Run(s, acts[..|acts| - 1]), acts[|acts| - 1], contents))
  }

  predicate Shows(s: Server, contents: Contents) {
    Blank(s.current) || (Erase(s.current) in contents && Audible(s.current.payload) == contents[Erase(s.current)])
  }

  lemma ShowsStep(s: Server, a: Action, seen: set<PlaybackState>, remote: set<PlaybackState>, contents: Contents)
    requires Shows(s, contents) && Faithful(s, a, contents) && Admissible(s, seen, remote, a)
    ensures Shows(Step(s, a).server, contents)
  {
    if a.Deliver? && a.d.m.deviceId != Some(s.id) {
      Accepts(s, a.d);
      var before :| a.d.engine.shown == ObeyAll(before, CommandsFor(a.d.m.payload))
                    && Conveyable(before, a.d.m.payload);
      ObeyingShowsIff(before, a.d.m.payload);
    }
  }

  lemma {:induction false} RunShows(s: Server, acts: seq<Action>, remote: set<PlaybackState>, contents: Contents)
    requires Booted(s) && Legal(s, acts, remote) && FaithfulRun(s, acts, contents)
    ensures Shows(Run(s, acts), contents)
  {
    if acts != [] {
      var before := acts[..|acts| - 1];
      RunShows(s, before, remote, contents);
      ShowsStep(Run(s, before), acts[|acts| - 1], Observed(s, before), remote, contents);
    }
  }

  /**
   Without ticks on a peer's timeline they play the same as well, and that is what was commanded where the
   state they hold was stamped.
   */
  lemma PayloadsConverge(s: Server, acts: seq<Action>, remoteS: set<PlaybackState>,
                         t: Server, bcts: seq<Action>, remoteT: set<PlaybackState>, contents: Contents)
    requires Booted(s) && RemoteStates(s.id, remoteS) && Legal(s, acts, remoteS) && FaithfulRun(s, acts, contents)
    requires Booted(t) && RemoteStates(t.id, remoteT) && Legal(t, bcts, remoteT) && FaithfulRun(t, bcts, contents)
    requires Observed(s, acts) == Observed(t, bcts) != {}
    ensures Erase(Run(s, acts).current) == Erase(Run(t, bcts).current)
    ensures var n := Erase(Run(s, acts).current);
            n in contents && Audible(Run(s, acts).current.payload) == Audible(Run(t, bcts).current.payload) == contents[n]
  {
    FaithfulIsInPlace(s, acts, contents);
    FaithfulIsInPlace(t, bcts, contents);
    ReplicasConverge(s, acts, remoteS, t, bcts, remoteT);
    EndsOnMaximum(s, acts, remoteS);
    RunTracks(s, acts, remoteS);
    RunShows(s, acts, remoteS, contents);
    RunShows(t, bcts, remoteT, contents);
  }

  lemma {:induction false} FaithfulIsInPlace(s: Server, acts: seq<Action>, contents: Contents)
    requires FaithfulRun(s, acts, contents)
    ensures !Displaced(s, acts)
  {
    if acts != [] {
      FaithfulIsInPlace(s, acts[..|acts| - 1], contents);
    }
  }
}
