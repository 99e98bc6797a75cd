/**
 The coordinator that ties engine, register, peers and database together, updated in place: the register
 and its clocks, the session row and what is remembered of it, and the persisted configuration.
 */
module PlaybackCoordinator {
  import opened Basics
  import opened Precedence
  import opened SyncServer
  import opened SessionProjection
  import opened BootClocks

  class Coordinator {
    const id: string
    const bootId: nat
    var epoch: u64
    var localSequence: nat
    var lamport: u64
    var current: PlaybackState
    /** The engine's current timeline origin. */
    var timeline: CommandOrigin
    var cursors: map<string, PeerCursor>
    var processed: set<nat>
    var row: Option<Row>
    var lastProjection: Option<Projection>
    var health: Health
    var config: Config

    ghost function Replica(): Server
      reads this
    {
      Server(id, epoch, bootId, localSequence, lamport, current, timeline, cursors, processed)
    }

    ghost function Database(): Store
      reads this
    {
      Store(row, lastProjection, health)
    }

    constructor (id: string, bootId: nat, now: u64, initial: PlaybackState, row: Option<Row>, config: Config)
      ensures Replica() == Server(id, now, bootId, 0, 0, initial, Local, map[], {})
      ensures Database() == Store(row, None, Health(true, 0, 0)) && this.config == config
    {
      this.id, this.bootId, this.epoch, this.config, this.row := id, bootId, now, config, row;
      localSequence, lamport, current, timeline := 0, 0, initial, Local;
      cursors, processed := map[], {};
      lastProjection, health := None, Health(true, 0, 0);
    }

    /** `readsEpoch` and `readsLamport` say whether the two reads of the configuration succeed. */
    method InitializeDbState(now: u64, readsEpoch: bool, readsLamport: bool)
      modifies this`epoch, this`lamport, this`config
      ensures epoch == BootEpoch(old(config), old(epoch), now, readsEpoch)
      ensures lamport == NextReservation(if readsLamport then old(config.lamport) else None, old(lamport))
      ensures config == Config(if readsEpoch then Some(epoch) else old(config.epoch), Some(lamport))
      ensures old(lamport) == 0 ==>
                var o := Step(Origin(old(config), None, [], []), Boot(old(epoch), now, readsEpoch, readsLamport));
                config == o.config && Live(epoch, 0, lamport) == o.running.value
    {
      if readsEpoch {
        epoch := NextEpoch(config.epoch, now);
        config := config.(epoch := Some(epoch));
      }
      lamport := NextReservation(if readsLamport then config.lamport else None, lamport);
      config := config.(lamport := Some(lamport));
    }

    method RecordPeerState(peer: string, ep: Option<u64>, boot: Option<nat>, sequence: nat)
      modifies this`cursors
      ensures cursors == old(cursors)[peer := PeerCursor(ep.GetOr(0), boot, sequence)]
    {
      cursors := cursors[peer := PeerCursor(ep.GetOr(0), boot, sequence)];
    }

    method RecordProcessed(eventId: nat)
      modifies this`processed
      ensures processed == RecordProcessedEvent(old(processed), eventId)
    {
      if |processed| > MAX_PROCESSED {
        processed := {};
      }
      processed := processed + {eventId};
    }

    /** The register's part of an event or snapshot. */
    method ProjectRegister(origin: CommandOrigin, payload: Payload, at: int, newId: nat)
      returns (sent: Option<PlaybackState>)
      modifies this`localSequence, this`lamport, this`current
      ensures Replica() == Project(old(Replica()), origin, payload, at, newId).server
      ensures sent == Project(old(Replica()), origin, payload, at, newId).sent
      ensures current.payload == payload && current.updatedAt == at
      ensures ProvenanceOf(current, origin, old(Replica()), newId)
      ensures sent == if origin.Local? then Some(current) else None
    {
      var st;
      match origin {
        case Remote(dev, eventId, sequence, ep, boot, lamp) =>
          st := PlaybackState(payload, at, Some(dev), Some(eventId), sequence, ep, boot, lamp);
        case Local =>
          localSequence := localSequence + 1;
          lamport := SaturatingAdd(lamport, 1);
          st := PlaybackState(payload, at, Some(id), Some(newId), Some(localSequence),
                              Some(epoch), Some(bootId), Some(lamport));
      }
      current := st;
      sent := if origin.Local? then Some(st) else None;
    }

    method Persist(r: Row, writes: bool) returns (outcome: RowOutcome)
      modifies this`row, this`lastProjection, this`health
      ensures Written(Database(), outcome) == PersistIfChanged(old(Database()), r, writes)
    {
      if lastProjection == Some(r.p) {
        return Unchanged;
      }
      if writes {
        row := Some(r);
        lastProjection := Some(r.p);
        health := health.Success();
        outcome := Persisted;
      } else {
        health := health.Failure();
        outcome := PersistFailed;
      }
    }

    method LoadRow(loads: bool) returns (r: Option<Row>)
      modifies this`row, this`health
      ensures loads ==> r == Some(old(row).GetOr(DEFAULT_ROW)) && row == r && health == old(health)
      ensures !loads ==> r == None && row == old(row) && health == old(health).Failure()
    {
      if loads {
        if row.None? {
          row := Some(DEFAULT_ROW);
        }
        r := row;
      } else {
        health := health.Failure();
        r := None;
      }
    }

    /** The columns that an event changes. */
    method DeriveColumns(before: Projection, e: EngineEvent, snap: Snapshot) returns (p: Projection)
      ensures p == Derive(before, e, snap)
    {
      var playing := Flowing(snap.lifecycle);
      p := before;
      match e {
        case LifecycleChanged(l, track) =>
          p := p.(trackId := OrElse(track, snap.trackId));
          if Finished(l) {
            p := p.(positionMs := 0);
          } else if Flowing(l) {
            p := p.(positionMs := snap.positionMs);
          }
          p := p.(playing := Flowing(l), volume := snap.volume, shuffle := snap.shuffle, repeat := snap.repeat);
        case Paused(track, position) =>
          p := p.(trackId := OrElse(track, snap.trackId), positionMs := position, playing := false,
                  volume := snap.volume, shuffle := snap.shuffle, repeat := snap.repeat);
        case Stopped => p := p.(positionMs := 0, playing := false);
        case Ended => p := p.(positionMs := 0, playing := false);
        case Failed => p := p.(playing := false);
        case Seeked(position) => p := p.(positionMs := position);
        case PositionCheckpoint(position) =>
          if playing {
            p := p.(positionMs := position, playing := playing);
          }
        case TrackChanged(track, index) =>
          p := p.(trackId := track, index := AsI32(index));
          if playing {
            p := p.(positionMs := snap.positionMs);
          }
        case VolumeChanged(volume) => p := p.(volume := volume);
        case ShuffleChanged(shuffle) => p := p.(shuffle := shuffle);
        case RepeatChanged(repeat) => p := p.(repeat := repeat);
        case QueueChanged =>
        case OutputChanged =>
      }
    }

    /** One engine event with the snapshot taken for it: the register first, then the session row. */
    method HandleEvent(e: EngineEvent, origin: CommandOrigin, snap: Snapshot, at: int, newId: nat,
                       loads: bool, writes: bool) returns (sent: Option<PlaybackState>)
      modifies this`localSequence, this`lamport, this`current, this`row, this`lastProjection, this`health
      ensures Replica() == Project(old(Replica()), origin, PayloadOf(snap), at, newId).server
      ensures Reports(current.payload, snap) && current.updatedAt == at
      ensures ProvenanceOf(current, origin, old(Replica()), newId)
      ensures sent == if origin.Local? then Some(current) else None
      ensures origin.Remote? ==> localSequence == old(localSequence) && lamport == old(lamport)
      ensures Database() == Perform(old(Database()), Handle(e, snap, loads, writes)).store
    {
      sent := ProjectRegister(origin, PayloadOf(snap), at, newId);
      var loaded := LoadRow(loads);
      if loaded.None? {
        return;
      }
      var sess := loaded.value;
      var p := DeriveColumns(sess.p, e, snap);
      var _ := Persist(sess.(p := p), writes);
    }

    /** A snapshot after lost events: the register takes it with its timeline's provenance, then the row. */
    method ReconcileFromSnapshot(snap: Snapshot, newId: nat, loads: bool, writes: bool)
      returns (outcome: RowOutcome, sent: Option<PlaybackState>)
      modifies this`localSequence, this`lamport, this`current, this`row, this`lastProjection, this`health
      ensures Replica() == Project(old(Replica()), snap.timeline, PayloadOf(snap), snap.updatedAt, newId).server
      ensures Reports(current.payload, snap) && current.updatedAt == snap.updatedAt
      ensures ProvenanceOf(current, snap.timeline, old(Replica()), newId)
      ensures sent == if snap.timeline.Local? then Some(current) else None
      ensures snap.timeline.Remote? ==> localSequence == old(localSequence) && lamport == old(lamport)
      ensures Written(Database(), outcome) == Perform(old(Database()), Reconcile(snap, loads, writes))
    {
      sent := ProjectRegister(snap.timeline, PayloadOf(snap), snap.updatedAt, newId);
      var playing := Flowing(snap.lifecycle);
      if snap.trackId.None? && !playing {
        return NoRowNeeded, sent;
      }
      var loaded := LoadRow(loads);
      if loaded.None? {
        return LoadFailed, sent;
      }
      var sess := loaded.value;
      var position := if Finished(snap.lifecycle) then 0 else snap.positionMs;
      outcome := Persist(sess.(p := Projection(snap.trackId, sess.p.index, position, playing, snap.volume,
                                               snap.shuffle, snap.repeat)), writes);
    }

    /** The paused row, written directly, and the clock. */
    method FlushShutdown(snap: Snapshot, loads: bool, writes: bool)
      modifies this`row, this`health, this`config
      ensures Database() == Perform(old(Database()), SessionProjection.Flush(snap, loads, writes)).store
      ensures config == old(config).(lamport := Some(lamport))
    {
      var loaded := LoadRow(loads);
      if loaded.Some? {
        var sess := loaded.value;
        if writes {
          row := Some(sess.(p := Projection(snap.trackId, sess.p.index, snap.positionMs, false, snap.volume,
                                            snap.shuffle, snap.repeat)));
          health := health.Success();
        } else {
          health := health.Failure();
        }
      }
      config := config.(lamport := Some(lamport));
    }

    /** The engine commands of one application, each issued only if the ones before succeeded. */
    method IssueCommands(d: Delivery) returns (allApplied: bool, issued: seq<EngineCommand>)
      modifies this`localSequence, this`lamport, this`current, this`timeline
      ensures Replica() == Enact(old(Replica()), d)
      ensures issued <= CommandsFor(d.m.payload)
      ensures issued != [] <==> d.engine.reached
      ensures |issued| > 1 <==> issued != [] && d.engine.first.ok
      ensures |issued| > 2 <==> |issued| > 1 && d.engine.transport.ok
      ensures allApplied == d.engine.AllApplied()
      ensures allApplied <==> |issued| == 3 && d.engine.volumeOk
      ensures issued != [] ==> timeline == OriginOf(d.m, d.newId)
      ensures issued == [] ==> Replica() == old(Replica())
      ensures (issued != [] && d.engine.first.emits) || (|issued| > 1 && d.engine.transport.emits) || |issued| > 2 ==>
                current.payload == d.engine.shown && current.updatedAt == d.at
                && ProvenanceOf(current, OriginOf(d.m, d.newId), old(Replica()), d.newId)
    {
      var origin := OriginOf(d.m, d.newId);
      var emitted := false;
      issued := [];
      allApplied := d.engine.reached;
      if d.engine.reached {
        timeline := origin;
        match d.m.payload.trackId {
          case Some(track) => issued := [LoadTrack(track, d.m.payload.positionMs)];
          case None => issued := [SeekTo(d.m.payload.positionMs)];
        }
        allApplied, emitted := d.engine.first.ok, d.engine.first.emits;
      }
      if allApplied {
        issued := issued + [if d.m.payload.playing then Resume else Pause];
        allApplied, emitted := d.engine.transport.ok, emitted || d.engine.transport.emits;
      }
      if allApplied {
        issued := issued + [SetVolume(Percent(d.m.payload.volume))];
        allApplied, emitted := d.engine.volumeOk, true;
      }
      if emitted {
        var _ := ProjectRegister(origin, d.engine.shown, d.at, d.newId);
      }
    }

    /** One received state, under the playback lock; the engine's events are projected before it returns. */
    method ApplyRemotePlaybackState(d: Delivery)
      returns (applied: bool, sent: Option<PlaybackState>, issued: seq<EngineCommand>)
      modifies this`localSequence, this`lamport, this`current, this`timeline, this`cursors, this`processed
      ensures Replica() == Apply(old(Replica()), d).server
      ensures sent == Apply(old(Replica()), d).sent
      ensures applied <==> Apply(old(Replica()), d).outcome == Attempted(true)
      ensures issued <= CommandsFor(d.m.payload)
      ensures issued != [] <==> Apply(old(Replica()), d).outcome.Attempted? && d.engine.reached
      ensures applied ==> issued == CommandsFor(d.m.payload)
    {
      var m := d.m;
      sent, issued := None, [];
      if !d.enabled {
        return false, None, [];
      }
      if m.deviceId == Some(id) {
        return false, None, [];
      }
      if m.lamport.Some? {
        lamport := ObserveLamport(lamport, m.lamport.value);
      }
      if m.eventId.Some? && m.eventId.value in processed {
        return false, None, [];
      }
      if m.deviceId.Some? && m.sequence.Some?
         && IsStalePeerState(cursors, m.deviceId.value, m.epoch, m.bootId, m.sequence.value) {
        return false, None, [];
      }
      if HasPrecedenceOver(current, m) {
        if current.deviceId == Some(id) {
          sent := Some(current);
        }
        return false, sent, [];
      }

      var allApplied;
      allApplied, issued := IssueCommands(d);
      if allApplied {
        if m.eventId.Some? {
          RecordProcessed(m.eventId.value);
        }
        if m.deviceId.Some? && m.sequence.Some? {
          RecordPeerState(m.deviceId.value, m.epoch, m.bootId, m.sequence.value);
        }
      }
      return allApplied, None, issued;
    }
  }
}
