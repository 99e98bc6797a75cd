/**
 One replica of the playback register: clocks, peer cursors, the bounded event-id set, and the handling of
 engine events and of states received from peers.

 The playback lock is held over a whole application of a received state, so one application is one step;
 the projection of its engine events is taken to land before the next step. The engine remembers whose
 command set its timeline. An event that no command caused, and a snapshot, carry that origin.
 */
module SyncServer {
  import opened Basics
  import opened Precedence

  datatype PeerCursor = PeerCursor(epoch: u64, bootId: Option<nat>, sequence: nat)

  datatype CommandOrigin =
    | Local
    | Remote(originDeviceId: string, eventId: nat, sequence: Option<nat>, epoch: Option<u64>,
             bootId: Option<nat>, lamport: Option<u64>)

  /** `timeline` is the origin that the engine gives to events of its own accord. */
  datatype Server = Server(
    id: string,
    epoch: u64,
    bootId: nat,
    localSequence: nat,
    lamport: u64,
    current: PlaybackState,
    timeline: CommandOrigin,
    cursors: map<string, PeerCursor>,
    processed: set<nat>)

  datatype EngineCommand =
    | LoadTrack(trackId: nat, positionMs: nat)
    | SeekTo(positionMs: nat)
    | Resume
    | Pause
    | SetVolume(percent: nat)

  /** A received volume, brought into the engine's range. */
  function Percent(volume: int): (r: nat)
    ensures r <= 100 && (0 <= volume <= 100 ==> r == volume)
    ensures (volume < 0 ==> r == 0) && (volume > 100 ==> r == 100)
  {
    if volume < 0 then 0 else if volume > 100 then 100 else volume
  }

  /** What the engine is told in order to play a received state; without a track it is only told to seek. */
  function CommandsFor(p: Payload): (cs: seq<EngineCommand>)
    ensures |cs| == 3
  {
    [if p.trackId.Some? then LoadTrack(p.trackId.value, p.positionMs) else SeekTo(p.positionMs),
     if p.playing then Resume else Pause,
     SetVolume(Percent(p.volume))]
  }

  /** The answer to one engine command: whether it succeeded, and whether it emitted any event. */
  datatype Answer = Answer(ok: bool, emits: bool)

  /**
   How the engine takes the commands of one application. The first (load or seek) does not reach it if the
   track is unknown here; it sets the timeline before anything can go wrong. The second (resume or pause)
   and the third (volume) are issued only when the ones before succeeded, and a volume command always
   emits. `shown` is what the engine's snapshot shows when the last event is projected.
   */
  datatype Engine = Engine(reached: bool, first: Answer, transport: Answer, volumeOk: bool, shown: Payload) {
    predicate AllApplied() { reached && first.ok && transport.ok && volumeOk }

    predicate Emits() { reached && (first.emits || (first.ok && (transport.emits || transport.ok))) }
  }

  /** A received state and the environment of its application: clock, new event id, module switch, engine. */
  datatype Delivery = Delivery(m: PlaybackState, at: int, newId: nat, enabled: bool, engine: Engine)

  datatype Outcome = Disabled | Echo | Duplicate | Stale | Retained | Attempted(applied: bool) | Projected

  datatype Effect = Effect(server: Server, sent: Option<PlaybackState>, outcome: Outcome)

  const LAMPORT_GUARD: nat := U64_MAX - 100_000
  const MAX_PROCESSED: nat := 10_000
  const UNNAMED_PEER := "remote_peer"

  function ObserveLamport(local: u64, remote: u64): (r: u64)
    ensures local <= r
    ensures remote < LAMPORT_GUARD && r < U64_MAX ==> remote < r && local < r
    ensures remote >= U64_MAX - 100_000 ==> r == local
  {
    if remote >= LAMPORT_GUARD then local
    else SaturatingAdd(if local >= remote then local else remote, 1)
  }

  predicate IsStalePeerState(cursors: map<string, PeerCursor>, peer: string, epoch: Option<u64>,
                             bootId: Option<nat>, sequence: nat)
  {
    peer in cursors &&
    var c := cursors[peer];
    var ep := epoch.GetOr(0);
    if ep != c.epoch then ep < c.epoch
    else if bootId.Some? && c.bootId.Some? && bootId != c.bootId then false
    else sequence <= c.sequence
  }

  function RecordProcessedEvent(processed: set<nat>, eventId: nat): (r: set<nat>)
    ensures eventId in r
    ensures |processed| <= MAX_PROCESSED ==> processed <= r
    ensures |processed| <= MAX_PROCESSED + 1 ==> |r| <= MAX_PROCESSED + 1
  {
    (if |processed| > MAX_PROCESSED then {} else processed) + {eventId}
  }

  /** Projects one engine event of the given origin, whatever the register holds; a local event is stamped and sent. */
  function Project(s: Server, origin: CommandOrigin, payload: Payload, at: int, newId: nat): Effect {
    match origin
    case Remote(dev, eventId, sequence, epoch, bootId, lamport) =>
      var st := PlaybackState(payload, at, Some(dev), Some(eventId), sequence, epoch, bootId, lamport);
      Effect(s.(current := st), None, Projected)
    case Local =>
      var lamp := SaturatingAdd(s.lamport, 1);
      var st := PlaybackState(payload, at, Some(s.id), Some(newId), Some(s.localSequence + 1),
                              Some(s.epoch), Some(s.bootId), Some(lamp));
      Effect(s.(localSequence := s.localSequence + 1, lamport := lamp, current := st), Some(st), Projected)
  }

  /**
   `st` carries the provenance of `origin`: a peer's is kept as it came; a local event has this server's
   name, boot and epoch, the next sequence number and the next clock reading.
   */
  predicate ProvenanceOf(st: PlaybackState, origin: CommandOrigin, s: Server, newId: nat) {
    match origin
    case Remote(dev, eventId, sequence, epoch, bootId, lamport) =>
      && st.deviceId == Some(dev) && st.eventId == Some(eventId) && st.sequence == sequence
      && st.epoch == epoch && st.bootId == bootId && st.lamport == lamport
    case Local =>
      && st.deviceId == Some(s.id) && st.eventId == Some(newId) && st.sequence == Some(s.localSequence + 1)
      && st.epoch == Some(s.epoch) && st.bootId == Some(s.bootId)
      && st.lamport == Some(if s.lamport == U64_MAX then U64_MAX else s.lamport + 1)
  }

  /**
   A local engine command, with one event or none. Play, load, jump, pause, resume, seek and stop set the
   timeline; next, previous, volume, shuffle, repeat and queue keep it. A further event of the same command
   is a command that keeps it.
   */
  function Issue(s: Server, sets: bool, event: Option<Payload>, at: int, newId: nat): Effect {
    var t := if sets then s.(timeline := Local) else s;
    match event
    case Some(payload) => Project(t, Local, payload, at, newId)
    case None => Effect(t, None, Projected)
  }

  function OriginOf(m: PlaybackState, newId: nat): CommandOrigin {
    Remote(m.deviceId.GetOr(UNNAMED_PEER), m.eventId.GetOr(newId), m.sequence, m.epoch, m.bootId, m.lamport)
  }

  predicate IsStale(s: Server, m: PlaybackState) {
    m.deviceId.Some? && m.sequence.Some? &&
    IsStalePeerState(s.cursors, m.deviceId.value, m.epoch, m.bootId, m.sequence.value)
  }

  /** Nothing in the replica's bookkeeping stands in the way of `m`. */
  predicate Unfiltered(s: Server, m: PlaybackState) {
    && m.deviceId != Some(s.id) && !IsStale(s, m)
    && (m.eventId.Some? ==> m.eventId.value !in s.processed)
  }

  /** The bookkeeping that a fully successful application commits. */
  function Commit(s: Server, m: PlaybackState): Server {
    s.(processed := if m.eventId.Some? then RecordProcessedEvent(s.processed, m.eventId.value) else s.processed,
       cursors := if m.deviceId.Some? && m.sequence.Some?
                  then s.cursors[m.deviceId.value := PeerCursor(m.epoch.GetOr(0), m.bootId, m.sequence.value)]
                  else s.cursors)
  }

  /** The engine's part of an application: timeline and register. */
  function Enact(s: Server, d: Delivery): Server {
    var origin := OriginOf(d.m, d.newId);
    var t := if d.engine.reached then s.(timeline := origin) else s;
    if d.engine.Emits() then Project(t, origin, d.engine.shown, d.at, d.newId).server else t
  }

  /** One received state. */
  function Apply(s: Server, d: Delivery): Effect {
    var m := d.m;
    if !d.enabled then Effect(s, None, Disabled)
    else if m.deviceId == Some(s.id) then Effect(s, None, Echo)
    else
      var o := if m.lamport.Some? then s.(lamport := ObserveLamport(s.lamport, m.lamport.value)) else s;
      if m.eventId.Some? && m.eventId.value in s.processed then Effect(o, None, Duplicate)
      else if IsStale(o, m) then Effect(o, None, Stale)
      else if HasPrecedenceOver(s.current, m) then
        Effect(o, if s.current.deviceId == Some(s.id) then Some(s.current) else None, Retained)
      else if d.engine.AllApplied() then Effect(Commit(Enact(o, d), m), None, Attempted(true))
      else Effect(Enact(o, d), None, Attempted(false))
  }
}
