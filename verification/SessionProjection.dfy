/**
 The persistent side of the projection: engine events and reconciled snapshots become updates of one
 session row, and a row equal to the last one written is not written again.
 */
module SessionProjection {
  import opened Basics
  import opened Precedence
  import opened SyncServer

  datatype Lifecycle = Idle | Preparing | AudioFlowing | Playing | OnPause | AtStop | AtEnd | InError

  predicate Flowing(l: Lifecycle) { l.AudioFlowing? || l.Playing? }

  predicate Finished(l: Lifecycle) { l.AtStop? || l.AtEnd? }

  datatype Snapshot = Snapshot(lifecycle: Lifecycle, trackId: Option<nat>, positionMs: nat, volume: nat,
                               shuffle: bool, repeat: string, updatedAt: int, timeline: CommandOrigin)

  /** What a snapshot puts into the register. */
  function PayloadOf(s: Snapshot): Payload {
    Payload(s.trackId, if Finished(s.lifecycle) then 0 else s.positionMs, Flowing(s.lifecycle), s.volume,
            Modes(s.shuffle, s.repeat))
  }

  /** The payload says what the snapshot says. */
  predicate Reports(p: Payload, s: Snapshot) {
    && p.trackId == s.trackId && p.volume == s.volume && p.modes == Modes(s.shuffle, s.repeat)
    && p.positionMs == (if s.lifecycle in {AtStop, AtEnd} then 0 else s.positionMs)
    && (p.playing <==> s.lifecycle in {AudioFlowing, Playing})
  }

  datatype EngineEvent =
    | LifecycleChanged(lifecycle: Lifecycle, trackId: Option<nat>)
    | Paused(trackId: Option<nat>, positionMs: nat)
    | Stopped
    | Ended
    | Failed
    | Seeked(positionMs: nat)
    | PositionCheckpoint(positionMs: nat)
    | TrackChanged(trackId: Option<nat>, index: nat)
    | VolumeChanged(volume: nat)
    | ShuffleChanged(shuffle: bool)
    | RepeatChanged(repeat: string)
    | QueueChanged
    | OutputChanged

  /** The columns compared for deduplication. */
  datatype Projection = Projection(trackId: Option<nat>, index: int, positionMs: nat, playing: bool, volume: nat,
                                   shuffle: bool, repeat: string)

  /** A session row; `rest` stands for the columns that the coordinator reads and writes back. */
  datatype Row = Row(p: Projection, rest: nat)

  datatype Health = Health(healthy: bool, consecutiveFailures: nat, failuresTotal: nat) {
    function Failure(): Health { Health(false, consecutiveFailures + 1, failuresTotal + 1) }
    function Success(): Health { Health(true, 0, failuresTotal) }
  }

  datatype Store = Store(row: Option<Row>, last: Option<Projection>, health: Health)

  const DEFAULT_ROW := Row(Projection(None, 0, 0, false, 80, false, "off"), 0)

  /** `usize as i32`. */
  function AsI32(n: nat): (r: int)
    ensures -0x8000_0000 <= r < 0x8000_0000 && (n - r) % 0x1_0000_0000 == 0
  {
    (n + 0x8000_0000) % 0x1_0000_0000 - 0x8000_0000
  }

  function OrElse(a: Option<nat>, b: Option<nat>): Option<nat> {
    if a.Some? then a else b
  }

  /** What an event makes of the row. */
  function Derive(p: Projection, e: EngineEvent, s: Snapshot): Projection {
    match e
    case LifecycleChanged(l, track) =>
      p.(trackId := OrElse(track, s.trackId),
         positionMs := if Finished(l) then 0 else if Flowing(l) then s.positionMs else p.positionMs,
         playing := Flowing(l), volume := s.volume, shuffle := s.shuffle, repeat := s.repeat)
    case Paused(track, position) =>
      p.(trackId := OrElse(track, s.trackId), positionMs := position, playing := false,
         volume := s.volume, shuffle := s.shuffle, repeat := s.repeat)
    case Stopped => p.(positionMs := 0, playing := false)
    case Ended => p.(positionMs := 0, playing := false)
    case Failed => p.(playing := false)
    case Seeked(position) => p.(positionMs := position)
    case PositionCheckpoint(position) =>
      if Flowing(s.lifecycle) then p.(positionMs := position, playing := true) else p
    case TrackChanged(track, index) =>
      p.(trackId := track, index := AsI32(index),
         positionMs := if Flowing(s.lifecycle) then s.positionMs else p.positionMs)
    case VolumeChanged(volume) => p.(volume := volume)
    case ShuffleChanged(shuffle) => p.(shuffle := shuffle)
    case RepeatChanged(repeat) => p.(repeat := repeat)
    case QueueChanged => p
    case OutputChanged => p
  }

  /** The row a snapshot stands for; the queue index is not part of a snapshot. */
  function FromSnapshot(s: Snapshot, index: int): Projection {
    Projection(s.trackId, index, if Finished(s.lifecycle) then 0 else s.positionMs, Flowing(s.lifecycle),
               s.volume, s.shuffle, s.repeat)
  }

  datatype Operation =
    | Handle(e: EngineEvent, s: Snapshot, loads: bool, writes: bool)
    | Reconcile(s: Snapshot, loads: bool, writes: bool)
    | Flush(s: Snapshot, loads: bool, writes: bool)
    | Lost(e: EngineEvent)

  predicate NeedsRow(op: Operation) {
    match op
    case Handle(_, _, _, _) => true
    case Reconcile(s, _, _) => s.trackId.Some? || Flowing(s.lifecycle)
    case Flush(_, _, _) => true
    case Lost(_) => false
  }

  function Wanted(op: Operation, p: Projection): Projection {
    match op
    case Handle(e, s, _, _) => Derive(p, e, s)
    case Reconcile(s, _, _) => FromSnapshot(s, p.index)
    case Flush(s, _, _) =>
      Projection(s.trackId, p.index, s.positionMs, false, s.volume, s.shuffle, s.repeat)
    case Lost(_) => p
  }

  datatype RowOutcome = NoRowNeeded | LoadFailed | PersistFailed | Unchanged | Persisted

  datatype Written = Written(store: Store, outcome: RowOutcome)

  function PersistIfChanged(s: Store, r: Row, writes: bool): Written {
    if s.last == Some(r.p) then Written(s, Unchanged)
    else if writes then Written(Store(Some(r), Some(r.p), s.health.Success()), Persisted)
    else Written(s.(health := s.health.Failure()), PersistFailed)
  }

  /** The shutdown flush writes the row directly, and leaves what is remembered as it was. */
  function WriteDirectly(s: Store, r: Row, writes: bool): Written {
    if writes then Written(s.(row := Some(r), health := s.health.Success()), Persisted)
    else Written(s.(health := s.health.Failure()), PersistFailed)
  }

  /** One event, snapshot or flush; `loads` and `writes` say whether the row can be read and written. */
  function Perform(s: Store, op: Operation): Written {
    if !NeedsRow(op) then Written(s, NoRowNeeded)
    else if !op.loads then Written(s.(health := s.health.Failure()), LoadFailed)
    else
      var r := s.row.GetOr(DEFAULT_ROW);
      var loaded, wanted := s.(row := Some(r)), r.(p := Wanted(op, r.p));
      if op.Flush? then WriteDirectly(loaded, wanted, op.writes) else PersistIfChanged(loaded, wanted, op.writes)
  }

  /** The same without deduplication: every derived row is written. */
  function WriteAlways(row: Option<Row>, op: Operation): Option<Row> {
    if !NeedsRow(op) || !op.loads then row
    else
      var r := row.GetOr(DEFAULT_ROW);
      Some(if op.writes then r.(p := Wanted(op, r.p)) else r)
  }

  function Run(s: Store, ops: seq<Operation>): Store {
    if ops == [] then s else Perform(Run(s, ops[..|ops| - 1]), ops[|ops| - 1]).store
  }

  function RunAlways(row: Option<Row>, ops: seq<Operation>): Option<Row> {
    if ops == [] then row else WriteAlways(RunAlways(row, ops[..|ops| - 1]), ops[|ops| - 1])
  }

  /** Health is what its counter says. */
  predicate HealthAddsUp(h: Health) {
    (h.healthy <==> h.consecutiveFailures == 0) && h.consecutiveFailures <= h.failuresTotal
  }

  /** The remembered projection, if any, is the stored one. */
  predicate Remembers(s: Store) {
    s.last.Some? ==> s.row.Some? && s.row.value.p == s.last.value
  }

  predicate Started(s: Store) {
    s.last == None && s.health == Health(true, 0, 0)
  }

  /** The operation writes if nothing is skipped. */
  predicate Lands(op: Operation) {
    NeedsRow(op) && op.loads && op.writes
  }

  /** What the last event or snapshot of the history that could be written wanted. */
  function LastWanted(row: Option<Row>, ops: seq<Operation>): Option<Projection> {
    if ops == [] then None else
    var before, op := ops[..|ops| - 1], ops[|ops| - 1];
    if Lands(op) && !op.Flush? then Some(Wanted(op, RunAlways(row, before).GetOr(DEFAULT_ROW).p))
    else LastWanted(row, before)
  }

  /**
   The history repeats itself over a flush: an event or snapshot wants once more just what the last one
   wanted, while a flush in between has written something else.
   */
  predicate RepeatsOverFlush(row: Option<Row>, ops: seq<Operation>) {
    ops != [] &&
    var before, op := ops[..|ops| - 1], ops[|ops| - 1];
    var p := RunAlways(row, before).GetOr(DEFAULT_ROW).p;
    || RepeatsOverFlush(row, before)
    || (Lands(op) && !op.Flush? && LastWanted(row, before) == Some(Wanted(op, p)) && p != Wanted(op, p))
  }

  /** After every prefix of the run the row is the one that writing always would leave. */
  predicate AlwaysAsWritten(s: Store, ops: seq<Operation>) {
    Run(s, ops).row == RunAlways(s.row, ops) && (ops == [] || AlwaysAsWritten(s, ops[..|ops| - 1]))
  }

  /** As long as the row is as written, what is remembered is what was last wanted. */
  lemma {:induction false} RemembersLastWanted(s: Store, ops: seq<Operation>)
    requires Started(s) && (ops == [] || AlwaysAsWritten(s, ops[..|ops| - 1]))
    ensures Run(s, ops).last == LastWanted(s.row, ops)
  {
    if ops != [] {
      RemembersLastWanted(s, ops[..|ops| - 1]);
    }
  }

  /** One operation leaves the row as writing it would, unless it wants what is remembered and the row differs. */
  lemma WrittenIff(s: Store, op: Operation)
    ensures var p := s.row.GetOr(DEFAULT_ROW).p;
            Perform(s, op).store.row == WriteAlways(s.row, op) <==>
              !(Lands(op) && !op.Flush? && s.last == Some(Wanted(op, p)) && p != Wanted(op, p))
    ensures HealthAddsUp(s.health) ==> HealthAddsUp(Perform(s, op).store.health)
  {
  }

  /**
   Over any run, with any reads and writes failing, skipped writes cannot be told from performed ones
   exactly when the history does not repeat itself over a flush.
   */
  lemma {:induction false} DedupIsInvisibleIff(s: Store, ops: seq<Operation>)
    requires Started(s)
    ensures AlwaysAsWritten(s, ops) <==> !RepeatsOverFlush(s.row, ops)
    ensures HealthAddsUp(Run(s, ops).health)
  {
    if ops != [] {
      var before := ops[..|ops| - 1];
      DedupIsInvisibleIff(s, before);
      WrittenIff(Run(s, before), ops[|ops| - 1]);
      if AlwaysAsWritten(s, before) {
        RemembersLastWanted(s, before);
      }
    }
  }

  /** Without a flush nothing is ever masked, whichever reads and writes fail. */
  lemma {:induction false} DedupIsInvisible(s: Store, ops: seq<Operation>)
    requires Started(s) && forall i :: 0 <= i < |ops| ==> !ops[i].Flush?
    ensures Run(s, ops).row == RunAlways(s.row, ops) && Remembers(Run(s, ops))
  {
    if ops != [] {
      DedupIsInvisible(s, ops[..|ops| - 1]);
    }
  }

  /**
   After any run without a flush and with any events lost, one successful reconciliation of a snapshot that
   concerns the row leaves the row equal to the snapshot's projection, the queue index alone excepted.
   */
  lemma {:induction false} ReconcileRecovers(s: Store, ops: seq<Operation>, snap: Snapshot)
    requires Started(s) && NeedsRow(Reconcile(snap, true, true)) && forall i :: 0 <= i < |ops| ==> !ops[i].Flush?
    ensures var before := Run(s, ops);
            var after := Perform(before, Reconcile(snap, true, true));
            && after.outcome in {Persisted, Unchanged}
            && after.store.row.Some?
            && after.store.row.value.p == FromSnapshot(snap, before.row.GetOr(DEFAULT_ROW).p.index)
  {
    DedupIsInvisible(s, ops);
  }

  /** A flush masks: the paused row it leaves survives the next snapshot of a session still playing. */
  lemma FlushMasksNextEvent(s: Store, snap: Snapshot)
    requires Remembers(s) && Flowing(snap.lifecycle) && s.row.Some?
    requires s.last == Some(FromSnapshot(snap, s.row.value.p.index))
    ensures var f := Perform(s, Flush(snap, true, true)).store;
            var t := Perform(f, Reconcile(snap, true, true));
            t.outcome == Unchanged && t.store.row.Some? && !t.store.row.value.p.playing
  {
  }

  /**
   The event refreshes every column from the snapshot: a lifecycle change to a playing or finished state,
   or a pause, in keeping with it. A change to any other state leaves the old position.
   */
  predicate Refreshes(e: EngineEvent, s: Snapshot) {
    var position := if Finished(s.lifecycle) then 0 else s.positionMs;
    match e
    case LifecycleChanged(l, track) =>
      && OrElse(track, s.trackId) == s.trackId && Flowing(l) == Flowing(s.lifecycle)
      && (if Finished(l) then position == 0 else Flowing(l) && position == s.positionMs)
    case Paused(track, at) => OrElse(track, s.trackId) == s.trackId && at == position && !Flowing(s.lifecycle)
    case _ => false
  }

  /** A row that has nothing in common with what the snapshot says. */
  function Foreign(s: Snapshot): Projection {
    Projection(Some(s.trackId.GetOr(0) + 1), 0, s.positionMs + 1, !Flowing(s.lifecycle), s.volume + 1, !s.shuffle,
               s.repeat + "!")
  }

  /** An event makes every row equal to the snapshot's, the queue index excepted, exactly when it refreshes all columns. */
  lemma RefreshesIff(e: EngineEvent, s: Snapshot)
    ensures (forall p :: Derive(p, e, s) == FromSnapshot(s, Derive(p, e, s).index)) <==> Refreshes(e, s)
  {
    if !Refreshes(e, s) {
      var p := Foreign(s);
      assert s.repeat + "!" != s.repeat;
      assert Derive(p, e, s) != FromSnapshot(s, Derive(p, e, s).index);
    }
  }

  /** After any run without a flush and with any events lost, one such event recovers the row as a snapshot would. */
  lemma {:induction false} RefreshRecovers(s: Store, ops: seq<Operation>, e: EngineEvent, snap: Snapshot)
    requires Started(s) && Refreshes(e, snap) && forall i :: 0 <= i < |ops| ==> !ops[i].Flush?
    ensures var before := Run(s, ops);
            var after := Perform(before, Handle(e, snap, true, true));
            && after.outcome in {Persisted, Unchanged} && after.store.row.Some?
            && after.store.row.value.p == FromSnapshot(snap, before.row.GetOr(DEFAULT_ROW).p.index)
  {
    DedupIsInvisible(s, ops);
    RefreshesIff(e, snap);
  }

  // ---- The row, told from the history alone ----

  /** A snapshot after which there is something to remember. */
  predicate Eventful(s: Snapshot) { s.trackId.Some? || s.lifecycle in {AudioFlowing, Playing} }

  function ToldTrack(op: Operation): Option<Option<nat>> {
    match op
    case Handle(LifecycleChanged(_, track), s, _, _) => Some(if track.None? then s.trackId else track)
    case Handle(Paused(track, _), s, _, _) => Some(if track.None? then s.trackId else track)
    case Handle(TrackChanged(track, _), _, _, _) => Some(track)
    case Reconcile(s, _, _) => if Eventful(s) then Some(s.trackId) else None
    case Flush(s, _, _) => Some(s.trackId)
    case _ => None
  }

  function ToldIndex(op: Operation): Option<int> {
    match op
    case Handle(TrackChanged(_, index), _, _, _) => Some(AsI32(index))
    case _ => None
  }

  function ToldPosition(op: Operation): Option<nat> {
    match op
    case Handle(e, s, _, _) =>
      (match e
       case LifecycleChanged(l, _) =>
         if l in {AtStop, AtEnd} then Some(0) else if l in {AudioFlowing, Playing} then Some(s.positionMs) else None
       case Paused(_, position) => Some(position)
       case Stopped => Some(0)
       case Ended => Some(0)
       case Seeked(position) => Some(position)
       case PositionCheckpoint(position) => if s.lifecycle in {AudioFlowing, Playing} then Some(position) else None
       case TrackChanged(_, _) => if s.lifecycle in {AudioFlowing, Playing} then Some(s.positionMs) else None
       case _ => None)
    case Reconcile(s, _, _) =>
      if !Eventful(s) then None else Some(if s.lifecycle in {AtStop, AtEnd} then 0 else s.positionMs)
    case Flush(s, _, _) => Some(s.positionMs)
    case Lost(_) => None
  }

  function ToldPlaying(op: Operation): Option<bool> {
    match op
    case Handle(e, s, _, _) =>
      (match e
       case LifecycleChanged(l, _) => Some(l in {AudioFlowing, Playing})
       case Paused(_, _) => Some(false)
       case Stopped => Some(false)
       case Ended => Some(false)
       case Failed => Some(false)
       case PositionCheckpoint(_) => if s.lifecycle in {AudioFlowing, Playing} then Some(true) else None
       case _ => None)
    case Reconcile(s, _, _) => if Eventful(s) then Some(s.lifecycle in {AudioFlowing, Playing}) else None
    case Flush(_, _, _) => Some(false)
    case Lost(_) => None
  }

  /** The snapshot, if any, whose volume, shuffle and repeat the operation tells. */
  function ToldSettings(op: Operation): Option<Snapshot> {
    match op
    case Handle(e, s, _, _) => if e.LifecycleChanged? || e.Paused? then Some(s) else None
    case Reconcile(s, _, _) => if Eventful(s) then Some(s) else None
    case Flush(s, _, _) => Some(s)
    case Lost(_) => None
  }

  function ToldVolume(op: Operation): Option<nat> {
    match op
    case Handle(VolumeChanged(volume), _, _, _) => Some(volume)
    case _ => if ToldSettings(op).Some? then Some(ToldSettings(op).value.volume) else None
  }

  function ToldShuffle(op: Operation): Option<bool> {
    match op
    case Handle(ShuffleChanged(shuffle), _, _, _) => Some(shuffle)
    case _ => if ToldSettings(op).Some? then Some(ToldSettings(op).value.shuffle) else None
  }

  function ToldRepeat(op: Operation): Option<string> {
    match op
    case Handle(RepeatChanged(repeat), _, _, _) => Some(repeat)
    case _ => if ToldSettings(op).Some? then Some(ToldSettings(op).value.repeat) else None
  }

  /** The last value that operations with a readable and writable row have told, or the one at the start. */
  function LastTold<T>(tell: Operation -> Option<T>, ops: seq<Operation>, start: T): T {
    if ops == [] then start else
    var before, op := LastTold(tell, ops[..|ops| - 1], start), ops[|ops| - 1];
    if op.Lost? || !op.loads || !op.writes then before else tell(op).GetOr(before)
  }

  /** Every column is what it was last told. */
  ghost predicate AsTold(p: Projection, start: Projection, ops: seq<Operation>) {
    && p.trackId == LastTold(ToldTrack, ops, start.trackId)
    && p.index == LastTold(ToldIndex, ops, start.index)
    && p.positionMs == LastTold(ToldPosition, ops, start.positionMs)
    && p.playing == LastTold(ToldPlaying, ops, start.playing)
    && p.volume == LastTold(ToldVolume, ops, start.volume)
    && p.shuffle == LastTold(ToldShuffle, ops, start.shuffle)
    && p.repeat == LastTold(ToldRepeat, ops, start.repeat)
  }

  /** Column by column: what one operation makes of a row. */
  function Overwritten(p: Projection, op: Operation): Projection {
    Projection(ToldTrack(op).GetOr(p.trackId), ToldIndex(op).GetOr(p.index), ToldPosition(op).GetOr(p.positionMs),
               ToldPlaying(op).GetOr(p.playing), ToldVolume(op).GetOr(p.volume), ToldShuffle(op).GetOr(p.shuffle),
               ToldRepeat(op).GetOr(p.repeat))
  }

  lemma WantedIsTold(op: Operation, p: Projection)
    ensures Overwritten(p, op) == if NeedsRow(op) then Wanted(op, p) else p
  {
  }

  lemma ToldOnce(start: Projection, p: Projection, ops: seq<Operation>)
    requires ops != [] && AsTold(p, start, ops[..|ops| - 1])
    ensures var op := ops[|ops| - 1];
            AsTold(if op.Lost? || !op.loads || !op.writes then p else Overwritten(p, op), start, ops)
  {
  }

  lemma {:induction false} WrittenAsTold(row: Option<Row>, ops: seq<Operation>)
    ensures var r, start := RunAlways(row, ops).GetOr(DEFAULT_ROW), row.GetOr(DEFAULT_ROW);
            AsTold(r.p, start.p, ops) && r.rest == start.rest
  {
    if ops != [] {
      var before, op := ops[..|ops| - 1], ops[|ops| - 1];
      var r := RunAlways(row, before).GetOr(DEFAULT_ROW);
      WrittenAsTold(row, before);
      ToldOnce(row.GetOr(DEFAULT_ROW).p, r.p, ops);
      WantedIsTold(op, r.p);
      assert RunAlways(row, ops).GetOr(DEFAULT_ROW) ==
             r.(p := if op.Lost? || !op.loads || !op.writes then r.p else Overwritten(r.p, op));
    }
  }

  /**
   Over every run, with any events lost and any reads and writes failing, each column of the stored row is
   the last value it was told, unless the history repeats itself over a flush.
   */
  lemma RowIsAsTold(s: Store, ops: seq<Operation>)
    requires Started(s) && !RepeatsOverFlush(s.row, ops)
    ensures var r, start := Run(s, ops).row.GetOr(DEFAULT_ROW), s.row.GetOr(DEFAULT_ROW);
            AsTold(r.p, start.p, ops) && r.rest == start.rest
  {
    DedupIsInvisibleIff(s, ops);
    WrittenAsTold(s.row, ops);
  }

  /** In particular over every run without a flush. */
  lemma {:induction false} NoFlushNoRepeat(s: Store, ops: seq<Operation>)
    requires Started(s) && forall i :: 0 <= i < |ops| ==> !ops[i].Flush?
    ensures !RepeatsOverFlush(s.row, ops)
  {
    if ops != [] {
      var before := ops[..|ops| - 1];
      NoFlushNoRepeat(s, before);
      DedupIsInvisibleIff(s, before);
      RemembersLastWanted(s, before);
      DedupIsInvisible(s, before);
    }
  }

  // ---- Health ----

  function Outcomes(s: Store, ops: seq<Operation>): seq<RowOutcome> {
    if ops == [] then [] else
    Outcomes(s, ops[..|ops| - 1]) + [Perform(Run(s, ops[..|ops| - 1]), ops[|ops| - 1]).outcome]
  }

  function Failures(os: seq<RowOutcome>): nat {
    if os == [] then 0 else
    Failures(os[..|os| - 1]) + if os[|os| - 1] in {LoadFailed, PersistFailed} then 1 else 0
  }

  /** Failures since the last write that succeeded. */
  function RecentFailures(os: seq<RowOutcome>): nat {
    if os == [] || os[|os| - 1] == Persisted then 0 else
    RecentFailures(os[..|os| - 1]) + if os[|os| - 1] in {LoadFailed, PersistFailed} then 1 else 0
  }

  /** A failed load or write counts, a write that succeeds starts over, everything else leaves health alone. */
  lemma HealthStep(s: Store, op: Operation)
    ensures var w := Perform(s, op);
            w.store.health ==
              match w.outcome
              case LoadFailed => Health(false, s.health.consecutiveFailures + 1, s.health.failuresTotal + 1)
              case PersistFailed => Health(false, s.health.consecutiveFailures + 1, s.health.failuresTotal + 1)
              case Persisted => Health(true, 0, s.health.failuresTotal)
              case _ => s.health
  {
  }

  /** Health counts the failures of the run, and those since the last success. */
  lemma {:induction false} HealthCounts(s: Store, ops: seq<Operation>)
    requires Started(s)
    ensures var os := Outcomes(s, ops);
            Run(s, ops).health == Health(RecentFailures(os) == 0, RecentFailures(os), Failures(os))
  {
    if ops != [] {
      var before := ops[..|ops| - 1];
      HealthCounts(s, before);
      HealthStep(Run(s, before), ops[|ops| - 1]);
      var os := Outcomes(s, ops);
      assert os[..|os| - 1] == Outcomes(s, before);
    }
  }
}
