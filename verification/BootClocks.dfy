/**
 The life of one origin over many boots: an epoch and a Lamport reservation persisted in the configuration
 table, stamps issued while running, shutdown flushes and crashes, and reads of the table that may fail.
 As long as reads succeed and no boot outruns its reservation, everything the origin ever stamps is ordered
 the same way by position and by clock, so the conflict order stays total.
 */
module BootClocks {
  import opened Basics
  import opened Precedence
  import opened SyncServer
  import opened AtMostOnce
  import Convergence

  const RESERVATION: nat := 10_000

  datatype Config = Config(epoch: Option<u64>, lamport: Option<u64>)

  /** The counters of a running boot. */
  datatype Live = Live(epoch: u64, sequence: nat, lamport: u64)

  datatype Issued = Issued(position: Position, lamport: u64)

  /** `boots` are the epochs of all boots, `log` is everything stamped. */
  datatype Origin = Origin(config: Config, running: Option<Live>, boots: seq<u64>, log: seq<Issued>)

  /** A boot starts on the time of its construction and reads the table at `now`. */
  datatype Event =
    | Boot(built: u64, now: u64, readsEpoch: bool, readsLamport: bool)
    | Issue
    | Hear(remote: u64)
    | Flush
    | Crash

  function NextEpoch(last: Option<u64>, now: u64): (r: u64)
    ensures now <= r
    ensures last.Some? && last.value < U64_MAX ==> last.value < r
  {
    match last
    case Some(e) => if SaturatingAdd(e, 1) >= now then SaturatingAdd(e, 1) else now
    case None => now
  }

  /** A boot that cannot read the persisted epoch stays on its construction time and persists nothing. */
  function BootEpoch(c: Config, built: u64, now: u64, readsEpoch: bool): u64 {
    if readsEpoch then NextEpoch(c.epoch, now) else built
  }

  function NextReservation(last: Option<u64>, current: u64): (r: u64)
    ensures current <= r && (last.Some? ==> last.value <= r)
  {
    match last
    case Some(l) => SaturatingAdd(if l >= current then l else current, RESERVATION)
    case None => SaturatingAdd(current, RESERVATION)
  }

  /** A boot that cannot read the persisted clock reserves as if there were none, and overwrites it. */
  function BootLamport(c: Config, readsLamport: bool): u64 {
    NextReservation(if readsLamport then c.lamport else None, 0)
  }

  function Step(o: Origin, e: Event): Origin {
    match e
    case Boot(built, now, readsEpoch, readsLamport) =>
      var epoch := BootEpoch(o.config, built, now, readsEpoch);
      var lamport := BootLamport(o.config, readsLamport);
      Origin(Config(if readsEpoch then Some(epoch) else o.config.epoch, Some(lamport)),
             Some(Live(epoch, 0, lamport)), o.boots + [epoch], o.log)
    case Issue =>
      if o.running.None? then o else
      var l := o.running.value;
      var next := Live(l.epoch, l.sequence + 1, SaturatingAdd(l.lamport, 1));
      o.(running := Some(next), log := o.log + [Issued(Position(next.epoch, next.sequence), next.lamport)])
    case Hear(remote) =>
      if o.running.None? then o else
      o.(running := Some(o.running.value.(lamport := ObserveLamport(o.running.value.lamport, remote))))
    case Flush =>
      if o.running.None? then o else
      o.(config := o.config.(lamport := Some(o.running.value.lamport)))
    case Crash => o.(running := None)
  }

  function Run(o: Origin, events: seq<Event>): Origin {
    if events == [] then o else Step(Run(o, events[..|events| - 1]), events[|events| - 1])
  }

  const NEW := Origin(Config(None, None), None, [], [])

  // ---- Epochs ----

  /** Boots are serial and read the persisted epoch, which is not at the top of its range. */
  predicate Serial(o: Origin, e: Event) {
    e.Boot? ==> o.running.None? && e.readsEpoch && o.config.epoch.GetOr(0) < U64_MAX
  }

  predicate SerialRun(events: seq<Event>) {
    events == [] ||
    (SerialRun(events[..|events| - 1]) && Serial(Run(NEW, events[..|events| - 1]), events[|events| - 1]))
  }

  /** The persisted epoch is that of the last boot and exceeds all earlier ones. */
  ghost predicate EpochsRecorded(o: Origin) {
    && (o.boots == [] <==> o.config.epoch == None)
    && (o.boots != [] ==> o.config.epoch == Some(o.boots[|o.boots| - 1]))
    && (forall i, j :: 0 <= i < j < |o.boots| ==> o.boots[i] < o.boots[j])
  }

  /**
   Each boot's epoch exceeds those of all earlier boots, even if the wall clock went back, whether or not
   they stamped anything, however far their clocks ran, and whatever became of the persisted clock.
   */
  lemma {:induction false} EpochsRise(events: seq<Event>)
    requires SerialRun(events)
    ensures EpochsRecorded(Run(NEW, events))
  {
    if events != [] {
      EpochsRise(events[..|events| - 1]);
    }
  }

  /** A boot exceeds every earlier one exactly when it can read the persisted epoch or was built later than it. */
  lemma EpochExceedsEarlierIff(events: seq<Event>, boot: Event)
    requires SerialRun(events) && boot.Boot?
    requires var o := Run(NEW, events); o.boots != [] && o.config.epoch.GetOr(0) < U64_MAX
    ensures var o := Run(NEW, events);
            (forall i :: 0 <= i < |o.boots| ==> o.boots[i] < Step(o, boot).running.value.epoch)
            <==> boot.readsEpoch || o.config.epoch.GetOr(0) < boot.built
  {
    EpochsRise(events);
    var o := Run(NEW, events);
    var last := |o.boots| - 1;
    assert o.boots[last] == o.config.epoch.value;
  }

  // ---- Clocks ----

  /** The running clock lies within what the next boot will skip. */
  predicate WithinReservation(o: Origin) {
    o.running.Some? ==> o.running.value.lamport <= o.config.lamport.GetOr(0) + RESERVATION
  }

  /** Boots are serial, read the table, end within their reservation; counters are not at the top of their range. */
  predicate Orderly(o: Origin, e: Event) {
    match e
    case Boot(_, _, readsEpoch, readsLamport) =>
      && o.running.None? && readsEpoch && readsLamport
      && o.config.epoch.GetOr(0) < U64_MAX && o.config.lamport.GetOr(0) + RESERVATION < U64_MAX
    case Crash => WithinReservation(o)
    case Issue => o.running.Some? ==> o.running.value.lamport < U64_MAX
    case _ => true
  }

  predicate OrderlyRun(events: seq<Event>) {
    events == [] ||
    (OrderlyRun(events[..|events| - 1]) && Orderly(Run(NEW, events[..|events| - 1]), events[|events| - 1]))
  }

  /** Later stamps have later positions and later clock readings. */
  ghost predicate Ascending(log: seq<Issued>) {
    forall i, j :: 0 <= i < j < |log| ==>
      log[i].position.Before(log[j].position) && log[i].lamport < log[j].lamport
  }

  ghost predicate Covered(o: Origin) {
    && (o.log != [] || o.running.Some? ==> o.config.epoch.Some? && o.config.lamport.Some?)
    && (o.running.Some? ==> o.config.epoch == Some(o.running.value.epoch))
    && (forall i :: 0 <= i < |o.log| ==>
          && o.log[i].position.epoch <= o.config.epoch.value
          && (match o.running
              case Some(l) =>
                && o.log[i].lamport <= l.lamport
                && (o.log[i].position.epoch == l.epoch ==> o.log[i].position.sequence <= l.sequence)
              case None => o.log[i].lamport <= o.config.lamport.value + RESERVATION))
  }

  lemma CoveredStep(o: Origin, e: Event)
    requires Ascending(o.log) && Covered(o) && Orderly(o, e)
    ensures Ascending(Step(o, e).log) && Covered(Step(o, e))
  {
  }

  /** Over every orderly life of an origin, positions and clock readings rise together. */
  lemma {:induction false} StampsRiseAcrossBoots(events: seq<Event>)
    requires OrderlyRun(events)
    ensures Ascending(Run(NEW, events).log) && Covered(Run(NEW, events))
  {
    if events != [] {
      StampsRiseAcrossBoots(events[..|events| - 1]);
      CoveredStep(Run(NEW, events[..|events| - 1]), events[|events| - 1]);
    }
  }

  /** The next boot's epoch is past all issued before, and its clock is not behind them. */
  lemma NextBootIsPast(events: seq<Event>, boot: Event)
    requires OrderlyRun(events) && boot.Boot? && Orderly(Run(NEW, events), boot)
    ensures var o := Run(NEW, events);
            var live := Step(o, boot).running.value;
            forall i :: 0 <= i < |o.log| ==> o.log[i].position.epoch < live.epoch && o.log[i].lamport <= live.lamport
  {
    StampsRiseAcrossBoots(events);
  }

  function StampFor(dev: string, i: Issued, updatedAt: int): Stamp {
    Stamp(dev, i.position.epoch, i.position.sequence, i.lamport, updatedAt)
  }

  /** Hence no two states of such an origin are inverted, whatever their wall-clock times. */
  lemma OriginNeverInverts(events: seq<Event>, dev: string, i: nat, j: nat, ti: int, tj: int)
    requires OrderlyRun(events) && i < |Run(NEW, events).log| && j < |Run(NEW, events).log| && i != j
    ensures !Inverted(StampFor(dev, Run(NEW, events).log[i], ti), StampFor(dev, Run(NEW, events).log[j], tj))
  {
    StampsRiseAcrossBoots(events);
    var log := Run(NEW, events).log;
    if i < j {
      assert log[i].position.Before(log[j].position);
    } else {
      assert log[j].position.Before(log[i].position);
    }
  }

  /** The first stamp that a boot issues. */
  function FirstIssue(c: Config, boot: Event): Issued
    requires boot.Boot?
  {
    Step(Step(Origin(c, None, [], []), boot), Issue).log[0]
  }

  /** The clock a boot starts from: the persisted one, or none if it cannot be read. */
  function Base(c: Config, readsLamport: bool): u64 {
    if readsLamport then c.lamport.GetOr(0) else 0
  }

  /**
   The reservation is exact, failed reads included. The first stamp of the next boot outranks by clock
   exactly the stamps at most 10,000 past what the boot read. If it supersedes the last stamp it is
   inverted against it exactly when that one is more than 10,001 past; if it does not, because the epoch
   could not be read, the last stamp is inverted against it exactly when the clock did rise.
   */
  lemma ReservationIsExact(c: Config, boot: Event, last: Issued, dev: string, t: int, u: int)
    requires boot.Boot? && dev != "" && c.epoch.GetOr(0) < U64_MAX && Base(c, true) + RESERVATION + 1 < U64_MAX
    requires last.lamport > 0 && last.position != FirstIssue(c, boot).position
    ensures var first := FirstIssue(c, boot);
            var limit := Base(c, boot.readsLamport) + RESERVATION;
            && (last.lamport < first.lamport <==> last.lamport <= limit)
            && (Inverted(StampFor(dev, first, t), StampFor(dev, last, u)) <==>
                  last.position.Before(first.position) && last.lamport > limit + 1)
            && (Inverted(StampFor(dev, last, u), StampFor(dev, first, t)) <==>
                  !last.position.Before(first.position) && last.lamport <= limit)
  {
    assert FirstIssue(c, boot).lamport == Base(c, boot.readsLamport) + RESERVATION + 1;
  }

  /** The persisted clock never goes down across a boot exactly when it is read or was within one reservation. */
  lemma ClockKeptIff(c: Config, boot: Event)
    requires boot.Boot? && c.lamport.Some?
    ensures Step(Origin(c, None, [], []), boot).config.lamport.value >= c.lamport.value
            <==> boot.readsLamport || c.lamport.value <= RESERVATION
  {
  }

  /** A boot supersedes a stamp of the epoch last persisted exactly when it reads that epoch or was built after it. */
  lemma SupersedesIff(c: Config, boot: Event, last: Issued)
    requires boot.Boot? && c.epoch == Some(last.position.epoch) && last.position.epoch < U64_MAX
    requires last.position.sequence > 0
    ensures last.position.Before(FirstIssue(c, boot).position)
            <==> boot.readsEpoch || last.position.epoch < boot.built
  {
  }

  /** Both failures on concrete input: one read fails, and the boot is inverted against the one before it. */
  lemma FailedReadsInvert(dev: string)
    requires dev != ""
    ensures var c, last := Config(Some(100), Some(50_000)), Issued(Position(100, 5), 50_005);
            var noClock, noEpoch := Boot(90, 90, true, false), Boot(90, 90, false, true);
            && Step(Origin(c, None, [], []), noClock).config.lamport == Some(10_000)
            && Inverted(StampFor(dev, FirstIssue(c, noClock), 0), StampFor(dev, last, 0))
            && Inverted(StampFor(dev, last, 0), StampFor(dev, FirstIssue(c, noEpoch), 0))
  {
    var c, last := Config(Some(100), Some(50_000)), Issued(Position(100, 5), 50_005);
    ReservationIsExact(c, Boot(90, 90, true, false), last, dev, 0, 0);
    ReservationIsExact(c, Boot(90, 90, false, true), last, dev, 0, 0);
  }

  /** A boot stays within its reservation after hearing a peer exactly when both clocks are still below its end. */
  lemma HearingStaysWithinIff(o: Origin, remote: u64)
    requires o.running.Some? && o.running.value.lamport < U64_MAX && remote < LAMPORT_GUARD
    ensures WithinReservation(Step(o, Hear(remote)))
            <==> Max(o.running.value.lamport, remote) < o.config.lamport.GetOr(0) + RESERVATION
  {
  }

  /** However far a boot's clock ran, once flushed it may end: the next boot skips 10,000 past what it flushed. */
  lemma FlushedMayEnd(o: Origin)
    ensures Orderly(Step(o, Flush), Crash)
    ensures o.running.Some? ==>
              var next := NextReservation(Step(o, Flush).config.lamport, 0);
              o.running.value.lamport + RESERVATION <= U64_MAX ==> next == o.running.value.lamport + RESERVATION
  {
  }

  // ---- Traffic ----

  /** `m` carries the stamp of some entry in the life of its device. */
  ghost predicate IssuedIn(m: PlaybackState, lives: map<string, seq<Event>>) {
    && Convergence.Stamped(m) && Convergence.Erase(m) == m && m.sequence.Some?
    && m.deviceId.value in lives
    && exists i :: 0 <= i < |LogOf(lives[m.deviceId.value])| && Carries(m, LogOf(lives[m.deviceId.value])[i])
  }

  function LogOf(events: seq<Event>): seq<Issued> {
    Run(NEW, events).log
  }

  predicate Carries(m: PlaybackState, i: Issued)
    requires Convergence.Stamped(m) && m.sequence.Some?
  {
    PositionOf(m) == i.position && m.lamport.value == i.lamport
  }

  /**
   All traffic that orderly origins ever produce, over all their boots, is coherent: this discharges the
   side condition under which replicas converge.
   */
  lemma TrafficIsCoherent(states: set<PlaybackState>, lives: map<string, seq<Event>>)
    requires forall dev :: dev in lives ==> OrderlyRun(lives[dev])
    requires forall m :: m in states ==> IssuedIn(m, lives)
    requires forall a, b :: a in states && b in states ==> Convergence.Identified(a, b)
    ensures Convergence.Coherent(states)
  {
    forall a, b | a in states && b in states
      ensures !Inverted(StampOf(a), StampOf(b))
    {
      if a.deviceId == b.deviceId && a != b {
        var dev := a.deviceId.value;
        var log := LogOf(lives[dev]);
        var i :| 0 <= i < |log| && Carries(a, log[i]);
        var j :| 0 <= j < |log| && Carries(b, log[j]);
        assert Convergence.Identified(a, b);
        OriginNeverInverts(lives[dev], dev, i, j, 0, 0);
        assert StampOf(a) == StampFor(dev, log[i], 0) && StampOf(b) == StampFor(dev, log[j], 0);
      }
    }
  }
}
