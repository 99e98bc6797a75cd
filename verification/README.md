# Michi: a verified model of its protocols

Michi is a self-hosted music server. Several servers share one playback state, find each other on the
local network, keep login sessions, drive small receivers and report to Home Assistant over MQTT. This
project models the protocols behind that and proves what they keep over all runs. Check it with
`dafny verify dfyconfig.toml`.

## What is modelled

**Playback sync.** Every server holds one playback state with its provenance (device, boot, epoch,
sequence, Lamport clock) and keeps whichever state has precedence. `Precedence` is the conflict order,
`SyncServer` one replica, `Convergence` its runs, `AtMostOnce` the cursors, `Quiescence` and `Agreement`
whole networks, `SyncSender` the sending half of a connection, `LamportClock` the shared clock under
interleaved compare-and-swap, `BootClocks` epochs and clock reservations over restarts,
`SessionProjection` the database row written from engine events, and `PlaybackCoordinator` the object that
does all of this in place. The chain of results is: an origin whose boots read their persisted clocks and
stay within their reservation never emits an inverted pair (`BootClocks.TrafficIsCoherent`); without
inverted pairs the order is total (`Precedence.Transitive`); then every replica holds the maximum of what
it saw exactly as long as no engine event on a peer's timeline reverts it (`Convergence.HoldsMaximumIff`),
whole networks fall silent (`Quiescence.ExchangeStops`), and whenever nothing is in flight all servers that
have caught up with what they missed agree (`Agreement.AgreeWhenQuiet`); one that lost the highest state gets it
back by the origin's re-broadcast (`Agreement.RebroadcastRecovers`). `SyncLimits` says exactly what
happens when a side condition fails, and to states without clock, sequence or device id.

**Presence.** `ScentStore`, `ScentPresence`, `ScentHistory` and `ScentReplay`: signed announcements and mDNS
sightings of peers, whose flags cache a function of time and whose events let an observer rebuild the store.

**Access.** `AuthSessions` is the in-memory session cache over the session table, `AttemptLimiter` the
fixed-window limiter, `ForwardedChain` the resolution of a client address behind trusted proxies.

**Devices.** `Receiver` is the PIN pairing and the single session of a receiver, `AckTracker` the
acknowledgement tracker of the Home Assistant bridge, `RemainingLength` and `TopicFilter` the MQTT 3.1.1
length codec and topic matcher.

State that the source updates in place is a class whose methods are proved against a function of the old
state; theorems about runs are about that function. Most stores have a theorem that tells their contents, and
their answers, from the history of calls alone: session row, login sessions, limiter, presence records,
receiver, acknowledgements, event ids.

## Where the code differs from what it says

- An engine event that no command caused, such as the position checkpoint, is projected with the origin that
  last set the engine's timeline, without comparing it with the register. After a local command that keeps
  the timeline (volume, shuffle, repeat, queue, next, previous) the next checkpoint puts the peer's older
  state back (`SyncLimits.CheckpointReverts`). The register is on the maximum exactly when that has not
  happened since the last local event or the last state above all others (`Convergence.HoldsMaximumIff`,
  `Convergence.OnMaximumThroughoutIff`).
- The conflict order is documented as a strict total order (crates/michi-sync/src/lib.rs:209-221). It has
  cycles of three states, exactly where two states of one device are inverted
  (`Precedence.CycleIffInverted`, `SyncLimits.DivergesIffInverted`). The direct playback-state route
  produces such states (`SyncLimits.UnsequencedStateInverts`, `SyncLimits.DirectRouteDiverges`), and so does
  a boot that outruns its clock reservation (`BootClocks.ReservationIsExact`).
- Deduplication is committed only after full effect so that a failed application can be retried
  (crates/michi-api/src/sync_ws.rs:132, 139, 263). The retry is refused once the attempt has emitted an
  event, because its projection carries the same stamp and a later time (`SyncLimits.RetryReachesEngineIff`),
  or once a checkpoint has done so on the timeline the attempt set (`SyncLimits.RetryAfterTickIff`).
- A winning local state is sent again to help peers converge (crates/michi-api/src/sync_ws.rs:182). It is not
  sent in answer to a state that was applied here before (`SyncLimits.AppliedGetsNoAnswer`); exactly when it is,
  and that it then recovers a server that lost it, is `Agreement.AnsweredIff` and `Agreement.RebroadcastRecovers`.
- Applying a state without a track only seeks, so a track already loaded stays and is shown under the stamp of
  a state that has none (`Convergence.ObeyingShowsIff`).
- Peers without Lamport clocks are documented to be ordered by time. The projection overwrites that time,
  so the first state received wins (`SyncLimits.FirstReceivedWinsIff`).
- A state without a device id is projected under the name `remote_peer` (crates/michi-api/src/sync_ws.rs:189-192),
  which raises its rank: ties against it are resolved by order of arrival
  (`SyncLimits.UnnamedFirstReceivedWinsIff`, `SyncLimits.BothUnnamedFirstReceivedWinsIff`,
  `SyncLimits.UnnamedExample`) and its retry is refused more often (`SyncLimits.RetryReachesEngineIff`).
- A clock reading near the maximum is rejected, but its state is applied all the same and then outranks
  local commands (`SyncLimits.LocalOutranksIff`).
- A server that restarts drops its own earlier states as echoes (`SyncLimits.BootedServersAgreeIff`). It is
  back on the highest once it stamps, or hears a state above them (`Agreement.AgreeWhenQuiet`,
  `Agreement.OriginRegains`).
- Initialisation is meant to reserve and persist monotonically. A failed read of the persisted clock is
  treated as an absent value and the stored one overwritten by a lower one, unless it was within one
  reservation (`BootClocks.ClockKeptIff`); a boot that cannot read the epoch stays on its construction time
  (`BootClocks.EpochExceedsEarlierIff`). Either can invert (`BootClocks.FailedReadsInvert`).
- A server with shuffle or repeat set sends its snapshot twice on a new connection if that state is offered next
  (`SyncSender.RepeatsSnapshotIff`).
- A base-URL update can withdraw trust without an event, and can refresh an offline record without bringing
  it online (`ScentReplay.StepReplays`, `ScentPresence.OnlineIsActiveIff`).
- A lookup that fails to read the user table deletes a valid session (`AuthSessions.SessionSurvivesIff`).

## Assumptions

- One call under the playback lock is one step, and its engine events are projected before the next step.
  A volume command always emits an event. As far as the register is concerned, events lost to lag are
  those of local commands; the snapshot reconciled for them is a tick.
- A state's provenance identifies it: within the states that circulate, event ids are unique, and so are
  stamps and places (device, epoch, sequence). Convergence is about provenance; what is played agrees too
  where engines obey their commands, their position taken to stand still meanwhile, and no tick on a peer's
  timeline came.
- Each call on the session store, each initialisation and each presence operation with its event is one
  atomic step, including the removal of an orphaned session that a lookup hands to another task. Wall clock and
  monotonic clock advance together. Writes to the configuration table succeed.
- Digests are injective; tokens, identifiers and event ids are handed in. User ids are not reused.
- Local sequence numbers, attempt counts and health counters are unbounded; Lamport clocks and epochs are
  64-bit and saturate. Times are integers.
- The order in which a map yields its entries is an argument.
- MQTT packet ids are not reused while unacknowledged (section 2.3.1 of MQTT 3.1.1), and the publications
  of a connection start with its discovery messages.

## Model

| member | source | states |
|---|---|---|
| `Precedence.Trichotomy` | crates/michi-sync/src/lib.rs:222-288 | of two states exactly one precedes the other, unless all five compared values coincide |
| `Precedence.Transitive` | crates/michi-sync/src/lib.rs:222-288 | the order is transitive on any three states without an inverted pair (a later state of one device with a lower clock than an earlier one) |
| `Precedence.CycleIffInverted` | crates/michi-sync/src/lib.rs:209-288 | the documented strict total order fails exactly on inverted pairs: two states of one device lie on a cycle with a third device's state if and only if they are inverted |
| `PlaybackCoordinator.Coordinator.ApplyRemotePlaybackState` | crates/michi-api/src/sync_ws.rs:95-290 | one received state under the playback lock, field by field, equals the step function `Apply`: module switch, echo, clock, duplicate, stale, precedence with re-broadcast, engine commands, commit only after full effect; no command is issued for a state that is filtered or outranked, and all three for one applied in full |
| `PlaybackCoordinator.Coordinator.IssueCommands` | crates/michi-api/src/sync_ws.rs:206-262 | the engine is told the state's track and position, transport and volume, each only if the commands before succeeded; it has taken full effect exactly if all three were issued and succeeded; the first one that reaches the engine sets its timeline, and whatever is emitted is projected with the state's provenance, failures after an event included |
| `PlaybackCoordinator.Coordinator.ProjectRegister` | crates/michi-api/src/playback_projection.rs:535-592 | an event overwrites the register with what it shows, its time and its origin's provenance, without comparing; a local one carries the next sequence and clock reading and is sent as it stands, a remote one is not sent |
| `PlaybackCoordinator.Coordinator.HandleEvent` | crates/michi-api/src/playback_projection.rs:520-680 | one engine event: the register shows the snapshot's track, volume and modes, its position unless stopped or ended, playing exactly if audio flows, with the event's provenance, and is sent exactly if that is local; then the event's columns of the session row, then the persist |
| `PlaybackCoordinator.Coordinator.ReconcileFromSnapshot` | crates/michi-api/src/playback_projection.rs:682-782 | a snapshot after lost events: the register shows it field by field with the provenance of its timeline and its own time, sent exactly if that timeline is local; then all columns but the queue index, unless there is neither track nor playback |
| `PlaybackCoordinator.Coordinator.DeriveColumns` | crates/michi-api/src/playback_projection.rs:610-672 | each engine event changes the columns that `SessionProjection.RowIsAsTold` tells by the history, and no others |
| `PlaybackCoordinator.Coordinator.Persist` | crates/michi-api/src/playback_projection.rs:833-871 | an unchanged projection is not written; health follows the outcome of a write |
| `PlaybackCoordinator.Coordinator.LoadRow` | crates/michi-db/src/lib.rs:5081-5107 | the latest row, created with defaults if there is none; a failed load is counted |
| `PlaybackCoordinator.Coordinator.FlushShutdown` | crates/michi-api/src/playback_projection.rs:785-830 | shutdown writes a paused row directly and persists the clock |
| `PlaybackCoordinator.Coordinator.InitializeDbState` | crates/michi-api/src/playback_projection.rs:213-247 | epoch and reservation after initialisation, with either read failing, equal a boot of the origin machine |
| `PlaybackCoordinator.Coordinator.RecordPeerState` | crates/michi-api/src/playback_projection.rs:403-420 | the peer's cursor is overwritten and no other |
| `PlaybackCoordinator.Coordinator.RecordProcessed` | crates/michi-api/src/playback_projection.rs:429-435 | the event-id set is emptied past 10,000 entries before the id is added |
| `SyncServer.ObserveLamport` | crates/michi-api/src/playback_projection.rs:348-370 | below the guard the new reading exceeds both the local and the remote one; it never goes down |
| `SyncServer.RecordProcessedEvent` | crates/michi-api/src/playback_projection.rs:429-435 | the id just recorded is in the set, earlier ones are kept up to the bound, and the set stays within it |
| `Convergence.HoldsMaximumIff` | crates/michi-api/src/sync_ws.rs:109-290 | over any run of deliveries, local commands, engine events of its own accord and reconciled snapshots, a plain register without filters would hold the maximum of all stamped and received; the replica holds it exactly when not displaced: no tick on a peer's timeline has put an older state over a newer local one since the last local event or the last state above all others |
| `Convergence.OnMaximumThroughoutIff` | crates/michi-playback/src/engine.rs:109-116 | the replica is on the maximum after every prefix of a run exactly when no tick comes while the timeline is a peer's and the register shows a local state |
| `Convergence.EndsOnMaximum` | crates/michi-api/src/sync_ws.rs:109-290 | after any run that is not displaced, with duplicates, echoes and reordering, the replica holds the precedence-maximum of all it stamped and received |
| `Convergence.ReplicasConverge` | crates/michi-api/src/sync_ws.rs:109-290 | two replicas, neither displaced, that observed the same states in whatever orders hold the same one |
| `Convergence.PayloadsConverge` | crates/michi-api/src/playback_projection.rs:570-586 | without ticks on a peer's timeline, with messages that say what was commanded and engines that obey their commands, they also play the same: what was commanded where the state they hold was stamped |
| `Convergence.ObeyingShowsIff` | crates/michi-api/src/sync_ws.rs:206-262 | an engine that obeys the commands for a state shows its track, position, transport and volume exactly when the volume is in range and the state has a track or none is loaded; shuffle and repeat stay its own |
| `Convergence.RunTracks` | crates/michi-api/src/sync_ws.rs:109-290 | the inductive invariant of every legal run, displaced or not: highest state, register, timeline, cursors, event ids and clock against what was observed |
| `Convergence.TracksRevert` | crates/michi-playback/src/engine.rs:109-116 | an event on a peer's timeline puts that peer's state back, and makes the register lag exactly if it lagged or was overtaken |
| `Convergence.SettingCommandHolds` | crates/michi-playback/src/engine.rs:646-1040 | a local command that takes the timeline over cannot be reverted by the engine's own events: until something is received the register stays on states stamped here |
| `Convergence.TickRevertsIff` | crates/michi-playback/src/engine.rs:109-116 | on a peer's timeline the tick after a local event is stamped here if the command took the timeline over, and puts the peer's state back if it kept it |
| `Convergence.FilteredIsBelow` | crates/michi-api/src/sync_ws.rs:132-149 | a state dropped by the event-id set or a cursor is at or below one observed before, hence the maximum |
| `Convergence.LocalStampAbove` | crates/michi-api/src/playback_projection.rs:550-568 | a local stamp outranks every state the replica has seen and is inverted with none |
| `Convergence.TimeIrrelevant` | crates/michi-sync/src/lib.rs:222-288 | between states with distinct provenance precedence never reads the wall clock, so overwriting it in a projection is harmless |
| `SyncLimits.CheckpointReverts` | crates/michi-playback/src/engine.rs:391-401 | the failing input: a server that received a state, changed its volume and plays on is back on that state while its peer holds the volume's stamp; a state between the two is then taken here and refused there |
| `SyncLimits.AppliedGetsNoAnswer` | crates/michi-api/src/sync_ws.rs:132-149 | the failing input: a state applied here before meets the event-id set first, so a winning local state is not sent back for it |
| `SyncLimits.DivergesIffInverted` | crates/michi-api/src/sync_ws.rs:168-187 | two states of one device, sequenced or not and with any payload and time, can make a replica's outcome depend on the order of delivery if and only if they are inverted; otherwise all orders with any repetitions agree |
| `SyncLimits.UnsequencedStateInverts` | crates/michi-api/src/library.rs:923-941 | the state broadcast by the direct playback-state route, which has no sequence, is inverted against whatever the same boot stamped before |
| `SyncLimits.DirectRouteDiverges` | crates/michi-api/src/library.rs:923-941 | hence, of the states as broadcast, some third state makes any other replica depend on the order of delivery |
| `SyncLimits.FirstReceivedWinsIff` | crates/michi-api/src/playback_projection.rs:570-581 | two states of different named devices, with event ids or without, are resolved in favour of whichever arrives first exactly when neither clock nor epoch tells them apart, because a projection overwrites the sender's time |
| `SyncLimits.UnnamedFirstReceivedWinsIff` | crates/michi-api/src/sync_ws.rs:189-202 | a state without a device id against a named one: the first received wins exactly when they are tied and, where there are clocks, the name is below the one a projection gives; otherwise both orders agree |
| `SyncLimits.BothUnnamedFirstReceivedWinsIff` | crates/michi-api/src/sync_ws.rs:189-202 | of two states without a device id the first received wins exactly when they are tied |
| `SyncLimits.UnnamedAgainstOddNameIff` | crates/michi-api/src/sync_ws.rs:189-202 | against a device that goes by the given name itself, or by an empty one: what each order keeps, and that the outcome depends on the order exactly when both keep the first or neither does |
| `SyncLimits.UnnamedExample` | crates/michi-api/src/sync_ws.rs:189-202 | the failing input: equal running clocks, no wall clock read, yet the first received wins |
| `SyncLimits.RetryReachesEngineIff` | crates/michi-api/src/sync_ws.rs:206-273 | after a failed application of any state a retry reaches the engine exactly when the attempt emitted no event, or its projection leaves room: no newer than the state; without a device id, older than it and without a clock |
| `SyncLimits.RetryAfterTickIff` | crates/michi-playback/src/engine.rs:847-891 | once the first command reached the engine, a retry after a tick reaches it exactly when the tick leaves that room |
| `SyncLimits.LocalOutranksIff` | crates/michi-api/src/playback_projection.rs:348-356 | a local command outranks the remote state it replaces exactly when that state's clock reading was below the guard, or the local clock was not behind it anyway |
| `SyncLimits.BootedServersAgreeIff` | crates/michi-api/src/sync_ws.rs:116-123 | echo suppression drops a restarted server's own earlier states: two booted servers agree on a received state exactly when neither is its origin |
| `AtMostOnce.AppliedPositionsIncrease` | crates/michi-api/src/sync_ws.rs:139-149 | with one boot per epoch, the (epoch, sequence) positions applied in full per origin strictly increase, with engine failures and event-id evictions at will |
| `AtMostOnce.NeverAppliedTwice` | crates/michi-api/src/sync_ws.rs:263-273 | no position is applied in full at two points of a run |
| `AtMostOnce.CursorGate` | crates/michi-api/src/playback_projection.rs:376-401 | a state passes the cursor exactly when it is later, or comes from a known different boot of the same epoch |
| `AtMostOnce.ProcessedSetBounded` | crates/michi-api/src/playback_projection.rs:429-435 | over every run the event-id set stays within 10,001 entries |
| `AtMostOnce.AppliedIsDuplicate` | crates/michi-api/src/sync_ws.rs:263-267 | a state applied in full is a duplicate the next time its event id is met |
| `AtMostOnce.RecordedAreRecent` | crates/michi-api/src/playback_projection.rs:429-435 | over every sequence of distinct ids the set holds exactly those since it was last emptied, which is after every 10,001 |
| `Quiescence.RankDrops` | crates/michi-api/src/sync_ws.rs:182-185 | a re-broadcast state ranks strictly above the state that provoked it |
| `Quiescence.ApplySends` | crates/michi-api/src/sync_ws.rs:109-187 | the register is sent exactly when an enabled server that it names receives a state that passes all filters and that the register precedes, and nothing else is; what does not reach the engine changes the clock at most |
| `Quiescence.WeightDrops` | crates/michi-api/src/sync_ws.rs:170-187 | every delivery strictly lowers the weight, re-broadcast copies included; events on a peer's timeline leave it |
| `Quiescence.ExchangeStops` | crates/michi-api/src/sync_ws.rs:170-187 | without new local events every exchange among any number of servers stops: the deliveries are bounded by a weight of the packets in flight, unconditionally in the states and the engines |
| `Agreement.AgreeWhenQuiet` | crates/michi-api/src/sync_ws.rs:109-290 | from the first boot, over any interleaving of local events, ticks, deliveries, re-broadcasts, restarts, lost packets and snapshots on connection, on any number of servers: whenever nothing is in flight every server has observed every state issued but those it missed by a restart or a loss, and holds the highest exactly when it is not displaced and has stamped or heard a state above all it missed |
| `Agreement.HappeningIsSound` | crates/michi-api/src/sync_ws.rs:109-290 | every happening keeps each server on its account of what it observed, and every state issued observed, missed or under way |
| `Agreement.NothingMissed` | crates/michi-api/src/sync_ws.rs:300-320 | without restarts and losses nothing is missed |
| `Agreement.OriginRegains` | crates/michi-api/src/playback_projection.rs:550-568 | a restarted server cannot hear its own highest state again, but whatever it stamps next is the highest |
| `Agreement.AnsweredIff` | crates/michi-api/src/sync_ws.rs:182-185 | when a lower state reaches the origin of the highest, a connected server to which the highest is not under way gets it sent again exactly when the origin still holds it and the lower state passes its filters |
| `Agreement.HighestArrives` | crates/michi-api/src/sync_ws.rs:109-290 | a server that receives the highest state of another device is on it and has caught up with all it missed |
| `Agreement.RebroadcastRecovers` | crates/michi-api/src/sync_ws.rs:170-187 | what the re-broadcast is for: after such an answer, in every history that neither restarts the server nor loses what is sent to it, with local events, deliveries, restarts and losses elsewhere, the server has caught up once nothing is in flight and is on the highest state of all unless displaced |
| `Agreement.AnswerExample` | crates/michi-api/src/sync_ws.rs:170-187 | such an answer does come about: two servers stamp at the same time, the higher state is lost, the lower one arrives |
| `Agreement.StepIsLife` | crates/michi-api/src/playback_projection.rs:550-568 | the counters of a replica move as those of its boot, and each state it stamps is the next entry of the boot's log: the lives that `BootClocks` is about are those that replicas lead |
| `Agreement.OrderlyBootMayRestart` | crates/michi-api/src/playback_projection.rs:213-247 | a boot that reads its persisted epoch and clock, after boots within their reservations, is such a restart |
| `SyncSender.SendTask` | crates/michi-api/src/sync_ws.rs:308-368 | the loop of one connection sends the snapshot and then every state the last one sent does not cover; the comparison is with the snapshot as it stands, shuffle and repeat included |
| `SyncSender.OnWire` | crates/michi-sync/src/lib.rs:312-330 | a message carries everything but shuffle and repeat |
| `SyncSender.WinnerIsSent` | crates/michi-api/src/sync_ws.rs:308-368 | the last message sent is the highest of all states offered to the connection |
| `SyncSender.SentAscend` | crates/michi-api/src/sync_ws.rs:352-361 | each message precedes all sent before it, the repetition of the snapshot excepted |
| `SyncSender.ResendsIff` | crates/michi-api/src/sync_ws.rs:352-361 | a connection passes the highest state on exactly when it was not offered to it before, or is the snapshot that still differs from its message: a re-broadcast helps a peer whose connection never got the state |
| `SyncSender.RepeatsSnapshotIff` | crates/michi-api/src/sync_ws.rs:308-361 | the snapshot is sent twice exactly when shuffle or repeat make it differ from its own message and that is offered before anything newer |
| `LamportClock.StampsAreDistinct` | crates/michi-api/src/playback_projection.rs:332-370 | over every interleaving of compare-and-swap attempts with spurious failures, completed operations have strictly growing stamps, each above what it observed, until the clock saturates |
| `LamportClock.LoopsAreAtomic` | crates/michi-api/src/playback_projection.rs:332-370 | every interleaving of the loops is a sequence of single steps in the order of completion: clock and stamps are those that the replica model takes |
| `LamportClock.NextNeverRepeats` | crates/michi-api/src/playback_projection.rs:332-346 | no two operations return the same stamp below the maximum of the range |
| `LamportClock.FailureMeansProgress` | crates/michi-api/src/playback_projection.rs:334-345 | a loop goes round again, other than spuriously, only because another operation completed |
| `LamportClock.AtomicClock.Advance` | crates/michi-api/src/playback_projection.rs:332-346 | one loop under arbitrary interference ends above the value it found and above the reading it observes; undisturbed it is the single step of the model; it fails to end only if every attempt met interference |
| `LamportClock.AtomicClock.ObserveLamport` | crates/michi-api/src/playback_projection.rs:348-370 | readings at or above the guard change nothing; others end below the clock |
| `BootClocks.EpochsRise` | crates/michi-api/src/playback_projection.rs:219-233 | over serial boots that read the persisted epoch, each boot's epoch exceeds those of all earlier boots, even if the wall clock went back, whether they stamped or not and however far their clocks ran |
| `BootClocks.EpochExceedsEarlierIff` | crates/michi-api/src/playback_projection.rs:219-233 | a boot exceeds every earlier one exactly when it reads the persisted epoch or was constructed later than it |
| `BootClocks.SupersedesIff` | crates/michi-api/src/playback_projection.rs:219-233 | a boot's first stamp supersedes a stamp of the persisted epoch exactly when it reads that epoch or was constructed after it |
| `BootClocks.ClockKeptIff` | crates/michi-api/src/playback_projection.rs:235-246 | the persisted clock does not go down across a boot exactly when it is read or was within one reservation |
| `BootClocks.ReservationIsExact` | crates/michi-api/src/playback_projection.rs:235-246 | failed reads included: the next boot's clock exceeds the last stamp exactly when that is at most 10,000 past what the boot read, and which of the two is inverted against the other is said exactly |
| `BootClocks.FlushedMayEnd` | crates/michi-api/src/playback_projection.rs:827-830 | however far its clock ran, a boot that flushes ends within its reservation: the next one skips 10,000 past what was flushed |
| `BootClocks.FailedReadsInvert` | crates/michi-api/src/playback_projection.rs:219-246 | concrete boots whose failed read of the clock or of the epoch leaves an inverted pair |
| `BootClocks.StampsRiseAcrossBoots` | crates/michi-api/src/playback_projection.rs:213-247 | over every orderly sequence of boots, flushes and crashes, positions and clock readings of everything stamped rise together |
| `BootClocks.NextBootIsPast` | crates/michi-api/src/playback_projection.rs:213-247 | the next orderly boot has an epoch past all issued before and a clock not behind them |
| `BootClocks.OriginNeverInverts` | crates/michi-api/src/playback_projection.rs:213-247 | an origin whose boots read the table and end within their reservation never produces an inverted pair |
| `BootClocks.TrafficIsCoherent` | crates/michi-api/src/playback_projection.rs:213-247 | all traffic of such origins satisfies the side condition of convergence |
| `BootClocks.HearingStaysWithinIff` | crates/michi-api/src/playback_projection.rs:348-370 | after hearing a peer a boot is still within its reservation exactly when its own clock and the peer's were below the end of it: one peer far ahead suffices to outrun it |
| `ScentStore.Store.ObserveSignedWithHome` | crates/michi-connect/src/scent_store.rs:147-228 | record and event of a signed announcement, for new, offline and online peers |
| `ScentStore.Store.ObserveMdnsCandidate` | crates/michi-connect/src/scent_store.rs:230-329 | record and event of an mDNS sighting, which never lowers a fresh signature |
| `ScentStore.Store.UpdateUrl` | crates/michi-connect/src/scent_store.rs:331-378 | record and event of a base-URL update; no event if the URL is the same |
| `ScentStore.Store.MarkServerInfoVerified` | crates/michi-connect/src/scent_store.rs:380-387 | only the verification time of a known record changes |
| `ScentStore.Store.CheckExpirations` | crates/michi-connect/src/scent_store.rs:389-436 | the sweep over all records in any map order equals the fold of single expiries |
| `ScentPresence.SweptIsAccurate` | crates/michi-connect/src/scent_store.rs:389-436 | after a sweep in any history with a monotone clock every online record is not effectively offline and is verified, and signed, exactly when effectively verified; a second sweep at that time emits and changes nothing |
| `ScentPresence.SweepsAnswerNothingDifferently` | crates/michi-connect/src/scent_store.rs:456-481 | no sweep changes which records a freshness query finds for any instant, nor anything in them but the three flags, which a sweep may change |
| `ScentPresence.RunIsSound` | crates/michi-connect/src/scent_store.rs:147-436 | the inductive invariant that ties flags to time in every history |
| `ScentPresence.OnlineIsActiveIff` | crates/michi-connect/src/scent_store.rs:331-378 | one operation keeps online equal to effectively present exactly when it is not a base-URL update of an offline record, which refreshes it without bringing it online |
| `ScentPresence.SweptOnlineIsActive` | crates/michi-connect/src/scent_store.rs:389-436 | in a history without such updates exactly the effectively present records are online after a sweep |
| `ScentPresence.ExpireAllPointwise` | crates/michi-connect/src/scent_store.rs:389-436 | the result of a sweep does not depend on the order of the records |
| `ScentHistory.RecordsAreAsTold` | crates/michi-connect/src/scent_store.rs:147-436 | over every history the store holds exactly the peers announced or sighted, and of each what it was last told: times, profile (a sighting speaks only if no announcement of the last 90 seconds does), home, URL, verification, and every address it was heard from once |
| `ScentHistory.QueriesFromHistory` | crates/michi-connect/src/scent_store.rs:456-481 | the freshness queries are answered from the last 90 seconds of the history |
| `ScentHistory.PresenceFromHistory` | crates/michi-connect/src/scent_store.rs:389-436 | after a sweep a peer is verified exactly when a signed announcement came within the last 90 seconds, and online only if it was announced or sighted within them |
| `ScentReplay.EventsRebuildOnlineSet` | crates/michi-connect/src/scent_store.rs:147-436 | folding the events of any history rebuilds the set of online peers and the URL of each; arrivals and departures of each peer alternate, and a new URL is announced with the one it replaces |
| `ScentReplay.EventsRebuildFlagsIff` | crates/michi-connect/src/scent_store.rs:147-436 | the events rebuild the verified and source flags too, after every prefix of a history, exactly when no operation of it downgrades silently |
| `ScentReplay.StepReplays` | crates/michi-connect/src/scent_store.rs:331-378 | one operation's events carry an exact observer along exactly when it is not a base-URL update to the stored URL that withdraws trust |
| `AuthSessions.AuthState.CreateSession` | crates/michi-api/src/auth.rs:159-186 | table row and cache entry are created together, or nothing is |
| `AuthSessions.AuthState.UserOf` | crates/michi-api/src/auth.rs:192-273 | lookup by cache, then table, with removal when the user cannot be found, for every combination of failing reads and deletes |
| `AuthSessions.AuthState.InvalidateToken` | crates/michi-api/src/auth.rs:275-290 | both copies go, or on a failed delete neither |
| `AuthSessions.AuthState.InvalidateUserSessions` | crates/michi-api/src/auth.rs:292-306 | all sessions of the user go from both copies and no others, or none do |
| `AuthSessions.AuthState.ClearAllSessions` | crates/michi-api/src/auth.rs:308-323 | both copies are emptied, or neither |
| `AuthSessions.AuthState.CleanupExpired` | crates/michi-api/src/auth.rs:325-334 | expired sessions leave the cache always and the table if it can be written; what that means for answers is `AuthSessions.CleanupLosesNothingValid` |
| `AuthSessions.LookupAnswersAsTables` | crates/michi-api/src/auth.rs:159-334 | at any point of any run a lookup answers exactly as the session and user tables alone would |
| `AuthSessions.AnswersFromHistory` | crates/michi-api/src/auth.rs:159-334 | at any point of any ordinary run a lookup answers with a user exactly when the last session granted for the token has neither been ended nor expired after 24 hours and the user exists; lookups, cleanups and restarts do not matter |
| `AuthSessions.CleanupLosesNothingValid` | crates/michi-api/src/auth.rs:325-334 | a cleanup leaves no expired session and every valid one, and no question at or after its time is answered differently by the tables or through the cache, with any reads failing |
| `AuthSessions.CleanupsChangeNoAnswer` | crates/michi-api/src/auth.rs:325-334 | over every run with a clock that never goes back, any reads and writes failing, leaving out all cleanups changes no answer |
| `AuthSessions.MirrorsStep` | crates/michi-api/src/auth.rs:159-334 | every operation keeps cache and tables in the relation that makes answers equal |
| `AuthSessions.InvalidatedStaysRejected` | crates/michi-api/src/auth.rs:275-290 | a token that is gone stays rejected through any run with any failures that does not issue it again |
| `AuthSessions.FailureChangesNothing` | crates/michi-api/src/auth.rs:159-323 | a creation, invalidation or clearing whose database access fails changes neither copy |
| `AuthSessions.AnsweredWithoutTable` | crates/michi-api/src/auth.rs:224-258 | a session once looked up is answered until it expires even when the table cannot be read |
| `AuthSessions.SessionSurvivesIff` | crates/michi-api/src/auth.rs:205-271 | a valid session survives a lookup exactly when the user could be read, or nothing could be deleted, or neither cache nor table yielded it: a passing read failure of the user table ends the session |
| `AuthSessions.TableRevocationIff` | crates/michi-db/src/lib.rs:2635-2657 | revoking a user's sessions in the table alone keeps answers those of the tables exactly when none of them is cached and unexpired; this function has no caller in the repository |
| `AttemptLimiter.Limiter.Login` | crates/michi-api/src/auth.rs:531-564 | one attempt against the configured limit, at least one, under the login key |
| `AttemptLimiter.Limiter.Register` | crates/michi-api/src/auth.rs:647-671 | one attempt against the fixed limit of five under the registration key |
| `AttemptLimiter.AdmittedIff` | crates/michi-api/src/auth.rs:531-564 | told from the times alone: an attempt is admitted exactly when it is among the first ones of its window up to the limit; refused ones neither count nor prolong the window, which ends 61 seconds after it began |
| `AttemptLimiter.SlidingBound` | crates/michi-api/src/auth.rs:531-564 | any interval under 61 seconds admits at most twice the limit less one, and the count never exceeds the limit |
| `AttemptLimiter.SlidingBoundIsTight` | crates/michi-api/src/auth.rs:531-564 | for every limit a history attains that bound within one millisecond |
| `AttemptLimiter.CountsBounded` | crates/michi-api/src/auth.rs:531-564 | the invariant of a window: attempts admitted in an interval against the count and the start of the current window |
| `SessionProjection.RefreshesIff` | crates/michi-api/src/playback_projection.rs:607-672 | an event makes every row equal to the snapshot's, the queue index excepted, exactly when it is a pause or a lifecycle change to a playing or finished state in keeping with the snapshot; all others leave some column of some row |
| `SessionProjection.RefreshRecovers` | crates/michi-api/src/playback_projection.rs:607-672 | after any run without a flush and with any events lost such an event recovers the row as a reconciled snapshot would |
| `SessionProjection.RowIsAsTold` | crates/michi-api/src/playback_projection.rs:607-825 | over every run, with events lost and reads and writes failing, each of the seven columns of the stored row is the last value that the history told it, unless the history repeats itself over a flush; the other columns never change |
| `SessionProjection.NoFlushNoRepeat` | crates/michi-api/src/playback_projection.rs:833-871 | without a flush no history does |
| `SessionProjection.HealthCounts` | crates/michi-api/src/playback_projection.rs:833-871 | health counts the failed loads and writes of the run, and those since the last write that succeeded |
| `SessionProjection.DedupIsInvisibleIff` | crates/michi-api/src/playback_projection.rs:833-871 | over every run, flushes and failing reads and writes included, the stored row is always the one that writing always would leave exactly when no event or snapshot wants once more just what the last one wanted over a flush that wrote something else |
| `SessionProjection.DedupIsInvisible` | crates/michi-api/src/playback_projection.rs:833-871 | without a flush the stored row is the one that writing always would leave, and what is remembered is what is stored |
| `SessionProjection.ReconcileRecovers` | crates/michi-api/src/playback_projection.rs:682-782 | after any run without a flush and with any events lost one successful reconciliation leaves the row equal to the snapshot's projection, the queue index excepted |
| `SessionProjection.FlushMasksNextEvent` | crates/michi-api/src/playback_projection.rs:785-825 | after a flush the next reconciliation of a session still playing is skipped and the paused row stays |
| `Receiver.ReceiverState.Start` | scripts/receiver_sim.py:479-509 | a new pairing has five attempts and two minutes |
| `Receiver.ReceiverState.Confirm` | scripts/receiver_sim.py:511-582 | one confirmation request: reply, pairing and token, in the order of the source's checks |
| `Receiver.ReceiverState.HandleRequest` | scripts/receiver_sim.py:690-838 | create, heartbeat, patch, delete and metrics reset on the single session: status and new state |
| `Receiver.RepliesTold` | scripts/receiver_sim.py:511-582 | every reply told from the requests alone: a token exactly to the first right PIN in time with fewer than five wrong ones before it, the lock exactly to the fifth wrong one; the reply for an already locked pairing is never given |
| `Receiver.PairingAccounted` | scripts/receiver_sim.py:511-582 | the state of a pairing told from the requests alone: while open, attempts remaining and wrong PINs sum to five |
| `Receiver.ConsumedIsFinal` | scripts/receiver_sim.py:519-523 | a paired or locked pairing never changes again and every further request is answered as consumed |
| `Receiver.SessionInvariant` | scripts/receiver_sim.py:690-838 | in every run session id and token are present together, playing needs a session, the last heartbeat is the highest one heard, and heartbeats counted do not exceed it |
| `Receiver.CreatedIff` | scripts/receiver_sim.py:690-765 | a session is created exactly for a paired caller with a supported format and volume while none runs, as told from earlier replies |
| `Receiver.HeartbeatAcceptedIff` | scripts/receiver_sim.py:690-838 | a heartbeat is accepted exactly when authorised, within a session, and above all heard in it |
| `Receiver.SessionIsAsTold` | scripts/receiver_sim.py:690-915 | over every run session, token, volume, playing, lease and heartbeat count are what requests and replies tell |
| `Receiver.ReplyIsAsTold` | scripts/receiver_sim.py:690-915 | the reply to every request follows from what was told before: first who may ask, then whether a session runs, then the values |
| `AckTracker.MqttAckTracker.DiscoveryBatchStart` | crates/michi-homeassistant/src/lib.rs:403-409 | a new batch forgets everything outstanding |
| `AckTracker.MqttAckTracker.OutgoingPublish` | crates/michi-homeassistant/src/lib.rs:411-420 | the first expected publications count as discovery, later ones as state |
| `AckTracker.MqttAckTracker.Puback` | crates/michi-homeassistant/src/lib.rs:422-441 | classification and count of one acknowledgement |
| `AckTracker.MqttAckTracker.Disconnect` | crates/michi-homeassistant/src/lib.rs:443-449 | a disconnect resets the tracker |
| `AckTracker.PublishedIff` | crates/michi-homeassistant/src/lib.rs:555-638 | in every run discovery counts as published exactly when connected and every discovery message of this connection is acknowledged, in whatever order; pending and acknowledged never exceed expected |
| `AckTracker.CompletedExactlyOnLastAck` | crates/michi-homeassistant/src/lib.rs:422-441 | completion is reported exactly by the acknowledgement that completes the batch, hence once |
| `AckTracker.OutcomeTold` | crates/michi-homeassistant/src/lib.rs:422-441 | every acknowledgement is reported for what the ledger says it is, with the number of discovery messages acknowledged so far |
| `AckTracker.CompleteIff` | crates/michi-homeassistant/src/lib.rs:422-441 | the tracker's counters say complete exactly when the numbered ledger does |
| `RemainingLength.EncodeRemainingLength` | scripts/mqtt_broker_sim.py:91-101 | the encoding loop equals the recursive encoding |
| `RemainingLength.DecodeRemainingLength` | scripts/mqtt_broker_sim.py:114-128 | the decoding loop equals the recursive decoder and leaves the rest of the stream |
| `RemainingLength.RoundTrip` | scripts/mqtt_broker_sim.py:91-128 | decoding an encoded length returns it and the trailing bytes for every n below 128^4, and nothing for every larger n |
| `RemainingLength.DecodesIff` | scripts/mqtt_broker_sim.py:114-128 | the decoder answers exactly when one of the first four bytes ends the length |
| `RemainingLength.DecodedIsCanonicalIff` | scripts/mqtt_broker_sim.py:114-128 | what is decoded is below the limit, and the bytes read are its encoding exactly when they do not end in a superfluous zero |
| `TopicFilter.TopicMatches` | scripts/mqtt_broker_sim.py:52-66 | the index loop equals the level-by-level definition for all pattern and topic strings |
| `TopicFilter.MatchesIff` | scripts/mqtt_broker_sim.py:52-66 | a topic matches exactly when it has the levels before the first `#`, each fitting, and no more unless `#` follows |
| `TopicFilter.HashTakesSubtree` | scripts/mqtt_broker_sim.py:57-65 | a trailing `#` matches the level itself and everything below it |
| `TopicFilter.SplitJoin` | scripts/mqtt_broker_sim.py:55-56 | splitting loses nothing and no level holds a separator |
| `ForwardedChain.ResolveClientIp` | crates/michi-api/src/lib.rs:2462-2511 | the right-to-left scan with its early exits equals the resolution by the rightmost untrusted hop |
| `ForwardedChain.LastUntrustedDecides` | crates/michi-api/src/lib.rs:2474-2495 | the hop that decides is the last one that is not a trusted proxy; if it is empty or unparseable the answer is refused |
| `ForwardedChain.UndecidedIff` | crates/michi-api/src/lib.rs:2474-2498 | the header decides nothing exactly when every hop is a trusted proxy |
| `ForwardedChain.HeadersIgnoredIff` | crates/michi-api/src/lib.rs:2462-2511 | the answer is the same for all headers exactly when the peer is not a trusted proxy, and then it is the peer |
| `ForwardedChain.BehindProxy` | crates/michi-api/src/lib.rs:2470-2506 | behind a trusted proxy: with no hops but trusted ones the real-IP header answers, and nothing does without it; otherwise the last other hop alone answers, with no address if it has none |
| `ForwardedChain.Prepending` | crates/michi-api/src/lib.rs:2474-2498 | entries in front of a deciding suffix change nothing; in front of an undecided one they alone decide |
| `ForwardedChain.SpoofProofIff` | crates/michi-api/src/lib.rs:2462-2511 | no entries written in front can change the answer exactly when the hops behind them already decide it |

## Left out

- The inside of the audio engine, the track resolver, files and SQL text: the engine is a command sink that may fail, with a timeline origin and events; the database is maps.
- Playlist and queue position of a synced state, which applying it ignores and nothing sets, and the conversion of volumes.
- The window between the construction of a coordinator and the end of its asynchronous initialisation, in which it would stamp with an unreserved clock.
- A sync sender that lags behind its channel, closing connections, cancellation and the receiving half's parsing.
- The snapshot of a register that nothing has been stamped into yet, which a connecting server sends as well, in whole networks.
- Agreement.RebroadcastRecovers: takes the peers that a re-broadcast reaches as given, because connections are not part of a network here; which connections pass it on is `SyncSender.ResendsIff`.
- Playback handoff between servers and its tolerance checks.
- Sessions without a database, cookies, passwords, and expiry as RFC 3339 strings compared by SQLite: expiry is a number.
- AttemptLimiter.Limiter.Attempt: does not model the pruning of old entries, which is in another task of the server.
- Splitting, trimming and parsing of forwarded headers: hops arrive as empty, unparseable or an address; the trusted networks are a set of addresses.
- The receiver's challenge and recovery endpoints, its fault injection and the enforcement of its lease, which only reports expiry.
- The rule of section 4.7.2 of MQTT 3.1.1 on topics that start with `$`, which the matcher does not implement, retained messages and routing.
- Time stamps and error texts of health and status records: only the counters and flags are kept.
- Range parsing, playlists, security middleware, routing tables, configuration, packaging scripts and client interfaces: plumbing or easy members.
