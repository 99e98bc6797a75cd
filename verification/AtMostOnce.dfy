/**
 The per-peer cursors alone, with the event-id set emptied at will and the engine failing at will, let no
 stamped state be fully applied twice as long as each epoch of a peer belongs to one boot.
 */
module AtMostOnce {
  import opened Basics
  import opened Precedence
  import opened SyncServer
  import opened Convergence

  /** Position of a state in its origin's life. */
  datatype Position = Position(epoch: u64, sequence: nat) {
    predicate Before(q: Position) { epoch < q.epoch || (epoch == q.epoch && sequence < q.sequence) }
  }

  function PositionOf(m: PlaybackState): Position
    requires m.sequence.Some?
  {
    Position(m.epoch.GetOr(0), m.sequence.value)
  }

  predicate From(a: Action, origin: string) {
    a.Deliver? && a.d.m.deviceId == Some(origin) && a.d.m.sequence.Some?
  }

  /** Two incarnations known to differ. */
  predicate DistinctBoots(b: Option<nat>, c: Option<nat>) {
    b.Some? && c.Some? && b != c
  }

  ghost predicate OneBootPerEpoch(acts: seq<Action>, origin: string) {
    forall i, j :: 0 <= i < |acts| && 0 <= j < |acts| && From(acts[i], origin) && From(acts[j], origin)
                   && acts[i].d.m.epoch.GetOr(0) == acts[j].d.m.epoch.GetOr(0)
      ==> !DistinctBoots(acts[i].d.m.bootId, acts[j].d.m.bootId)
  }

  /** The positions of the states of `origin` that a run applied in full, in order of application. */
  function AppliedLog(s: Server, acts: seq<Action>, origin: string): seq<Position> {
    if acts == [] then [] else
    var before, a := acts[..|acts| - 1], acts[|acts| - 1];
    var log := AppliedLog(s, before, origin);
    if From(a, origin) && Step(Run(s, before), a).outcome == Attempted(true)
    then log + [PositionOf(a.d.m)] else log
  }

  ghost predicate Increasing(log: seq<Position>) {
    forall i, j :: 0 <= i < j < |log| ==> log[i].Before(log[j])
  }

  /** The gate a cursor makes: a state passes if it is later, or comes from another boot of the same epoch. */
  lemma CursorGate(s: Server, m: PlaybackState)
    requires m.deviceId.Some? && m.sequence.Some? && m.deviceId.value in s.cursors
    ensures var c := s.cursors[m.deviceId.value];
            !IsStale(s, m) <==>
              || Position(c.epoch, c.sequence).Before(PositionOf(m))
              || (c.epoch == m.epoch.GetOr(0) && DistinctBoots(m.bootId, c.bootId))
  {
  }

  /** The cursor of `origin` is the last entry of its log, written by one of the actions. */
  ghost predicate CursorIsLast(s: Server, acts: seq<Action>, origin: string, log: seq<Position>) {
    if log == [] then origin !in s.cursors
    else
      && origin in s.cursors
      && Position(s.cursors[origin].epoch, s.cursors[origin].sequence) == log[|log| - 1]
      && exists i :: 0 <= i < |acts| && From(acts[i], origin)
                     && acts[i].d.m.epoch.GetOr(0) == s.cursors[origin].epoch
                     && acts[i].d.m.bootId == s.cursors[origin].bootId
  }

  lemma {:induction false} AppliedPositionsIncrease(s: Server, acts: seq<Action>, origin: string)
    requires origin !in s.cursors && OneBootPerEpoch(acts, origin)
    ensures Increasing(AppliedLog(s, acts, origin))
    ensures CursorIsLast(Run(s, acts), acts, origin, AppliedLog(s, acts, origin))
  {
    if acts != [] {
      var before, a := acts[..|acts| - 1], acts[|acts| - 1];
      AppliedPositionsIncrease(s, before, origin);
      var t := Run(s, before);
      var log := AppliedLog(s, before, origin);
      if From(a, origin) && Step(t, a).outcome == Attempted(true) {
        if log != [] {
          CursorGate(t, a.d.m);
          assert log[|log| - 1].Before(PositionOf(a.d.m));
        }
        assert acts[|acts| - 1] == a;
      } else {
        OtherStepKeepsCursor(t, a, origin);
        if log != [] {
          var i :| 0 <= i < |before| && From(before[i], origin)
                   && before[i].d.m.epoch.GetOr(0) == t.cursors[origin].epoch
                   && before[i].d.m.bootId == t.cursors[origin].bootId;
          assert acts[i] == before[i];
        }
      }
    }
  }

  lemma OtherStepKeepsCursor(s: Server, a: Action, origin: string)
    requires !(From(a, origin) && Step(s, a).outcome == Attempted(true))
    ensures var t := Step(s, a).server;
            (origin in t.cursors <==> origin in s.cursors) &&
            (origin in s.cursors ==> t.cursors[origin] == s.cursors[origin])
  {
  }

  /** No state with a position is fully applied at two different points of a run. */
  lemma NeverAppliedTwice(s: Server, acts: seq<Action>, origin: string, i: nat, j: nat)
    requires origin !in s.cursors && OneBootPerEpoch(acts, origin)
    requires i < j < |AppliedLog(s, acts, origin)|
    ensures AppliedLog(s, acts, origin)[i] != AppliedLog(s, acts, origin)[j]
  {
    AppliedPositionsIncrease(s, acts, origin);
  }

  /** The event-id set stays bounded over every run. */
  lemma {:induction false} ProcessedSetBounded(s: Server, acts: seq<Action>)
    requires |s.processed| <= MAX_PROCESSED + 1
    ensures |Run(s, acts).processed| <= MAX_PROCESSED + 1
  {
    if acts != [] {
      ProcessedSetBounded(s, acts[..|acts| - 1]);
    }
  }

  /** A state applied in full is a duplicate the next time its event id is met. */
  lemma AppliedIsDuplicate(s: Server, d: Delivery, again: Delivery)
    requires Apply(s, d).outcome == Attempted(true) && d.m.eventId.Some? && again.m.eventId == d.m.eventId
    ensures Apply(Apply(s, d).server, again).outcome in {Disabled, Echo, Duplicate}
  {
  }

  /** The event-id set after recording these ids. */
  function RecordAll(ids: seq<nat>): set<nat> {
    if ids == [] then {} else RecordProcessedEvent(RecordAll(ids[..|ids| - 1]), ids[|ids| - 1])
  }

  /** After `n` ids the set was last emptied after `from`: after every 10,001 ids. */
  predicate LastEmptied(n: nat, from: nat) {
    from % 10_001 == 0 && from <= n <= from + 10_001 && (n > 0 ==> from < n)
  }

  lemma EmptiedBefore(n: nat, from: nat) returns (previous: nat)
    requires LastEmptied(n + 1, from)
    ensures LastEmptied(n, previous)
    ensures from == if n == previous + 10_001 then n else previous
  {
    previous := if 0 < from == n then from - 10_001 else from;
  }

  function Ids(s: seq<nat>): set<nat> { set x | x in s }

  predicate Distinct(ids: seq<nat>) {
    ids == [] || (Distinct(ids[..|ids| - 1]) && ids[|ids| - 1] !in ids[..|ids| - 1])
  }

  /** The ids kept of `recent` when one more is recorded: all, unless they are 10,001. */
  function Kept(recent: seq<nat>, x: nat): seq<nat> {
    if |recent| == 10_001 then [x] else recent + [x]
  }

  lemma RecordOne(recent: seq<nat>, processed: set<nat>, x: nat)
    requires processed == Ids(recent) && |processed| == |recent| <= 10_001 && x !in recent
    ensures RecordProcessedEvent(processed, x) == Ids(Kept(recent, x))
    ensures |RecordProcessedEvent(processed, x)| == |Kept(recent, x)|
  {
    assert RecordProcessedEvent(processed, x) == (if |recent| == 10_001 then {} else processed) + {x};
    assert Ids(Kept(recent, x)) == (if |recent| == 10_001 then {} else processed) + {x};
  }

  lemma RecordAllSnoc(ids: seq<nat>, x: nat)
    ensures RecordAll(ids + [x]) == RecordProcessedEvent(RecordAll(ids), x)
  {
    assert (ids + [x])[..|ids|] == ids;
  }

  lemma KeptFrom(ids: seq<nat>, from: nat, x: nat)
    requires from <= |ids| <= from + 10_001
    ensures Kept(ids[from..], x) == (ids + [x])[if |ids| == from + 10_001 then |ids| else from..]
  {
  }

  ghost predicate HoldsFrom(ids: seq<nat>, from: nat) {
    from <= |ids| && RecordAll(ids) == Ids(ids[from..]) && |RecordAll(ids)| == |ids| - from
  }

  lemma HoldsOneMore(ids: seq<nat>, from: nat, x: nat)
    requires HoldsFrom(ids, from) && |ids| <= from + 10_001 && x !in ids
    ensures HoldsFrom(ids + [x], if |ids| == from + 10_001 then |ids| else from)
  {
    RecordOne(ids[from..], RecordAll(ids), x);
    KeptFrom(ids, from, x);
    RecordAllSnoc(ids, x);
  }

  /** The set holds exactly the ids recorded since it was last emptied. */
  lemma {:induction false} RecordedAreRecent(ids: seq<nat>, from: nat)
    requires Distinct(ids) && LastEmptied(|ids|, from)
    ensures HoldsFrom(ids, from)
    decreases |ids|
  {
    if ids != [] {
      var before, x := ids[..|ids| - 1], ids[|ids| - 1];
      assert ids == before + [x];
      var previous := EmptiedBefore(|before|, from);
      RecordedAreRecent(before, previous);
      HoldsOneMore(before, previous, x);
    }
  }
}
