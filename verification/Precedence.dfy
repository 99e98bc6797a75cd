/**
 The conflict-resolution order on replicated playback states.

 `HasPrecedenceOver` is documented as a strict total order. It is irreflexive, asymmetric and total up to
 equal stamps, but it compares two states of one device by (epoch, sequence) and two states of different
 devices by Lamport clock, and the two rules can disagree. The lemmas below say exactly when they do.
 */
module Precedence {
  import opened Basics

  /** Fields of a state that are kept locally and never sent. */
  datatype Modes = Modes(shuffle: bool, repeat: string)

  /** What the playback engine plays; its fields never take part in conflict resolution. */
  datatype Payload = Payload(trackId: Option<nat>, positionMs: nat, playing: bool, volume: int, modes: Modes)

  /** What is heard, and sent: everything but shuffle and repeat, which count as off. */
  function Audible(p: Payload): (r: Payload)
    ensures r.modes == Modes(false, "off") && r.(modes := p.modes) == p
  {
    Payload(p.trackId, p.positionMs, p.playing, p.volume, Modes(false, "off"))
  }

  datatype PlaybackState = PlaybackState(
    payload: Payload,
    updatedAt: int,
    deviceId: Option<string>,
    eventId: Option<nat>,
    sequence: Option<nat>,
    epoch: Option<u64>,
    bootId: Option<nat>,
    lamport: Option<u64>)

  /** The five values that conflict resolution reads, with the defaults it puts for missing ones. */
  datatype Stamp = Stamp(dev: string, epoch: u64, sequence: nat, lamport: u64, updatedAt: int)

  function StampOf(s: PlaybackState): Stamp {
    Stamp(s.deviceId.GetOr(""), s.epoch.GetOr(0), s.sequence.GetOr(0), s.lamport.GetOr(0), s.updatedAt)
  }

  /** Lexicographic comparison of device ids. */
  predicate StrLess(a: string, b: string) {
    if b == "" then false
    else if a == "" then true
    else if a[0] != b[0] then a[0] < b[0]
    else StrLess(a[1..], b[1..])
  }

  lemma {:induction false} StrLessTotal(a: string, b: string)
    ensures a == b ==> !StrLess(a, b)
    ensures a != b ==> StrLess(a, b) != StrLess(b, a)
  {
    if a != "" && b != "" && a[0] == b[0] {
      StrLessTotal(a[1..], b[1..]);
      assert a == [a[0]] + a[1..] && b == [b[0]] + b[1..];
    }
  }

  lemma {:induction false} StrLessTransitive(a: string, b: string, c: string)
    requires StrLess(a, b) && StrLess(b, c)
    ensures StrLess(a, c)
  {
    if a != "" && a[0] == b[0] == c[0] {
      StrLessTransitive(a[1..], b[1..], c[1..]);
    }
  }

  /** Two states of one named device: epoch, then sequence, then Lamport clock, then time. */
  predicate SameDeviceOver(a: Stamp, b: Stamp) {
    if a.epoch != b.epoch then a.epoch > b.epoch
    else if a.sequence != b.sequence then a.sequence > b.sequence
    else if a.lamport != b.lamport then a.lamport > b.lamport
    else a.updatedAt > b.updatedAt
  }

  /** States without Lamport clocks: epoch, then time, then sequence, then device id. */
  predicate LegacyOver(a: Stamp, b: Stamp) {
    if a.epoch != b.epoch then a.epoch > b.epoch
    else if a.updatedAt != b.updatedAt then a.updatedAt > b.updatedAt
    else if a.sequence != b.sequence then a.sequence > b.sequence
    else StrLess(b.dev, a.dev)
  }

  predicate SameDevice(a: Stamp, b: Stamp) {
    a.dev != "" && a.dev == b.dev
  }

  predicate Over(a: Stamp, b: Stamp) {
    if SameDevice(a, b) then SameDeviceOver(a, b)
    else if a.lamport != b.lamport then a.lamport > b.lamport
    else if a.lamport > 0 && a.dev != b.dev then StrLess(b.dev, a.dev)
    else LegacyOver(a, b)
  }

  predicate HasPrecedenceOver(s: PlaybackState, t: PlaybackState) {
    Over(StampOf(s), StampOf(t))
  }

  /** Of two stamps exactly one precedes the other, unless they are the same stamp. */
  lemma Trichotomy(a: Stamp, b: Stamp)
    ensures !(Over(a, b) && Over(b, a))
    ensures Over(a, b) || Over(b, a) <==> a != b
  {
    StrLessTotal(a.dev, b.dev);
  }

  /**
   `a` supersedes `b` as a later state of the same device, yet `a` ranks below `b` in the comparison that
   every other device makes.
   */
  predicate Inverted(a: Stamp, b: Stamp) {
    && SameDevice(a, b)
    && Over(a, b)
    && (a.lamport < b.lamport
        || (a.lamport == b.lamport == 0 && a.epoch == b.epoch && a.updatedAt < b.updatedAt))
  }

  /** Without inverted pairs the order is transitive. */
  lemma Transitive(a: Stamp, b: Stamp, c: Stamp)
    requires Over(a, b) && Over(b, c)
    requires !Inverted(a, b) && !Inverted(b, c) && !Inverted(c, a)
    ensures Over(a, c)
  {
    StrLessTotal(a.dev, b.dev);
    StrLessTotal(b.dev, c.dev);
    StrLessTotal(a.dev, c.dev);
    if StrLess(b.dev, a.dev) && StrLess(c.dev, b.dev) {
      StrLessTransitive(c.dev, b.dev, a.dev);
    }
    if StrLess(a.dev, c.dev) && StrLess(c.dev, b.dev) {
      StrLessTransitive(a.dev, c.dev, b.dev);
    }
    if StrLess(b.dev, a.dev) && StrLess(a.dev, c.dev) {
      StrLessTransitive(b.dev, a.dev, c.dev);
    }
  }

  /** The state of an unnamed device that closes a cycle with an inverted pair. */
  function CycleWitness(b: Stamp): Stamp {
    Stamp("", b.epoch, b.sequence, b.lamport, b.updatedAt)
  }

  /**
   A later and an earlier state of one device lie on a cycle with a state of some other device exactly
   when they are inverted: the order is total on every set of states without inverted pairs, and no set
   with an inverted pair stays ordered once a third device joins.
   */
  lemma CycleIffInverted(a: Stamp, b: Stamp)
    requires SameDevice(a, b) && Over(a, b)
    ensures Inverted(a, b) <==> exists z: Stamp :: z.dev != a.dev && Over(b, z) && Over(z, a)
    ensures Inverted(a, b) ==> Over(b, CycleWitness(b)) && Over(CycleWitness(b), a)
  {
    if Inverted(a, b) {
      var z := CycleWitness(b);
      assert StrLess(z.dev, b.dev);
      assert z.dev != a.dev && Over(b, z) && Over(z, a);
    } else {
      forall z: Stamp | z.dev != a.dev && Over(b, z) && Over(z, a)
        ensures false
      {
        StrLessTotal(a.dev, z.dev);
      }
    }
  }

  /** Stamps tell the states apart and are ordered consistently. */
  ghost predicate Orderly(states: set<PlaybackState>) {
    forall a, b :: a in states && b in states ==>
      (StampOf(a) == StampOf(b) ==> a == b) && !Inverted(StampOf(a), StampOf(b))
  }

  ghost predicate IsMaximum(c: PlaybackState, states: set<PlaybackState>) {
    c in states && forall k :: k in states ==> k == c || HasPrecedenceOver(c, k)
  }

  lemma MaximumUnique(c: PlaybackState, d: PlaybackState, states: set<PlaybackState>)
    requires IsMaximum(c, states) && IsMaximum(d, states)
    ensures c == d
  {
    Trichotomy(StampOf(c), StampOf(d));
  }

  /** A state that the maximum does not precede is the new maximum. */
  lemma MaximumReplaced(c: PlaybackState, m: PlaybackState, states: set<PlaybackState>)
    requires IsMaximum(c, states) && Orderly(states + {m}) && !HasPrecedenceOver(c, m)
    ensures IsMaximum(m, states + {m})
    ensures c == m || HasPrecedenceOver(m, c)
  {
    Trichotomy(StampOf(c), StampOf(m));
    forall k | k in states
      ensures k == m || HasPrecedenceOver(m, k)
    {
      if c != m && k != c {
        Transitive(StampOf(m), StampOf(c), StampOf(k));
      }
    }
  }
}
