/**
 The shared Lamport clock, advanced by compare-and-swap loops that run on many threads at once, each
 attempt of which may also fail spuriously.
 */
module LamportClock {
  import opened Basics
  import opened SyncServer

  datatype Operation = Next | Observe(remote: u64)

  /** What a loop tries to install over `current`. */
  function Target(op: Operation, current: u64): u64 {
    match op
    case Next => SaturatingAdd(current, 1)
    case Observe(remote) => SaturatingAdd(if current >= remote then current else remote, 1)
  }

  /** A thread inside a loop: the value it last loaded, and how many operations had completed by then. */
  datatype Thread = Idle | Spinning(op: Operation, current: u64, loadedAt: nat)

  datatype Completion = Completion(thread: nat, op: Operation, stamp: u64)

  datatype Machine = Machine(value: u64, threads: map<nat, Thread>, log: seq<Completion>)

  datatype Event = Call(thread: nat, op: Operation) | Attempt(thread: nat, spurious: bool)

  function ThreadOf(m: Machine, t: nat): Thread {
    if t in m.threads then m.threads[t] else Idle
  }

  /** One atomic access to the clock. A reading at or above the guard is refused without entering the loop. */
  function Step(m: Machine, e: Event): Machine {
    match e
    case Call(t, op) =>
      if ThreadOf(m, t).Spinning? || (op.Observe? && op.remote >= LAMPORT_GUARD) then m
      else m.(threads := m.threads[t := Spinning(op, m.value, |m.log|)])
    case Attempt(t, spurious) =>
      match ThreadOf(m, t)
      case Idle => m
      case Spinning(op, current, _) =>
        if m.value == current && !spurious then
          Machine(Target(op, current), m.threads[t := Idle], m.log + [Completion(t, op, Target(op, current))])
        else m.(threads := m.threads[t := Spinning(op, m.value, |m.log|)])
  }

  function Run(m: Machine, events: seq<Event>): Machine {
    if events == [] then m else Step(Run(m, events[..|events| - 1]), events[|events| - 1])
  }

  /** Completed operations, in order, have strictly growing stamps until the clock saturates. */
  ghost predicate StampsGrow(m: Machine) {
    && (forall i, j :: 0 <= i < j < |m.log| ==> m.log[i].stamp < m.log[j].stamp || m.log[j].stamp == U64_MAX)
    && (forall i :: 0 <= i < |m.log| ==> m.log[i].stamp <= m.value)
    && (forall i :: 0 <= i < |m.log| && m.log[i].op.Observe? ==> m.log[i].op.remote < m.log[i].stamp)
  }

  /** A loaded value is out of date only if some operation has completed since it was loaded. */
  ghost predicate LoadsAreHonest(m: Machine) {
    forall t :: t in m.threads && m.threads[t].Spinning? ==>
      && (m.threads[t].op.Observe? ==> m.threads[t].op.remote < LAMPORT_GUARD)
      && m.threads[t].loadedAt <= |m.log|
      && (m.threads[t].current != m.value ==> m.threads[t].loadedAt < |m.log|)
  }

  predicate Initial(m: Machine) {
    m.threads == map[] && m.log == []
  }

  /** Over every interleaving the completed operations carry distinct, growing stamps above what they observed. */
  lemma {:induction false} StampsAreDistinct(m: Machine, events: seq<Event>)
    requires Initial(m)
    ensures StampsGrow(Run(m, events)) && LoadsAreHonest(Run(m, events)) && m.value <= Run(m, events).value
  {
    if events != [] {
      StampsAreDistinct(m, events[..|events| - 1]);
    }
  }

  /** What a replica takes one operation to be: a single step on the clock. */
  function Atomic(value: u64, op: Operation): u64 {
    match op
    case Next => SaturatingAdd(value, 1)
    case Observe(remote) => SyncServer.ObserveLamport(value, remote)
  }

  /** The reading after the first `n` completed operations, each taken as a single step. */
  function Sequential(start: u64, log: seq<Completion>): u64 {
    if log == [] then start else Atomic(Sequential(start, log[..|log| - 1]), log[|log| - 1].op)
  }

  /** The clock and all stamps are those of single steps. */
  ghost predicate Stepwise(start: u64, m: Machine) {
    && m.value == Sequential(start, m.log)
    && forall i :: 0 <= i < |m.log| ==> m.log[i].stamp == Sequential(start, m.log[..i + 1])
  }

  lemma StepwiseCompletes(start: u64, m: Machine, r: Machine, c: Completion)
    requires Stepwise(start, m) && r.log == m.log + [c] && r.value == c.stamp == Atomic(m.value, c.op)
    ensures Stepwise(start, r)
  {
    assert r.log[..|m.log|] == m.log;
    assert Sequential(start, r.log) == c.stamp;
    forall i | 0 <= i < |r.log|
      ensures r.log[i].stamp == Sequential(start, r.log[..i + 1])
    {
      assert r.log[..i + 1] == if i < |m.log| then m.log[..i + 1] else r.log;
    }
  }

  /**
   Every interleaving of the loops is a sequence of single steps in the order of completion: the clock and
   each returned stamp are what the operations would give one after another.
   */
  lemma {:induction false} LoopsAreAtomic(m: Machine, events: seq<Event>)
    requires Initial(m)
    ensures Stepwise(m.value, Run(m, events))
  {
    if events != [] {
      var before := events[..|events| - 1];
      LoopsAreAtomic(m, before);
      StampsAreDistinct(m, before);
      var b, r := Run(m, before), Run(m, events);
      if r.log != b.log {
        StepwiseCompletes(m.value, b, r, r.log[|r.log| - 1]);
      }
    }
  }

  /** No two calls of `next_lamport` return the same stamp below the top of the range. */
  lemma NextNeverRepeats(m: Machine, events: seq<Event>, i: nat, j: nat)
    requires Initial(m)
    requires i < j < |Run(m, events).log|
    requires Run(m, events).log[i].stamp < U64_MAX
    ensures Run(m, events).log[i].stamp != Run(m, events).log[j].stamp
  {
    StampsAreDistinct(m, events);
  }

  /** A loop is sent round again, other than spuriously, only by the completion of another operation. */
  lemma FailureMeansProgress(m: Machine, events: seq<Event>, t: nat)
    requires Initial(m) && ThreadOf(Run(m, events), t).Spinning?
    requires ThreadOf(Step(Run(m, events), Attempt(t, false)), t).Spinning?
    ensures ThreadOf(Run(m, events), t).loadedAt < |Run(m, events).log|
  {
    StampsAreDistinct(m, events);
  }

  /** How the other threads behave around one attempt. */
  datatype Turn = Turn(advance: nat, spurious: bool)

  class AtomicClock {
    var value: u64

    constructor (value: u64)
      ensures this.value == value
    {
      this.value := value;
    }

    method CompareExchangeWeak(current: u64, target: u64, spurious: bool) returns (ok: bool, actual: u64)
      modifies this
      ensures ok <==> old(value) == current && !spurious
      ensures actual == old(value)
      ensures value == if ok then target else old(value)
    {
      actual := value;
      ok := value == current && !spurious;
      if ok {
        value := target;
      }
    }

    /** The loop of one operation against given interference; `None` if it is still spinning afterwards. */
    method Advance(op: Operation, turns: seq<Turn>) returns (r: Option<u64>)
      modifies this
      ensures old(value) <= value
      ensures r.Some? ==>
                && r.value == value
                && (r.value < U64_MAX ==> old(value) < r.value)
                && (op.Observe? && op.remote < LAMPORT_GUARD ==> op.remote < r.value)
      ensures r.None? ==> forall k :: 0 <= k < |turns| ==> turns[k].spurious || turns[k].advance > 0
      ensures turns != [] && turns[0] == Turn(0, false) && (op.Observe? ==> op.remote < LAMPORT_GUARD) ==>
                r == Some(Atomic(old(value), op))
    {
      var current := value;
      for k := 0 to |turns|
        invariant old(value) <= value && current == value
        invariant forall i :: 0 <= i < k ==> turns[i].spurious || turns[i].advance > 0
        invariant k == 0 ==> value == old(value)
      {
        value := SaturatingAdd(value, turns[k].advance);
        var ok, actual := CompareExchangeWeak(current, Target(op, current), turns[k].spurious);
        if ok {
          return Some(value);
        }
        current := actual;
      }
      r := None;
    }

    method ObserveLamport(remote: u64, turns: seq<Turn>) returns (r: Option<u64>)
      modifies this
      ensures old(value) <= value
      ensures remote >= LAMPORT_GUARD ==> value == old(value) && r == Some(value)
      ensures remote < LAMPORT_GUARD && r.Some? ==> remote < r.value == value
    {
      if remote >= LAMPORT_GUARD {
        return Some(value);
      }
      r := Advance(Observe(remote), turns);
    }
  }
}
