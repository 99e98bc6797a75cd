/**
 How the Home Assistant bridge knows that its discovery messages have arrived: it sorts the packet ids of
 outgoing publications into discovery and state, and counts acknowledgements. The reference numbers the
 publications of a connection and remembers which numbers have been acknowledged.
 */
module AckTracker {
  datatype Tracker = Tracker(discovery: set<nat>, state: set<nat>, inFlight: bool, expected: nat, acked: nat)

  datatype AckOutcome =
    | DiscoveryProgress(acked: nat, total: nat)
    | DiscoveryCompleted
    | StateAcknowledged
    | Unclassified

  const NO_TRACKER := Tracker({}, {}, false, 0, 0)

  function OnBatchStart(expected: nat): Tracker {
    Tracker({}, {}, expected > 0, expected, 0)
  }

  function OnOutgoing(t: Tracker, pkid: nat): Tracker {
    if t.inFlight && |t.discovery| + t.acked < t.expected then t.(discovery := t.discovery + {pkid})
    else t.(state := t.state + {pkid})
  }

  datatype Ack = Ack(tracker: Tracker, outcome: AckOutcome)

  function OnPuback(t: Tracker, pkid: nat): Ack {
    if pkid in t.discovery then
      var u := t.(discovery := t.discovery - {pkid}, acked := t.acked + 1);
      if u.acked >= u.expected && u.discovery == {} then Ack(u.(inFlight := false), DiscoveryCompleted)
      else Ack(u, DiscoveryProgress(u.acked, u.expected))
    else if pkid in t.state then Ack(t.(state := t.state - {pkid}), StateAcknowledged)
    else Ack(t, Unclassified)
  }

  class MqttAckTracker {
    var discovery: set<nat>
    var state: set<nat>
    var inFlight: bool
    var expected: nat
    var acked: nat

    ghost function Value(): Tracker
      reads this
    {
      Tracker(discovery, state, inFlight, expected, acked)
    }

    constructor ()
      ensures Value() == NO_TRACKER
    {
      discovery, state, inFlight, expected, acked := {}, {}, false, 0, 0;
    }

    method DiscoveryBatchStart(count: nat)
      modifies this
      ensures Value() == OnBatchStart(count)
    {
      discovery, state := {}, {};
      acked := 0;
      expected := count;
      inFlight := count > 0;
    }

    method OutgoingPublish(pkid: nat)
      modifies this
      ensures Value() == OnOutgoing(old(Value()), pkid)
    {
      if inFlight && |discovery| + acked < expected {
        discovery := discovery + {pkid};
      } else {
        state := state + {pkid};
      }
    }

    method Puback(pkid: nat) returns (outcome: AckOutcome)
      modifies this
      ensures Ack(Value(), outcome) == OnPuback(old(Value()), pkid)
    {
      if pkid in discovery {
        discovery := discovery - {pkid};
        acked := acked + 1;
        if acked >= expected && discovery == {} {
          inFlight := false;
          outcome := DiscoveryCompleted;
        } else {
          outcome := DiscoveryProgress(acked, expected);
        }
      } else if pkid in state {
        state := state - {pkid};
        outcome := StateAcknowledged;
      } else {
        outcome := Unclassified;
      }
    }

    method Disconnect()
      modifies this
      ensures Value() == NO_TRACKER
    {
      discovery, state, inFlight, acked, expected := {}, {}, false, 0, 0;
    }
  }

  /** What the bridge's event loop sees; `enqueued` says whether the discovery messages could be queued. */
  datatype Event =
    | ConnAck(entities: nat, enqueued: bool)
    | Outgoing(pkid: nat)
    | PubAck(pkid: nat)
    | Disconnected

  datatype Bridge = Bridge(tracker: Tracker, connected: bool, discoveryPublished: bool)

  function Step(b: Bridge, e: Event): Bridge {
    match e
    case ConnAck(entities, enqueued) =>
      Bridge(if enqueued then OnBatchStart(entities) else NO_TRACKER, true, false)
    case Outgoing(pkid) => b.(tracker := OnOutgoing(b.tracker, pkid))
    case PubAck(pkid) =>
      var a := OnPuback(b.tracker, pkid);
      b.(tracker := a.tracker,
         discoveryPublished := if a.outcome == DiscoveryCompleted && b.connected then true else b.discoveryPublished)
    case Disconnected => Bridge(NO_TRACKER, false, false)
  }

  /** The reference: publications numbered in order of sending, and the numbers acknowledged so far. */
  datatype Ledger = Ledger(connected: bool, expected: nat, sent: nat, outstanding: map<nat, nat>, acked: set<nat>)

  function Note(l: Ledger, e: Event): Ledger {
    match e
    case ConnAck(entities, enqueued) => Ledger(true, if enqueued then entities else 0, 0, map[], {})
    case Outgoing(pkid) => l.(sent := l.sent + 1, outstanding := l.outstanding[pkid := l.sent])
    case PubAck(pkid) =>
      if pkid in l.outstanding
      then l.(outstanding := l.outstanding - {pkid}, acked := l.acked + {l.outstanding[pkid]}) else l
    case Disconnected => Ledger(false, 0, 0, map[], {})
  }

  /** The first `expected` publications of the connection, the discovery messages, are all acknowledged. */
  ghost predicate AllDiscoveryAcked(l: Ledger) {
    l.expected > 0 && forall i :: 0 <= i < l.expected ==> i in l.acked
  }

  const START := Bridge(NO_TRACKER, false, false)
  const EMPTY := Ledger(false, 0, 0, map[], {})

  function RunBridge(es: seq<Event>): Bridge {
    if es == [] then START else Step(RunBridge(es[..|es| - 1]), es[|es| - 1])
  }

  function RunLedger(es: seq<Event>): Ledger {
    if es == [] then EMPTY else Note(RunLedger(es[..|es| - 1]), es[|es| - 1])
  }

  /** A packet id is not reused while it is unacknowledged. */
  predicate FreshIds(es: seq<Event>) {
    es == [] ||
    (FreshIds(es[..|es| - 1])
     && (es[|es| - 1].Outgoing? ==> es[|es| - 1].pkid !in RunLedger(es[..|es| - 1]).outstanding))
  }

  ghost predicate Awaited(l: Ledger, i: int) {
    exists p :: p in l.outstanding && l.outstanding[p] == i
  }

  ghost predicate Balanced(l: Ledger) {
    && (forall p :: p in l.outstanding ==> l.outstanding[p] < l.sent && l.outstanding[p] !in l.acked)
    && (forall p, q :: p in l.outstanding && q in l.outstanding && l.outstanding[p] == l.outstanding[q] ==> p == q)
    && (forall i :: 0 <= i < l.sent ==> i in l.acked || Awaited(l, i))
    && (forall i :: i in l.acked ==> i < l.sent)
  }

  /** The discovery messages of the connection that are acknowledged. */
  function AckedDiscovery(l: Ledger): set<nat> {
    set i | i in l.acked && i < l.expected
  }

  /** The tracker's sets are the outstanding packet ids, split at the expected number of publications. */
  ghost predicate Tracks(t: Tracker, l: Ledger) {
    && t.expected == l.expected
    && (forall p :: p in t.discovery <==> p in l.outstanding && l.outstanding[p] < l.expected)
    && (forall p :: p in t.state <==> p in l.outstanding && l.outstanding[p] >= l.expected)
    && |t.discovery| + t.acked == (if l.sent < l.expected then l.sent else l.expected)
    && (t.inFlight <==> t.acked < t.expected)
  }

  ghost predicate Counts(t: Tracker, l: Ledger) {
    t.acked == |AckedDiscovery(l)|
  }

  lemma StillAwaited(l: Ledger, m: Ledger, i: int)
    requires Awaited(l, i)
    requires forall p :: p in l.outstanding && l.outstanding[p] == i ==> p in m.outstanding && m.outstanding[p] == i
    ensures Awaited(m, i)
  {
    var p :| p in l.outstanding && l.outstanding[p] == i;
    assert m.outstanding[p] == i;
  }

  lemma BalancedOutgoing(l: Ledger, pkid: nat)
    requires Balanced(l) && pkid !in l.outstanding
    ensures Balanced(Note(l, Outgoing(pkid)))
  {
    var m := Note(l, Outgoing(pkid));
    forall i | 0 <= i < m.sent
      ensures i in m.acked || Awaited(m, i)
    {
      if i == l.sent {
        assert m.outstanding[pkid] == i;
      } else if i !in l.acked {
        StillAwaited(l, m, i);
      }
    }
  }

  lemma BalancedPuback(l: Ledger, pkid: nat)
    requires Balanced(l)
    ensures Balanced(Note(l, PubAck(pkid)))
  {
    var m := Note(l, PubAck(pkid));
    forall i | 0 <= i < m.sent
      ensures i in m.acked || Awaited(m, i)
    {
      if i !in m.acked {
        StillAwaited(l, m, i);
      }
    }
  }

  lemma TracksOutgoing(t: Tracker, l: Ledger, pkid: nat)
    requires Tracks(t, l) && Balanced(l) && pkid !in l.outstanding
    ensures Tracks(OnOutgoing(t, pkid), Note(l, Outgoing(pkid)))
  {
    var u := OnOutgoing(t, pkid);
    assert pkid !in t.discovery && pkid !in t.state;
    assert l.sent < l.expected <==> t.inFlight && |t.discovery| + t.acked < t.expected;
  }

  lemma TracksPuback(t: Tracker, l: Ledger, pkid: nat)
    requires Tracks(t, l) && Balanced(l)
    ensures Tracks(OnPuback(t, pkid).tracker, Note(l, PubAck(pkid)))
  {
    var u := OnPuback(t, pkid).tracker;
    if pkid in t.discovery {
      assert |u.discovery| == |t.discovery| - 1;
    }
  }

  /** Each acknowledgement of a discovery message counts once. */
  lemma AckedOneMore(l: Ledger, pkid: nat)
    requires Balanced(l)
    ensures |AckedDiscovery(Note(l, PubAck(pkid)))| == |AckedDiscovery(l)|
            + if pkid in l.outstanding && l.outstanding[pkid] < l.expected then 1 else 0
  {
    var more := if pkid in l.outstanding && l.outstanding[pkid] < l.expected then {l.outstanding[pkid]} else {};
    assert AckedDiscovery(Note(l, PubAck(pkid))) == AckedDiscovery(l) + more;
  }

  lemma CountsOutgoing(t: Tracker, l: Ledger, pkid: nat)
    requires Counts(t, l)
    ensures Counts(OnOutgoing(t, pkid), Note(l, Outgoing(pkid)))
    ensures AllDiscoveryAcked(Note(l, Outgoing(pkid))) == AllDiscoveryAcked(l)
  {
    assert AckedDiscovery(Note(l, Outgoing(pkid))) == AckedDiscovery(l);
  }

  lemma CountsPuback(t: Tracker, l: Ledger, pkid: nat)
    requires (pkid in t.discovery <==> pkid in l.outstanding && l.outstanding[pkid] < l.expected)
    requires Counts(t, l) && Balanced(l)
    ensures Counts(OnPuback(t, pkid).tracker, Note(l, PubAck(pkid)))
  {
    AckedOneMore(l, pkid);
  }

  /** Nothing expected is outstanding and enough are acknowledged, exactly when all are acknowledged. */
  lemma CompleteIff(t: Tracker, l: Ledger)
    requires Tracks(t, l) && Balanced(l) && l.expected > 0
    ensures t.acked >= t.expected && t.discovery == {} <==> AllDiscoveryAcked(l)
    ensures t.acked >= t.expected <==> AllDiscoveryAcked(l)
  {
    if AllDiscoveryAcked(l) {
      assert l.expected - 1 in l.acked;
      assert t.discovery == {};
    }
    if t.acked >= t.expected {
      assert t.discovery == {};
      forall i | 0 <= i < l.expected
        ensures i in l.acked
      {
        assert i in l.acked || Awaited(l, i);
      }
    }
  }

  /** The acknowledgement that completes discovery is the one that completes the reference, and no other is. */
  lemma CompletedExactlyOnLastAck(t: Tracker, l: Ledger, pkid: nat)
    requires Tracks(t, l) && Balanced(l)
    ensures OnPuback(t, pkid).outcome == DiscoveryCompleted
            <==> !AllDiscoveryAcked(l) && AllDiscoveryAcked(Note(l, PubAck(pkid)))
  {
    var l' := Note(l, PubAck(pkid));
    TracksPuback(t, l, pkid);
    BalancedPuback(l, pkid);
    if l.expected > 0 {
      CompleteIff(t, l);
      CompleteIff(OnPuback(t, pkid).tracker, l');
    }
  }

  /**
   Every acknowledgement is reported for what it is: unknown, of a state message, or of a discovery message,
   then with the number acknowledged so far unless it is the last.
   */
  lemma OutcomeTold(t: Tracker, l: Ledger, pkid: nat)
    requires Tracks(t, l) && Counts(t, l) && Balanced(l)
    ensures var l' := Note(l, PubAck(pkid));
            OnPuback(t, pkid).outcome ==
              if pkid !in l.outstanding then Unclassified
              else if l.outstanding[pkid] >= l.expected then StateAcknowledged
              else if AllDiscoveryAcked(l') then DiscoveryCompleted
              else DiscoveryProgress(|AckedDiscovery(l')|, l.expected)
  {
    CountsPuback(t, l, pkid);
    CompletedExactlyOnLastAck(t, l, pkid);
  }

  /** The bridge's flags say what the ledger does. */
  ghost predicate Reports(b: Bridge, l: Ledger) {
    && Tracks(b.tracker, l) && Counts(b.tracker, l) && Balanced(l) && b.connected == l.connected
    && (l.expected > 0 ==> l.connected)
    && (b.discoveryPublished <==> b.connected && AllDiscoveryAcked(l))
  }

  lemma ReportsOutgoing(b: Bridge, l: Ledger, pkid: nat)
    requires Reports(b, l) && pkid !in l.outstanding
    ensures Reports(Step(b, Outgoing(pkid)), Note(l, Outgoing(pkid)))
  {
    BalancedOutgoing(l, pkid);
    TracksOutgoing(b.tracker, l, pkid);
    CountsOutgoing(b.tracker, l, pkid);
  }

  lemma ReportsPuback(b: Bridge, l: Ledger, pkid: nat)
    requires Reports(b, l)
    ensures Reports(Step(b, PubAck(pkid)), Note(l, PubAck(pkid)))
  {
    BalancedPuback(l, pkid);
    TracksPuback(b.tracker, l, pkid);
    CountsPuback(b.tracker, l, pkid);
    CompletedExactlyOnLastAck(b.tracker, l, pkid);
    assert AllDiscoveryAcked(l) ==> AllDiscoveryAcked(Note(l, PubAck(pkid)));
  }

  lemma ReportsConnection(b: Bridge, l: Ledger, e: Event)
    requires e.ConnAck? || e.Disconnected?
    ensures Reports(Step(b, e), Note(l, e))
  {
    assert Note(l, e).expected > 0 ==> 0 !in Note(l, e).acked;
  }

  /**
   Over every run, discovery counts as published exactly when the bridge is connected and every discovery
   message of the current connection has been acknowledged, in whatever order and among whatever others.
   */
  lemma {:induction false} PublishedIff(es: seq<Event>)
    requires FreshIds(es)
    ensures Reports(RunBridge(es), RunLedger(es))
    ensures var t := RunBridge(es).tracker; |t.discovery| + t.acked <= t.expected
  {
    if es != [] {
      var before, e := es[..|es| - 1], es[|es| - 1];
      PublishedIff(before);
      var b, l := RunBridge(before), RunLedger(before);
      match e {
        case Outgoing(pkid) => ReportsOutgoing(b, l, pkid);
        case PubAck(pkid) => ReportsPuback(b, l, pkid);
        case _ => ReportsConnection(b, l, e);
      }
    }
  }
}
