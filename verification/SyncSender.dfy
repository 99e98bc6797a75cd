/** The sending half of one sync connection: a snapshot first, then whatever is newer than what was sent. */
module SyncSender {
  import opened Precedence

  /** A state as a message carries it: shuffle and repeat stay behind, and nothing else does. */
  function OnWire(m: PlaybackState): (r: PlaybackState)
    ensures r.payload.modes == Modes(false, "off") && r.(payload := r.payload.(modes := m.payload.modes)) == m
  {
    m.(payload := Audible(m.payload))
  }

  /** What a connection compares the next state with: the snapshot as it stands here, later the message sent. */
  function LastSent(initial: PlaybackState, offered: seq<PlaybackState>): PlaybackState {
    if offered == [] then initial else
    var last, m := LastSent(initial, offered[..|offered| - 1]), OnWire(offered[|offered| - 1]);
    if Covers(last, m) then last else m
  }

  predicate Covers(last: PlaybackState, m: PlaybackState) {
    HasPrecedenceOver(last, m) || last == m
  }

  /** What a connection sends: the snapshot, then every state that the last one sent does not cover. */
  function Forwarded(initial: PlaybackState, offered: seq<PlaybackState>): (sent: seq<PlaybackState>)
    ensures sent != [] && sent[0] == OnWire(initial)
  {
    if offered == [] then [OnWire(initial)] else
    var before, m := offered[..|offered| - 1], OnWire(offered[|offered| - 1]);
    if Covers(LastSent(initial, before), m) then Forwarded(initial, before) else Forwarded(initial, before) + [m]
  }

  method SendTask(initial: PlaybackState, offered: seq<PlaybackState>) returns (sent: seq<PlaybackState>)
    ensures sent == Forwarded(initial, offered)
  {
    var lastSent := initial;
    sent := [OnWire(initial)];
    for k := 0 to |offered|
      invariant sent == Forwarded(initial, offered[..k]) && lastSent == LastSent(initial, offered[..k])
    {
      var m := OnWire(offered[k]);
      assert offered[..k + 1][..k] == offered[..k] && offered[..k + 1][k] == offered[k];
      if HasPrecedenceOver(lastSent, m) || lastSent == m {
        continue;
      }
      lastSent := m;
      sent := sent + [m];
    }
    assert offered[..|offered|] == offered;
  }

  /** All messages that the connection may have to send. */
  function Messages(initial: PlaybackState, offered: seq<PlaybackState>): set<PlaybackState> {
    if offered == [] then {OnWire(initial)}
    else Messages(initial, offered[..|offered| - 1]) + {OnWire(offered[|offered| - 1])}
  }

  lemma {:induction false} LastOfSent(initial: PlaybackState, offered: seq<PlaybackState>)
    ensures var sent, last := Forwarded(initial, offered), LastSent(initial, offered);
            && sent[|sent| - 1] == OnWire(last)
            && (if |sent| == 1 then last == initial else last == OnWire(last))
  {
    if offered != [] {
      LastOfSent(initial, offered[..|offered| - 1]);
    }
  }

  /** The last message sent is the highest of all states offered: the winner is never skipped. */
  lemma {:induction false} WinnerIsSent(initial: PlaybackState, offered: seq<PlaybackState>)
    requires Orderly(Messages(initial, offered))
    ensures var sent := Forwarded(initial, offered);
            IsMaximum(sent[|sent| - 1], Messages(initial, offered))
  {
    LastOfSent(initial, offered);
    if offered != [] {
      var before, m := offered[..|offered| - 1], OnWire(offered[|offered| - 1]);
      WinnerIsSent(initial, before);
      LastOfSent(initial, before);
      WinnerStep(Messages(initial, before), LastSent(initial, before), m);
    }
  }

  /** One state offered, to a connection on the highest so far. */
  lemma WinnerStep(states: set<PlaybackState>, last: PlaybackState, m: PlaybackState)
    requires Orderly(states + {m}) && IsMaximum(OnWire(last), states) && m == OnWire(m)
    ensures IsMaximum(OnWire(if Covers(last, m) then last else m), states + {m})
  {
    assert StampOf(OnWire(last)) == StampOf(last);
    if !Covers(last, m) {
      MaximumReplaced(OnWire(last), m, states);
    }
  }

  lemma {:induction false} SentAreMessages(initial: PlaybackState, offered: seq<PlaybackState>)
    ensures forall m :: m in Forwarded(initial, offered) ==> m in Messages(initial, offered)
  {
    if offered != [] {
      SentAreMessages(initial, offered[..|offered| - 1]);
    }
  }

  /** Each message precedes all sent before it, except that the snapshot may be followed by its own repetition. */
  ghost predicate Ascending(sent: seq<PlaybackState>) {
    forall i, j :: 0 <= i < j < |sent| ==>
      HasPrecedenceOver(sent[j], sent[i]) || (i == 0 && j == 1 && sent[0] == sent[1])
  }

  lemma AscendsFurther(sent: seq<PlaybackState>, m: PlaybackState)
    requires sent != [] && Ascending(sent)
    requires forall x :: x in sent ==> x == m || HasPrecedenceOver(m, x)
    requires sent[|sent| - 1] == m ==> |sent| == 1
    ensures Ascending(sent + [m])
  {
    var more := sent + [m];
    forall i | 0 <= i < |sent|
      ensures HasPrecedenceOver(m, sent[i]) || (i == 0 && |sent| == 1 && sent[0] == m)
    {
      assert sent[i] in sent;
      if sent[i] == m && i < |sent| - 1 {
        var last := sent[|sent| - 1];
        assert last in sent;
        Trichotomy(StampOf(last), StampOf(m));
      }
    }
  }

  /** The messages rise: stale and duplicate states are skipped. */
  lemma {:induction false} SentAscend(initial: PlaybackState, offered: seq<PlaybackState>)
    requires Orderly(Messages(initial, offered))
    ensures Ascending(Forwarded(initial, offered))
  {
    if offered != [] {
      var before, m := offered[..|offered| - 1], OnWire(offered[|offered| - 1]);
      SentAscend(initial, before);
      if !Covers(LastSent(initial, before), m) {
        LastOfSent(initial, before);
        LastOfSent(initial, offered);
        WinnerIsSent(initial, offered);
        SentAreMessages(initial, before);
        AscendsFurther(Forwarded(initial, before), m);
      }
    }
  }

  /**
   The highest of all states is passed on exactly when it was not offered to the connection before, or is
   the snapshot, nothing else was sent, and shuffle or repeat still make it differ from its message.
   */
  lemma {:induction false} ResendsIff(initial: PlaybackState, offered: seq<PlaybackState>, m: PlaybackState)
    requires Orderly(Messages(initial, offered + [m])) && IsMaximum(OnWire(m), Messages(initial, offered + [m]))
    ensures var before, after := Forwarded(initial, offered), Forwarded(initial, offered + [m]);
            var repeats := |before| == 1 && OnWire(m) == OnWire(initial) != initial;
            after == if OnWire(m) !in Messages(initial, offered) || repeats then before + [OnWire(m)] else before
  {
    var last, w := LastSent(initial, offered), OnWire(m);
    assert (offered + [m])[..|offered|] == offered;
    WinnerIsSent(initial, offered);
    LastOfSent(initial, offered);
    Trichotomy(StampOf(last), StampOf(w));
    assert StampOf(OnWire(last)) == StampOf(last);
    if w in Messages(initial, offered) {
      MaximumUnique(w, OnWire(last), Messages(initial, offered));
    }
  }

  predicate AllBelow(initial: PlaybackState, offered: seq<PlaybackState>) {
    forall m :: m in offered ==> HasPrecedenceOver(initial, OnWire(m))
  }

  /** The snapshot itself is offered while it still differs from its message and nothing newer has come. */
  predicate OffersSnapshot(initial: PlaybackState, offered: seq<PlaybackState>) {
    offered != [] &&
    var before, m := offered[..|offered| - 1], OnWire(offered[|offered| - 1]);
    || OffersSnapshot(initial, before)
    || (AllBelow(initial, before) && m == OnWire(initial) && initial != OnWire(initial))
  }

  predicate RepeatsSnapshot(sent: seq<PlaybackState>) {
    |sent| > 1 && sent[1] == sent[0]
  }

  lemma {:induction false} OnlySnapshotIff(initial: PlaybackState, offered: seq<PlaybackState>)
    requires initial != OnWire(initial)
    ensures |Forwarded(initial, offered)| == 1 <==> AllBelow(initial, offered)
  {
    if offered != [] {
      var before, m := offered[..|offered| - 1], offered[|offered| - 1];
      OnlySnapshotIff(initial, before);
      LastOfSent(initial, before);
      assert offered == before + [m];
    }
  }

  /** The snapshot is sent twice exactly when shuffle or repeat make it differ from its own message, offered next. */
  lemma {:induction false} RepeatsSnapshotIff(initial: PlaybackState, offered: seq<PlaybackState>)
    requires Orderly(Messages(initial, offered))
    ensures RepeatsSnapshot(Forwarded(initial, offered)) <==> OffersSnapshot(initial, offered)
  {
    if offered != [] {
      var before, m := offered[..|offered| - 1], OnWire(offered[|offered| - 1]);
      RepeatsSnapshotIff(initial, before);
      LastOfSent(initial, before);
      Trichotomy(StampOf(initial), StampOf(initial));
      if initial != OnWire(initial) {
        OnlySnapshotIff(initial, before);
      }
    }
  }
}
