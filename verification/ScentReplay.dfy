/** An observer of the presence store sees only its events. What can it know? */
module ScentReplay {
  import opened Basics
  import opened ScentStore
  import opened ScentPresence

  /** The observer's idea of an online peer. */
  datatype Seen = Seen(verified: bool, source: Source, url: Option<string>)

  type View = map<string, Seen>

  function Observe(v: View, e: Event): View {
    match e
    case Discovered(r) => v[r.michiId := Seen(r.verified, r.source, r.baseUrl)]
    case Updated(r) => if r.michiId in v then v[r.michiId := Seen(r.verified, r.source, r.baseUrl)] else v
    case EndpointChanged(id, _, url, source, verified) =>
      if id in v then v[id := Seen(verified, source, Some(url))] else v
    case WentOffline(id) => v - {id}
  }

  function Replay(v: View, events: seq<Event>): View {
    if events == [] then v else Observe(Replay(v, events[..|events| - 1]), events[|events| - 1])
  }

  /** What an observer should see. */
  function ViewOf(m: Records): View {
    map id | id in m && m[id].online :: Seen(m[id].verified, m[id].source, m[id].baseUrl)
  }

  /** The observer has the right peers in sight, at the right URLs. */
  ghost predicate Sees(v: View, m: Records) {
    && (forall id :: id in v <==> id in m && m[id].online)
    && (forall id :: id in v ==> v[id].url == m[id].baseUrl)
  }

  /**
   Discovered is announced only of a peer out of sight, offline only of one in sight, and a new URL of a
   peer in sight together with the one it had.
   */
  predicate Fits(v: View, e: Event) {
    match e
    case Discovered(r) => r.michiId !in v
    case Updated(r) => r.michiId in v
    case EndpointChanged(id, old_, url, _, _) => old_ != Some(url) && (id in v ==> v[id].url == old_)
    case WentOffline(id) => id in v
  }

  /** Along the whole sequence, arrivals and departures of each peer alternate, arrival first. */
  predicate Alternates(v: View, events: seq<Event>) {
    events == [] ||
    (Alternates(v, events[..|events| - 1])
     && Fits(Replay(v, events[..|events| - 1]), events[|events| - 1]))
  }

  lemma {:induction false} ReplayConcat(v: View, a: seq<Event>, b: seq<Event>)
    ensures Replay(v, a + b) == Replay(Replay(v, a), b)
    ensures Alternates(v, a + b) <==> Alternates(v, a) && Alternates(Replay(v, a), b)
  {
    if b == [] {
      assert a + b == a;
    } else {
      var front := b[..|b| - 1];
      ReplayConcat(v, a, front);
      assert (a + b)[..|a + b| - 1] == a + front && (a + b)[|a + b| - 1] == b[|b| - 1];
    }
  }

  /** A base-URL update to the URL already stored withdraws trust from an online peer without an event. */
  predicate DowngradesSilently(m: Records, op: Operation) {
    op.BaseUrl? && op.id in m && m[op.id].online && m[op.id].baseUrl == Some(op.url)
    && !IsSignedFresh(m[op.id], op.now) && m[op.id].verified
  }

  lemma OneEvent(v: View, e: Event)
    ensures Replay(v, [e]) == Observe(v, e)
    ensures Alternates(v, [e]) <==> Fits(v, e)
  {
    assert [e][..0] == [];
  }

  lemma PutInView(m: Records, id: string, r: Record)
    ensures ViewOf(m[id := r]) ==
            if r.online then ViewOf(m)[id := Seen(r.verified, r.source, r.baseUrl)] else ViewOf(m) - {id}
  {
  }

  /** A change of one record announced by one event that says what became of it. */
  lemma AnnouncedReplays(m: Records, id: string, r: Record, e: Event, v: View)
    requires r.online && Sees(v, m)
    requires match e
             case Discovered(r') => r' == r && r.michiId == id && !(id in m && m[id].online)
             case Updated(r') => r' == r && r.michiId == id && id in m && m[id].online
             case EndpointChanged(i, old_, url, source, verified) =>
               && i == id && source == r.source && verified == r.verified && id in m && m[id].online
               && old_ == m[id].baseUrl && r.baseUrl == Some(url) && old_ != r.baseUrl
             case WentOffline(_) => false
    ensures Sees(Replay(v, [e]), m[id := r])
    ensures v == ViewOf(m) ==> Replay(v, [e]) == ViewOf(m[id := r])
    ensures Alternates(v, [e])
  {
    OneEvent(v, e);
    PutInView(m, id, r);
  }

  /** The events of a change of one record, whatever the observer believed of the flags. */
  lemma ExpireReplays(m: Records, id: string, now: int, v: View)
    requires AllSound(m, now) && Sees(v, m)
    ensures var e := ExpireOne(m, id, now);
            && Sees(Replay(v, e.events), e.records)
            && (v == ViewOf(m) ==> Replay(v, e.events) == ViewOf(e.records))
            && Alternates(v, e.events) && AllSound(e.records, now)
  {
    if id in m {
      var c := Expire(id, m[id], now);
      if c.events != [] {
        OneEvent(v, c.events[0]);
        assert c.events == [c.events[0]];
      }
    }
  }

  lemma {:induction false} SweepReplays(m: Records, order: seq<string>, now: int, v: View)
    requires AllSound(m, now) && Sees(v, m)
    ensures var e := ExpireAll(m, order, now);
            && Sees(Replay(v, e.events), e.records)
            && (v == ViewOf(m) ==> Replay(v, e.events) == ViewOf(e.records))
            && Alternates(v, e.events) && AllSound(e.records, now)
  {
    if order != [] {
      var front := order[..|order| - 1];
      SweepReplays(m, front, now, v);
      var b := ExpireAll(m, front, now);
      var v' := Replay(v, b.events);
      ExpireReplays(b.records, order[|order| - 1], now, v');
      ReplayConcat(v, b.events, ExpireOne(b.records, order[|order| - 1], now).events);
    }
  }

  /**
   One operation: its events carry the observer's set of online peers and their URLs along exactly, and its
   flags too, exactly when the operation does not downgrade silently.
   */
  lemma StepReplays(m: Records, op: Operation, v: View)
    requires AllSound(m, op.now) && Sees(v, m)
    ensures var e := Perform(m, op);
            && Sees(Replay(v, e.events), e.records)
            && Alternates(v, e.events)
            && (v == ViewOf(m) ==> (Replay(v, e.events) == ViewOf(e.records) <==> !DowngradesSilently(m, op)))
  {
    match op {
      case Signed(id, profile, from, now, home) =>
        var c := ObserveSigned(id, Lookup(m, id), profile, from, now, home);
        AnnouncedReplays(m, id, c.record, c.events[0], v);
      case Mdns(id, profile, url, from, now) =>
        var c := ObserveMdns(id, Lookup(m, id), profile, url, from, now);
        AnnouncedReplays(m, id, c.record, c.events[0], v);
      case BaseUrl(id, url, from, now) => UrlReplays(m, op, v);
      case InfoVerified(id, now) =>
        if id in m {
          PutInView(m, id, m[id].(infoVerifiedAt := Some(now)));
        }
      case Sweep(order, now) => SweepReplays(m, order, now, v);
    }
  }

  lemma UrlReplays(m: Records, op: Operation, v: View)
    requires op.BaseUrl? && AllSound(m, op.now) && Sees(v, m)
    ensures var e := Perform(m, op);
            && Sees(Replay(v, e.events), e.records)
            && Alternates(v, e.events)
            && (v == ViewOf(m) ==> (Replay(v, e.events) == ViewOf(e.records) <==> !DowngradesSilently(m, op)))
  {
    if op.id in m {
      var c := UpdateBaseUrl(op.id, m[op.id], op.url, op.from, op.now);
      PutInView(m, op.id, c.record);
      if c.events == [] {
        SilentReplays(m, op, v);
      } else if m[op.id].online {
        AnnouncedReplays(m, op.id, c.record, c.events[0], v);
      } else {
        OneEvent(v, c.events[0]);
      }
    }
  }

  /** An update to the URL already stored: nothing is announced, and the flags change at most. */
  lemma SilentReplays(m: Records, op: Operation, v: View)
    requires op.BaseUrl? && AllSound(m, op.now) && Sees(v, m) && op.id in m && m[op.id].baseUrl == Some(op.url)
    ensures var e := Perform(m, op);
            && e.events == [] && Sees(v, e.records)
            && (v == ViewOf(m) ==> (v == ViewOf(e.records) <==> !DowngradesSilently(m, op)))
  {
    var r := UpdateBaseUrl(op.id, m[op.id], op.url, op.from, op.now).record;
    PutInView(m, op.id, r);
    if DowngradesSilently(m, op) {
      assert ViewOf(m[op.id := r])[op.id] != ViewOf(m)[op.id];
    }
  }

  /**
   Over every history: the events rebuild the set of online peers and the URL of each, arrivals and
   departures alternate, and a change of URL is announced with the one before.
   */
  lemma {:induction false} EventsRebuildOnlineSet(ops: seq<Operation>)
    requires Timely(ops)
    ensures Sees(Replay(map[], Log(ops)), Run(ops))
    ensures Alternates(map[], Log(ops))
  {
    if ops != [] {
      var front, op := ops[..|ops| - 1], ops[|ops| - 1];
      TimelyPrefix(ops);
      EventsRebuildOnlineSet(front);
      RunIsSound(front, op.now);
      StepReplays(Run(front), op, Replay(map[], Log(front)));
      ReplayConcat(map[], Log(front), Perform(Run(front), op).events);
    }
  }

  predicate NoneSilent(ops: seq<Operation>) {
    ops == [] ||
    (NoneSilent(ops[..|ops| - 1]) && !DowngradesSilently(Run(ops[..|ops| - 1]), ops[|ops| - 1]))
  }

  /** The observer has the right flags after every prefix of the history. */
  predicate AlwaysExact(ops: seq<Operation>) {
    Replay(map[], Log(ops)) == ViewOf(Run(ops)) && (ops == [] || AlwaysExact(ops[..|ops| - 1]))
  }

  /** The events rebuild the flags as well, throughout a history, exactly when no operation of it downgrades silently. */
  lemma {:induction false} EventsRebuildFlagsIff(ops: seq<Operation>)
    requires Timely(ops)
    ensures AlwaysExact(ops) <==> NoneSilent(ops)
  {
    if ops != [] {
      var front, op := ops[..|ops| - 1], ops[|ops| - 1];
      TimelyPrefix(ops);
      EventsRebuildFlagsIff(front);
      EventsRebuildOnlineSet(front);
      RunIsSound(front, op.now);
      StepReplays(Run(front), op, Replay(map[], Log(front)));
      ReplayConcat(map[], Log(front), Perform(Run(front), op).events);
    }
  }
}
