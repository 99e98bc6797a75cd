/**
 What holds over every history of the presence store with a clock that never goes back: the flags are a
 correct cache of effective presence, and sweeps answer no query differently.
 */
module ScentPresence {
  import opened Basics
  import opened ScentStore

  function TimeOf(op: Operation): int { op.now }

  function Run(ops: seq<Operation>): Records {
    if ops == [] then map[] else Perform(Run(ops[..|ops| - 1]), ops[|ops| - 1]).records
  }

  function Log(ops: seq<Operation>): seq<Event> {
    if ops == [] then [] else
    Log(ops[..|ops| - 1]) + Perform(Run(ops[..|ops| - 1]), ops[|ops| - 1]).events
  }

  /** The clock never goes back, and every sweep visits every record. */
  ghost predicate Timely(ops: seq<Operation>) {
    && (forall i, j :: 0 <= i < j < |ops| ==> TimeOf(ops[i]) <= TimeOf(ops[j]))
    && (forall i :: 0 <= i < |ops| ==> Visits(Run(ops[..i]), ops[i]))
  }

  ghost predicate Visits(m: Records, op: Operation) {
    op.Sweep? ==> forall id :: id in op.order <==> id in m
  }

  /** The flags of one record at time `c`, at or after every time it mentions. */
  predicate Sound(id: string, r: Record, c: int) {
    && r.michiId == id
    && (r.verified ==> r.online && r.source == WhiskerSigned)
    && (r.online && !r.verified ==> r.source == MdnsProvisional)
    && (!r.verified ==> !IsSignedFresh(r, c))
  }

  ghost predicate AllSound(m: Records, c: int) {
    forall id :: id in m ==> Sound(id, m[id], c)
  }

  /** The flags agree with effective presence. */
  predicate Accurate(r: Record, now: int) {
    r.online ==>
      && EffectivePresence(r, now) != Offline
      && (r.verified <==> EffectivePresence(r, now) == VerifiedOnline)
      && (r.source == WhiskerSigned <==> EffectivePresence(r, now) == VerifiedOnline)
  }

  lemma {:induction false} ExpireAllPointwise(m: Records, order: seq<string>, now: int)
    ensures var m' := ExpireAll(m, order, now).records;
            && m'.Keys == m.Keys
            && forall id :: id in m ==> m'[id] == if id in order then Expire(id, m[id], now).record else m[id]
  {
    if order != [] {
      var front, last := order[..|order| - 1], order[|order| - 1];
      ExpireAllPointwise(m, front, now);
      assert order == front + [last];
      if last in m && last in front {
        assert Expire(last, Expire(last, m[last], now).record, now).record == Expire(last, m[last], now).record;
      }
    }
  }

  lemma SoundStep(m: Records, op: Operation, c: int)
    requires AllSound(m, c) && c <= TimeOf(op)
    ensures AllSound(Perform(m, op).records, TimeOf(op))
  {
    if op.Sweep? {
      ExpireAllPointwise(m, op.order, op.now);
    }
  }

  lemma {:induction false} RunIsSound(ops: seq<Operation>, c: int)
    requires Timely(ops) && (ops == [] || TimeOf(ops[|ops| - 1]) <= c)
    ensures AllSound(Run(ops), c)
  {
    if ops != [] {
      var front, op := ops[..|ops| - 1], ops[|ops| - 1];
      TimelyPrefix(ops);
      RunIsSound(front, TimeOf(op));
      SoundStep(Run(front), op, TimeOf(op));
    }
  }

  lemma TimelyPrefix(ops: seq<Operation>)
    requires Timely(ops) && ops != []
    ensures Timely(ops[..|ops| - 1]) && Visits(Run(ops[..|ops| - 1]), ops[|ops| - 1])
    ensures |ops| > 1 ==> TimeOf(ops[|ops| - 2]) <= TimeOf(ops[|ops| - 1])
  {
    var front := ops[..|ops| - 1];
    forall i | 0 <= i < |front|
      ensures Visits(Run(front[..i]), front[i])
    {
      assert front[..i] == ops[..i];
      assert Visits(Run(ops[..i]), ops[i]);
    }
  }

  lemma ExpiredIsAccurate(id: string, r: Record, now: int)
    requires Sound(id, r, now)
    ensures var q := Expire(id, r, now).record;
            Accurate(q, now) && Expire(id, q, now) == Change(q, [])
  {
  }

  /** Right after a sweep every online record is what its flags say, and a second sweep has nothing to do. */
  lemma SweptIsAccurate(ops: seq<Operation>, order: seq<string>, now: int)
    requires Timely(ops + [Sweep(order, now)])
    ensures var m := Run(ops + [Sweep(order, now)]);
            && (forall id :: id in m ==> Accurate(m[id], now))
            && (forall again :: ExpireAll(m, again, now) == Effect(m, []))
  {
    var all := ops + [Sweep(order, now)];
    assert all[..|all| - 1] == ops;
    TimelyPrefix(all);
    RunIsSound(ops, now);
    var m := Run(ops);
    var m' := Run(all);
    ExpireAllPointwise(m, order, now);
    forall id | id in m'
      ensures Accurate(m'[id], now) && Expire(id, m'[id], now) == Change(m'[id], [])
    {
      assert Sound(id, m[id], now) && id in order;
      ExpiredIsAccurate(id, m[id], now);
    }
    forall again
      ensures ExpireAll(m', again, now) == Effect(m', [])
    {
      NothingExpires(m', again, now);
    }
  }

  lemma {:induction false} NothingExpires(m: Records, order: seq<string>, now: int)
    requires forall id :: id in m ==> Expire(id, m[id], now) == Change(m[id], [])
    ensures ExpireAll(m, order, now) == Effect(m, [])
  {
    if order != [] {
      NothingExpires(m, order[..|order| - 1], now);
      var id := order[|order| - 1];
      if id in m {
        assert m[id := m[id]] == m;
      }
    }
  }

  /** The two records differ in their flags at most. */
  predicate SameButFlags(r: Record, q: Record) {
    q == r.(online := q.online, verified := q.verified, source := q.source)
  }

  lemma ExpiryTouchesFlagsOnly(id: string, r: Record, now: int, at: int)
    ensures SameButFlags(r, Expire(id, r, now).record)
    ensures EffectivePresence(Expire(id, r, now).record, at) == EffectivePresence(r, at)
  {
  }

  /**
   Sweeping changes no answer of the freshness queries, for any instant asked about: the same records are
   found, and nothing in them but their flags differs.
   */
  lemma {:induction false} SweepsAnswerNothingDifferently(m: Records, order: seq<string>, now: int, at: int)
    ensures var m' := ExpireAll(m, order, now).records;
            && ActiveAt(m', at) == ActiveAt(m, at)
            && SignedVerifiedAt(m', at) == SignedVerifiedAt(m, at)
            && forall id :: id in m ==> id in m' && SameButFlags(m[id], m'[id])
  {
    ExpireAllPointwise(m, order, now);
    var m' := ExpireAll(m, order, now).records;
    forall id | id in m
      ensures SameButFlags(m[id], m'[id]) && EffectivePresence(m'[id], at) == EffectivePresence(m[id], at)
    {
      ExpiryTouchesFlagsOnly(id, m[id], now, at);
    }
  }

  /** Online records and active records are the same. */
  ghost predicate OnlineIsActive(m: Records, now: int) {
    forall id :: id in m ==> (m[id].online <==> EffectivePresence(m[id], now) != Offline)
  }

  /** A base-URL update refreshes an offline record without bringing it online; nothing else does. */
  predicate RevivesSilently(m: Records, op: Operation) {
    op.BaseUrl? && op.id in m && !m[op.id].online
  }

  lemma OnlineIsActiveIff(m: Records, op: Operation)
    requires OnlineIsActive(m, op.now) && Visits(m, op)
    ensures OnlineIsActive(Perform(m, op).records, op.now) <==> !RevivesSilently(m, op)
  {
    if op.Sweep? {
      ExpireAllPointwise(m, op.order, op.now);
    }
    if RevivesSilently(m, op) {
      var r := Perform(m, op).records[op.id];
      assert !r.online && EffectivePresence(r, op.now) != Offline;
    }
  }

  ghost predicate OfflineIsStale(m: Records, c: int) {
    forall id :: id in m && !m[id].online ==> EffectivePresence(m[id], c) == Offline
  }

  lemma OfflineStaleStep(m: Records, op: Operation)
    requires OfflineIsStale(m, op.now) && !RevivesSilently(m, op)
    ensures OfflineIsStale(Perform(m, op).records, op.now)
  {
    if op.Sweep? {
      ExpireAllPointwise(m, op.order, op.now);
    }
  }

  lemma {:induction false} OfflineStaysStale(ops: seq<Operation>, c: int)
    requires Timely(ops) && (ops == [] || TimeOf(ops[|ops| - 1]) <= c)
    requires forall i :: 0 <= i < |ops| ==> !RevivesSilently(Run(ops[..i]), ops[i])
    ensures OfflineIsStale(Run(ops), c)
  {
    if ops != [] {
      var front, op := ops[..|ops| - 1], ops[|ops| - 1];
      TimelyPrefix(ops);
      forall i | 0 <= i < |front|
        ensures !RevivesSilently(Run(front[..i]), front[i])
      {
        assert front[..i] == ops[..i];
      }
      OfflineStaysStale(front, TimeOf(op));
      OfflineStaleStep(Run(front), op);
    }
  }

  /** In a history without silent revivals, exactly the active records are online after a sweep. */
  lemma SweptOnlineIsActive(ops: seq<Operation>, order: seq<string>, now: int)
    requires Timely(ops + [Sweep(order, now)])
    requires forall i :: 0 <= i < |ops| ==> !RevivesSilently(Run(ops[..i]), ops[i])
    ensures OnlineIsActive(Run(ops + [Sweep(order, now)]), now)
  {
    var all := ops + [Sweep(order, now)];
    assert all[..|all| - 1] == ops;
    forall i | 0 <= i < |all|
      ensures !RevivesSilently(Run(all[..i]), all[i])
    {
      assert all[..i] == ops[..i];
    }
    OfflineStaysStale(all, now);
    SweptIsAccurate(ops, order, now);
  }
}
