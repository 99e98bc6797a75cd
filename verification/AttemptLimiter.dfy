/**
 The fixed-window limiter in front of login and registration: per key a count and the time its window
 began, in milliseconds. A window of more than sixty whole seconds is replaced by a new one.
 */
module AttemptLimiter {
  import opened Basics

  datatype Entry = Entry(count: nat, lastReset: int)

  datatype Decision = Decision(entry: Entry, admitted: bool)

  function ElapsedSeconds(now: int, since: int): nat {
    if now <= since then 0 else (now - since) / 1000
  }

  function Decide(e: Option<Entry>, limit: nat, now: int): Decision {
    var entry := e.GetOr(Entry(0, now));
    if ElapsedSeconds(now, entry.lastReset) > 60 then Decision(Entry(1, now), true)
    else if entry.count >= limit then Decision(entry, false)
    else Decision(Entry(entry.count + 1, entry.lastReset), true)
  }

  const REGISTER_LIMIT: nat := 5

  class Limiter {
    var attempts: map<string, Entry>

    constructor ()
      ensures attempts == map[]
    {
      attempts := map[];
    }

    method Attempt(key: string, limit: nat, now: int) returns (admitted: bool)
      modifies this
      ensures var d := Decide(if key in old(attempts) then Some(old(attempts)[key]) else None, limit, now);
              attempts == old(attempts)[key := d.entry] && admitted == d.admitted
    {
      if key !in attempts {
        attempts := attempts[key := Entry(0, now)];
      }
      var entry := attempts[key];
      if ElapsedSeconds(now, entry.lastReset) > 60 {
        attempts := attempts[key := Entry(1, now)];
        admitted := true;
      } else if entry.count >= limit {
        admitted := false;
      } else {
        attempts := attempts[key := Entry(entry.count + 1, entry.lastReset)];
        admitted := true;
      }
    }

    /** The configured login limit counts as at least one. */
    method Login(clientIp: string, configured: nat, now: int) returns (admitted: bool)
      modifies this
      ensures var key := "login_" + clientIp;
              var limit := if configured > 1 then configured else 1;
              var d := Decide(if key in old(attempts) then Some(old(attempts)[key]) else None, limit, now);
              attempts == old(attempts)[key := d.entry] && admitted == d.admitted
    {
      admitted := Attempt("login_" + clientIp, if configured > 1 then configured else 1, now);
    }

    method Register(clientIp: string, now: int) returns (admitted: bool)
      modifies this
      ensures var key := "register_" + clientIp;
              var d := Decide(if key in old(attempts) then Some(old(attempts)[key]) else None, REGISTER_LIMIT, now);
              attempts == old(attempts)[key := d.entry] && admitted == d.admitted
    {
      admitted := Attempt("register_" + clientIp, REGISTER_LIMIT, now);
    }
  }

  /** The entry of one key after attempts at these times. */
  function After(times: seq<int>, limit: nat): Option<Entry> {
    if times == [] then None
    else Some(Decide(After(times[..|times| - 1], limit), limit, times[|times| - 1]).entry)
  }

  predicate AdmittedLast(times: seq<int>, limit: nat)
    requires times != []
  {
    Decide(After(times[..|times| - 1], limit), limit, times[|times| - 1]).admitted
  }

  /** When the current window began, from the times alone: a window lasts while less than 61 seconds have passed. */
  function WindowStart(times: seq<int>): int
    requires times != []
  {
    var now := times[|times| - 1];
    if |times| == 1 then now else
    var start := WindowStart(times[..|times| - 1]);
    if now - start >= 61_000 then now else start
  }

  /** How many attempts fell into the current window, admitted or not. */
  function InWindow(times: seq<int>): nat
    requires times != []
  {
    if |times| == 1 || times[|times| - 1] - WindowStart(times[..|times| - 1]) >= 61_000 then 1
    else InWindow(times[..|times| - 1]) + 1
  }

  /**
   An attempt is admitted exactly when it is among the first `limit` of its window; refused ones neither
   count nor prolong the window, so the first attempt 61 seconds after its start is admitted again.
   */
  lemma {:induction false} AdmittedIff(times: seq<int>, limit: nat)
    requires limit > 0 && times != []
    ensures AdmittedLast(times, limit) <==> InWindow(times) <= limit
    ensures var n := InWindow(times);
            After(times, limit) == Some(Entry(if n <= limit then n else limit, WindowStart(times)))
  {
    if |times| == 1 {
      assert times[..0] == [];
    } else {
      AdmittedIff(times[..|times| - 1], limit);
    }
  }

  /** How many attempts within [from, to] were admitted. */
  function AdmittedWithin(times: seq<int>, limit: nat, from: int, to: int): nat {
    if times == [] then 0 else
    AdmittedWithin(times[..|times| - 1], limit, from, to)
    + if from <= times[|times| - 1] <= to && AdmittedLast(times, limit) then 1 else 0
  }

  ghost predicate Chronological(times: seq<int>) {
    forall i, j :: 0 <= i < j < |times| ==> times[i] <= times[j]
  }

  lemma {:induction false} CountsBounded(times: seq<int>, limit: nat, from: int, to: int)
    requires limit > 0 && Chronological(times) && to - from < 61_000
    ensures times != [] ==>
              var e := After(times, limit).value;
              var n := AdmittedWithin(times, limit, from, to);
              && 1 <= e.count <= limit && e.lastReset <= times[|times| - 1]
              && (times[|times| - 1] < from ==> n == 0)
              && (e.lastReset < from ==> n <= e.count - 1)
              && (from <= e.lastReset <= to ==> n <= limit - 1 + e.count)
              && (to < e.lastReset ==> n <= 2 * limit - 1)
  {
    if times != [] {
      CountsBounded(times[..|times| - 1], limit, from, to);
    }
  }

  /** No interval of under sixty-one seconds admits more than one less than twice the limit. */
  lemma SlidingBound(times: seq<int>, limit: nat, from: int, to: int)
    requires limit > 0 && Chronological(times) && to - from < 61_000
    ensures AdmittedWithin(times, limit, from, to) <= 2 * limit - 1
    ensures times != [] ==> After(times, limit).value.count <= limit
  {
    CountsBounded(times, limit, from, to);
  }

  /** Attempts at one instant, after the given ones. */
  function Burst(times: seq<int>, k: nat, at: int): seq<int>
    decreases k
  {
    if k == 0 then times else Burst(times + [at], k - 1, at)
  }

  lemma {:induction false} BurstElements(times: seq<int>, k: nat, at: int)
    ensures var r := Burst(times, k, at);
            |r| == |times| + k && forall i :: 0 <= i < |r| ==> r[i] == if i < |times| then times[i] else at
    decreases k
  {
    if k > 0 {
      BurstElements(times + [at], k - 1, at);
    }
  }

  /** One more attempt, in terms of the decision it gets. */
  lemma OneMore(times: seq<int>, limit: nat, now: int, from: int, to: int)
    ensures var d := Decide(After(times, limit), limit, now);
            && After(times + [now], limit) == Some(d.entry)
            && AdmittedWithin(times + [now], limit, from, to)
               == AdmittedWithin(times, limit, from, to) + if from <= now <= to && d.admitted then 1 else 0
  {
    assert (times + [now])[..|times + [now]| - 1] == times;
  }

  lemma RoomForOne(times: seq<int>, e: Entry, limit: nat, at: int, from: int, to: int)
    requires After(times, limit) == Some(e) && from <= at <= to
    requires e.count < limit && 0 <= at - e.lastReset < 61_000
    ensures After(times + [at], limit) == Some(Entry(e.count + 1, e.lastReset))
    ensures AdmittedWithin(times + [at], limit, from, to) == AdmittedWithin(times, limit, from, to) + 1
  {
    OneMore(times, limit, at, from, to);
  }

  /** An open window with room admits a burst that fits. */
  lemma {:induction false} BurstAdmitted(times: seq<int>, e: Entry, limit: nat, k: nat, at: int, from: int, to: int)
    requires After(times, limit) == Some(e) && from <= at <= to
    requires e.count + k <= limit && 0 <= at - e.lastReset < 61_000
    ensures After(Burst(times, k, at), limit) == Some(Entry(e.count + k, e.lastReset))
    ensures AdmittedWithin(Burst(times, k, at), limit, from, to) == AdmittedWithin(times, limit, from, to) + k
    decreases k
  {
    if k > 0 {
      RoomForOne(times, e, limit, at, from, to);
      BurstAdmitted(times + [at], Entry(e.count + 1, e.lastReset), limit, k - 1, at, from, to);
    }
  }

  /** The worst case: fill up a window at its very end, then fill the next one at its start. */
  function FullWindow(limit: nat): seq<int>
    requires limit > 0
  {
    Burst([0], limit - 1, 60_999)
  }

  function WorstCase(limit: nat): seq<int>
    requires limit > 0
  {
    Burst(FullWindow(limit) + [61_000], limit - 1, 61_000)
  }

  lemma FullWindowAdmits(limit: nat)
    requires limit > 0
    ensures After(FullWindow(limit), limit) == Some(Entry(limit, 0))
    ensures AdmittedWithin(FullWindow(limit), limit, 60_999, 61_000) == limit - 1
  {
    assert After([0], limit) == Some(Entry(1, 0)) && AdmittedWithin([0], limit, 60_999, 61_000) == 0 by {
      OneMore([], limit, 0, 60_999, 61_000);
      assert [] + [0] == [0];
    }
    BurstAdmitted([0], Entry(1, 0), limit, limit - 1, 60_999, 60_999, 61_000);
  }

  lemma SecondWindowAdmits(full: seq<int>, next: seq<int>, limit: nat, now: int, from: int, to: int)
    requires limit > 0 && After(full, limit).Some? && now - After(full, limit).value.lastReset >= 61_000
    requires next == full + [now] && from <= now <= to
    ensures AdmittedWithin(Burst(next, limit - 1, now), limit, from, to)
              == AdmittedWithin(full, limit, from, to) + limit
  {
    OneMore(full, limit, now, from, to);
    BurstAdmitted(next, Entry(1, now), limit, limit - 1, now, from, to);
  }

  lemma WorstCaseChronological(limit: nat)
    requires limit > 0
    ensures Chronological(WorstCase(limit))
  {
    var times := WorstCase(limit);
    BurstElements([0], limit - 1, 60_999);
    BurstElements(FullWindow(limit) + [61_000], limit - 1, 61_000);
    assert forall i :: 0 <= i < |times| ==> times[i] == if i == 0 then 0 else if i < limit then 60_999 else 61_000;
  }

  /** The bound is attained, within a single millisecond. */
  lemma SlidingBoundIsTight(limit: nat)
    requires limit > 0
    ensures Chronological(WorstCase(limit))
    ensures AdmittedWithin(WorstCase(limit), limit, 60_999, 61_000) == 2 * limit - 1
  {
    WorstCaseChronological(limit);
    FullWindowAdmits(limit);
    SecondWindowAdmits(FullWindow(limit), FullWindow(limit) + [61_000], limit, 61_000, 60_999, 61_000);
  }
}
