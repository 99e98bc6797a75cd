/**
 The receiver's two small protocols: PIN pairing, and the single playback session with its heartbeats.
 Requests are handled one at a time; identifiers and tokens are handed in and new.
 */
module Receiver {
  import opened Basics

  datatype Status = Pending | Confirmed | Locked | Expired

  datatype Pairing = Pairing(pin: nat, expiresAt: int, consumed: bool, status: Status, attemptsRemaining: int)

  /** A confirmation request: the PIN entered, if any, and the time. */
  datatype Guess = Guess(pin: Option<nat>, now: int)

  datatype Reply =
    | Consumed409
    | Locked429
    | Expired400
    | NowLocked429
    | Wrong401
    | Paired200

  const MAX_ATTEMPTS: int := 5
  const PAIRING_WINDOW: int := 120
  const LEASE: int := 30

  function PairStart(pin: nat, now: int): Pairing {
    Pairing(pin, now + PAIRING_WINDOW, false, Pending, MAX_ATTEMPTS)
  }

  datatype Answer = Answer(pairing: Pairing, reply: Reply)

  function PairConfirm(p: Pairing, g: Guess): Answer {
    if p.status == Confirmed || p.consumed then Answer(p, Consumed409)
    else if p.status == Locked then Answer(p, Locked429)
    else if g.now > p.expiresAt then Answer(p.(status := Expired), Expired400)
    else if g.pin != Some(p.pin) then
      var left := p.attemptsRemaining - 1;
      if left <= 0 then Answer(p.(attemptsRemaining := left, status := Locked, consumed := true), NowLocked429)
      else Answer(p.(attemptsRemaining := left), Wrong401)
    else Answer(p.(status := Confirmed, consumed := true), Paired200)
  }

  function After(p: Pairing, gs: seq<Guess>): Pairing {
    if gs == [] then p else PairConfirm(After(p, gs[..|gs| - 1]), gs[|gs| - 1]).pairing
  }

  function LastReply(p: Pairing, gs: seq<Guess>): Reply
    requires gs != []
  {
    PairConfirm(After(p, gs[..|gs| - 1]), gs[|gs| - 1]).reply
  }

  predicate InTime(p: Pairing, g: Guess) { g.now <= p.expiresAt }

  predicate Right(p: Pairing, g: Guess) { InTime(p, g) && g.pin == Some(p.pin) }

  /** Wrong PINs entered in time, counted from the requests alone. */
  function WrongInTime(p: Pairing, gs: seq<Guess>): nat {
    if gs == [] then 0 else
    WrongInTime(p, gs[..|gs| - 1]) + if InTime(p, gs[|gs| - 1]) && !Right(p, gs[|gs| - 1]) then 1 else 0
  }

  predicate AnyRight(p: Pairing, gs: seq<Guess>) {
    exists i :: 0 <= i < |gs| && Right(p, gs[i])
  }

  lemma AnyRightSnoc(p: Pairing, gs: seq<Guess>)
    requires gs != []
    ensures AnyRight(p, gs) <==> AnyRight(p, gs[..|gs| - 1]) || Right(p, gs[|gs| - 1])
  {
    var front := gs[..|gs| - 1];
    if AnyRight(p, gs) && !Right(p, gs[|gs| - 1]) {
      var i :| 0 <= i < |gs| && Right(p, gs[i]);
      assert front[i] == gs[i];
    }
    if AnyRight(p, front) {
      var i :| 0 <= i < |front| && Right(p, front[i]);
      assert gs[i] == front[i];
    }
  }

  /**
   The state of a pairing told from the requests alone: locked by the fifth wrong PIN, confirmed by a
   right one before that, and until either happens every wrong PIN in time has cost one attempt.
   */
  ghost predicate Accounted(p: Pairing, gs: seq<Guess>, q: Pairing) {
    && q.pin == p.pin && q.expiresAt == p.expiresAt
    && (q.status in {Pending, Expired} <==> !q.consumed)
    && (q.status == Locked ==> q.attemptsRemaining == 0 && WrongInTime(p, gs) >= MAX_ATTEMPTS)
    && (q.status == Confirmed ==> 1 <= q.attemptsRemaining && AnyRight(p, gs)
                                  && MAX_ATTEMPTS - q.attemptsRemaining <= WrongInTime(p, gs))
    && (!q.consumed ==> !AnyRight(p, gs) && 1 <= q.attemptsRemaining
                        && q.attemptsRemaining + WrongInTime(p, gs) == MAX_ATTEMPTS)
  }

  lemma {:induction false} PairingAccounted(p: Pairing, gs: seq<Guess>)
    requires p == PairStart(p.pin, p.expiresAt - PAIRING_WINDOW)
    ensures Accounted(p, gs, After(p, gs))
  {
    if gs != [] {
      PairingAccounted(p, gs[..|gs| - 1]);
      AnyRightSnoc(p, gs);
    }
  }

  /** Nothing more can come of the pairing: a right PIN was entered in time, or five wrong ones were. */
  predicate Closed(p: Pairing, gs: seq<Guess>) {
    AnyRight(p, gs) || WrongInTime(p, gs) >= 5
  }

  /**
   Every reply is told from the requests alone. In particular a token is issued exactly to the first right
   PIN in time with fewer than five wrong ones before it, the fifth wrong one in time is told that it locks,
   and the reply for an already locked pairing is never given.
   */
  lemma RepliesTold(p: Pairing, gs: seq<Guess>, g: Guess)
    requires p == PairStart(p.pin, p.expiresAt - PAIRING_WINDOW)
    ensures LastReply(p, gs + [g]) ==
            if Closed(p, gs) then Consumed409
            else if g.now > p.expiresAt then Expired400
            else if g.pin == Some(p.pin) then Paired200
            else if WrongInTime(p, gs) == 4 then NowLocked429 else Wrong401
  {
    assert (gs + [g])[..|gs + [g]| - 1] == gs;
    PairingAccounted(p, gs);
  }

  /** Once paired or locked, a pairing never changes and never issues a token again. */
  lemma {:induction false} ConsumedIsFinal(p: Pairing, gs: seq<Guess>)
    requires p.consumed
    ensures After(p, gs) == p
    ensures gs != [] ==> LastReply(p, gs) == Consumed409
  {
    if gs != [] {
      ConsumedIsFinal(p, gs[..|gs| - 1]);
    }
  }

  // ---- The playback session ----

  datatype Playback = Playback(id: Option<nat>, token: Option<nat>, lastHeartbeat: int, heartbeats: nat,
                               volume: int, playing: bool, leaseExpiresAt: int)

  datatype Request =
    | Create(token: Option<nat>, supported: bool, volume: int, newId: nat, newToken: nat, now: int)
    | Heartbeat(token: Option<nat>, sequence: int, now: int)
    | Patch(token: Option<nat>, newVolume: Option<int>, paused: Option<bool>)
    | Delete(token: Option<nat>)
    | ResetMetrics

  predicate Authorised(s: Playback, bearer: set<nat>, token: Option<nat>) {
    token.Some? && (token.value in bearer || token == s.token)
  }

  predicate ValidVolume(v: int) { 0 <= v <= 100 }

  datatype Response = Response(playback: Playback, status: nat)

  function Handle(s: Playback, bearer: set<nat>, r: Request): Response {
    match r
    case Create(token, supported, volume, newId, newToken, now) =>
      if token.None? || token.value !in bearer then Response(s, 401)
      else if s.id.Some? then Response(s, 409)
      else if !supported || !ValidVolume(volume) then Response(s, 400)
      else Response(Playback(Some(newId), Some(newToken), 0, 0, volume, true, now + LEASE), 201)
    case Heartbeat(token, sequence, now) =>
      if !Authorised(s, bearer, token) then Response(s, 401)
      else if s.id.None? then Response(s, 404)
      else if sequence <= s.lastHeartbeat then Response(s, 409)
      else Response(s.(lastHeartbeat := sequence, heartbeats := s.heartbeats + 1, leaseExpiresAt := now + LEASE), 200)
    case Patch(token, volume, paused) =>
      if !Authorised(s, bearer, token) then Response(s, 401)
      else if s.id.None? then Response(s, 404)
      else if volume.Some? && !ValidVolume(volume.value) then Response(s, 400)
      else Response(s.(volume := volume.GetOr(s.volume),
                       playing := if paused.Some? then !paused.value else s.playing), 200)
    case Delete(token) =>
      if !Authorised(s, bearer, token) then Response(s, 401)
      else if s.id.None? then Response(s, 404)
      else Response(s.(id := None, token := None, playing := false), 204)
    case ResetMetrics => Response(s.(heartbeats := 0), 200)
  }

  /** A request, and the pairing tokens accepted when it arrives. */
  datatype Call = Call(bearer: set<nat>, r: Request)

  function Run(s: Playback, calls: seq<Call>): Playback {
    if calls == [] then s
    else Handle(Run(s, calls[..|calls| - 1]), calls[|calls| - 1].bearer, calls[|calls| - 1].r).playback
  }

  function StatusOf(s: Playback, calls: seq<Call>): nat
    requires calls != []
  {
    Handle(Run(s, calls[..|calls| - 1]), calls[|calls| - 1].bearer, calls[|calls| - 1].r).status
  }

  predicate Idle(s: Playback) {
    s.id == None && s.token == None && s.lastHeartbeat == 0 && s.heartbeats == 0 && !s.playing && ValidVolume(s.volume)
  }

  /** The highest heartbeat that reached the current session, from the requests and the replies alone. */
  function HighestHeard(s: Playback, calls: seq<Call>): int {
    if calls == [] then 0 else
    var before := HighestHeard(s, calls[..|calls| - 1]);
    match calls[|calls| - 1].r
    case Create(_, _, _, _, _, _) => if StatusOf(s, calls) == 201 then 0 else before
    case Heartbeat(_, sequence, _) =>
      if StatusOf(s, calls) in {200, 409} && sequence > before then sequence else before
    case _ => before
  }

  /** Whether a session runs, from the replies alone: created and not yet deleted. */
  predicate Running(s: Playback, calls: seq<Call>) {
    calls != [] &&
    match calls[|calls| - 1].r
    case Create(_, _, _, _, _, _) => StatusOf(s, calls) == 201 || Running(s, calls[..|calls| - 1])
    case Delete(_) => StatusOf(s, calls) != 204 && Running(s, calls[..|calls| - 1])
    case _ => Running(s, calls[..|calls| - 1])
  }

  /** Over every run: one session at most, with its token; heartbeats counted at most once per sequence number. */
  lemma {:induction false} SessionInvariant(s: Playback, calls: seq<Call>)
    requires Idle(s)
    ensures var t := Run(s, calls);
            && (t.id.Some? <==> t.token.Some?) && (t.id.Some? <==> Running(s, calls))
            && (t.playing ==> t.id.Some?)
            && ValidVolume(t.volume)
            && t.lastHeartbeat == HighestHeard(s, calls)
            && t.heartbeats <= t.lastHeartbeat
  {
    if calls != [] {
      SessionInvariant(s, calls[..|calls| - 1]);
    }
  }

  /** A heartbeat is accepted exactly when it is authorised, a session runs, and it tops all heard before. */
  lemma {:induction false} HeartbeatAcceptedIff(s: Playback, calls: seq<Call>, c: Call)
    requires Idle(s) && c.r.Heartbeat?
    ensures var t := Run(s, calls);
            StatusOf(s, calls + [c]) == 200 <==>
              Authorised(t, c.bearer, c.r.token) && Running(s, calls) && c.r.sequence > HighestHeard(s, calls)
  {
    assert (calls + [c])[..|calls + [c]| - 1] == calls;
    SessionInvariant(s, calls);
  }

  /** A session is created exactly for a paired caller with a supported format while none is running. */
  lemma {:induction false} CreatedIff(s: Playback, calls: seq<Call>, c: Call)
    requires Idle(s) && c.r.Create?
    ensures StatusOf(s, calls + [c]) == 201 <==>
              && c.r.token.Some? && c.r.token.value in c.bearer
              && !Running(s, calls) && c.r.supported && ValidVolume(c.r.volume)
  {
    assert (calls + [c])[..|calls + [c]| - 1] == calls;
    SessionInvariant(s, calls);
  }

  /** The session as a client can tell it from requests and replies alone. */
  datatype Told = Told(id: Option<nat>, token: Option<nat>, heartbeats: nat, volume: int, playing: bool, lease: int)

  function Hear(t: Told, r: Request, status: nat): Told {
    match r
    case Create(_, _, volume, newId, newToken, now) =>
      if status == 201 then Told(Some(newId), Some(newToken), 0, volume, true, now + 30) else t
    case Heartbeat(_, _, now) =>
      if status == 200 then t.(heartbeats := t.heartbeats + 1, lease := now + 30) else t
    case Patch(_, volume, paused) =>
      if status != 200 then t
      else t.(volume := if volume.Some? then volume.value else t.volume,
              playing := if paused == Some(true) then false else if paused == Some(false) then true else t.playing)
    case Delete(_) => if status == 204 then t.(id := None, token := None, playing := false) else t
    case ResetMetrics => t.(heartbeats := 0)
  }

  function HearAll(s: Playback, calls: seq<Call>): Told {
    if calls == [] then Told(None, None, 0, s.volume, false, s.leaseExpiresAt)
    else Hear(HearAll(s, calls[..|calls| - 1]), calls[|calls| - 1].r, StatusOf(s, calls))
  }

  /** Over every run the session is what the requests and replies tell. */
  lemma {:induction false} SessionIsAsTold(s: Playback, calls: seq<Call>)
    requires Idle(s)
    ensures var t := Run(s, calls);
            Told(t.id, t.token, t.heartbeats, t.volume, t.playing, t.leaseExpiresAt) == HearAll(s, calls)
  {
    if calls != [] {
      SessionIsAsTold(s, calls[..|calls| - 1]);
    }
  }

  /** The reply to the next request, from what was told before: who may ask, then whether a session runs, then the values. */
  function Expected(t: Told, highest: int, c: Call): nat
    requires !c.r.ResetMetrics?
  {
    var token := c.r.token;
    if c.r.Create? then
      if token.None? || token.value !in c.bearer then 401 else if t.id.Some? then 409
      else if c.r.supported && 0 <= c.r.volume <= 100 then 201 else 400
    else if token.None? || (token.value !in c.bearer && token != t.token) then 401
    else if t.id.None? then 404
    else match c.r
      case Heartbeat(_, sequence, _) => if sequence > highest then 200 else 409
      case Patch(_, volume, _) => if volume.None? || 0 <= volume.value <= 100 then 200 else 400
      case _ => 204
  }

  lemma {:induction false} ReplyIsAsTold(s: Playback, calls: seq<Call>, c: Call)
    requires Idle(s)
    ensures StatusOf(s, calls + [c])
            == if c.r.ResetMetrics? then 200 else Expected(HearAll(s, calls), HighestHeard(s, calls), c)
  {
    assert (calls + [c])[..|calls + [c]| - 1] == calls;
    SessionInvariant(s, calls);
    SessionIsAsTold(s, calls);
  }

  /** The receiver, updated request by request. */
  class ReceiverState {
    var pairings: map<nat, Pairing>
    var tokens: set<nat>
    var session: Playback

    constructor (volume: int)
      ensures pairings == map[] && tokens == {}
      ensures session == Playback(None, None, 0, 0, volume, false, 0)
    {
      pairings, tokens := map[], {};
      session := Playback(None, None, 0, 0, volume, false, 0);
    }

    method Start(id: nat, pin: nat, now: int)
      modifies this`pairings
      ensures pairings == old(pairings)[id := PairStart(pin, now)]
      ensures pairings[id].pin == pin && pairings[id].expiresAt == now + 120
    {
      pairings := pairings[id := Pairing(pin, now + PAIRING_WINDOW, false, Pending, MAX_ATTEMPTS)];
    }

    /** `None` stands for an unknown pairing. */
    method Confirm(id: Option<nat>, g: Guess, newToken: nat) returns (reply: Option<Reply>)
      modifies this`pairings, this`tokens
      ensures (id.None? || id.value !in old(pairings)) ==>
                reply == None && pairings == old(pairings) && tokens == old(tokens)
      ensures (id.Some? && id.value in old(pairings)) ==>
                var a := PairConfirm(old(pairings)[id.value], g);
                && reply == Some(a.reply)
                && pairings == old(pairings)[id.value := a.pairing]
                && tokens == old(tokens) + if a.reply == Paired200 then {newToken} else {}
    {
      if id.None? || id.value !in pairings {
        return None;
      }
      var sess := pairings[id.value];
      if sess.status == Confirmed || sess.consumed {
        return Some(Consumed409);
      }
      if sess.status == Locked {
        return Some(Locked429);
      }
      if g.now > sess.expiresAt {
        pairings := pairings[id.value := sess.(status := Expired)];
        return Some(Expired400);
      }
      if g.pin != Some(sess.pin) {
        sess := sess.(attemptsRemaining := sess.attemptsRemaining - 1);
        if sess.attemptsRemaining <= 0 {
          sess := sess.(status := Locked, consumed := true);
          reply := Some(NowLocked429);
        } else {
          reply := Some(Wrong401);
        }
        pairings := pairings[id.value := sess];
        return;
      }
      pairings := pairings[id.value := sess.(status := Confirmed, consumed := true)];
      tokens := tokens + {newToken};
      reply := Some(Paired200);
    }

    method HandleRequest(r: Request) returns (status: nat)
      modifies this`session
      ensures Response(session, status) == Handle(old(session), tokens, r)
    {
      match r {
        case Create(token, supported, volume, newId, newToken, now) =>
          if token.None? || token.value !in tokens {
            return 401;
          }
          if session.id.Some? {
            return 409;
          }
          if !supported || !ValidVolume(volume) {
            return 400;
          }
          session := session.(id := Some(newId), token := Some(newToken), leaseExpiresAt := now + LEASE);
          session := session.(lastHeartbeat := 0, volume := volume, playing := true, heartbeats := 0);
          status := 201;
        case Heartbeat(token, sequence, now) =>
          if !Authorised(session, tokens, token) {
            return 401;
          }
          if session.id.None? {
            return 404;
          }
          if sequence <= session.lastHeartbeat {
            return 409;
          }
          session := session.(lastHeartbeat := sequence);
          session := session.(heartbeats := session.heartbeats + 1, leaseExpiresAt := now + LEASE);
          status := 200;
        case Patch(token, volume, paused) =>
          if !Authorised(session, tokens, token) {
            return 401;
          }
          if session.id.None? {
            return 404;
          }
          if volume.Some? {
            if !ValidVolume(volume.value) {
              return 400;
            }
            session := session.(volume := volume.value);
          }
          if paused.Some? {
            session := session.(playing := !paused.value);
          }
          status := 200;
        case Delete(token) =>
          if !Authorised(session, tokens, token) {
            return 401;
          }
          if session.id.None? {
            return 404;
          }
          session := session.(id := None, token := None);
          session := session.(playing := false);
          status := 204;
        case ResetMetrics =>
          session := session.(heartbeats := 0);
          status := 200;
      }
    }
  }
}
