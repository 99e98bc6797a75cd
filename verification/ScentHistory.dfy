/**
 What the presence store knows of a peer, told from the history alone: when it was last heard and how, what
 it said of itself, and where it can be reached. Presence is then a matter of the last ninety seconds.
 */
module ScentHistory {
  import opened Basics
  import opened ScentStore
  import opened ScentPresence

  /** The peer has been announced or sighted. */
  predicate Known(ops: seq<Operation>, id: string) {
    exists i :: 0 <= i < |ops| && (ops[i].Signed? || ops[i].Mdns?) && ops[i].id == id
  }

  /** The operation is about the peer; updates of peers that are not known have no effect. */
  predicate About(ops: seq<Operation>, i: nat, id: string)
    requires i < |ops|
  {
    !ops[i].Sweep? && ops[i].id == id && (ops[i].Signed? || ops[i].Mdns? || Known(ops[..i], id))
  }

  /** The last operation is about the peer. */
  predicate Last(ops: seq<Operation>, id: string) {
    ops != [] && About(ops, |ops| - 1, id)
  }

  function LastSigned(ops: seq<Operation>, id: string): Option<int> {
    if ops == [] then None else
    if Last(ops, id) && ops[|ops| - 1].Signed? then Some(ops[|ops| - 1].now) else LastSigned(ops[..|ops| - 1], id)
  }

  function LastSighted(ops: seq<Operation>, id: string): Option<int> {
    if ops == [] then None else
    var op := ops[|ops| - 1];
    if Last(ops, id) && (op.Mdns? || op.BaseUrl?) then Some(op.now) else LastSighted(ops[..|ops| - 1], id)
  }

  function LastVerified(ops: seq<Operation>, id: string): Option<int> {
    if ops == [] then None else
    var op := ops[|ops| - 1];
    if Last(ops, id) && (op.Mdns? || op.InfoVerified?) then Some(op.now) else LastVerified(ops[..|ops| - 1], id)
  }

  function LastUrl(ops: seq<Operation>, id: string): Option<string> {
    if ops == [] then None else
    var op := ops[|ops| - 1];
    if Last(ops, id) && (op.Mdns? || op.BaseUrl?) then Some(op.url) else LastUrl(ops[..|ops| - 1], id)
  }

  function LastHome(ops: seq<Operation>, id: string): Home {
    if ops == [] then Home(None, None) else
    if Last(ops, id) && ops[|ops| - 1].Signed? then ops[|ops| - 1].home else LastHome(ops[..|ops| - 1], id)
  }

  /** A sighting speaks for the peer only if no announcement of the last ninety seconds does. */
  function LastProfile(ops: seq<Operation>, id: string): Option<Profile> {
    if ops == [] then None else
    var before, op := ops[..|ops| - 1], ops[|ops| - 1];
    var signed := LastSigned(before, id);
    if Last(ops, id) && (op.Signed? || (op.Mdns? && !(signed.Some? && op.now - signed.value < 90_000)))
    then Some(op.profile) else LastProfile(before, id)
  }

  predicate HeardFrom(ops: seq<Operation>, id: string, endpoint: nat) {
    exists i :: 0 <= i < |ops| && !ops[i].InfoVerified? && About(ops, i, id) && ops[i].from == Some(endpoint)
  }

  ghost predicate NoDuplicates(s: seq<nat>) {
    forall i, j :: 0 <= i < j < |s| ==> s[i] != s[j]
  }

  /** The record says of the peer what the history does. */
  ghost predicate Remembers(r: Record, ops: seq<Operation>, id: string) {
    && r.michiId == id && Some(r.profile) == LastProfile(ops, id) && r.home == LastHome(ops, id)
    && r.lastSigned == LastSigned(ops, id) && r.lastMdns == LastSighted(ops, id)
    && r.infoVerifiedAt == LastVerified(ops, id) && r.baseUrl == LastUrl(ops, id)
    && (forall e: nat :: e in r.endpoints <==> HeardFrom(ops, id, e)) && NoDuplicates(r.endpoints)
  }

  lemma KnownSnoc(ops: seq<Operation>, id: string)
    requires ops != []
    ensures var op := ops[|ops| - 1];
            Known(ops, id) <==> Known(ops[..|ops| - 1], id) || ((op.Signed? || op.Mdns?) && op.id == id)
  {
    var before := ops[..|ops| - 1];
    if i :| 0 <= i < |before| && (before[i].Signed? || before[i].Mdns?) && before[i].id == id {
      assert ops[i] == before[i];
    }
    if i :| 0 <= i < |ops| && (ops[i].Signed? || ops[i].Mdns?) && ops[i].id == id {
      assert i < |before| ==> before[i] == ops[i];
    }
  }

  lemma HeardSnoc(ops: seq<Operation>, id: string, e: nat)
    requires ops != []
    ensures var op := ops[|ops| - 1];
            HeardFrom(ops, id, e) <==>
              HeardFrom(ops[..|ops| - 1], id, e) || (Last(ops, id) && !op.InfoVerified? && op.from == Some(e))
  {
    var before := ops[..|ops| - 1];
    assert forall i :: 0 <= i < |before| ==> before[i] == ops[i] && before[..i] == ops[..i];
    if i :| 0 <= i < |before| && !before[i].InfoVerified? && About(before, i, id) && before[i].from == Some(e) {
      assert About(ops, i, id);
    }
    if i :| 0 <= i < |ops| && !ops[i].InfoVerified? && About(ops, i, id) && ops[i].from == Some(e) {
      assert i < |before| ==> About(before, i, id);
    }
  }

  /** An operation that is not about the peer tells nothing of it. */
  lemma ToldNothing(ops: seq<Operation>, id: string)
    requires ops != [] && !Last(ops, id)
    ensures var before := ops[..|ops| - 1];
            && (Known(ops, id) <==> Known(before, id)) && (Forgotten(before, id) ==> Forgotten(ops, id))
            && forall r :: Remembers(r, before, id) ==> Remembers(r, ops, id)
  {
    KnownSnoc(ops, id);
    forall e: nat
      ensures HeardFrom(ops, id, e) <==> HeardFrom(ops[..|ops| - 1], id, e)
    {
      HeardSnoc(ops, id, e);
    }
  }

  /** What an operation about the peer makes of its record. */
  lemma ToldOnce(m: Records, ops: seq<Operation>, id: string)
    requires Last(ops, id) && (id in m <==> Known(ops[..|ops| - 1], id))
    requires id in m ==> Remembers(m[id], ops[..|ops| - 1], id)
    requires id !in m ==> Forgotten(ops[..|ops| - 1], id)
    ensures var m' := Perform(m, ops[|ops| - 1]).records;
            Known(ops, id) && id in m' && Remembers(m'[id], ops, id)
  {
    KnownSnoc(ops, id);
    forall e: nat
      ensures HeardFrom(ops, id, e) <==>
              || HeardFrom(ops[..|ops| - 1], id, e)
              || (!ops[|ops| - 1].InfoVerified? && ops[|ops| - 1].from == Some(e))
    {
      HeardSnoc(ops, id, e);
    }
  }

  /** Other operations leave the record, but for the flags that a sweep changes. */
  lemma OthersKeep(m: Records, ops: seq<Operation>, id: string)
    requires ops != [] && !Last(ops, id) && (id in m <==> Known(ops[..|ops| - 1], id))
    ensures var m' := Perform(m, ops[|ops| - 1]).records;
            (id in m' <==> id in m) && (id in m ==> SameButFlags(m[id], m'[id]))
  {
    var op := ops[|ops| - 1];
    if op.Sweep? {
      ExpireAllPointwise(m, op.order, op.now);
    }
  }

  /** Nothing is told of a peer that is not known. */
  ghost predicate Forgotten(ops: seq<Operation>, id: string) {
    && LastSigned(ops, id) == None && LastSighted(ops, id) == None && LastVerified(ops, id) == None
    && LastUrl(ops, id) == None && LastHome(ops, id) == Home(None, None) && LastProfile(ops, id) == None
    && forall e: nat :: !HeardFrom(ops, id, e)
  }

  /** Over every history the store holds exactly the known peers, and of each what it was last told. */
  lemma {:induction false} RecordsAreAsTold(ops: seq<Operation>, id: string)
    ensures id in Run(ops) <==> Known(ops, id)
    ensures id in Run(ops) ==> Remembers(Run(ops)[id], ops, id)
    ensures id !in Run(ops) ==> Forgotten(ops, id)
  {
    if ops != [] {
      var m := Run(ops[..|ops| - 1]);
      RecordsAreAsTold(ops[..|ops| - 1], id);
      if Last(ops, id) {
        ToldOnce(m, ops, id);
      } else {
        OthersKeep(m, ops, id);
        ToldNothing(ops, id);
      }
    }
  }

  predicate Recent(heard: Option<int>, at: int) { heard.Some? && at - heard.value < 90_000 }

  /** The freshness queries are answered from the last ninety seconds of the history. */
  lemma QueriesFromHistory(ops: seq<Operation>, id: string, at: int)
    ensures id in ActiveAt(Run(ops), at) <==> Recent(LastSigned(ops, id), at) || Recent(LastSighted(ops, id), at)
    ensures id in SignedVerifiedAt(Run(ops), at) <==> Recent(LastSigned(ops, id), at)
  {
    RecordsAreAsTold(ops, id);
  }

  /**
   After a sweep a peer counts as verified exactly when a signed announcement of it came within the last
   ninety seconds, and is online only if it was announced or sighted within them.
   */
  lemma PresenceFromHistory(ops: seq<Operation>, order: seq<string>, now: int, id: string)
    requires Timely(ops + [Sweep(order, now)])
    ensures var m := Run(ops + [Sweep(order, now)]);
            && (id in m && m[id].verified <==> Recent(LastSigned(ops, id), now))
            && (id in m && m[id].online ==> Recent(LastSigned(ops, id), now) || Recent(LastSighted(ops, id), now))
  {
    var all := ops + [Sweep(order, now)];
    assert all[..|all| - 1] == ops;
    SweptIsAccurate(ops, order, now);
    RunIsSound(all, now);
    RecordsAreAsTold(all, id);
  }
}
