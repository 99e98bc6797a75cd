/**
 The presence store: signed announcements and mDNS sightings of peers, swept for expiry. Each record caches
 its presence in three flags, and every change is announced to observers. The functions give each operation
 as a change of one record; class `Store` performs them on the whole map.
 */
module ScentStore {
  import opened Basics

  /** Presence timeout, in milliseconds. */
  const EXPIRY: int := 90_000

  datatype Source = WhiskerSigned | MdnsProvisional

  datatype Profile = Profile(deviceId: string, name: string, service: string, roles: seq<string>)

  datatype Home = Home(homeId: Option<string>, fingerprint: Option<string>)

  datatype Record = Record(
    michiId: string,
    profile: Profile,
    verified: bool,
    source: Source,
    endpoints: seq<nat>,
    baseUrl: Option<string>,
    lastSigned: Option<int>,
    lastMdns: Option<int>,
    infoVerifiedAt: Option<int>,
    online: bool,
    home: Home)

  datatype Presence = VerifiedOnline | ProvisionalMdns | Offline

  predicate FreshAt(seen: Option<int>, now: int) {
    seen.Some? && now - seen.value < EXPIRY
  }

  predicate IsSignedFresh(r: Record, now: int) { FreshAt(r.lastSigned, now) }

  predicate IsMdnsFresh(r: Record, now: int) { FreshAt(r.lastMdns, now) }

  function EffectivePresence(r: Record, now: int): Presence {
    if IsSignedFresh(r, now) then VerifiedOnline
    else if IsMdnsFresh(r, now) then ProvisionalMdns
    else Offline
  }

  datatype Event =
    | Discovered(record: Record)
    | Updated(record: Record)
    | EndpointChanged(michiId: string, old_: Option<string>, new_: string, source: Source, verified: bool)
    | WentOffline(michiId: string)

  datatype Change = Change(record: Record, events: seq<Event>)

  function AddEndpoint(endpoints: seq<nat>, source: Option<nat>): seq<nat> {
    if source.Some? && source.value !in endpoints then endpoints + [source.value] else endpoints
  }

  function ObserveSigned(id: string, old_: Option<Record>, profile: Profile, from: Option<nat>, now: int,
                         home: Home): Change
  {
    match old_
    case Some(r) =>
      var r' := r.(lastSigned := Some(now), source := WhiskerSigned, online := true, verified := true,
                   profile := profile, home := home, endpoints := AddEndpoint(r.endpoints, from));
      Change(r', [if r.online then Updated(r') else Discovered(r')])
    case None =>
      var r' := Record(id, profile, true, WhiskerSigned, AddEndpoint([], from), None, Some(now), None, None,
                       true, home);
      Change(r', [Discovered(r')])
  }

  function ObserveMdns(id: string, old_: Option<Record>, profile: Profile, url: string, from: Option<nat>,
                       now: int): Change
  {
    match old_
    case Some(r) =>
      var signed := IsSignedFresh(r, now);
      var r' := r.(lastMdns := Some(now), infoVerifiedAt := Some(now), online := true,
                   source := if signed then WhiskerSigned else MdnsProvisional, verified := signed,
                   profile := if signed then r.profile else profile,
                   endpoints := AddEndpoint(r.endpoints, from), baseUrl := Some(url));
      Change(r', [if !r.online then Discovered(r')
                  else if r.baseUrl != Some(url) then EndpointChanged(id, r.baseUrl, url, r'.source, r'.verified)
                  else Updated(r')])
    case None =>
      var r' := Record(id, profile, false, MdnsProvisional, AddEndpoint([], from), Some(url), None, Some(now),
                       Some(now), true, Home(None, None));
      Change(r', [Discovered(r')])
  }

  function UpdateBaseUrl(id: string, r: Record, url: string, from: Option<nat>, now: int): Change {
    var signed := IsSignedFresh(r, now);
    var r' := r.(lastMdns := Some(now), source := if signed then r.source else MdnsProvisional,
                 verified := signed && r.verified, endpoints := AddEndpoint(r.endpoints, from),
                 baseUrl := Some(url));
    Change(r', if r.baseUrl != Some(url)
               then [EndpointChanged(id, r.baseUrl, url, r'.source, r'.verified)] else [])
  }

  function Expire(id: string, r: Record, now: int): Change {
    if !r.online then Change(r, [])
    else match EffectivePresence(r, now)
      case VerifiedOnline => Change(r, [])
      case ProvisionalMdns =>
        if r.source != MdnsProvisional || r.verified then
          var r' := r.(source := MdnsProvisional, verified := false);
          Change(r', [Updated(r')])
        else Change(r, [])
      case Offline => Change(r.(online := false, verified := false), [WentOffline(id)])
  }

  datatype Operation =
    | Signed(id: string, profile: Profile, from: Option<nat>, now: int, home: Home)
    | Mdns(id: string, profile: Profile, url: string, from: Option<nat>, now: int)
    | BaseUrl(id: string, url: string, from: Option<nat>, now: int)
    | InfoVerified(id: string, now: int)
    | Sweep(order: seq<string>, now: int)

  type Records = map<string, Record>

  datatype Effect = Effect(records: Records, events: seq<Event>)

  function Lookup(m: Records, id: string): Option<Record> {
    if id in m then Some(m[id]) else None
  }

  function Put(m: Records, id: string, c: Change): Effect {
    Effect(m[id := c.record], c.events)
  }

  function ExpireOne(m: Records, id: string, now: int): Effect {
    if id in m then Put(m, id, Expire(id, m[id], now)) else Effect(m, [])
  }

  /** The sweep visits the records in the order in which the map happens to yield them. */
  function ExpireAll(m: Records, order: seq<string>, now: int): Effect {
    if order == [] then Effect(m, []) else
    var before := ExpireAll(m, order[..|order| - 1], now);
    var last := ExpireOne(before.records, order[|order| - 1], now);
    Effect(last.records, before.events + last.events)
  }

  function Perform(m: Records, op: Operation): Effect {
    match op
    case Signed(id, profile, from, now, home) =>
      Put(m, id, ObserveSigned(id, Lookup(m, id), profile, from, now, home))
    case Mdns(id, profile, url, from, now) =>
      Put(m, id, ObserveMdns(id, Lookup(m, id), profile, url, from, now))
    case BaseUrl(id, url, from, now) =>
      if id in m then Put(m, id, UpdateBaseUrl(id, m[id], url, from, now)) else Effect(m, [])
    case InfoVerified(id, now) =>
      if id in m then Effect(m[id := m[id].(infoVerifiedAt := Some(now))], []) else Effect(m, [])
    case Sweep(order, now) => ExpireAll(m, order, now)
  }

  /** The ids that `list_active_at` and `list_signed_verified_at` answer with. */
  function ActiveAt(m: Records, at: int): set<string> {
    set id | id in m && EffectivePresence(m[id], at) != Offline
  }

  function SignedVerifiedAt(m: Records, at: int): set<string> {
    set id | id in m && EffectivePresence(m[id], at) == VerifiedOnline
  }

  class Store {
    var records: Records
    var sent: seq<Event>

    constructor ()
      ensures records == map[] && sent == []
    {
      records, sent := map[], [];
    }

    method ObserveSignedWithHome(id: string, profile: Profile, from: Option<nat>, now: int, home: Home)
      modifies this
      ensures var e := Perform(old(records), Signed(id, profile, from, now, home));
              records == e.records && sent == old(sent) + e.events
    {
      var toSend: seq<Event>;
      if id in records {
        var r := records[id];
        var wasOffline := !r.online;
        r := r.(lastSigned := Some(now), source := WhiskerSigned, online := true, verified := true,
                profile := profile, home := home);
        if from.Some? && from.value !in r.endpoints {
          r := r.(endpoints := r.endpoints + [from.value]);
        }
        records := records[id := r];
        toSend := [if wasOffline then Discovered(r) else Updated(r)];
      } else {
        var endpoints := if from.Some? then [from.value] else [];
        assert endpoints == AddEndpoint([], from);
        var r := Record(id, profile, true, WhiskerSigned, endpoints, None, Some(now), None, None, true, home);
        records := records[id := r];
        toSend := [Discovered(r)];
      }
      sent := sent + toSend;
    }

    method ObserveMdnsCandidate(id: string, profile: Profile, url: string, from: Option<nat>, now: int)
      modifies this
      ensures var e := Perform(old(records), Mdns(id, profile, url, from, now));
              records == e.records && sent == old(sent) + e.events
    {
      var toSend: seq<Event>;
      if id in records {
        var r := records[id];
        var wasOffline := !r.online;
        r := r.(lastMdns := Some(now), infoVerifiedAt := Some(now), online := true);
        if IsSignedFresh(r, now) {
          r := r.(source := WhiskerSigned, verified := true);
        } else {
          r := r.(source := MdnsProvisional, verified := false, profile := profile);
        }
        if from.Some? && from.value !in r.endpoints {
          r := r.(endpoints := r.endpoints + [from.value]);
        }
        var oldUrl := r.baseUrl;
        r := r.(baseUrl := Some(url));
        records := records[id := r];
        if wasOffline {
          toSend := [Discovered(r)];
        } else if oldUrl != Some(url) {
          toSend := [EndpointChanged(id, oldUrl, url, r.source, r.verified)];
        } else {
          toSend := [Updated(r)];
        }
      } else {
        var endpoints := if from.Some? then [from.value] else [];
        assert endpoints == AddEndpoint([], from);
        var r := Record(id, profile, false, MdnsProvisional, endpoints, Some(url), None, Some(now), Some(now),
                        true, Home(None, None));
        records := records[id := r];
        toSend := [Discovered(r)];
      }
      sent := sent + toSend;
    }

    method UpdateUrl(id: string, url: string, from: Option<nat>, now: int)
      modifies this
      ensures var e := Perform(old(records), BaseUrl(id, url, from, now));
              records == e.records && sent == old(sent) + e.events
    {
      if id in records {
        var r := records[id].(lastMdns := Some(now));
        if !IsSignedFresh(r, now) {
          r := r.(source := MdnsProvisional, verified := false);
        }
        if from.Some? && from.value !in r.endpoints {
          r := r.(endpoints := r.endpoints + [from.value]);
        }
        var oldUrl := r.baseUrl;
        if oldUrl != Some(url) {
          r := r.(baseUrl := Some(url));
          sent := sent + [EndpointChanged(id, oldUrl, url, r.source, r.verified)];
        }
        records := records[id := r];
      }
    }

    method MarkServerInfoVerified(id: string, now: int)
      modifies this`records
      ensures records == Perform(old(records), InfoVerified(id, now)).records
    {
      if id in records {
        records := records[id := records[id].(infoVerifiedAt := Some(now))];
      }
    }

    method CheckExpirations(order: seq<string>, now: int) returns (events: seq<Event>)
      requires forall id :: id in order <==> id in records
      modifies this
      ensures var e := Perform(old(records), Sweep(order, now));
              records == e.records && events == e.events && sent == old(sent) + e.events
    {
      events := [];
      for i := 0 to |order|
        invariant ExpireAll(old(records), order[..i], now) == Effect(records, events)
        invariant records.Keys == old(records.Keys)
        invariant sent == old(sent)
      {
        var id := order[i];
        assert order[..i + 1][..i] == order[..i] && order[..i + 1][i] == id && id in order;
        var r := records[id];
        if r.online {
          match EffectivePresence(r, now) {
            case VerifiedOnline =>
            case ProvisionalMdns =>
              if r.source != MdnsProvisional || r.verified {
                r := r.(source := MdnsProvisional, verified := false, online := true);
                events := events + [Updated(r)];
              }
            case Offline =>
              r := r.(online := false, verified := false);
              events := events + [WentOffline(id)];
          }
        }
        records := records[id := r];
      }
      assert order[..|order|] == order;
      sent := sent + events;
    }
  }
}
