/** Which address a request comes from, when it may have passed through trusted proxies. */
module ForwardedChain {
  import opened Basics

  type Ip = nat

  /** One trimmed entry of the forwarded-for header. */
  datatype Hop = Empty | Unparseable | Address(ip: Ip)

  /** What the headers say; absent and unreadable headers are the same. */
  datatype Headers = Headers(forwardedFor: Option<seq<Hop>>, realIp: Option<Ip>)

  /** What a run of hops, read from the right, says about the client. */
  datatype Verdict = Undecided | Refused | Client(ip: Ip)

  predicate Passes(trusted: set<Ip>, h: Hop) {
    h.Address? && h.ip in trusted
  }

  /** The rightmost hop that is not a trusted proxy decides. */
  function Rightmost(trusted: set<Ip>, hops: seq<Hop>): Verdict {
    if hops == [] then Undecided
    else if Passes(trusted, hops[|hops| - 1]) then Rightmost(trusted, hops[..|hops| - 1])
    else match hops[|hops| - 1]
      case Address(ip) => Client(ip)
      case _ => Refused
  }

  function Resolution(peer: Option<Ip>, headers: Headers, trusted: set<Ip>): Option<Ip> {
    match peer
    case None => None
    case Some(p) =>
      if p !in trusted then Some(p)
      else match Rightmost(trusted, headers.forwardedFor.GetOr([]))
        case Client(ip) => Some(ip)
        case Refused => None
        case Undecided => headers.realIp
  }

  method ResolveClientIp(peer: Option<Ip>, headers: Headers, trusted: set<Ip>) returns (r: Option<Ip>)
    ensures r == Resolution(peer, headers, trusted)
  {
    if peer.None? {
      return None;
    }
    if peer.value in trusted {
      if headers.forwardedFor.Some? {
        var hops := headers.forwardedFor.value;
        var resolved := None;
        var i := |hops|;
        assert hops[..i] == hops;
        while i > 0
          invariant 0 <= i <= |hops| && resolved == None
          invariant Rightmost(trusted, hops) == Rightmost(trusted, hops[..i])
        {
          i := i - 1;
          assert hops[..i + 1][..i] == hops[..i];
          match hops[i] {
            case Empty => return None;
            case Unparseable => return None;
            case Address(ip) =>
              if ip !in trusted {
                resolved := Some(ip);
                break;
              }
          }
        }
        if resolved.Some? {
          return resolved;
        }
      }
      return headers.realIp;
    } else {
      return peer;
    }
  }

  /** The verdict is that of the last hop which is not a trusted proxy, wherever it stands. */
  lemma {:induction false} LastUntrustedDecides(trusted: set<Ip>, hops: seq<Hop>, k: nat)
    requires k < |hops| && !Passes(trusted, hops[k])
    requires forall i :: k < i < |hops| ==> Passes(trusted, hops[i])
    ensures Rightmost(trusted, hops) == if hops[k].Address? then Client(hops[k].ip) else Refused
  {
    if k < |hops| - 1 {
      LastUntrustedDecides(trusted, hops[..|hops| - 1], k);
    }
  }

  /** Nothing is decided exactly when every hop is a trusted proxy. */
  lemma {:induction false} UndecidedIff(trusted: set<Ip>, hops: seq<Hop>)
    ensures Rightmost(trusted, hops) == Undecided <==> forall i :: 0 <= i < |hops| ==> Passes(trusted, hops[i])
  {
    if hops != [] {
      var last := |hops| - 1;
      UndecidedIff(trusted, hops[..last]);
      assert forall i :: 0 <= i < last ==> hops[..last][i] == hops[i];
    }
  }

  lemma {:induction false} Prepending(trusted: set<Ip>, more: seq<Hop>, hops: seq<Hop>)
    ensures Rightmost(trusted, more + hops)
            == if Rightmost(trusted, hops) == Undecided then Rightmost(trusted, more) else Rightmost(trusted, hops)
  {
    if hops == [] {
      assert more + hops == more;
    } else {
      var all := more + hops;
      assert all[..|all| - 1] == more + hops[..|hops| - 1] && all[|all| - 1] == hops[|hops| - 1];
      Prepending(trusted, more, hops[..|hops| - 1]);
    }
  }

  /** A client that connects directly is its own address, whatever headers it sends; no one else's headers are ignored. */
  lemma HeadersIgnoredIff(peer: Ip, trusted: set<Ip>)
    ensures (forall h, g :: Resolution(Some(peer), h, trusted) == Resolution(Some(peer), g, trusted))
            <==> peer !in trusted
    ensures peer !in trusted ==> forall h :: Resolution(Some(peer), h, trusted) == Some(peer)
    ensures forall h :: Resolution(None, h, trusted) == None
  {
    if peer in trusted {
      var h, g := Headers(None, None), Headers(None, Some(0));
      assert Resolution(Some(peer), h, trusted) != Resolution(Some(peer), g, trusted);
    }
  }

  /**
   Behind a trusted proxy: if every hop is one too, or there are none, the real-IP header answers, and no
   address does without it; otherwise the last hop that is not answers alone, and only if it is an address.
   */
  lemma BehindProxy(peer: Ip, headers: Headers, trusted: set<Ip>, k: int)
    requires peer in trusted
    ensures var hops := headers.forwardedFor.GetOr([]);
            var r := Resolution(Some(peer), headers, trusted);
            && ((forall i :: 0 <= i < |hops| ==> hops[i].Address? && hops[i].ip in trusted) ==> r == headers.realIp)
            && (0 <= k < |hops| && !(hops[k].Address? && hops[k].ip in trusted)
                && (forall i :: k < i < |hops| ==> hops[i].Address? && hops[i].ip in trusted) ==>
                  r == if hops[k].Address? then Some(hops[k].ip) else None)
  {
    var hops := headers.forwardedFor.GetOr([]);
    UndecidedIff(trusted, hops);
    if 0 <= k < |hops| && !Passes(trusted, hops[k]) && forall i :: k < i < |hops| ==> Passes(trusted, hops[i]) {
      LastUntrustedDecides(trusted, hops, k);
    }
  }

  /**
   What a client writes in front of the hops added by the proxies cannot change the answer for any peer,
   exactly when those hops already decide it.
   */
  lemma SpoofProofIff(hops: seq<Hop>, realIp: Option<Ip>, trusted: set<Ip>, peer: Ip, forged: Ip)
    requires peer in trusted && forged !in trusted && realIp != Some(forged)
    ensures (forall more :: Resolution(Some(peer), Headers(Some(more + hops), realIp), trusted)
                            == Resolution(Some(peer), Headers(Some(hops), realIp), trusted))
            <==> Rightmost(trusted, hops) != Undecided
  {
    forall more
      ensures Rightmost(trusted, hops) != Undecided ==>
                Resolution(Some(peer), Headers(Some(more + hops), realIp), trusted)
                == Resolution(Some(peer), Headers(Some(hops), realIp), trusted)
    {
      Prepending(trusted, more, hops);
    }
    if Rightmost(trusted, hops) == Undecided {
      var more := [Address(forged)];
      Prepending(trusted, more, hops);
      assert more[..0] == [];
      assert Resolution(Some(peer), Headers(Some(more + hops), realIp), trusted) == Some(forged);
    }
  }
}
