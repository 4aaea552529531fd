/**
 The bounded lists of endpoints both discovery peers keep, and the octets that carry them.
 */
module Candidates {
  import opened Common
  import opened Endpoints

  const MAX_CANDIDATES: nat := 32

  /** The IPv4 address inside ::ffff:0:0/96, if this is one (section 2.5.5.2 of RFC 4291). */
  function Ipv4Mapped(o: Octets16): Option<Octets4> {
    if o[..12] == [0, 0, 0, 0, 0, 0, 0, 0, 0, 0, 0xff, 0xff] then Some(o[12..]) else None
  }

  function MapIpv4(o: Octets4): Octets16 {
    [0, 0, 0, 0, 0, 0, 0, 0, 0, 0, 0xff, 0xff] + o
  }

  /** An IPv6 spelling of an IPv4 address reads back as the IPv4 address. */
  function Canonical(ip: Ip): Ip {
    match ip
    case V6(o) => (match Ipv4Mapped(o) case Some(v4) => V4(v4) case None => ip)
    case V4(_) => ip
  }

  predicate Unspecified(ip: Ip) {
    match ip
    case V4(o) => o == [0, 0, 0, 0]
    case V6(o) => forall i :: 0 <= i < 16 ==> o[i] == 0
  }

  predicate Multicast(ip: Ip) {
    match ip
    case V4(o) => 224 <= o[0] < 240
    case V6(o) => o[0] == 0xff
  }

  predicate Usable(e: SocketAddr) {
    var ip := Canonical(e.ip);
    e.port != 0 && !Unspecified(ip) && !Multicast(ip) && ip != V4([255, 255, 255, 255])
  }

  /** Which IPv4 endpoints can be used: no port 0, no 0.0.0.0, no 224.0.0.0/4, no limited broadcast. */
  lemma {:induction false} UsableIpv4(o: Octets4, port: Port)
    ensures Usable(SocketAddr(V4(o), port))
       <==> port > 0 && !(o[0] == o[1] == o[2] == o[3] == 0)
            && (o[0] <= 223 || (o[0] >= 240 && !(o[0] == o[1] == o[2] == o[3] == 255)))
  {
    assert o == [o[0], o[1], o[2], o[3]];
  }

  /** An IPv6 address in ::ffff:0:0/96 is judged by its last four octets. */
  lemma {:induction false} UsableMapped(o: Octets16, port: Port)
    requires (forall i :: 0 <= i < 10 ==> o[i] == 0) && o[10] == o[11] == 255
    ensures Canonical(V6(o)) == V4(o[12..])
    ensures Usable(SocketAddr(V6(o), port)) <==> Usable(SocketAddr(V4(o[12..]), port))
  {
    assert o[..12] == [0, 0, 0, 0, 0, 0, 0, 0, 0, 0, 0xff, 0xff];
  }

  /** Any other IPv6 endpoint is usable unless its port is 0 or its address is :: or in ff00::/8. */
  lemma {:induction false} UsableIpv6(o: Octets16, port: Port)
    requires (exists i :: 0 <= i < 10 && o[i] != 0) || o[10] != 255 || o[11] != 255
    ensures Canonical(V6(o)) == V6(o)
    ensures Usable(SocketAddr(V6(o), port))
       <==> port > 0 && o[0] != 255 && exists i :: 0 <= i < 16 && o[i] != 0
  {
    assert forall i :: 0 <= i < 12 ==> o[i] == o[..12][i];
  }

  // ----- Bounded lists of recent endpoints -----

  /** Whether the list takes the endpoint. */
  predicate Accepts(list: seq<SocketAddr>, e: SocketAddr) {
    Usable(e) && e !in list
  }

  function Remember(list: seq<SocketAddr>, e: SocketAddr): seq<SocketAddr> {
    if !Accepts(list, e) then list
    else (if |list| == MAX_CANDIDATES then list[1..] else list) + [e]
  }

  method RememberEndpoint(list: seq<SocketAddr>, e: SocketAddr) returns (list': seq<SocketAddr>, taken: bool)
    ensures taken == Accepts(list, e) && list' == Remember(list, e)
  {
    if !Usable(e) || e in list {
      return list, false;
    }
    list' := list;
    if |list'| == MAX_CANDIDATES {
      list' := list'[1..];
    }
    list' := list' + [e];
    taken := true;
  }

  function RememberAll(list: seq<SocketAddr>, offers: seq<SocketAddr>): seq<SocketAddr>
    decreases |offers|
  {
    if offers == [] then list else RememberAll(Remember(list, offers[0]), offers[1..])
  }

  /** The offers a list takes, in order. */
  function Taken(list: seq<SocketAddr>, offers: seq<SocketAddr>): seq<SocketAddr>
    decreases |offers|
  {
    if offers == [] then []
    else (if Accepts(list, offers[0]) then [offers[0]] else [])
         + Taken(Remember(list, offers[0]), offers[1..])
  }

  function Last<T>(s: seq<T>, n: nat): seq<T> {
    if |s| <= n then s else s[|s| - n..]
  }

  /** Bounded, distinct and usable: what every list of endpoints is at all times. */
  ghost predicate Recent(list: seq<SocketAddr>) {
    && |list| <= MAX_CANDIDATES
    && (forall i, j :: 0 <= i < j < |list| ==> list[i] != list[j])
    && (forall e :: e in list ==> Usable(e))
  }

  lemma {:induction false} RememberKeepsRecent(list: seq<SocketAddr>, e: SocketAddr)
    requires Recent(list)
    ensures Recent(Remember(list, e))
  {
  }

  lemma {:induction false} RememberAllKeepsRecent(list: seq<SocketAddr>, offers: seq<SocketAddr>)
    requires Recent(list)
    ensures Recent(RememberAll(list, offers))
    decreases |offers|
  {
    if offers == [] {
    } else {
      RememberKeepsRecent(list, offers[0]);
      RememberAllKeepsRecent(Remember(list, offers[0]), offers[1..]);
    }
  }

  lemma {:induction false} LastOfLast<T>(s: seq<T>, t: seq<T>, n: nat)
    ensures Last(Last(s, n) + t, n) == Last(s + t, n)
  {
  }

  lemma {:induction false} RememberIsLast(list: seq<SocketAddr>, e: SocketAddr)
    requires |list| <= MAX_CANDIDATES
    ensures Remember(list, e) == (if Accepts(list, e) then Last(list + [e], MAX_CANDIDATES) else list)
    ensures |Remember(list, e)| <= MAX_CANDIDATES
  {
    hide Accepts;
  }

  /** After any offers, the list is exactly the most recently taken ones, at most 32. */
  lemma {:induction false} RememberAllIsLatest(list: seq<SocketAddr>, offers: seq<SocketAddr>)
    requires |list| <= MAX_CANDIDATES
    ensures RememberAll(list, offers) == Last(list + Taken(list, offers), MAX_CANDIDATES)
    decreases |offers|
  {
    if offers == [] {
      assert list + [] == list;
    } else {
      hide Accepts, Remember, Last;
      RememberIsLast(list, offers[0]);
      RememberAllIsLatest(Remember(list, offers[0]), offers[1..]);
      LatestStep(list, offers[0], Taken(Remember(list, offers[0]), offers[1..]));
    }
  }

  lemma {:induction false} LatestStep(list: seq<SocketAddr>, e: SocketAddr, rest: seq<SocketAddr>)
    requires |list| <= MAX_CANDIDATES
    ensures Last(Remember(list, e) + rest, MAX_CANDIDATES)
         == Last(list + ((if Accepts(list, e) then [e] else []) + rest), MAX_CANDIDATES)
  {
    hide Accepts, Remember, Last;
    RememberIsLast(list, e);
    if Accepts(list, e) {
      assert list + ([e] + rest) == (list + [e]) + rest;
      LastOfLast(list + [e], rest, MAX_CANDIDATES);
    } else {
      assert [] + rest == rest;
    }
  }

  /** A list that is already recent is taken whole, in its own order. */
  lemma {:induction false} RememberAllOfRecent(done: seq<SocketAddr>, rest: seq<SocketAddr>)
    requires Recent(done + rest)
    ensures RememberAll(done, rest) == done + rest
    decreases |rest|
  {
    if rest == [] {
      assert done + rest == done;
    } else {
      assert (done + rest)[|done|] == rest[0];
      assert forall i :: 0 <= i < |done| ==> (done + rest)[i] == done[i];
      assert Remember(done, rest[0]) == done + [rest[0]];
      assert (done + [rest[0]]) + rest[1..] == done + rest;
      RememberAllOfRecent(done + [rest[0]], rest[1..]);
    }
  }

  // ----- Endpoints on the wire: 16 octets of address, then the port -----

  function Ip16(ip: Ip): Octets16 {
    match ip
    case V4(o) => MapIpv4(o)
    case V6(o) => o
  }

  function EncodePort(p: Port): Bytes {
    [p / 256, p % 256]
  }

  function EncodeEndpoint(e: SocketAddr): (r: Bytes)
    ensures |r| == 18
  {
    Ip16(e.ip) + EncodePort(e.port)
  }

  function DecodeEndpoint(b: Bytes): SocketAddr
    requires |b| == 18
  {
    var port: int := b[16] as int * 256 + b[17] as int;
    SocketAddr(Canonical(V6(b[..16])), port)
  }

  function EncodeEndpoints(list: seq<SocketAddr>): (r: Bytes)
    ensures |r| == 18 * |list|
  {
    if list == [] then [] else EncodeEndpoint(list[0]) + EncodeEndpoints(list[1..])
  }

  function DecodeEndpoints(b: Bytes): seq<SocketAddr>
    requires |b| % 18 == 0
  {
    if b == [] then [] else [DecodeEndpoint(b[..18])] + DecodeEndpoints(b[18..])
  }

  lemma {:induction false} EndpointRoundTrip(e: SocketAddr)
    ensures DecodeEndpoint(EncodeEndpoint(e)) == SocketAddr(Canonical(e.ip), e.port)
  {
    var b := EncodeEndpoint(e);
    assert b[..16] == Ip16(e.ip);
    match e.ip
    case V4(o) => assert MapIpv4(o)[12..] == o && MapIpv4(o)[..12] == [0, 0, 0, 0, 0, 0, 0, 0, 0, 0, 0xff, 0xff];
    case V6(_) =>
  }

  function CanonicalAll(list: seq<SocketAddr>): (r: seq<SocketAddr>)
    ensures |r| == |list| && forall i :: 0 <= i < |r| ==> r[i] == SocketAddr(Canonical(list[i].ip), list[i].port)
  {
    seq(|list|, i requires 0 <= i < |list| => SocketAddr(Canonical(list[i].ip), list[i].port))
  }

  lemma {:induction false} EndpointsRoundTrip(list: seq<SocketAddr>)
    ensures DecodeEndpoints(EncodeEndpoints(list)) == CanonicalAll(list)
  {
    hide EncodeEndpoint, DecodeEndpoint, Canonical;
    if list == [] {
    } else {
      EndpointRoundTrip(list[0]);
      EndpointsRoundTrip(list[1..]);
      var b := EncodeEndpoints(list);
      assert b[..18] == EncodeEndpoint(list[0]) && b[18..] == EncodeEndpoints(list[1..]);
      assert CanonicalAll(list) == [SocketAddr(Canonical(list[0].ip), list[0].port)] + CanonicalAll(list[1..]);
    }
  }

  /** The candidates a peer stores on receiving these octets. */
  function Stored(payload: Bytes): seq<SocketAddr>
    requires |payload| % 18 == 0
  {
    var announced := DecodeEndpoints(payload);
    RememberAll([], announced[..Min(|announced|, MAX_CANDIDATES)])
  }

  method StoreEndpoints(payload: Bytes) returns (list: seq<SocketAddr>)
    requires |payload| % 18 == 0
    ensures list == Stored(payload)
  {
    hide Remember, DecodeEndpoints;
    var announced := DecodeEndpoints(payload);
    var kept := announced[..Min(|announced|, MAX_CANDIDATES)];
    list := [];
    for i := 0 to |kept|
      invariant RememberAll(list, kept[i..]) == RememberAll([], kept)
    {
      assert kept[i..][1..] == kept[i + 1..];
      var next, _ := RememberEndpoint(list, kept[i]);
      list := next;
    }
  }

  /**
   What a peer stores is exactly what was advertised, in order, if and only if no advertised
   address is an IPv4-mapped IPv6 address.
   */
  lemma {:induction false} AdvertisedIsStored(list: seq<SocketAddr>)
    requires Recent(list)
    ensures Stored(EncodeEndpoints(list)) == list <==>
            forall e :: e in list ==> e.ip.V4? || Ipv4Mapped(e.ip.o16).None?
  {
    hide Usable, EncodeEndpoints, DecodeEndpoints, Ipv4Mapped;
    EndpointsRoundTrip(list);
    var announced := CanonicalAll(list);
    assert announced[..Min(|announced|, MAX_CANDIDATES)] == announced;
    if forall e :: e in list ==> e.ip.V4? || Ipv4Mapped(e.ip.o16).None? {
      assert announced == list;
      RememberAllOfRecent([], list);
      assert [] + list == list;
    } else {
      var e :| e in list && e.ip.V6? && Ipv4Mapped(e.ip.o16).Some?;
      RememberAllIsLatest([], announced);
      TakenAreOffers([], announced);
      assert [] + Taken([], announced) == Taken([], announced);
      MappedIsNotCanonical(list, e);
    }
  }

  lemma {:induction false} MappedIsNotCanonical(list: seq<SocketAddr>, e: SocketAddr)
    requires e.ip.V6? && Ipv4Mapped(e.ip.o16).Some?
    ensures e !in CanonicalAll(list)
  {
    forall i | 0 <= i < |list| ensures CanonicalAll(list)[i] != e {
      assert Canonical(Canonical(list[i].ip)) == Canonical(list[i].ip);
    }
  }

  lemma {:induction false} TakenAreOffers(list: seq<SocketAddr>, offers: seq<SocketAddr>)
    ensures forall e :: e in Taken(list, offers) ==> e in offers
    decreases |offers|
  {
    if offers == [] {
    } else {
      TakenAreOffers(Remember(list, offers[0]), offers[1..]);
    }
  }
}
