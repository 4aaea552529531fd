/** Which probes the discovery steps record, and a run in which one of them makes a path direct. */
module DiscoveryProbes {
  import opened Common
  import opened Endpoints
  import opened Candidates
  import opened Discovery

  /** Enough transaction ids, all new, and room for a probe under each. */
  ghost predicate Room(d: Disco, draws: seq<TxId>, n: nat) {
    && |draws| >= n && |d.probes| + n <= MAX_PROBES
    && (forall i, j :: 0 <= i < j < |draws| ==> draws[i] != draws[j])
    && (forall t :: t in draws ==> t !in d.probes)
  }

  /** An outstanding probe of this peer at this endpoint, sent at this time. */
  predicate Outstanding(d: Disco, txid: TxId, key: Key, endpoint: SocketAddr, now: nat) {
    && txid in d.probes && d.probes[txid].key == key && d.probes[txid].endpoint == endpoint
    && d.probes[txid].sent == now
  }

  /** A probe to a usable endpoint of a known peer is recorded while there is room, and nothing else changes. */
  lemma {:induction false} ProbeIsRecorded(d: Disco, key: Key, endpoint: SocketAddr, txid: TxId, now: nat)
    ensures var d' := SendProbe(d, key, endpoint, txid, now);
      && (Usable(endpoint) && key in d.peers && |d.probes| < 4096 ==>
            && Outstanding(d', txid, key, endpoint, now) && d'.probes[txid].serial == d.probesSent
            && d'.probesSent == d.probesSent + 1)
      && (!(Usable(endpoint) && key in d.peers && |d.probes| < 4096) ==> d' == d)
      && (forall t :: t != txid ==>
            (t in d'.probes <==> t in d.probes) && (t in d.probes ==> d'.probes[t] == d.probes[t]))
      && d'.peers == d.peers && d'.pings == d.pings
  {
    hide Usable;
  }

  /** Targets that are all known and usable are each probed, under their own transaction id. */
  lemma {:induction false} EachIsRecorded(d: Disco, targets: seq<(Key, SocketAddr)>, draws: seq<TxId>, now: nat)
    requires Room(d, draws, |targets|)
    requires forall t :: t in targets ==> t.0 in d.peers && Usable(t.1)
    ensures var d' := SendProbes(d, targets, draws, now);
      && (forall i :: 0 <= i < |targets| ==> Outstanding(d', draws[i], targets[i].0, targets[i].1, now))
      && (forall t :: t in d.probes ==> t in d'.probes && d'.probes[t] == d.probes[t])
      && d'.peers == d.peers
    decreases |targets|
  {
    hide Usable, SendProbe;
    if targets == [] {
    } else {
      var d1 := SendProbe(d, targets[0].0, targets[0].1, draws[0], now);
      assert targets[0] in targets && draws[0] in draws;
      ProbeIsRecorded(d, targets[0].0, targets[0].1, draws[0], now);
      RoomLeft(d, d1, draws, |targets|);
      EachIsRecorded(d1, targets[1..], draws[1..], now);
      forall i | 0 <= i < |targets|
        ensures Outstanding(SendProbes(d, targets, draws, now), draws[i], targets[i].0, targets[i].1, now)
      {
        if i > 0 {
          assert targets[i] == targets[1..][i - 1] && draws[i] == draws[1..][i - 1];
        }
      }
    }
  }

  lemma {:induction false} RoomLeft(d: Disco, d1: Disco, draws: seq<TxId>, n: nat)
    requires n > 0 && Room(d, draws, n)
    requires forall t :: t in d1.probes ==> t in d.probes || t == draws[0]
    ensures Room(d1, draws[1..], n - 1)
  {
    assert d1.probes.Keys <= d.probes.Keys + {draws[0]};
    Fewer(d1.probes.Keys, d.probes.Keys + {draws[0]});
    forall t | t in draws[1..]
      ensures t !in d1.probes
    {
      var k :| 0 <= k < |draws[1..]| && draws[1..][k] == t;
      assert draws[k + 1] == t && t in draws;
    }
  }

  /** A list of endpoints that opens: sealed by the peer, come through the relay, whole endpoints only. */
  predicate OpensList(d: Disco, i: Input) {
    && i.Arrives? && i.key in d.peers && i.packet.Sealed? && i.packet.sender == d.peers[i.key].disco && i.source.None?
    && |i.packet.data| >= 2 && i.packet.data[0] == 3 && i.packet.data[1] == 0 && (|i.packet.data| - 2) % 18 == 0
  }

  /** A ping that opens, seen at a usable endpoint. */
  predicate OpensPing(d: Disco, i: Input) {
    && i.Arrives? && i.key in d.peers && i.packet.Sealed? && i.packet.sender == d.peers[i.key].disco
    && i.source.Some? && Usable(i.source.value)
    && |i.packet.data| >= 14 && i.packet.data[0] == 1 && i.packet.data[1] == 0
  }

  /** Every usable endpoint among the first 32 of a peer's list becomes its candidate, in order, and is probed. */
  lemma {:induction false} ListIsProbed(d: Disco, i: Input)
    requires OpensList(d, i) && Room(d, i.draws, 32)
    ensures var d' := Step(d, i); var list := DecodeEndpoints(i.packet.data[2..]);
      i.key in d'.peers && var kept := d'.peers[i.key].candidates;
      && |kept| <= 32
      && (forall n :: 0 <= n < |kept| ==> Outstanding(d', i.draws[n], i.key, kept[n], i.now))
      && (forall n :: 0 <= n < |list| && n < 32 && Usable(list[n]) ==> list[n] in kept)
      && (forall e :: e in kept ==> e in list && Usable(e))
  {
    hide Usable, DecodeEndpoints, SendProbes;
    var data := i.packet.data[2..];
    var list := DecodeEndpoints(data);
    var kept := Stored(data);
    StoredIsRecent(data);
    var offers := list[..Min(|list|, MAX_CANDIDATES)];
    TakesUsable([], offers);
    var d1 := SetCandidates(d, i.key, kept);
    EachIsRecorded(d1, TargetsOf(i.key, kept), i.draws, i.now);
    assert forall n :: 0 <= n < |list| && n < 32 ==> list[n] == offers[n];
    assert forall e :: e in offers ==> e in list;
  }

  /** A bounded list of offers is taken whole, unusable and repeated ones aside. */
  lemma {:induction false} TakesUsable(list: seq<SocketAddr>, offers: seq<SocketAddr>)
    requires Recent(list) && |list| + |offers| <= MAX_CANDIDATES
    ensures forall e :: e in RememberAll(list, offers) <==> e in list || (e in offers && Usable(e))
    decreases |offers|
  {
    hide Usable;
    if offers == [] {
    } else {
      RememberKeepsRecent(list, offers[0]);
      TakesUsable(Remember(list, offers[0]), offers[1..]);
      assert forall e :: e in offers <==> e == offers[0] || e in offers[1..];
    }
  }

  /** The source of a ping is probed when it becomes a candidate, which a new one does. */
  lemma {:induction false} PingSourceIsProbed(d: Disco, i: Input)
    requires OpensPing(d, i) && Room(d, i.draws, 1)
    ensures var d' := Step(d, i); var source := i.source.value;
      && i.key in d'.peers && source in d'.peers[i.key].candidates
      && (source !in d.peers[i.key].candidates ==> Outstanding(d', i.draws[0], i.key, source, i.now))
      && (source in d.peers[i.key].candidates ==> d' == d)
  {
    hide Usable, SendProbe;
    var source := i.source.value;
    var d1 := SetCandidates(d, i.key, Remember(d.peers[i.key].candidates, source));
    ProbeIsRecorded(d1, i.key, source, i.draws[0], i.now);
    assert i.draws[0] in i.draws;
  }

  /** An advertisement probes every candidate of every peer visited. */
  lemma {:induction false} CandidatesAreProbed(d: Disco, i: Input, key: Key, candidate: SocketAddr) returns (n: nat)
    requires Inv(d) && i.Advertises? && Room(d, i.draws, |AllTargets(d.peers, i.order)|)
    requires key in i.order && key in d.peers && candidate in d.peers[key].candidates
    ensures n < |i.draws| && Outstanding(Step(d, i), i.draws[n], key, candidate, i.now)
  {
    hide Usable, SendProbes;
    var targets := AllTargets(d.peers, i.order);
    TargetsAreUsable(d, i.order);
    EachIsRecorded(d, targets, i.draws, i.now);
    IsTarget(d.peers, i.order, key, candidate);
    n :| 0 <= n < |targets| && targets[n] == (key, candidate);
  }

  lemma {:induction false} TargetsAreUsable(d: Disco, order: seq<Key>)
    requires Inv(d)
    ensures forall t :: t in AllTargets(d.peers, order) ==> t.0 in d.peers && Usable(t.1)
  {
    hide AllTargets;
    forall t | t in AllTargets(d.peers, order)
      ensures t.0 in d.peers && Usable(t.1)
    {
      TargetsAreCandidates(d.peers, order, t);
      CandidatesAreRecent(d, t.0);
    }
  }

  lemma {:induction false} IsTarget(peers: map<Key, Peer>, order: seq<Key>, key: Key, candidate: SocketAddr)
    requires key in order && key in peers && candidate in peers[key].candidates
    ensures (key, candidate) in AllTargets(peers, order)
    decreases |order|
  {
    if order[0] == key {
      var list := peers[key].candidates;
      var k :| 0 <= k < |list| && list[k] == candidate;
      assert TargetsOf(key, list)[k] == (key, candidate);
    } else {
      IsTarget(peers, order[1..], key, candidate);
    }
  }

  /** A direct ping that is taken probes every candidate too. */
  lemma {:induction false} DirectPingProbes(d: Disco, i: Input, key: Key, candidate: SocketAddr) returns (n: nat)
    requires Inv(d) && i.StartsPing? && i.direct && i.waiter !in i.gone && |Alive(d.pings, i.gone)| < 128
    requires Room(d, i.draws, |AllTargets(d.peers, i.order)|)
    requires key in i.order && key in d.peers && candidate in d.peers[key].candidates
    ensures n < |i.draws| && Outstanding(Step(d, i), i.draws[n], key, candidate, i.now)
    ensures Step(d, i).pings == Alive(d.pings, i.gone) + [Ping(i.waiter, true, i.txid, i.now, i.now)]
  {
    hide SendProbes;
    var started := StartPing(d, i.waiter, i.direct, i.txid, i.gone, i.now);
    PingsKeepInv(d, started.pings);
    n := CandidatesAreProbed(started, Advertises(i.order, i.draws, i.now), key, candidate);
    ProbesLeavePings(started, AllTargets(started.peers, i.order), i.draws, i.now);
  }

  lemma {:induction false} ProbesLeavePings(d: Disco, targets: seq<(Key, SocketAddr)>, draws: seq<TxId>, now: nat)
    ensures var d' := SendProbes(d, targets, draws, now); d'.pings == d.pings && d'.peers == d.peers
    decreases |targets|
  {
    hide Usable;
    if targets == [] {
    } else {
      ProbesLeavePings(SendProbe(d, targets[0].0, targets[0].1, Draw(draws, 0), now),
                       targets[1..], if draws == [] then [] else draws[1..], now);
    }
  }

  // ---- Pings and routes ----

  /** The frame of a direct ping is answered by the server with a pong that answers this ping. */
  lemma {:induction false} DirectPingIsAnswered(
    pinger: Disco, server: Key, p: Ping, me: Identity, peer: Disco, pingerKey: Key, seen: Option<SocketAddr>,
    source: Option<SocketAddr>)
    requires p.disco && |p.txid| == 12 && server in pinger.peers && pingerKey in peer.peers
    requires (seen.Some? ==> Usable(seen.value)) && (source.Some? ==> Usable(source.value))
    requires p in pinger.pings && forall q :: q in pinger.pings && q.disco && q.txid == p.txid ==> q == p
    ensures PingFrame(Some(server), pinger.peers, p, me).Some?
    ensures var frame := PingFrame(Some(server), pinger.peers, p, me).value;
      var reply := ReplyTo(peer, pingerKey, Sealed(peer.peers[pingerKey].disco, frame), seen);
      reply.Some? &&
      AnsweredBy(pinger, server, Sealed(pinger.peers[server].disco, reply.value), source) == Some(p)
  {
    hide Usable;
    var frame := PingFrame(Some(server), pinger.peers, p, me).value;
    assert frame[2..14] == p.txid;
    OnlyOneAnswers(pinger.pings, p);
  }

  lemma {:induction false} OnlyOneAnswers(pings: seq<Ping>, p: Ping)
    requires p in pings && p.disco && forall q :: q in pings && q.disco && q.txid == p.txid ==> q == p
    ensures Answered(pings, p.txid) == Some(p)
    decreases |pings|
  {
    if pings[0].disco && pings[0].txid == p.txid {
      assert pings[0] in pings;
    } else {
      OnlyOneAnswers(pings[1..], p);
    }
  }

  /** A pong that opens. */
  predicate OpensPong(d: Disco, i: Input) {
    && i.Arrives? && i.key in d.peers && i.packet.Sealed? && i.packet.sender == d.peers[i.key].disco
    && (i.source.Some? ==> Usable(i.source.value))
    && |i.packet.data| >= 32 && i.packet.data[0] == 2 && i.packet.data[1] == 0
  }

  /** A pong takes away the first waiting ping it answers, and no other, whether or not it proves a path. */
  lemma {:induction false} PongEndsOnePing(d: Disco, i: Input) returns (n: nat)
    requires OpensPong(d, i)
    ensures var txid := i.packet.data[2..14]; var after := Step(d, i).pings;
      && n <= |d.pings| && (forall k :: 0 <= k < n ==> !(d.pings[k].disco && d.pings[k].txid == txid))
      && (n == |d.pings| ==> after == d.pings)
      && (n < |d.pings| ==>
            && d.pings[n].disco && d.pings[n].txid == txid && after == d.pings[..n] + d.pings[n + 1..]
            && AnsweredBy(d, i.key, i.packet, i.source) == Some(d.pings[n]))
  {
    hide Usable, Proves, Answered, AnswerPing;
    n := AnswersTheFirst(d.pings, i.packet.data[2..14]);
  }

  /** The pong to a ping tells where the ping was seen to come from, and nothing but zeros for one from the relay. */
  lemma {:induction false} PongTellsSource(d: Disco, key: Key, data: Bytes, source: Option<SocketAddr>)
    requires key in d.peers && |data| >= 14 && data[0] == 1 && data[1] == 0
    requires source.Some? ==> Usable(source.value)
    ensures var reply := ReplyTo(d, key, Sealed(d.peers[key].disco, data), source);
      && reply.Some?
      && (source.Some? ==>
            DecodeEndpoint(reply.value[14..32]) == SocketAddr(Canonical(source.value.ip), source.value.port))
      && (source.None? ==> reply.value[30] == reply.value[31] == 0 && reply.value[26..30] == [0, 0, 0, 0])
  {
    hide Usable, EncodeEndpoint, DecodeEndpoint;
    var shown := if source.Some? then source.value else NOWHERE;
    EndpointRoundTrip(shown);
    var reply := ReplyTo(d, key, Sealed(d.peers[key].disco, data), source).value;
    assert reply[14..32] == EncodeEndpoint(shown);
    if source.None? {
      NowhereIsZeros();
      assert reply[26..30] == EncodeEndpoint(NOWHERE)[12..16];
      assert reply[30] == EncodeEndpoint(NOWHERE)[16] && reply[31] == EncodeEndpoint(NOWHERE)[17];
    }
  }

  lemma {:induction false} NowhereIsZeros()
    ensures var octets := EncodeEndpoint(NOWHERE);
      octets[12..16] == [0, 0, 0, 0] && octets[16] == 0 && octets[17] == 0
  {
  }

  /** A ping through the relay names the pinger's two keys, in the place and length the other side reads them. */
  lemma {:induction false} RelayPingNamesKeys(peers: map<Key, Peer>, server: Option<Key>, p: Ping, me: Identity)
    requires !p.disco && |me.public| == |me.disco| == 32
    ensures PingFrame(server, peers, p, me).Some? <==> server.Some?
    ensures server.Some? ==> var frame := PingFrame(server, peers, p, me).value;
      |frame| == 69 && frame[..4] == [0x6d, 0x65, 0x6f, 0x77] && frame[4] == 1
      && frame[5..37] == me.public && frame[37..69] == me.disco
  {
  }

  /** Without a server nothing is sent, and a direct ping not before the server is known. */
  lemma {:induction false} NoFrame(peers: map<Key, Peer>, server: Option<Key>, p: Ping, me: Identity)
    requires p.disco
    ensures PingFrame(server, peers, p, me).Some? <==> server.Some? && server.value in peers
  {
  }

  /** A ping keeps its place in the queue while it is waited for. */
  lemma {:induction false} AliveIsExact(before: seq<Ping>, p: Ping, after: seq<Ping>, gone: set<nat>)
    ensures Alive(before + [p] + after, gone)
         == Alive(before, gone) + (if p.waiter in gone then [] else [p]) + Alive(after, gone)
    decreases |before|
  {
    var all := before + [p] + after;
    if before == [] {
      assert all[1..] == after;
    } else {
      assert all[1..] == before[1..] + [p] + after;
      AliveIsExact(before[1..], p, after, gone);
    }
  }

  /** A ping that is still waited for joins the end of the queue, unless 128 others are waited for too. */
  lemma {:induction false} PingIsQueued(d: Disco, waiter: nat, direct: bool, txid: TxId, gone: set<nat>,
                                        order: seq<Key>, draws: seq<TxId>, now: nat)
    ensures var d' := Step(d, StartsPing(waiter, direct, txid, gone, order, draws, now));
      && (waiter in gone ==> d' == d)
      && (waiter !in gone && |Alive(d.pings, gone)| >= 128 ==> d' == d.(pings := Alive(d.pings, gone)))
      && (waiter !in gone && |Alive(d.pings, gone)| < 128 ==>
            && d'.pings == Alive(d.pings, gone) + [Ping(waiter, direct, txid, now, now)] && d'.peers == d.peers
            && (!direct ==> d'.probes == d.probes))
  {
    hide SendProbes, Alive;
    var started := StartPing(d, waiter, direct, txid, gone, now);
    var targets := AllTargets(started.peers, order);
    ProbesLeavePings(started, targets, draws, now);
  }

  /** Whether a ping is still worth its place, and whether it is due to be sent again. */
  predicate Worth(p: Ping, gone: set<nat>, now: nat) {
    p.waiter !in gone && now <= p.started + 10_000
  }

  predicate Due(p: Ping, now: nat) {
    now >= p.sent + 1000
  }

  /**
   A refresh keeps exactly the pings still waited for that are at most ten seconds old, in order, and an actor with a
   server sends those again whose last sending is a second old or more.
   */
  lemma {:induction false} RefreshIsExact(pings: seq<Ping>, gone: set<nat>, server: Option<Key>, peers: map<Key, Peer>,
                                          me: Identity, now: nat, p: Ping, rest: seq<Ping>)
    requires pings == [p] + rest
    ensures Refresh([], gone, server.Some?, now) == [] && Resent([], gone, server, peers, me, now) == []
    ensures Refresh(pings, gone, server.Some?, now)
         == (if !Worth(p, gone, now) then []
             else if server.Some? && Due(p, now) then [p.(sent := now)] else [p])
            + Refresh(rest, gone, server.Some?, now)
    ensures Resent(pings, gone, server, peers, me, now)
         == (if Worth(p, gone, now) && Due(p, now) && PingFrame(server, peers, p, me).Some?
             then [PingFrame(server, peers, p, me).value] else [])
            + Resent(rest, gone, server, peers, me, now)
  {
    hide PingFrame;
    assert pings[1..] == rest;
  }

  /** A packet leaves directly exactly towards a direct endpoint under fifteen seconds old, if it can be sent there. */
  lemma {:induction false} RouteIsExact(d: Disco, key: Key, sent: bool, now: nat)
    ensures SendPacket(d, key, sent, now)
         == if sent && key in d.peers && d.peers[key].direct.Some? && now < d.peers[key].direct.value.1 + 15_000
            then Direct(d.peers[key].direct.value.0) else Relay
  {
  }

  /** Probes live ten seconds, and pings are refreshed at the same time. */
  lemma {:induction false} ProbesExpire(d: Disco, gone: set<nat>, hasServer: bool, now: nat, t: TxId)
    ensures var d' := Timers(d, gone, hasServer, now);
      && (t in d'.probes <==> t in d.probes && now < d.probes[t].sent + 10_000)
      && (t in d'.probes ==> d'.probes[t] == d.probes[t])
      && d'.peers == d.peers && d'.probesSent == d.probesSent
      && d'.pings == Refresh(d.pings, gone, hasServer, now)
  {
  }

  // ---- A path made direct, from the start ----

  /** The peer joins, announces one endpoint, and answers the probe sent there with this pong. */
  function Meeting(key: Key, disco: Key, endpoint: SocketAddr, txid: TxId, seen: Bytes, sent: nat,
                   now: nat): seq<Input>
  {
    [Joins(key, disco),
     Arrives(key, Sealed(disco, [3, 0] + EncodeEndpoint(endpoint)), None, [txid], sent),
     Arrives(key, Sealed(disco, [2, 0] + txid + seen), Some(endpoint), [], now)]
  }

  /** So a peer does get a direct path: one list, one probe and one pong under ten seconds later are enough. */
  lemma {:induction false} PeersMeet(key: Key, disco: Key, endpoint: SocketAddr, txid: TxId, seen: Bytes,
                                     sent: nat, now: nat)
    requires key != 0 && disco != 0 && |txid| == 12 && |seen| == 18
    requires Usable(endpoint) && Canonical(endpoint.ip) == endpoint.ip
    requires now < sent + 10_000
    ensures var d := Run(EMPTY, Meeting(key, disco, endpoint, txid, seen, sent, now));
      key in d.peers && d.peers[key].direct == Some((endpoint, now)) && d.probes == map[]
  {
    hide Usable, Canonical;
    var all := Meeting(key, disco, endpoint, txid, seen, sent, now);
    RunThree(all);
    var d1 := Step(EMPTY, all[0]);
    assert d1 == Disco(map[key := Peer(disco, None, [])], map[], [], 0);
    var d2 := Step(d1, all[1]);
    OneListed(d1, key, disco, endpoint, txid, sent);
    assert d2 == Disco(map[key := Peer(disco, None, [endpoint])], map[txid := Probe(key, endpoint, sent, 0)], [], 1);
    OnePong(d2, key, disco, endpoint, txid, seen, sent, now);
  }

  lemma {:induction false} RunThree(all: seq<Input>)
    requires |all| == 3
    ensures Run(EMPTY, all) == Step(Step(Step(EMPTY, all[0]), all[1]), all[2])
  {
    hide Step;
    assert all[..2][..1] == all[..1] && all[..1][..0] == [];
    assert Run(EMPTY, all[..1]) == Step(EMPTY, all[0]);
    assert Run(EMPTY, all[..2]) == Step(Run(EMPTY, all[..1]), all[1]);
  }

  lemma {:induction false} OneListed(d: Disco, key: Key, disco: Key, endpoint: SocketAddr, txid: TxId, sent: nat)
    requires d == Disco(map[key := Peer(disco, None, [])], map[], [], 0)
    requires Usable(endpoint) && Canonical(endpoint.ip) == endpoint.ip
    ensures Step(d, Arrives(key, Sealed(disco, [3, 0] + EncodeEndpoint(endpoint)), None, [txid], sent))
         == Disco(map[key := Peer(disco, None, [endpoint])], map[txid := Probe(key, endpoint, sent, 0)], [], 1)
  {
    hide Usable, Canonical, EncodeEndpoint;
    var data := [3, 0] + EncodeEndpoint(endpoint);
    assert data[2..] == EncodeEndpoint(endpoint);
    OneStored(endpoint);
    var d1 := SetCandidates(d, key, [endpoint]);
    assert d1.peers == map[key := Peer(disco, None, [endpoint])];
    assert TargetsOf(key, [endpoint]) == [(key, endpoint)];
    OneTarget(d1, (key, endpoint), txid, sent);
  }

  lemma {:induction false} OneTarget(d: Disco, target: (Key, SocketAddr), txid: TxId, now: nat)
    ensures SendProbes(d, [target], [txid], now) == SendProbe(d, target.0, target.1, txid, now)
  {
    hide SendProbe;
    assert [target][1..] == [];
    assert SendProbes(SendProbe(d, target.0, target.1, txid, now), [], [txid][1..], now)
        == SendProbe(d, target.0, target.1, txid, now);
  }

  lemma {:induction false} OneStored(endpoint: SocketAddr)
    requires Usable(endpoint) && Canonical(endpoint.ip) == endpoint.ip
    ensures Stored(EncodeEndpoint(endpoint)) == [endpoint]
  {
    hide Usable, Canonical, EncodeEndpoint, DecodeEndpoint;
    EndpointsRoundTrip([endpoint]);
    assert EncodeEndpoints([endpoint]) == EncodeEndpoint(endpoint) + EncodeEndpoints([endpoint][1..]);
    assert EncodeEndpoints([endpoint]) == EncodeEndpoint(endpoint);
    assert CanonicalAll([endpoint]) == [endpoint];
    assert [endpoint][..1] == [endpoint] && [endpoint][1..] == [];
    assert Remember([], endpoint) == [endpoint] && RememberAll([endpoint], []) == [endpoint];
  }

  lemma {:induction false} OnePong(d: Disco, key: Key, disco: Key, endpoint: SocketAddr, txid: TxId, seen: Bytes,
                                   sent: nat, now: nat)
    requires |txid| == 12 && |seen| == 18 && Usable(endpoint) && now < sent + 10_000
    requires d == Disco(map[key := Peer(disco, None, [endpoint])], map[txid := Probe(key, endpoint, sent, 0)], [], 1)
    ensures Step(d, Arrives(key, Sealed(disco, [2, 0] + txid + seen), Some(endpoint), [], now))
         == Disco(map[key := Peer(disco, Some((endpoint, now)), [endpoint])], map[], [], 1)
  {
    hide Usable;
    var data := [2, 0] + txid + seen;
    assert data[2..14] == txid;
    assert d.probes - {txid} == map[];
  }
}
