/** The actor methods that change the discovery state in place. */
module DiscoveryActor {
  import opened Common
  import opened Endpoints
  import opened Candidates
  import opened Discovery

  class Actor {
    const me: Identity
    const server: Option<Key>
    var peers: map<Key, Peer>
    var probes: map<TxId, Probe>
    var pings: seq<Ping>
    var endpoints: seq<SocketAddr>
    var probesSent: nat  // kept only to tell probes apart

    ghost function View(): Disco
      reads this
    {
      Disco(peers, probes, pings, probesSent)
    }

    ghost predicate Valid()
      reads this
    {
      Inv(View()) && Recent(endpoints)
    }

    constructor (me: Identity, server: Option<Key>)
      ensures View() == EMPTY && endpoints == [] && Valid() && this.me == me && this.server == server
    {
      this.me, this.server := me, server;
      peers, probes, pings, endpoints, probesSent := map[], map[], [], [], 0;
    }

    method AddPeer(key: Key, disco: Key)
      requires Valid()
      modifies this`peers
      ensures View() == Join(old(View()), key, disco) && Valid()
    {
      JoinKeepsInv(View(), key, disco);
      hide Inv;
      if key in peers || |peers| >= MAX_PEERS || key == 0 || disco == 0 {
        return;
      }
      peers := peers[key := Peer(disco, None, [])];
    }

    method Probe(key: Key, endpoint: SocketAddr, txid: TxId, now: nat)
      requires Valid()
      modifies this`probes, this`probesSent
      ensures View() == SendProbe(old(View()), key, endpoint, txid, now) && Valid()
    {
      hide Inv, SendProbe, Recent;
      SendProbeKeepsInv(View(), key, endpoint, txid, now);
      RecordProbe(key, endpoint, txid, now);
    }

    method RecordProbe(key: Key, endpoint: SocketAddr, txid: TxId, now: nat)
      modifies this`probes, this`probesSent
      ensures View() == SendProbe(old(View()), key, endpoint, txid, now)
    {
      hide Usable;
      if !Usable(endpoint) {
        return;
      }
      if key in peers && |probes| < MAX_PROBES {
        probes := probes[txid := Discovery.Probe(key, endpoint, now, probesSent)];
        probesSent := probesSent + 1;
      }
    }

    /** Probes each target in turn, drawing one transaction id for each. */
    method ProbeEach(targets: seq<(Key, SocketAddr)>, draws: seq<TxId>, now: nat)
      requires Valid()
      modifies this`probes, this`probesSent
      ensures View() == SendProbes(old(View()), targets, draws, now) && Valid()
    {
      hide Inv, SendProbe;
      ghost var end := SendProbes(View(), targets, draws, now);
      var left := draws;
      for i := 0 to |targets|
        invariant Valid() && SendProbes(View(), targets[i..], left, now) == end
        invariant peers == old(peers) && pings == old(pings) && endpoints == old(endpoints)
      {
        assert targets[i..][1..] == targets[i + 1..];
        Probe(targets[i].0, targets[i].1, Draw(left, 0), now);
        left := if left == [] then [] else left[1..];
      }
    }

    /** An authenticated ping is answered, and a UDP source it is seen at becomes a candidate to probe. */
    method TakePing(key: Key, data: Bytes, source: Option<SocketAddr>, draws: seq<TxId>, now: nat)
      returns (pong: Bytes)
      requires Valid() && key in peers && |data| >= 14
      modifies this`peers, this`probes, this`probesSent
      ensures pong == PongTo(data, source)
      ensures var d := old(View());
        View() == (if source.None? || !Accepts(d.peers[key].candidates, source.value) then d
                   else SendProbe(SetCandidates(d, key, Remember(d.peers[key].candidates, source.value)),
                                  key, source.value, Draw(draws, 0), now))
      ensures Valid()
    {
      var endpoint := NOWHERE;
      if source.Some? {
        endpoint := source.value;
      }
      pong := [2, 0] + data[2..14] + Ip16(endpoint.ip) + EncodePort(endpoint.port);
      assert pong == PongTo(data, source) by { PongParts(data, endpoint); }
      if source.Some? {
        TakeSource(key, source.value, draws, now);
      }
    }

    static lemma {:induction false} PongParts(data: Bytes, e: SocketAddr)
      requires |data| >= 14
      ensures [2, 0] + data[2..14] + Ip16(e.ip) + EncodePort(e.port) == [2, 0] + data[2..14] + EncodeEndpoint(e)
    {
    }

    method TakeSource(key: Key, source: SocketAddr, draws: seq<TxId>, now: nat)
      requires Valid() && key in peers
      modifies this`peers, this`probes, this`probesSent
      ensures var d := old(View());
        View() == (if !Accepts(d.peers[key].candidates, source) then d
                   else SendProbe(SetCandidates(d, key, Remember(d.peers[key].candidates, source)),
                                  key, source, Draw(draws, 0), now))
      ensures Valid()
    {
      hide ProbesInv, Usable, Recent, SendProbe;
      var list, taken := RememberEndpoint(peers[key].candidates, source);
      if taken {
        RememberKeepsRecent(peers[key].candidates, source);
        SetCandidatesKeepsInv(View(), key, list);
        hide Inv;
        peers := peers[key := peers[key].(candidates := list)];
        Probe(key, source, Draw(draws, 0), now);
      }
    }

    method PromoteEndpoint(key: Key, txid: TxId, now: nat)
      requires key in peers && txid in probes
      modifies this`peers, this`probes
      ensures View() == Promote(old(View()), key, txid, now)
    {
      var p := probes[txid];
      probes := probes - {txid};
      peers := peers[key := peers[key].(direct := Some((p.endpoint, now)))];
    }

    /** An authenticated pong may prove a path, and answers a waiting ping. */
    method TakePongPacket(key: Key, source: Option<SocketAddr>, txid: TxId, now: nat) returns (answered: Option<Ping>)
      requires Valid() && key in peers
      modifies this`peers, this`probes, this`pings, this`probesSent
      ensures answered == Answered(old(pings), txid)
      ensures View() == TakePong(old(View()), key, source, txid, now) && Valid()
    {
      hide Inv, Recent, TakePong;
      TakePongKeepsInv(View(), key, source, txid, now);
      answered := ProveAndAnswer(key, source, txid, now);
    }

    method ProveAndAnswer(key: Key, source: Option<SocketAddr>, txid: TxId, now: nat) returns (answered: Option<Ping>)
      requires key in peers
      modifies this`peers, this`probes, this`pings, this`probesSent
      ensures answered == Answered(old(pings), txid)
      ensures View() == TakePong(old(View()), key, source, txid, now)
    {
      hide AnswerPing, Promote;
      if txid in probes && probes[txid].key == key && source == Some(probes[txid].endpoint)
         && Elapsed(now, probes[txid].sent) < PROBE_LIFE_MS {
        PromoteEndpoint(key, txid, now);
      }
      answered := Answered(pings, txid);
      pings := AnswerPing(pings, txid);
    }

    /** The peer's own list of endpoints replaces its candidates, and each is probed. */
    method TakeEndpoints(key: Key, payload: Bytes, draws: seq<TxId>, now: nat)
      requires Valid() && key in peers && |payload| % 18 == 0
      modifies this`peers, this`probes, this`probesSent
      ensures View() == SendProbes(SetCandidates(old(View()), key, Stored(payload)),
                                   TargetsOf(key, Stored(payload)), draws, now)
      ensures Valid()
    {
      var list := StoreEndpoints(payload);
      StoredIsRecent(payload);
      hide Inv, Stored, Recent, SendProbes;
      SetCandidatesKeepsInv(View(), key, list);
      peers := peers[key := peers[key].(candidates := list)];
      ProbeEach(TargetsOf(key, list), draws, now);
    }

    /** A packet from the relay (`source` is None) or from a UDP endpoint. */
    method DiscoPacket(key: Key, packet: Packet, source: Option<SocketAddr>, draws: seq<TxId>, now: nat)
      returns (reply: Option<Bytes>, answered: Option<Ping>)
      requires Valid()
      modifies this`peers, this`probes, this`pings, this`probesSent
      ensures reply == ReplyTo(old(View()), key, packet, source)
      ensures answered == AnsweredBy(old(View()), key, packet, source)
      ensures View() == TakePacket(old(View()), key, packet, source, draws, now) && Valid()
    {
      hide Inv, Usable, Stored, Recent, SendProbes, SendProbe, TakePong, SetCandidates, Accepts, PongTo, Answered;
      reply, answered := None, None;
      if key !in peers || packet.Unauthentic? || packet.sender != peers[key].disco {
        return;
      }
      var data := packet.data;
      if |data| < 2 || data[1] != 0 || (source.Some? && !Usable(source.value)) {
        return;
      }
      if data[0] == 1 && |data| >= 14 {
        var pong := TakePing(key, data, source, draws, now);
        reply := Some(pong);
      } else if data[0] == 2 && |data| >= 32 {
        answered := TakePongPacket(key, source, data[2..14], now);
      } else if data[0] == 3 && source.None? && (|data| - 2) % 18 == 0 {
        TakeEndpoints(key, data[2..], draws, now);
      }
    }

    /** Sends the own endpoints to every peer and probes every candidate. */
    method Advertise(order: seq<Key>, draws: seq<TxId>, now: nat) returns (payload: Bytes)
      requires Valid()
      modifies this`probes, this`probesSent
      ensures payload == [3, 0] + EncodeEndpoints(endpoints)
      ensures View() == SendProbes(old(View()), AllTargets(old(peers), order), draws, now) && Valid()
    {
      hide Inv, SendProbes, EncodeEndpoint, Recent;
      payload := [3, 0];
      for i := 0 to |endpoints|
        invariant payload + EncodeEndpoints(endpoints[i..]) == [3, 0] + EncodeEndpoints(endpoints)
      {
        var rest := EncodeEndpoints(endpoints[i + 1..]);
        assert endpoints[i..][1..] == endpoints[i + 1..];
        assert payload + (EncodeEndpoint(endpoints[i]) + rest) == (payload + EncodeEndpoint(endpoints[i])) + rest;
        payload := payload + EncodeEndpoint(endpoints[i]);
      }
      ProbeEach(AllTargets(peers, order), draws, now);
    }

    /** A STUN reply taught an own endpoint. */
    method LearnEndpoint(endpoint: SocketAddr) returns (taken: bool)
      requires Valid()
      modifies this`endpoints
      ensures Valid() && endpoints == Remember(old(endpoints), endpoint) && taken == Accepts(old(endpoints), endpoint)
    {
      hide Inv, Usable;
      RememberKeepsRecent(endpoints, endpoint);
      endpoints, taken := RememberEndpoint(endpoints, endpoint);
    }

    /** Sends a ping, if there is a server to send it to. */
    method SendPing(p: Ping, now: nat) returns (ping: Ping, frame: Option<Bytes>)
      ensures ping == (if server.Some? then p.(sent := now) else p)
      ensures frame == PingFrame(server, peers, p, me)
    {
      ping, frame := p, None;
      if server.None? {
        return;
      }
      ping := ping.(sent := now);
      if ping.disco {
        if server.value in peers {
          frame := Some(PingData(ping.txid, me.public));
        }
      } else {
        frame := Some(MEOW + [1] + me.public + me.disco);
      }
    }

    /** A refused ping is one too many; one whose waiter has gone is neither taken nor refused. */
    method StartPingCommand(waiter: nat, direct: bool, txid: TxId, gone: set<nat>,
                            order: seq<Key>, draws: seq<TxId>, now: nat)
      returns (refused: bool, frame: Option<Bytes>, payload: Option<Bytes>)
      requires Valid()
      modifies this`pings, this`probes, this`probesSent
      ensures var d := old(View());
        var taken := TakesPing(d, waiter, gone);
        && View() == PingCommand(d, waiter, direct, txid, gone, order, draws, now)
        && refused == (waiter !in gone && !taken)
        && frame == (if taken then PingFrame(server, peers, Ping(waiter, direct, txid, now, now), me) else None)
        && payload == (if direct && taken then Some([3, 0] + EncodeEndpoints(endpoints)) else None)
      ensures Valid()
    {
      PingsKeepInv(View(), StartPing(View(), waiter, direct, txid, gone, now).pings);
      hide Inv, Recent, SendProbes, PingFrame;
      refused, frame, payload := false, None, None;
      if waiter in gone {
        return;
      }
      pings := Alive(pings, gone);
      if |pings| >= MAX_PENDING_PINGS {
        refused := true;
        return;
      }
      var p := Ping(waiter, direct, txid, now, now);
      p, frame := SendPing(p, now);
      pings := pings + [p];
      if direct {
        var announced := Advertise(order, draws, now);
        payload := Some(announced);
      }
    }

    /** One waiting ping: dropped, kept, or sent again and kept. */
    method RefreshPing(waiting: Ping, gone: set<nat>, now: nat) returns (kept: seq<Ping>, sent: seq<Bytes>)
      ensures kept == RefreshOne(waiting, gone, server.Some?, now)
      ensures sent == ResentOne(waiting, gone, server, peers, me, now)
    {
      hide PingFrame;
      kept, sent := [], [];
      if waiting.waiter in gone || Elapsed(now, waiting.started) > PROBE_LIFE_MS {
        return;
      }
      var p := waiting;
      if Elapsed(now, p.sent) >= RESEND_MS {
        var frame;
        p, frame := SendPing(p, now);
        sent := Frames(frame);
      }
      kept := [p];
    }

    method RefreshPings(waiting: seq<Ping>, gone: set<nat>, now: nat) returns (kept: seq<Ping>, sent: seq<Bytes>)
      ensures kept == Refresh(waiting, gone, server.Some?, now)
      ensures sent == Resent(waiting, gone, server, peers, me, now)
    {
      hide RefreshOne, ResentOne;
      kept, sent := [], [];
      for i := 0 to |waiting|
        invariant kept + Refresh(waiting[i..], gone, server.Some?, now) == Refresh(waiting, gone, server.Some?, now)
        invariant sent + Resent(waiting[i..], gone, server, peers, me, now)
               == Resent(waiting, gone, server, peers, me, now)
      {
        assert waiting[i..][1..] == waiting[i + 1..];
        var p, frames := RefreshPing(waiting[i], gone, now);
        ghost var keptLater := Refresh(waiting[i + 1..], gone, server.Some?, now);
        ghost var sentLater := Resent(waiting[i + 1..], gone, server, peers, me, now);
        assert kept + (p + keptLater) == (kept + p) + keptLater;
        assert sent + (frames + sentLater) == (sent + frames) + sentLater;
        kept, sent := kept + p, sent + frames;
      }
    }

    method FireTimers(gone: set<nat>, now: nat) returns (sent: seq<Bytes>)
      requires Valid()
      modifies this`pings, this`probes
      ensures sent == Resent(old(pings), gone, server, peers, me, now)
      ensures View() == Timers(old(View()), gone, server.Some?, now) && Valid()
    {
      TimersKeepInv(View(), gone, server.Some?, now);
      hide Inv, Refresh, Resent;
      pings, sent := RefreshPings(pings, gone, now);
      probes := map t | t in probes && Elapsed(now, probes[t].sent) < PROBE_LIFE_MS :: probes[t];
    }
  }
}
