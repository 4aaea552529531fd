/**
 The runtime actor's discovery state: peers, their candidate endpoints, outstanding probes and
 pings, and the direct path each peer has proved.

 Encryption is ideal: a packet that opens under a peer's discovery key was sealed by that peer.
 Random transaction ids are arbitrary inputs and may repeat. `probesSent` numbers the probes; the
 runtime keeps no such number.
 */
module Discovery {
  import opened Common
  import opened Endpoints
  import opened Candidates

  type Key = nat  // 0 stands for the all-zero key
  type TxId = Bytes

  const MAX_PEERS: nat := 1024
  const MAX_PENDING_PINGS: nat := 128
  const MAX_PROBES: nat := 4096
  const PROBE_LIFE_MS: nat := 10_000
  const DIRECT_LIFE_MS: nat := 15_000
  const RESEND_MS: nat := 1000

  datatype Peer = Peer(disco: Key, direct: Option<(SocketAddr, nat)>, candidates: seq<SocketAddr>)

  /** `serial` is how many probes were sent before this one. */
  datatype Probe = Probe(key: Key, endpoint: SocketAddr, sent: nat, serial: nat)

  datatype Ping = Ping(waiter: nat, disco: bool, txid: TxId, started: nat, sent: nat)

  datatype Packet = Sealed(sender: Key, data: Bytes) | Unauthentic

  datatype Disco = Disco(
    peers: map<Key, Peer>,
    probes: map<TxId, Probe>,
    pings: seq<Ping>,
    probesSent: nat)

  /** `Instant::elapsed`, which never goes below zero. */
  function Elapsed(now: nat, then_: nat): nat {
    if now < then_ then 0 else now - then_
  }

  function Draw(draws: seq<TxId>, i: nat): TxId {
    if i < |draws| then draws[i] else []
  }

  // ----- Steps -----

  function Join(d: Disco, key: Key, disco: Key): Disco {
    if key in d.peers || |d.peers| >= MAX_PEERS || key == 0 || disco == 0 then d
    else d.(peers := d.peers[key := Peer(disco, None, [])])
  }

  function SendProbe(d: Disco, key: Key, endpoint: SocketAddr, txid: TxId, now: nat): Disco {
    if !Usable(endpoint) || key !in d.peers || |d.probes| >= MAX_PROBES then d
    else d.(probes := d.probes[txid := Probe(key, endpoint, now, d.probesSent)], probesSent := d.probesSent + 1)
  }

  function SendProbes(d: Disco, targets: seq<(Key, SocketAddr)>, draws: seq<TxId>, now: nat): Disco
    decreases |targets|
  {
    if targets == [] then d
    else SendProbes(SendProbe(d, targets[0].0, targets[0].1, Draw(draws, 0), now),
                    targets[1..], if draws == [] then [] else draws[1..], now)
  }

  function SetCandidates(d: Disco, key: Key, list: seq<SocketAddr>): Disco
    requires key in d.peers
  {
    d.(peers := d.peers[key := d.peers[key].(candidates := list)])
  }

  function TargetsOf(key: Key, list: seq<SocketAddr>): (r: seq<(Key, SocketAddr)>)
    ensures |r| == |list|
  {
    seq(|list|, i requires 0 <= i < |list| => (key, list[i]))
  }

  /** Every candidate of every peer, in the order the peers are visited. */
  function AllTargets(peers: map<Key, Peer>, order: seq<Key>): seq<(Key, SocketAddr)> {
    if order == [] then []
    else (if order[0] in peers then TargetsOf(order[0], peers[order[0]].candidates) else [])
         + AllTargets(peers, order[1..])
  }

  /** A pong proves a path only for the probe it answers. */
  predicate Proves(d: Disco, key: Key, source: Option<SocketAddr>, txid: TxId, now: nat) {
    && txid in d.probes
    && d.probes[txid].key == key
    && source == Some(d.probes[txid].endpoint)
    && Elapsed(now, d.probes[txid].sent) < PROBE_LIFE_MS
  }

  function Promote(d: Disco, key: Key, txid: TxId, now: nat): Disco
    requires key in d.peers && txid in d.probes
  {
    d.(peers := d.peers[key := d.peers[key].(direct := Some((d.probes[txid].endpoint, now)))],
       probes := d.probes - {txid})
  }

  /** The first waiting discovery ping with this transaction id is answered. */
  function AnswerPing(pings: seq<Ping>, txid: TxId): (r: seq<Ping>)
    ensures |r| <= |pings|
  {
    if pings == [] then []
    else if pings[0].disco && pings[0].txid == txid then pings[1..]
    else [pings[0]] + AnswerPing(pings[1..], txid)
  }

  function TakePong(d: Disco, key: Key, source: Option<SocketAddr>, txid: TxId, now: nat): Disco
    requires key in d.peers
  {
    var d' := if Proves(d, key, source, txid, now) then Promote(d, key, txid, now) else d;
    d'.(pings := AnswerPing(d'.pings, txid))
  }

  /** An authentic packet of this peer with a type and version, from the relay or a usable endpoint. */
  predicate Opens(d: Disco, key: Key, packet: Packet, source: Option<SocketAddr>) {
    && key in d.peers && packet.Sealed? && packet.sender == d.peers[key].disco
    && |packet.data| >= 2 && packet.data[1] == 0 && (source.Some? ==> Usable(source.value))
  }

  const NOWHERE := SocketAddr(V4([0, 0, 0, 0]), 0)

  /** What a probe or a direct ping carries: its transaction id and the sender's public key. */
  function PingData(txid: TxId, public: Bytes): Bytes {
    [1, 0] + txid + public
  }

  /** A pong repeats the transaction id and tells where the ping was seen to come from. */
  function PongTo(data: Bytes, source: Option<SocketAddr>): (r: Bytes)
    requires |data| >= 14
    ensures |r| == 32 && r[0] == 2 && r[1] == 0 && r[2..14] == data[2..14]
  {
    [2, 0] + data[2..14] + EncodeEndpoint(if source.Some? then source.value else NOWHERE)
  }

  /** Every ping that opens is answered where it came from. */
  function ReplyTo(d: Disco, key: Key, packet: Packet, source: Option<SocketAddr>): Option<Bytes> {
    if Opens(d, key, packet, source) && packet.data[0] == 1 && |packet.data| >= 14
    then Some(PongTo(packet.data, source)) else None
  }

  /** The waiting ping a transaction id answers. */
  function Answered(pings: seq<Ping>, txid: TxId): Option<Ping> {
    if pings == [] then None
    else if pings[0].disco && pings[0].txid == txid then Some(pings[0])
    else Answered(pings[1..], txid)
  }

  function AnsweredBy(d: Disco, key: Key, packet: Packet, source: Option<SocketAddr>): Option<Ping> {
    if Opens(d, key, packet, source) && packet.data[0] == 2 && |packet.data| >= 32
    then Answered(d.pings, packet.data[2..14]) else None
  }

  function TakePacket(d: Disco, key: Key, packet: Packet, source: Option<SocketAddr>,
                      draws: seq<TxId>, now: nat): Disco
  {
    if key !in d.peers || packet.Unauthentic? || packet.sender != d.peers[key].disco then d else
    var data := packet.data;
    if |data| < 2 || data[1] != 0 || (source.Some? && !Usable(source.value)) then d
    else if data[0] == 1 && |data| >= 14 then
      if source.Some? && Accepts(d.peers[key].candidates, source.value) then
        SendProbe(SetCandidates(d, key, Remember(d.peers[key].candidates, source.value)),
                  key, source.value, Draw(draws, 0), now)
      else d
    else if data[0] == 2 && |data| >= 32 then TakePong(d, key, source, data[2..14], now)
    else if data[0] == 3 && source.None? && (|data| - 2) % 18 == 0 then
      var list := Stored(data[2..]);
      SendProbes(SetCandidates(d, key, list), TargetsOf(key, list), draws, now)
    else d
  }

  function Alive(pings: seq<Ping>, gone: set<nat>): (r: seq<Ping>)
    ensures |r| <= |pings|
  {
    if pings == [] then []
    else (if pings[0].waiter in gone then [] else [pings[0]]) + Alive(pings[1..], gone)
  }

  function StartPing(d: Disco, waiter: nat, disco: bool, txid: TxId, gone: set<nat>, now: nat): Disco {
    if waiter in gone then d else
    var alive := Alive(d.pings, gone);
    d.(pings := if |alive| >= MAX_PENDING_PINGS then alive
                else alive + [Ping(waiter, disco, txid, now, now)])
  }

  predicate TakesPing(d: Disco, waiter: nat, gone: set<nat>) {
    waiter !in gone && |Alive(d.pings, gone)| < MAX_PENDING_PINGS
  }

  /** A direct ping that is taken also advertises, and so probes every candidate. */
  function PingCommand(d: Disco, waiter: nat, direct: bool, txid: TxId, gone: set<nat>,
                       order: seq<Key>, draws: seq<TxId>, now: nat): Disco
  {
    var started := StartPing(d, waiter, direct, txid, gone, now);
    if direct && TakesPing(d, waiter, gone) then SendProbes(started, AllTargets(started.peers, order), draws, now)
    else started
  }

  /** The public keys an actor goes by. */
  datatype Identity = Identity(public: Bytes, disco: Bytes)

  const MEOW: Bytes := [109, 101, 111, 119]

  /** A direct ping goes to the server as a discovery packet, any other through the relay as it is. */
  function PingFrame(server: Option<Key>, peers: map<Key, Peer>, p: Ping, me: Identity): Option<Bytes> {
    if server.None? then None
    else if !p.disco then Some(MEOW + [1] + me.public + me.disco)
    else if server.value in peers then Some(PingData(p.txid, me.public))
    else None
  }

  function ResentOne(p: Ping, gone: set<nat>, server: Option<Key>, peers: map<Key, Peer>, me: Identity,
                     now: nat): seq<Bytes>
  {
    if p.waiter in gone || Elapsed(now, p.started) > PROBE_LIFE_MS || Elapsed(now, p.sent) < RESEND_MS then []
    else Frames(PingFrame(server, peers, p, me))
  }

  /** The frames a refresh sends, in the order of the pings. */
  function Resent(pings: seq<Ping>, gone: set<nat>, server: Option<Key>, peers: map<Key, Peer>, me: Identity,
                  now: nat): seq<Bytes>
  {
    if pings == [] then []
    else ResentOne(pings[0], gone, server, peers, me, now) + Resent(pings[1..], gone, server, peers, me, now)
  }

  function Frames(frame: Option<Bytes>): seq<Bytes> {
    match frame case None => [] case Some(f) => [f]
  }

  /** A ping is sent again each second by an actor that has a server to send it to. */
  function RefreshOne(p: Ping, gone: set<nat>, hasServer: bool, now: nat): (r: seq<Ping>)
    ensures |r| <= 1
  {
    if p.waiter in gone || Elapsed(now, p.started) > PROBE_LIFE_MS then []
    else if hasServer && Elapsed(now, p.sent) >= RESEND_MS then [p.(sent := now)]
    else [p]
  }

  function Refresh(pings: seq<Ping>, gone: set<nat>, hasServer: bool, now: nat): (r: seq<Ping>)
    ensures |r| <= |pings|
  {
    if pings == [] then []
    else RefreshOne(pings[0], gone, hasServer, now) + Refresh(pings[1..], gone, hasServer, now)
  }

  function Timers(d: Disco, gone: set<nat>, hasServer: bool, now: nat): Disco {
    d.(pings := Refresh(d.pings, gone, hasServer, now),
       probes := map t | t in d.probes && Elapsed(now, d.probes[t].sent) < PROBE_LIFE_MS :: d.probes[t])
  }

  datatype Input =
    | Joins(key: Key, disco: Key)
    | Arrives(key: Key, packet: Packet, source: Option<SocketAddr>, draws: seq<TxId>, now: nat)
    | Advertises(order: seq<Key>, draws: seq<TxId>, now: nat)
    | StartsPing(waiter: nat, direct: bool, txid: TxId, gone: set<nat>, order: seq<Key>, draws: seq<TxId>, now: nat)
    | TimersFire(gone: set<nat>, hasServer: bool, now: nat)
  {
    /** The transaction ids drawn for probes. */
    function Drawn(): seq<TxId> {
      if Arrives? || Advertises? || StartsPing? then draws else []
    }
  }

  function Step(d: Disco, i: Input): Disco {
    match i
    case Joins(key, disco) => Join(d, key, disco)
    case Arrives(key, packet, source, draws, now) => TakePacket(d, key, packet, source, draws, now)
    case Advertises(order, draws, now) => SendProbes(d, AllTargets(d.peers, order), draws, now)
    case StartsPing(waiter, direct, txid, gone, order, draws, now) =>
      PingCommand(d, waiter, direct, txid, gone, order, draws, now)
    case TimersFire(gone, hasServer, now) => Timers(d, gone, hasServer, now)
  }

  function Run(d: Disco, inputs: seq<Input>): Disco
    decreases |inputs|
  {
    if inputs == [] then d else Step(Run(d, inputs[..|inputs| - 1]), inputs[|inputs| - 1])
  }

  const EMPTY := Disco(map[], map[], [], 0)

  // ----- The invariant -----

  /** Outstanding probes went to usable endpoints, and no two have one number. */
  ghost predicate ProbesInv(probes: map<TxId, Probe>, probesSent: nat) {
    && |probes| <= MAX_PROBES
    && (forall t :: t in probes ==> probes[t].serial < probesSent && Usable(probes[t].endpoint))
    && (forall t, u :: t in probes && u in probes && t != u ==> probes[t].serial != probes[u].serial)
  }

  ghost predicate PeersInv(peers: map<Key, Peer>) {
    && |peers| <= MAX_PEERS
    && (forall k :: k in peers ==> k != 0 && peers[k].disco != 0 && Recent(peers[k].candidates))
  }

  ghost predicate Inv(d: Disco) {
    PeersInv(d.peers) && ProbesInv(d.probes, d.probesSent) && |d.pings| <= MAX_PENDING_PINGS
  }

  lemma {:induction false} JoinKeepsInv(d: Disco, key: Key, disco: Key)
    requires Inv(d)
    ensures Inv(Join(d, key, disco))
  {
    hide ProbesInv, Recent;
    assert Recent([]) by { RecentEmpty(); }
  }

  lemma {:induction false} RecentEmpty()
    ensures Recent([])
  {
  }

  lemma {:induction false} SendProbeKeepsInv(d: Disco, key: Key, endpoint: SocketAddr, txid: TxId, now: nat)
    requires Inv(d)
    ensures var d' := SendProbe(d, key, endpoint, txid, now); Inv(d') && d'.peers == d.peers
  {
    hide PeersInv, Usable;
  }

  lemma {:induction false} SendProbesKeepsInv(d: Disco, targets: seq<(Key, SocketAddr)>, draws: seq<TxId>, now: nat)
    requires Inv(d)
    ensures var d' := SendProbes(d, targets, draws, now); Inv(d') && d'.peers == d.peers
    decreases |targets|
  {
    hide Inv, SendProbe;
    if targets == [] {
    } else {
      SendProbeKeepsInv(d, targets[0].0, targets[0].1, Draw(draws, 0), now);
      SendProbesKeepsInv(SendProbe(d, targets[0].0, targets[0].1, Draw(draws, 0), now),
                         targets[1..], if draws == [] then [] else draws[1..], now);
    }
  }

  lemma {:induction false} SetCandidatesKeepsInv(d: Disco, key: Key, list: seq<SocketAddr>)
    requires Inv(d) && key in d.peers && Recent(list)
    ensures Inv(SetCandidates(d, key, list))
  {
    hide ProbesInv, Recent;
    assert SetCandidates(d, key, list).peers.Keys == d.peers.Keys;
  }

  lemma {:induction false} PromoteKeepsInv(d: Disco, key: Key, txid: TxId, now: nat)
    requires Inv(d) && key in d.peers && txid in d.probes
    ensures Inv(Promote(d, key, txid, now))
  {
    hide Recent, Usable;
    var d' := Promote(d, key, txid, now);
    assert d'.peers.Keys == d.peers.Keys;
    assert d'.probes.Keys == d.probes.Keys - {txid};
  }

  lemma {:induction false} CandidatesAreRecent(d: Disco, key: Key)
    requires Inv(d) && key in d.peers
    ensures Recent(d.peers[key].candidates)
  {
  }

  lemma {:induction false} TakePacketKeepsInv(d: Disco, key: Key, packet: Packet, source: Option<SocketAddr>,
                                              draws: seq<TxId>, now: nat)
    requires Inv(d)
    ensures Inv(TakePacket(d, key, packet, source, draws, now))
  {
    hide Inv, Promote, SendProbes, SendProbe, Stored, Recent, SetCandidates, Proves;
    if key in d.peers && packet.Sealed? && |packet.data| >= 2 {
      var data, peer := packet.data, d.peers[key];
      if data[0] == 1 && source.Some? {
        var list := Remember(peer.candidates, source.value);
        CandidatesAreRecent(d, key);
        RememberKeepsRecent(peer.candidates, source.value);
        SetCandidatesKeepsInv(d, key, list);
        SendProbeKeepsInv(SetCandidates(d, key, list), key, source.value, Draw(draws, 0), now);
      } else if data[0] == 2 && |data| >= 32 {
        TakePongKeepsInv(d, key, source, data[2..14], now);
      } else if data[0] == 3 && (|data| - 2) % 18 == 0 {
        var list := Stored(data[2..]);
        StoredIsRecent(data[2..]);
        SetCandidatesKeepsInv(d, key, list);
        SendProbesKeepsInv(SetCandidates(d, key, list), TargetsOf(key, list), draws, now);
      }
    }
  }

  lemma {:induction false} TakePongKeepsInv(d: Disco, key: Key, source: Option<SocketAddr>, txid: TxId, now: nat)
    requires Inv(d) && key in d.peers
    ensures Inv(TakePong(d, key, source, txid, now))
  {
    if Proves(d, key, source, txid, now) {
      PromoteKeepsInv(d, key, txid, now);
    }
    hide Promote, Proves;
    var d1 := if Proves(d, key, source, txid, now) then Promote(d, key, txid, now) else d;
    PingsKeepInv(d1, AnswerPing(d1.pings, txid));
  }

  lemma {:induction false} PingsKeepInv(d: Disco, pings: seq<Ping>)
    requires Inv(d) && |pings| <= MAX_PENDING_PINGS
    ensures Inv(d.(pings := pings))
  {
  }

  lemma {:induction false} StoredIsRecent(payload: Bytes)
    requires |payload| % 18 == 0
    ensures Recent(Stored(payload))
  {
    var announced := DecodeEndpoints(payload);
    RememberAllKeepsRecent([], announced[..Min(|announced|, MAX_CANDIDATES)]);
  }

  lemma {:induction false} TimersKeepInv(d: Disco, gone: set<nat>, hasServer: bool, now: nat)
    requires Inv(d)
    ensures Inv(Timers(d, gone, hasServer, now))
  {
    var d' := Timers(d, gone, hasServer, now);
    assert d'.probes.Keys <= d.probes.Keys;
    Fewer(d'.probes.Keys, d.probes.Keys);
  }

  lemma {:induction false} PingCommandKeepsInv(d: Disco, waiter: nat, direct: bool, txid: TxId, gone: set<nat>,
                                               order: seq<Key>, draws: seq<TxId>, now: nat)
    requires Inv(d)
    ensures Inv(PingCommand(d, waiter, direct, txid, gone, order, draws, now))
  {
    var started := StartPing(d, waiter, direct, txid, gone, now);
    PingsKeepInv(d, started.pings);
    hide Inv, SendProbes;
    SendProbesKeepsInv(started, AllTargets(started.peers, order), draws, now);
  }

  lemma {:induction false} StepKeepsInv(d: Disco, i: Input)
    requires Inv(d)
    ensures Inv(Step(d, i))
  {
    hide ProbesInv, PeersInv, Join, TakePacket, SendProbes, PingCommand, Timers;
    match i
    case Joins(key, disco) => JoinKeepsInv(d, key, disco);
    case Arrives(key, packet, source, draws, now) => TakePacketKeepsInv(d, key, packet, source, draws, now);
    case Advertises(order, draws, now) => SendProbesKeepsInv(d, AllTargets(d.peers, order), draws, now);
    case StartsPing(waiter, direct, txid, gone, order, draws, now) =>
      PingCommandKeepsInv(d, waiter, direct, txid, gone, order, draws, now);
    case TimersFire(gone, hasServer, now) => TimersKeepInv(d, gone, hasServer, now);
  }

  lemma {:induction false} RunKeepsInv(d: Disco, inputs: seq<Input>)
    requires Inv(d)
    ensures Inv(Run(d, inputs))
    decreases |inputs|
  {
    hide Inv, Step;
    if inputs == [] {
    } else {
      RunKeepsInv(d, inputs[..|inputs| - 1]);
      StepKeepsInv(Run(d, inputs[..|inputs| - 1]), inputs[|inputs| - 1]);
    }
  }

  /** After the first n inputs. */
  function At(inputs: seq<Input>, n: nat): Disco
    requires n <= |inputs|
  {
    Run(EMPTY, inputs[..n])
  }

  lemma {:induction false} Reachable(inputs: seq<Input>, n: nat)
    requires n <= |inputs|
    ensures Inv(At(inputs, n))
  {
    RunKeepsInv(EMPTY, inputs[..n]);
  }

  lemma {:induction false} OneMore(inputs: seq<Input>, n: nat)
    requires n < |inputs|
    ensures At(inputs, n + 1) == Step(At(inputs, n), inputs[n])
    ensures At(inputs, 0) == EMPTY && At(inputs, |inputs|) == Run(EMPTY, inputs)
  {
    hide Step;
    assert inputs[..n + 1][..n] == inputs[..n];
    assert inputs[..|inputs|] == inputs;
  }

  // ----- What makes an endpoint direct -----

  /** The packet is a pong for an outstanding probe of this peer at this endpoint, under ten seconds old. */
  predicate AnswersProbe(probes: map<TxId, Probe>, key: Key, endpoint: SocketAddr, data: Bytes, now: nat) {
    && |data| >= 32 && data[0] == 2 && data[1] == 0 && data[2..14] in probes
    && var probe := probes[data[2..14]];
       probe.key == key && probe.endpoint == endpoint && Elapsed(now, probe.sent) < PROBE_LIFE_MS
  }

  /** The input is such a pong, sealed by the peer and come from the endpoint itself. */
  predicate ProvesPath(d: Disco, i: Input, key: Key) {
    && i.Arrives? && i.key == key && i.source.Some?
    && key in d.peers && i.packet.Sealed? && i.packet.sender == d.peers[key].disco
    && AnswersProbe(d.probes, key, i.source.value, i.packet.data, i.now)
  }

  predicate ProvesAt(inputs: seq<Input>, n: nat, key: Key)
    requires n < |inputs|
  {
    ProvesPath(At(inputs, n), inputs[n], key)
  }

  lemma {:induction false} SendProbesLeavesPeers(d: Disco, targets: seq<(Key, SocketAddr)>, draws: seq<TxId>, now: nat)
    ensures SendProbes(d, targets, draws, now).peers == d.peers
    decreases |targets|
  {
    hide Usable;
    if targets == [] {
    } else {
      SendProbesLeavesPeers(SendProbe(d, targets[0].0, targets[0].1, Draw(draws, 0), now),
                            targets[1..], if draws == [] then [] else draws[1..], now);
    }
  }

  /** A packet makes an endpoint direct exactly if it proves the path to it, and changes no other peer. */
  lemma {:induction false} PacketDirect(d: Disco, i: Input, key: Key)
    requires Inv(d) && i.Arrives? && key in d.peers
    ensures var d' := TakePacket(d, i.key, i.packet, i.source, i.draws, i.now);
      && key in d'.peers && d'.peers[key].disco == d.peers[key].disco
      && d'.peers.Keys == d.peers.Keys
      && d'.peers[key].direct == (if ProvesPath(d, i, key) then Some((i.source.value, i.now)) else d.peers[key].direct)
  {
    hide Usable, Stored, SendProbes, SendProbe, Remember, Accepts, PeersInv;
    if i.key in d.peers && i.packet.Sealed? && |i.packet.data| >= 2 {
      var data := i.packet.data;
      if data[0] == 1 && i.source.Some? {
        ProbeLeavesPeers(SetCandidates(d, i.key, Remember(d.peers[i.key].candidates, i.source.value)),
                         i.key, i.source.value, Draw(i.draws, 0), i.now);
      } else if data[0] == 3 && (|data| - 2) % 18 == 0 {
        var list := Stored(data[2..]);
        SendProbesLeavesPeers(SetCandidates(d, i.key, list), TargetsOf(i.key, list), i.draws, i.now);
      }
    }
  }

  lemma {:induction false} ProbeLeavesPeers(d: Disco, key: Key, endpoint: SocketAddr, txid: TxId, now: nat)
    ensures SendProbe(d, key, endpoint, txid, now).peers == d.peers
  {
  }

  /** The same of any input; a peer stays, under the discovery key it joined with. */
  lemma {:induction false} StepDirect(d: Disco, i: Input, key: Key)
    requires Inv(d)
    ensures var d' := Step(d, i);
      && (key in d.peers ==> key in d'.peers && d'.peers[key].disco == d.peers[key].disco)
      && (key in d'.peers ==>
            d'.peers[key].direct == if ProvesPath(d, i, key) then Some((i.source.value, i.now))
                                    else if key in d.peers then d.peers[key].direct else None)
  {
    hide Inv, TakePacket, SendProbes, StartPing, Timers, AnswersProbe;
    match i
    case Joins(_, _) =>
    case Arrives(_, _, _, _, _) =>
      if key in d.peers {
        PacketDirect(d, i, key);
      } else {
        PacketAddsNoPeer(d, i);
      }
    case Advertises(order, draws, now) => SendProbesLeavesPeers(d, AllTargets(d.peers, order), draws, now);
    case StartsPing(waiter, direct, txid, gone, order, draws, now) =>
      PingLeavesPeers(d, waiter, direct, txid, gone, now);
      var started := StartPing(d, waiter, direct, txid, gone, now);
      SendProbesLeavesPeers(started, AllTargets(started.peers, order), draws, now);
    case TimersFire(gone, hasServer, now) => TimersLeavePeers(d, gone, hasServer, now);
  }

  lemma {:induction false} PacketAddsNoPeer(d: Disco, i: Input)
    requires Inv(d) && i.Arrives?
    ensures TakePacket(d, i.key, i.packet, i.source, i.draws, i.now).peers.Keys == d.peers.Keys
  {
    hide Inv, TakePacket;
    if i.key in d.peers {
      PacketDirect(d, i, i.key);
    } else {
      NoPeerNoChange(d, i);
    }
  }

  lemma {:induction false} NoPeerNoChange(d: Disco, i: Input)
    requires i.Arrives? && i.key !in d.peers
    ensures TakePacket(d, i.key, i.packet, i.source, i.draws, i.now) == d
  {
  }

  lemma {:induction false} PingLeavesPeers(d: Disco, waiter: nat, direct: bool, txid: TxId, gone: set<nat>, now: nat)
    ensures var d' := StartPing(d, waiter, direct, txid, gone, now); d' == d.(pings := d'.pings)
  {
  }

  lemma {:induction false} TimersLeavePeers(d: Disco, gone: set<nat>, hasServer: bool, now: nat)
    ensures Timers(d, gone, hasServer, now).peers == d.peers
  {
  }

  /** In any run the direct endpoint is the one the latest proof names, and there is none without a proof. */
  lemma {:induction false} DirectIsLatestProof(inputs: seq<Input>, m: nat, key: Key) returns (pong: nat)
    requires m <= |inputs| && key in At(inputs, m).peers
    ensures pong < m ==>
      && ProvesAt(inputs, pong, key)
      && At(inputs, m).peers[key].direct == Some((inputs[pong].source.value, inputs[pong].now))
      && inputs[pong].packet.sender == At(inputs, m).peers[key].disco
    ensures pong >= m ==> pong == m && At(inputs, m).peers[key].direct == None
    ensures forall n :: (if pong < m then pong + 1 else 0) <= n < m ==> !ProvesAt(inputs, n, key)
    decreases m
  {
    hide Step, ProvesPath, Run;
    if m == 0 {
      StartsEmpty(inputs);
      assert false;
    } else {
      var k := m - 1;
      OneMore(inputs, k);
      Reachable(inputs, k);
      StepDirect(At(inputs, k), inputs[k], key);
      if ProvesAt(inputs, k, key) {
        pong := k;
        ProofIsSealed(At(inputs, k), inputs[k], key);
      } else if key in At(inputs, k).peers {
        pong := DirectIsLatestProof(inputs, k, key);
        if pong == k {
          pong := m;
        }
      } else {
        pong := m;
        NoProofBefore(inputs, k, key);
      }
    }
  }

  lemma {:induction false} StartsEmpty(inputs: seq<Input>)
    ensures At(inputs, 0) == EMPTY
  {
  }

  lemma {:induction false} ProofIsSealed(d: Disco, i: Input, key: Key)
    requires ProvesPath(d, i, key)
    ensures key in d.peers && i.Arrives? && i.packet.Sealed? && i.packet.sender == d.peers[key].disco && i.source.Some?
  {
  }

  /** An actor that does not know a peer never did, so nothing has proved a path to it. */
  lemma {:induction false} NoProofBefore(inputs: seq<Input>, m: nat, key: Key)
    requires m <= |inputs| && key !in At(inputs, m).peers
    ensures forall n :: 0 <= n < m ==> !ProvesAt(inputs, n, key)
    decreases m
  {
    hide Step, Run;
    if m == 0 {
    } else {
      var k := m - 1;
      OneMore(inputs, k);
      Reachable(inputs, k);
      StepDirect(At(inputs, k), inputs[k], key);
      NoProofBefore(inputs, k, key);
    }
  }

  // ----- Where an outstanding probe comes from -----

  /** The probe was sent in this step: at its time, under a transaction id drawn then, to a candidate of its peer. */
  ghost predicate SentIn(d: Disco, i: Input, txid: TxId, p: Probe) {
    && (i.Arrives? || i.Advertises? || i.StartsPing?)
    && i.now == p.sent && (txid in i.Drawn() || txid == [])
    && Usable(p.endpoint) && p.key in Step(d, i).peers && p.endpoint in Step(d, i).peers[p.key].candidates
  }

  /** Sending probes adds only probes to the targets, under drawn ids and of this time. */
  lemma {:induction false} SendProbesAdds(d: Disco, targets: seq<(Key, SocketAddr)>, draws: seq<TxId>, now: nat,
                                          t: TxId)
    requires t in SendProbes(d, targets, draws, now).probes
    ensures var p := SendProbes(d, targets, draws, now).probes[t];
      || (t in d.probes && p == d.probes[t])
      || (p.sent == now && (t in draws || t == []) && Usable(p.endpoint) && (p.key, p.endpoint) in targets
          && p.key in d.peers)
    decreases |targets|
  {
    hide Usable;
    if targets == [] {
    } else {
      var d1 := SendProbe(d, targets[0].0, targets[0].1, Draw(draws, 0), now);
      SendProbesAdds(d1, targets[1..], if draws == [] then [] else draws[1..], now, t);
    }
  }

  lemma {:induction false} TargetsAreCandidates(peers: map<Key, Peer>, order: seq<Key>, target: (Key, SocketAddr))
    requires target in AllTargets(peers, order)
    ensures target.0 in peers && target.1 in peers[target.0].candidates
    decreases |order|
  {
    var first := if order[0] in peers then TargetsOf(order[0], peers[order[0]].candidates) else [];
    if target in first {
      var k :| 0 <= k < |first| && first[k] == target;
    } else {
      TargetsAreCandidates(peers, order[1..], target);
    }
  }

  /** A packet's probes go to the endpoint it was seen at or to those it announces, by then candidates. */
  lemma {:induction false} PacketProbes(d: Disco, i: Input, t: TxId)
    requires i.Arrives? && t in TakePacket(d, i.key, i.packet, i.source, i.draws, i.now).probes
    ensures var p := Step(d, i).probes[t]; (t in d.probes && p == d.probes[t]) || SentIn(d, i, t, p)
  {
    hide Usable, Stored, SendProbes;
    if i.key in d.peers && i.packet.Sealed? && |i.packet.data| >= 2 {
      var data := i.packet.data;
      if data[0] == 3 && (|data| - 2) % 18 == 0 {
        var list := Stored(data[2..]);
        var d1 := SetCandidates(d, i.key, list);
        SendProbesLeavesPeers(d1, TargetsOf(i.key, list), i.draws, i.now);
        if t in SendProbes(d1, TargetsOf(i.key, list), i.draws, i.now).probes {
          SendProbesAdds(d1, TargetsOf(i.key, list), i.draws, i.now, t);
        }
      }
    }
  }

  lemma {:induction false} AdvertisedProbes(d: Disco, order: seq<Key>, draws: seq<TxId>, now: nat, t: TxId)
    requires t in SendProbes(d, AllTargets(d.peers, order), draws, now).probes
    ensures var d' := SendProbes(d, AllTargets(d.peers, order), draws, now); var p := d'.probes[t];
      || (t in d.probes && p == d.probes[t])
      || (p.sent == now && (t in draws || t == []) && Usable(p.endpoint)
          && p.key in d'.peers && p.endpoint in d'.peers[p.key].candidates)
  {
    hide Usable, SendProbes, AllTargets;
    SendProbesAdds(d, AllTargets(d.peers, order), draws, now, t);
    SendProbesLeavesPeers(d, AllTargets(d.peers, order), draws, now);
    var p := SendProbes(d, AllTargets(d.peers, order), draws, now).probes[t];
    if (p.key, p.endpoint) in AllTargets(d.peers, order) {
      TargetsAreCandidates(d.peers, order, (p.key, p.endpoint));
    }
  }

  lemma {:induction false} StepProbes(d: Disco, i: Input, t: TxId)
    requires t in Step(d, i).probes
    ensures var p := Step(d, i).probes[t]; (t in d.probes && p == d.probes[t]) || SentIn(d, i, t, p)
  {
    hide Usable, TakePacket, SendProbes, AllTargets, StartPing, Refresh;
    match i
    case Joins(_, _) =>
    case Arrives(_, _, _, _, _) => PacketProbes(d, i, t);
    case Advertises(order, draws, now) => AdvertisedProbes(d, order, draws, now, t);
    case StartsPing(waiter, direct, txid, gone, order, draws, now) =>
      PingLeavesPeers(d, waiter, direct, txid, gone, now);
      var started := StartPing(d, waiter, direct, txid, gone, now);
      if direct && TakesPing(d, waiter, gone) {
        AdvertisedProbes(started, order, draws, now, t);
      }
    case TimersFire(_, _, _) =>
  }

  /** Every outstanding probe was sent by an earlier input. */
  lemma {:induction false} ProbeWasSent(inputs: seq<Input>, m: nat, t: TxId) returns (sent: nat)
    requires m <= |inputs| && t in At(inputs, m).probes
    ensures sent < m && SentIn(At(inputs, sent), inputs[sent], t, At(inputs, m).probes[t])
    decreases m
  {
    hide Step, Run, SentIn;
    if m == 0 {
      StartsEmpty(inputs);
      assert false;
    } else {
      OneMore(inputs, m - 1);
      StepProbes(At(inputs, m - 1), inputs[m - 1], t);
      if SentIn(At(inputs, m - 1), inputs[m - 1], t, At(inputs, m).probes[t]) {
        sent := m - 1;
      } else {
        sent := ProbeWasSent(inputs, m - 1, t);
      }
    }
  }

  // ----- What every run promises -----

  /** A pong in a run that proves a path, and the earlier input that sent the probe it answers. */
  ghost predicate Proof(inputs: seq<Input>, key: Key, sent: nat, pong: nat) {
    && sent < pong < |inputs| && ProvesAt(inputs, pong, key)
    && var txid := inputs[pong].packet.data[2..14];
       txid in inputs[sent].Drawn() && SentIn(At(inputs, sent), inputs[sent], txid, At(inputs, pong).probes[txid])
  }

  lemma {:induction false} ProofOf(inputs: seq<Input>, key: Key, pong: nat) returns (sent: nat)
    requires pong < |inputs| && ProvesAt(inputs, pong, key)
    ensures Proof(inputs, key, sent, pong) && Usable(inputs[pong].source.value)
  {
    hide Step, Run, Usable;
    var txid := inputs[pong].packet.data[2..14];
    sent := ProbeWasSent(inputs, pong, txid);
    assert txid != [];
  }

  /**
   After any inputs, a peer's direct endpoint is usable and was set by the latest input that is a pong sealed by
   that peer, from exactly that endpoint, less than ten seconds after an earlier input made this actor probe
   that peer there, then a candidate of the peer, under the transaction id the pong repeats.
   */
  lemma {:induction false} DirectPathIsProven(inputs: seq<Input>, key: Key) returns (sent: nat, pong: nat)
    requires var d := Run(EMPTY, inputs); key in d.peers && d.peers[key].direct.Some?
    ensures Proof(inputs, key, sent, pong)
    ensures var d := Run(EMPTY, inputs); var (endpoint, at) := d.peers[key].direct.value;
      && inputs[pong].source == Some(endpoint) && inputs[pong].now == at && Usable(endpoint)
      && inputs[pong].packet.sender == d.peers[key].disco
    ensures forall n :: pong < n < |inputs| ==> !ProvesAt(inputs, n, key)
  {
    hide Run, Step, ProvesPath, SentIn, Usable;
    assert inputs[..|inputs|] == inputs;
    pong := DirectIsLatestProof(inputs, |inputs|, key);
    sent := ProofOf(inputs, key, pong);
    ProofIsSealed(At(inputs, pong), inputs[pong], key);
  }

  /** And only such a pong makes an endpoint direct: a peer has one if and only if some input was one. */
  lemma {:induction false} DirectIffProven(inputs: seq<Input>, key: Key)
    requires key in Run(EMPTY, inputs).peers
    ensures Run(EMPTY, inputs).peers[key].direct.Some? <==> exists n :: 0 <= n < |inputs| && ProvesAt(inputs, n, key)
  {
    hide Run, Step, ProvesPath;
    assert inputs[..|inputs|] == inputs;
    var pong := DirectIsLatestProof(inputs, |inputs|, key);
  }

  /** A probe that is no longer outstanding never is again. */
  ghost predicate Spent(d: Disco, serial: nat) {
    serial < d.probesSent && forall t :: t in d.probes ==> d.probes[t].serial != serial
  }

  lemma {:induction false} SendProbesKeepsSpent(d: Disco, targets: seq<(Key, SocketAddr)>, draws: seq<TxId>, now: nat,
                                                serial: nat)
    requires Spent(d, serial)
    ensures Spent(SendProbes(d, targets, draws, now), serial)
    decreases |targets|
  {
    hide Usable;
    if targets == [] {
    } else {
      SendProbesKeepsSpent(SendProbe(d, targets[0].0, targets[0].1, Draw(draws, 0), now),
                           targets[1..], if draws == [] then [] else draws[1..], now, serial);
    }
  }

  lemma {:induction false} PacketKeepsSpent(d: Disco, i: Input, serial: nat)
    requires Spent(d, serial) && i.Arrives?
    ensures Spent(TakePacket(d, i.key, i.packet, i.source, i.draws, i.now), serial)
  {
    hide Usable, Stored, SendProbes, Remember, Accepts;
    if i.key in d.peers && i.packet.Sealed? && |i.packet.data| >= 2 && (|i.packet.data| - 2) % 18 == 0 {
      var list := Stored(i.packet.data[2..]);
      SendProbesKeepsSpent(SetCandidates(d, i.key, list), TargetsOf(i.key, list), i.draws, i.now, serial);
    }
  }

  lemma {:induction false} StepKeepsSpent(d: Disco, i: Input, serial: nat)
    requires Spent(d, serial)
    ensures Spent(Step(d, i), serial)
  {
    hide TakePacket, SendProbes, AllTargets, StartPing, Refresh;
    match i
    case Joins(_, _) =>
    case Arrives(_, _, _, _, _) => PacketKeepsSpent(d, i, serial);
    case Advertises(order, draws, now) => SendProbesKeepsSpent(d, AllTargets(d.peers, order), draws, now, serial);
    case StartsPing(waiter, direct, txid, gone, order, draws, now) =>
      PingLeavesPeers(d, waiter, direct, txid, gone, now);
      var started := StartPing(d, waiter, direct, txid, gone, now);
      SendProbesKeepsSpent(started, AllTargets(started.peers, order), draws, now, serial);
    case TimersFire(_, _, _) =>
  }

  /** The number of the probe a proof answers. */
  function Spends(inputs: seq<Input>, n: nat, key: Key): nat
    requires n < |inputs| && ProvesAt(inputs, n, key)
  {
    At(inputs, n).probes[inputs[n].packet.data[2..14]].serial
  }

  lemma {:induction false} ProofSpends(d: Disco, i: Input, key: Key)
    requires Inv(d) && ProvesPath(d, i, key)
    ensures Spent(Step(d, i), d.probes[i.packet.data[2..14]].serial)
  {
    hide PeersInv, Usable, AnswerPing;
    var txid := i.packet.data[2..14];
    assert Usable(d.probes[txid].endpoint);
  }

  lemma {:induction false} StaysSpent(inputs: seq<Input>, m: nat, n: nat, serial: nat)
    requires m <= n <= |inputs| && Spent(At(inputs, m), serial)
    ensures Spent(At(inputs, n), serial)
    decreases n
  {
    hide Step, Run, Spent;
    if m == n {
    } else {
      StaysSpent(inputs, m, n - 1, serial);
      OneMore(inputs, n - 1);
      StepKeepsSpent(At(inputs, n - 1), inputs[n - 1], serial);
    }
  }

  /** No probe proves a path twice, whatever transaction ids the random source repeats. */
  lemma {:induction false} ProbePromotesOnce(inputs: seq<Input>, i: nat, j: nat, key: Key, other: Key)
    requires i < j < |inputs| && ProvesAt(inputs, i, key) && ProvesAt(inputs, j, other)
    ensures Spends(inputs, i, key) != Spends(inputs, j, other)
  {
    hide Step, Run;
    Reachable(inputs, i);
    ProofSpends(At(inputs, i), inputs[i], key);
    OneMore(inputs, i);
    StaysSpent(inputs, i + 1, j, Spends(inputs, i, key));
  }

  lemma {:induction false} TablesAreBounded(inputs: seq<Input>)
    ensures var d := Run(EMPTY, inputs);
      && |d.peers| <= MAX_PEERS && |d.probes| <= MAX_PROBES && |d.pings| <= MAX_PENDING_PINGS
      && forall k :: k in d.peers ==> k != 0 && d.peers[k].disco != 0 && Recent(d.peers[k].candidates)
  {
    RunKeepsInv(EMPTY, inputs);
  }

  datatype Route = Direct(endpoint: SocketAddr) | Relay

  /** Where a packet for a peer goes; `sent` is whether the direct datagram could be sent. */
  function SendPacket(d: Disco, key: Key, sent: bool, now: nat): Route {
    if key in d.peers && d.peers[key].direct.Some?
       && Elapsed(now, d.peers[key].direct.value.1) < DIRECT_LIFE_MS && sent
    then Direct(d.peers[key].direct.value.0) else Relay
  }

  /**
   Packets leave directly only towards an endpoint that peer proved within the last fifteen seconds: the latest
   pong that proves a path to the peer came from there.
   */
  lemma {:induction false} DirectPacketsFollowProof(inputs: seq<Input>, key: Key, ok: bool, now: nat)
    returns (sent: nat, pong: nat)
    requires SendPacket(Run(EMPTY, inputs), key, ok, now).Direct?
    ensures Proof(inputs, key, sent, pong) && inputs[pong].source.Some?
    ensures SendPacket(Run(EMPTY, inputs), key, ok, now) == Direct(inputs[pong].source.value)
    ensures inputs[pong].packet.sender == Run(EMPTY, inputs).peers[key].disco
    ensures Elapsed(now, inputs[pong].now) < DIRECT_LIFE_MS
    ensures forall n :: pong < n < |inputs| ==> !ProvesAt(inputs, n, key)
  {
    hide Run, Proof, ProvesAt;
    sent, pong := DirectPathIsProven(inputs, key);
  }

  // ----- An honest exchange -----

  /** The ping answered is the first that waits for this transaction id, and only it stops waiting. */
  lemma {:induction false} AnswersTheFirst(pings: seq<Ping>, txid: TxId) returns (i: nat)
    ensures i <= |pings| && forall k :: 0 <= k < i ==> !(pings[k].disco && pings[k].txid == txid)
    ensures Answered(pings, txid).None? ==> i == |pings| && AnswerPing(pings, txid) == pings
    ensures Answered(pings, txid).Some? ==>
      && i < |pings| && pings[i] == Answered(pings, txid).value && pings[i].disco && pings[i].txid == txid
      && AnswerPing(pings, txid) == pings[..i] + pings[i + 1..]
    decreases |pings|
  {
    if pings == [] || (pings[0].disco && pings[0].txid == txid) {
      i := 0;
    } else {
      i := AnswersTheFirst(pings[1..], txid);
      assert pings == [pings[0]] + pings[1..];
      i := i + 1;
    }
  }

  /**
   The two ends of a probe fit: what a peer replies to it, wherever it saw it come from, comes back within ten
   seconds from the endpoint probed as a pong that makes the endpoint direct and spends the probe.
   */
  lemma {:induction false} HonestPongPromotes(
    prober: Disco, key: Key, txid: TxId, public: Bytes, peer: Disco, proberKey: Key,
    seen: Option<SocketAddr>, draws: seq<TxId>, now: nat)
    requires Inv(prober) && txid in prober.probes && prober.probes[txid].key == key && |txid| == 12
    requires Elapsed(now, prober.probes[txid].sent) < PROBE_LIFE_MS
    requires proberKey in peer.peers && (seen.Some? ==> Usable(seen.value))
    requires key in prober.peers
    ensures var ping := Sealed(peer.peers[proberKey].disco, PingData(txid, public));
      ReplyTo(peer, proberKey, ping, seen).Some? &&
      var pong := Sealed(prober.peers[key].disco, ReplyTo(peer, proberKey, ping, seen).value);
      var endpoint := prober.probes[txid].endpoint;
      var after := TakePacket(prober, key, pong, Some(endpoint), draws, now);
      key in after.peers && after.peers[key].direct == Some((endpoint, now)) && txid !in after.probes
  {
    hide Usable, AnswerPing;
    var data := PingData(txid, public);
    assert data[2..14] == txid;
    var endpoint := prober.probes[txid].endpoint;
    assert Usable(endpoint) by {
      assert ProbesInv(prober.probes, prober.probesSent);
    }
  }
}
