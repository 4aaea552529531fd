/** The runtime actor's table of UDP flows, updated in place. */
module UdpActor {
  import opened Common
  import opened Endpoints
  import opened UdpFlows
  import opened UdpPackets

  class Actor {
    const local: Ip
    var flows: map<Flow, Entry>
    var streams: map<nat, Stream>
    var cancelled: set<nat>
    var nextToken: nat
    var pending: seq<Send>
    var sent: seq<Send>  // kept only to state what left

    constructor (local: Ip)
      ensures View() == Start(local)
    {
      this.local := local;
      flows, streams, cancelled, nextToken, pending, sent := map[], map[], {}, 0, [], [];
    }

    function View(): Table
      reads this
    {
      Table(local, flows, streams, cancelled, nextToken, pending, sent)
    }

    /** Inserting over an entry drops it, which cancels its token. */
    method NewFlow(flow: Flow, now: nat) returns (token: nat)
      modifies this`flows, this`streams, this`cancelled, this`nextToken
      ensures View() == Open(old(View()), flow, now) && token == old(nextToken)
    {
      token := nextToken;
      nextToken := nextToken + 1;
      if flow in flows {
        cancelled := cancelled + {flows[flow].token};
      }
      flows := flows[flow := Entry(token, now)];
      streams := streams[token := Stream(flow, [], 0, false)];
    }

    method UdpInput(flow: Flow, payload: Bytes, admitted: bool, taken: bool, now: nat)
      modifies this`flows, this`streams, this`cancelled, this`nextToken
      ensures View() == Input(old(View()), flow, payload, admitted, taken, now)
    {
      if flow.local.port == 0 || flow.remote.port == 0 {
        return;
      }
      if flow in flows && flows[flow].token in cancelled {
        flows := flows - {flow};
      }
      if flow !in flows {
        if |flows| >= MAX_CONNECTIONS || !admitted {
          return;
        }
        var token := NewFlow(flow, now);
        if !taken {
          DropsStream(token);
        }
      }
      if flow in flows && flows[flow].token in streams {
        var token := flows[flow].token;
        flows := flows[flow := Entry(token, now)];
        var s := streams[token];
        if !s.dropped && |s.received| - s.read < QUEUE {
          s := s.(received := s.received + [payload]);
        }
        streams := streams[token := s];
      }
    }

    method DropsStream(token: nat)
      modifies this`streams, this`cancelled
      ensures View() == DropStream(old(View()), token)
    {
      if token in streams {
        streams := streams[token := streams[token].(dropped := true)];
        cancelled := cancelled + {token};
      }
    }

    /** A packet leaves exactly when the send is recorded as sent. */
    method UdpOutput(s: Send, now: nat) returns (packet: Option<Bytes>)
      modifies this`flows, this`sent
      ensures View() == Output(old(View()), s, now)
      ensures packet == if sent == old(sent) then None else Some(PacketOf(s.flow, s.bytes))
    {
      packet := None;
      if s.token in cancelled || s.flow !in flows {
        return;
      }
      flows := flows[s.flow := flows[s.flow].(touched := now)];
      var built := BuildPacket(s.flow, s.bytes);
      packet := Some(built);
      sent := sent + [s];
    }

    /** A packet that does not parse changes nothing. */
    method ReceivePacket(packet: Bytes, admitted: bool, taken: bool, now: nat)
      modifies this`flows, this`streams, this`cancelled, this`nextToken
      ensures View() == match Parse(packet)
                        case None => old(View())
                        case Some(r) => Input(old(View()), r.flow, r.payload, admitted, taken, now)
    {
      hide Parse, Input;
      var parsed := Parse(packet);
      if parsed.Some? {
        UdpInput(parsed.value.flow, parsed.value.payload, admitted, taken, now);
      }
    }

    /** Keeps the entries whose stream is there and not idle; a removed entry's token is cancelled. */
    method ExpireUdp(now: nat, timeout: nat)
      modifies this`flows, this`cancelled
      ensures View() == Expire(old(View()), now, timeout)
    {
      ghost var t := View();
      ghost var before := cancelled;
      var todo := flows.Keys;
      var stale: set<nat> := {};
      while todo != {}
        invariant todo <= t.flows.Keys && flows.Keys <= t.flows.Keys && cancelled == before
        invariant forall f :: f in t.flows ==>
                    (f in flows <==> f in todo || !Stale(t, f, now, timeout)) && (f in flows ==> flows[f] == t.flows[f])
        invariant forall k :: k in stale <==>
                    exists f :: f in t.flows && f !in todo && Stale(t, f, now, timeout) && t.flows[f].token == k
        decreases |todo|
      {
        var f :| f in todo;
        var e := flows[f];
        if e.token !in cancelled && !(e.token in streams && streams[e.token].dropped) && now - e.touched < timeout {
        } else {
          flows := flows - {f};
          stale := stale + {e.token};
        }
        todo := todo - {f};
      }
      cancelled := cancelled + stale;
      assert flows == Expire(t, now, timeout).flows;
      assert stale == set f | f in t.flows && Stale(t, f, now, timeout) :: t.flows[f].token;
    }

    /** `Command::DialUdp`: the first free port, from 32768 up; it fails exactly when the table is full. */
    method Dial(target: SocketAddr, now: nat) returns (r: Option<nat>)
      modifies this`flows, this`streams, this`cancelled, this`nextToken
      ensures (View(), r) == DialUdp(old(View()), target, now)
      ensures r.None? <==> |old(flows)| >= MAX_CONNECTIONS
      ensures r.Some? ==> r.value in streams && streams[r.value].flow !in old(flows)
    {
      hide FreePort;
      DialSucceedsBelowCap(View(), target, now);
      if |flows| >= MAX_CONNECTIONS {
        return None;
      }
      var port: nat := FIRST_PORT;
      while port < 65536 && FlowFrom(View(), port, target) in flows
        invariant FIRST_PORT <= port <= 65536 && View() == old(View())
        invariant port < 65536 ==> FreePort(View(), target, FIRST_PORT) == FreePort(View(), target, port)
        invariant port == 65536 ==> FreePort(View(), target, FIRST_PORT) == None
      {
        FreePortStep(View(), target, port);
        port := port + 1;
      }
      assert port < 65536;
      FreePortStep(View(), target, port);
      var token := NewFlow(FlowFrom(View(), port, target), now);
      r := Some(token);
    }
  }

  lemma {:induction false} FreePortStep(t: Table, target: SocketAddr, port: Port)
    ensures FlowFrom(t, port, target) !in t.flows ==> FreePort(t, target, port) == Some(port)
    ensures FlowFrom(t, port, target) in t.flows ==>
              FreePort(t, target, port) == if port == 65535 then None else FreePort(t, target, port + 1)
  {
  }
}
