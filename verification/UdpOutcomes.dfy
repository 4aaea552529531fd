/** What single steps of the UDP table do: a new flow's first datagram, a send that leaves, and what a stream reads. */
module UdpOutcomes {
  import opened Common
  import opened Endpoints
  import opened UdpFlows

  /** The flow has an entry whose stream still uses it. */
  predicate Held(t: Table, flow: Flow) {
    flow in t.flows && t.flows[flow].token !in t.cancelled
  }

  /**
   The first datagram of an admitted flow opens it while there is room: a stream of its own with that datagram
   waiting, and an entry touched now; if the stream finds no taker it is cancelled at once and gets nothing.
   */
  lemma {:induction false} FirstDatagramOpens(t: Table, flow: Flow, payload: Bytes, admitted: bool, taken: bool,
                                              now: nat)
    requires Inv(t) && flow.local.port != 0 && flow.remote.port != 0 && !Held(t, flow)
    requires |t.flows - {flow}| < 256 && admitted
    ensures var token := t.nextToken;
      && token !in t.streams && token !in t.cancelled
      && Input(t, flow, payload, admitted, taken, now)
         == t.(flows := t.flows[flow := Entry(token, now)],
               streams := t.streams[token := Stream(flow, if taken then [payload] else [], 0, !taken)],
               cancelled := if taken then t.cancelled else t.cancelled + {token},
               nextToken := token + 1)
  {
    hide Open, DropStream, Deliver, Inv;
    NewTokenIsFresh(t);
    var t1 := Evict(t, flow);
    EvictsTheCancelled(t, flow);
    FirstDelivery(t1, flow, payload, taken, now);
    assert t1.flows[flow := Entry(t.nextToken, now)] == t.flows[flow := Entry(t.nextToken, now)];
  }

  lemma {:induction false} EvictsTheCancelled(t: Table, flow: Flow)
    requires !Held(t, flow)
    ensures Evict(t, flow) == t.(flows := t.flows - {flow})
  {
    if flow !in t.flows {
      assert t.flows - {flow} == t.flows;
    }
  }

  lemma {:induction false} FirstDelivery(t: Table, flow: Flow, payload: Bytes, taken: bool, now: nat)
    requires flow !in t.flows && t.nextToken !in t.cancelled && t.nextToken !in t.streams
    ensures var minted := Open(t, flow, now);
      Deliver(if taken then minted else DropStream(minted, t.nextToken), flow, payload, now)
      == t.(flows := t.flows[flow := Entry(t.nextToken, now)],
            streams := t.streams[t.nextToken := Stream(flow, if taken then [payload] else [], 0, !taken)],
            cancelled := if taken then t.cancelled else t.cancelled + {t.nextToken},
            nextToken := t.nextToken + 1)
  {
    var e := Entry(t.nextToken, now);
    assert t.flows[flow := e][flow := e] == t.flows[flow := e];
    assert [] + [payload] == [payload];
    if taken {
      TwiceSet(t.streams, t.nextToken, Stream(flow, [], 0, false), Stream(flow, [payload], 0, false));
    } else {
      TwiceSet(t.streams, t.nextToken, Stream(flow, [], 0, false), Stream(flow, [], 0, true));
      TwiceSet(t.streams, t.nextToken, Stream(flow, [], 0, true), Stream(flow, [], 0, true));
    }
  }

  lemma {:induction false} TwiceSet<K, V>(m: map<K, V>, k: K, v: V, w: V)
    ensures m[k := v][k := w] == m[k := w]
  {
  }

  lemma {:induction false} NewTokenIsFresh(t: Table)
    requires Inv(t)
    ensures t.nextToken !in t.streams && t.nextToken !in t.cancelled
  {
  }

  /** A datagram that nobody admits, or that finds the table full, opens nothing; one without ports changes nothing. */
  lemma {:induction false} OthersOpenNothing(t: Table, flow: Flow, payload: Bytes, admitted: bool, taken: bool,
                                             now: nat)
    requires !Held(t, flow)
    requires flow.local.port == 0 || flow.remote.port == 0 || !admitted || |t.flows - {flow}| >= 256
    ensures var t' := Input(t, flow, payload, admitted, taken, now);
      && t'.streams == t.streams && t'.cancelled == t.cancelled && t'.sent == t.sent && t'.pending == t.pending
      && (flow.local.port == 0 || flow.remote.port == 0 ==> t' == t)
      && (flow.local.port != 0 && flow.remote.port != 0 ==> t'.flows == t.flows - {flow})
  {
    if flow !in t.flows {
      assert t.flows - {flow} == t.flows;
    }
  }

  /** A datagram on a held flow waits in its stream while fewer than 32 do, else it is lost; it touches the entry. */
  lemma {:induction false} NextDatagramWaits(t: Table, flow: Flow, payload: Bytes, admitted: bool, taken: bool,
                                             now: nat)
    requires Inv(t) && flow.local.port != 0 && flow.remote.port != 0 && Held(t, flow)
    ensures var token := t.flows[flow].token;
      && token in t.streams && var s := t.streams[token];
      && !s.dropped
      && Input(t, flow, payload, admitted, taken, now)
         == t.(flows := t.flows[flow := Entry(token, now)],
               streams := t.streams[token := if |s.received| < s.read + 32 then s.(received := s.received + [payload])
                                             else s])
  {
    HeldStream(t, flow);
  }

  lemma {:induction false} HeldStream(t: Table, flow: Flow)
    requires Inv(t) && Held(t, flow)
    ensures var token := t.flows[flow].token; token in t.streams && !t.streams[token].dropped
  {
  }

  /** A send with a good token leaves and touches its entry; any other changes nothing. */
  lemma {:induction false} SendLeaves(t: Table, s: Send, now: nat)
    ensures var t' := Output(t, s, now);
      if s.token !in t.cancelled && s.flow in t.flows then
        && t'.sent == t.sent + [s] && t'.flows == t.flows[s.flow := Entry(t.flows[s.flow].token, now)]
        && t' == t.(sent := t'.sent, flows := t'.flows)
      else t' == t
  {
  }

  /** Expiry removes exactly the flows that are cancelled or idle for the timeout, and cuts their streams off. */
  lemma {:induction false} ExpiryRemoves(t: Table, now: nat, timeout: nat, flow: Flow)
    requires Inv(t)
    ensures var t' := Expire(t, now, timeout);
      && (flow in t'.flows <==> Held(t, flow) && now < t.flows[flow].touched + timeout)
      && (flow in t'.flows ==> t'.flows[flow] == t.flows[flow])
      && (flow in t.flows && flow !in t'.flows ==> t.flows[flow].token in t'.cancelled)
      && t' == t.(flows := t'.flows, cancelled := t'.cancelled)
  {
    hide Inv;
    if Held(t, flow) {
      HeldStream(t, flow);
    }
  }

  /** A datagram up to 65507 octets of a stream that is not cancelled is queued on the stream's flow. */
  lemma {:induction false} SendIsQueued(t: Table, token: nat, bytes: Bytes)
    ensures var t' := SendOn(t, token, bytes);
      if token in t.streams && |bytes| <= 65507 && token !in t.cancelled then
        t' == t.(pending := t.pending + [Send(t.streams[token].flow, bytes, token)])
      else t' == t
  {
  }

  /** A stream reads its datagrams in the order they came, each once; only a cancelled one may end with some unread. */
  lemma {:induction false} ReceiveIsNext(t: Table, token: nat, ended: bool)
    requires token in t.streams
    ensures var s := t.streams[token];
      Receive(t, token, ended)
      == if s.read < |s.received| && !(token in t.cancelled && ended) then
           (t.(streams := t.streams[token := s.(read := s.read + 1)]), Some(s.received[s.read]))
         else (t, None)
  {
  }
}
