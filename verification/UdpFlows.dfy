/**
 Connected UDP flows of the native runtime. A flow tuple is used again as soon as its entry goes; the
 cancellation token minted with each stream keeps an old stream away from the flow's next owner.
 */
module UdpFlows {
  import opened Common
  import opened Endpoints

  const MAX_CONNECTIONS: nat := 256
  const MAX_DATAGRAM: nat := 65507
  const QUEUE: nat := 32
  const FIRST_PORT: nat := 32768

  datatype Entry = Entry(token: nat, touched: nat)

  /** `received` is every datagram ever queued for the stream and `read` how many it has returned. */
  datatype Stream = Stream(flow: Flow, received: seq<Bytes>, read: nat, dropped: bool)

  datatype Send = Send(flow: Flow, bytes: Bytes, token: nat)

  /**
   `pending` is the command queue. `sent`, everything that left for the network, and the streams' received
   datagrams are kept whole only to state what never happens to them.
   */
  datatype Table = Table(
    local: Ip,
    flows: map<Flow, Entry>,
    streams: map<nat, Stream>,
    cancelled: set<nat>,
    nextToken: nat,
    pending: seq<Send>,
    sent: seq<Send>)

  function Start(local: Ip): Table {
    Table(local, map[], map[], {}, 0, [], [])
  }

  // ---- What the actor does ----

  function Open(t: Table, flow: Flow, now: nat): Table {
    t.(flows := t.flows[flow := Entry(t.nextToken, now)],
       streams := t.streams[t.nextToken := Stream(flow, [], 0, false)],
       cancelled := if flow in t.flows then t.cancelled + {t.flows[flow].token} else t.cancelled,
       nextToken := t.nextToken + 1)
  }

  function DropStream(t: Table, token: nat): Table {
    if token !in t.streams then t
    else t.(streams := t.streams[token := t.streams[token].(dropped := true)], cancelled := t.cancelled + {token})
  }

  function Evict(t: Table, flow: Flow): Table {
    if flow in t.flows && t.flows[flow].token in t.cancelled then t.(flows := t.flows - {flow}) else t
  }

  function Queued(s: Stream, payload: Bytes): Stream {
    if s.dropped || |s.received| - s.read >= QUEUE then s else s.(received := s.received + [payload])
  }

  function Deliver(t: Table, flow: Flow, payload: Bytes, now: nat): Table {
    if flow !in t.flows || t.flows[flow].token !in t.streams then t
    else
      var token := t.flows[flow].token;
      t.(flows := t.flows[flow := Entry(token, now)],
         streams := t.streams[token := Queued(t.streams[token], payload)])
  }

  /** `admitted` is whether a listener or handler takes the flow, `taken` whether the new stream reached it. */
  function Input(t: Table, flow: Flow, payload: Bytes, admitted: bool, taken: bool, now: nat): Table {
    if flow.local.port == 0 || flow.remote.port == 0 then t
    else
      var t1 := Evict(t, flow);
      if flow in t1.flows then Deliver(t1, flow, payload, now)
      else if |t1.flows| >= MAX_CONNECTIONS || !admitted then t1
      else
        var t2 := Open(t1, flow, now);
        Deliver(if taken then t2 else DropStream(t2, t1.nextToken), flow, payload, now)
  }

  function Output(t: Table, s: Send, now: nat): Table {
    if s.token in t.cancelled || s.flow !in t.flows then t
    else t.(flows := t.flows[s.flow := t.flows[s.flow].(touched := now)], sent := t.sent + [s])
  }

  predicate Stale(t: Table, flow: Flow, now: nat, timeout: nat)
    requires flow in t.flows
  {
    var e := t.flows[flow];
    e.token in t.cancelled || (e.token in t.streams && t.streams[e.token].dropped) || now - e.touched >= timeout
  }

  function Expire(t: Table, now: nat, timeout: nat): Table {
    t.(flows := map f | f in t.flows && !Stale(t, f, now, timeout) :: t.flows[f],
       cancelled := t.cancelled + set f | f in t.flows && Stale(t, f, now, timeout) :: t.flows[f].token)
  }

  function FlowFrom(t: Table, port: Port, target: SocketAddr): Flow {
    Flow(SocketAddr(t.local, port), target)
  }

  /** The lowest free port from `port` up. */
  function FreePort(t: Table, target: SocketAddr, port: Port): (r: Option<Port>)
    ensures r.Some? ==> r.value >= port && FlowFrom(t, r.value, target) !in t.flows
    ensures forall p: Port :: port <= p < (if r.Some? then r.value else 65536) ==> FlowFrom(t, p, target) in t.flows
    decreases 65536 - port
  {
    if FlowFrom(t, port, target) !in t.flows then Some(port)
    else if port == 65535 then None
    else FreePort(t, target, port + 1)
  }

  function DialUdp(t: Table, target: SocketAddr, now: nat): (Table, Option<nat>) {
    if |t.flows| >= MAX_CONNECTIONS then (t, None)
    else
      match FreePort(t, target, FIRST_PORT)
      case None => (t, None)
      case Some(port) => (Open(t, FlowFrom(t, port, target), now), Some(t.nextToken))
  }

  // ---- What streams do ----

  function SendOn(t: Table, token: nat, bytes: Bytes): Table {
    if token !in t.streams || |bytes| > MAX_DATAGRAM || token in t.cancelled then t
    else t.(pending := t.pending + [Send(t.streams[token].flow, bytes, token)])
  }

  /** A receive on a cancelled stream may report the end or a datagram already queued, as the scheduler likes. */
  function Receive(t: Table, token: nat, ended: bool): (Table, Option<Bytes>) {
    if token !in t.streams || t.streams[token].read >= |t.streams[token].received| then (t, None)
    else if token in t.cancelled && ended then (t, None)
    else
      var s := t.streams[token];
      (t.(streams := t.streams[token := s.(read := s.read + 1)]), Some(s.received[s.read]))
  }

  datatype Event =
    | Arrives(flow: Flow, payload: Bytes, admitted: bool, taken: bool, now: nat)
    | Dials(target: SocketAddr, now: nat)
    | Sends(token: nat, bytes: Bytes)
    | Command(now: nat)  // the actor takes the oldest queued send
    | Receives(token: nat, ended: bool)
    | Drops(token: nat)
    | Expires(now: nat, timeout: nat)

  function Step(t: Table, ev: Event): Table {
    match ev
    case Arrives(flow, payload, admitted, taken, now) => Input(t, flow, payload, admitted, taken, now)
    case Dials(target, now) => DialUdp(t, target, now).0
    case Sends(token, bytes) => SendOn(t, token, bytes)
    case Command(now) =>
      if t.pending == [] then t else Output(t.(pending := t.pending[1..]), t.pending[0], now)
    case Receives(token, ended) => Receive(t, token, ended).0
    case Drops(token) => DropStream(t, token)
    case Expires(now, timeout) => Expire(t, now, timeout)
  }

  // ---- What always holds ----

  /** A stream whose token is not cancelled is the entry of its flow. */
  ghost predicate Current(flows: map<Flow, Entry>, s: Stream, token: nat) {
    s.flow in flows && flows[s.flow].token == token && !s.dropped
  }

  ghost predicate TokensOk(flows: map<Flow, Entry>, streams: map<nat, Stream>, cancelled: set<nat>, next: nat) {
    && (forall k :: k in streams ==> k < next)
    && (forall k :: k in streams && k !in cancelled ==> Current(flows, streams[k], k))
    && (forall f :: f in flows ==> flows[f].token in streams && streams[flows[f].token].flow == f)
    && (forall k :: k in cancelled ==> k in streams)
  }

  ghost predicate Owned(streams: map<nat, Stream>, s: Send) {
    s.token in streams && streams[s.token].flow == s.flow
  }

  ghost predicate AllOwned(streams: map<nat, Stream>, sends: seq<Send>) {
    forall i :: 0 <= i < |sends| ==> Owned(streams, sends[i])
  }

  ghost predicate Inv(t: Table) {
    && TokensOk(t.flows, t.streams, t.cancelled, t.nextToken)
    && |t.flows| <= MAX_CONNECTIONS
    && AllOwned(t.streams, t.pending)
  }

  lemma {:induction false} StillOwned(streams: map<nat, Stream>, streams': map<nat, Stream>, sends: seq<Send>)
    requires AllOwned(streams, sends)
    requires forall k :: k in streams ==> k in streams' && streams'[k].flow == streams[k].flow
    ensures AllOwned(streams', sends)
  {
    forall i | 0 <= i < |sends|
      ensures Owned(streams', sends[i])
    {
      assert Owned(streams, sends[i]);
    }
  }

  lemma {:induction false} OpenKeepsInv(t: Table, flow: Flow, now: nat)
    requires Inv(t) && flow !in t.flows && |t.flows| < MAX_CONNECTIONS
    ensures Inv(Open(t, flow, now))
  {
    hide AllOwned;
    var t' := Open(t, flow, now);
    OpenTokens(t.flows, t.streams, t.cancelled, t.nextToken, flow, now);
    StillOwned(t.streams, t'.streams, t.pending);
    OneMore(t.flows, flow, Entry(t.nextToken, now));
  }

  lemma {:induction false} OneMore(flows: map<Flow, Entry>, flow: Flow, e: Entry)
    ensures |flows[flow := e]| == if flow in flows then |flows| else |flows| + 1
  {
    assert flows[flow := e].Keys == flows.Keys + {flow};
    assert |flows[flow := e]| == |flows[flow := e].Keys| && |flows| == |flows.Keys|;
  }

  lemma {:induction false} OpenTokens(flows: map<Flow, Entry>, streams: map<nat, Stream>, cancelled: set<nat>,
                                      next: nat, flow: Flow, now: nat)
    requires TokensOk(flows, streams, cancelled, next) && flow !in flows
    ensures TokensOk(flows[flow := Entry(next, now)], streams[next := Stream(flow, [], 0, false)], cancelled, next + 1)
  {
    forall k | k in streams && k !in cancelled
      ensures Current(flows[flow := Entry(next, now)], streams[k], k)
    {
      assert Current(flows, streams[k], k);
    }
  }

  lemma {:induction false} EvictKeepsInv(t: Table, flow: Flow)
    requires Inv(t)
    ensures Inv(Evict(t, flow))
  {
    hide AllOwned;
    var t' := Evict(t, flow);
    Fewer(t'.flows.Keys, t.flows.Keys);
    forall k | k in t.streams && k !in t.cancelled
      ensures Current(t'.flows, t.streams[k], k)
    {
      assert Current(t.flows, t.streams[k], k);
    }
  }

  lemma {:induction false} DropKeepsInv(t: Table, token: nat)
    requires Inv(t)
    ensures Inv(DropStream(t, token))
  {
    hide AllOwned;
    var t' := DropStream(t, token);
    StillOwned(t.streams, t'.streams, t.pending);
    forall k | k in t'.streams && k !in t'.cancelled
      ensures Current(t'.flows, t'.streams[k], k)
    {
      assert Current(t.flows, t.streams[k], k);
    }
  }

  /** The entry's time and its stream's queue may change freely. */
  lemma {:induction false} TouchTokens(flows: map<Flow, Entry>, streams: map<nat, Stream>, cancelled: set<nat>,
                                       next: nat, flow: Flow, now: nat, s: Stream)
    requires TokensOk(flows, streams, cancelled, next) && flow in flows
    requires var old' := streams[flows[flow].token]; s.flow == old'.flow && s.dropped == old'.dropped
    ensures var token := flows[flow].token;
            TokensOk(flows[flow := Entry(token, now)], streams[token := s], cancelled, next)
  {
    var token := flows[flow].token;
    forall k | k in streams[token := s] && k !in cancelled
      ensures Current(flows[flow := Entry(token, now)], streams[token := s][k], k)
    {
      assert Current(flows, streams[k], k);
    }
  }

  lemma {:induction false} DeliverKeepsInv(t: Table, flow: Flow, payload: Bytes, now: nat)
    requires Inv(t)
    ensures Inv(Deliver(t, flow, payload, now))
  {
    hide AllOwned, Current;
    if flow in t.flows {
      var t' := Deliver(t, flow, payload, now);
      var token := t.flows[flow].token;
      TouchTokens(t.flows, t.streams, t.cancelled, t.nextToken, flow, now, Queued(t.streams[token], payload));
      StillOwned(t.streams, t'.streams, t.pending);
      OneMore(t.flows, flow, Entry(token, now));
    }
  }

  lemma {:induction false} InputKeepsInv(t: Table, flow: Flow, payload: Bytes, admitted: bool, taken: bool, now: nat)
    requires Inv(t)
    ensures Inv(Input(t, flow, payload, admitted, taken, now))
  {
    hide Inv, Deliver, DropStream, Open;
    var t1 := Evict(t, flow);
    EvictKeepsInv(t, flow);
    DeliverKeepsInv(t1, flow, payload, now);
    if flow !in t1.flows && |t1.flows| < MAX_CONNECTIONS {
      var t2 := Open(t1, flow, now);
      OpenKeepsInv(t1, flow, now);
      DeliverKeepsInv(t2, flow, payload, now);
      DropKeepsInv(t2, t1.nextToken);
      DeliverKeepsInv(DropStream(t2, t1.nextToken), flow, payload, now);
    }
  }

  lemma {:induction false} OutputKeepsInv(t: Table, s: Send, now: nat)
    requires Inv(t)
    ensures Inv(Output(t, s, now))
  {
    hide AllOwned, Current;
    if s.flow in t.flows {
      var token := t.flows[s.flow].token;
      TouchTokens(t.flows, t.streams, t.cancelled, t.nextToken, s.flow, now, t.streams[token]);
      OneMore(t.flows, s.flow, Entry(token, now));
      assert t.streams[token := t.streams[token]] == t.streams;
    }
  }

  lemma {:induction false} ExpireKeepsInv(t: Table, now: nat, timeout: nat)
    requires Inv(t)
    ensures Inv(Expire(t, now, timeout))
  {
    hide AllOwned;
    var t' := Expire(t, now, timeout);
    Fewer(t'.flows.Keys, t.flows.Keys);
    forall k | k in t'.streams && k !in t'.cancelled
      ensures Current(t'.flows, t'.streams[k], k)
    {
      assert Current(t.flows, t.streams[k], k);
      assert !Stale(t, t.streams[k].flow, now, timeout);
    }
  }

  lemma {:induction false} SendOnKeepsInv(t: Table, token: nat, bytes: Bytes)
    requires Inv(t)
    ensures Inv(SendOn(t, token, bytes))
  {
    hide TokensOk;
  }

  lemma {:induction false} ReceiveKeepsInv(t: Table, token: nat, ended: bool)
    requires Inv(t)
    ensures Inv(Receive(t, token, ended).0)
  {
    hide AllOwned;
    var t' := Receive(t, token, ended).0;
    StillOwned(t.streams, t'.streams, t.pending);
    forall k | k in t'.streams && k !in t'.cancelled
      ensures Current(t'.flows, t'.streams[k], k)
    {
      assert Current(t.flows, t.streams[k], k);
    }
  }

  lemma {:induction false} TakingKeepsInv(t: Table)
    requires Inv(t) && t.pending != []
    ensures Inv(t.(pending := t.pending[1..])) && Owned(t.streams, t.pending[0])
  {
    hide TokensOk;
  }

  lemma {:induction false} StepKeepsInv(t: Table, ev: Event)
    requires Inv(t)
    ensures Inv(Step(t, ev))
  {
    hide Inv, Input, Output, Open, DropStream, Expire, SendOn, Receive, Deliver;
    match ev
    case Arrives(flow, payload, admitted, taken, now) => InputKeepsInv(t, flow, payload, admitted, taken, now);
    case Dials(target, now) =>
      if |t.flows| < MAX_CONNECTIONS && FreePort(t, target, FIRST_PORT).Some? {
        OpenKeepsInv(t, FlowFrom(t, FreePort(t, target, FIRST_PORT).value, target), now);
      }
    case Sends(token, bytes) => SendOnKeepsInv(t, token, bytes);
    case Command(now) =>
      if t.pending != [] {
        TakingKeepsInv(t);
        OutputKeepsInv(t.(pending := t.pending[1..]), t.pending[0], now);
      }
    case Receives(token, ended) => ReceiveKeepsInv(t, token, ended);
    case Drops(token) => DropKeepsInv(t, token);
    case Expires(now, timeout) => ExpireKeepsInv(t, now, timeout);
  }

  // ---- Whole runs ----

  function Run(t: Table, events: seq<Event>): Table
    decreases |events|
  {
    if events == [] then t else Run(Step(t, events[0]), events[1..])
  }

  lemma {:induction false} RunKeepsInv(t: Table, events: seq<Event>)
    requires Inv(t)
    ensures Inv(Run(t, events))
    decreases |events|
  {
    hide Inv, Step;
    if events == [] {
    } else {
      StepKeepsInv(t, events[0]);
      RunKeepsInv(Step(t, events[0]), events[1..]);
    }
  }

  /** Everything sent since left through the entry its stream owned, while its token was good. */
  ghost predicate SentByOwners(t: Table, t': Table) {
    && t.sent <= t'.sent
    && forall i :: |t.sent| <= i < |t'.sent| ==>
         var s := t'.sent[i];
         s.token !in t.cancelled && s.token in t'.streams && t'.streams[s.token].flow == s.flow
  }

  /** A cancelled stream stays cancelled and is given nothing more. */
  ghost predicate Silent(t: Table, t': Table) {
    && t.cancelled <= t'.cancelled
    && (forall k :: k in t.streams ==>
          k in t'.streams && t'.streams[k].flow == t.streams[k].flow && t.streams[k].received <= t'.streams[k].received)
    && (forall k :: k in t.streams && k in t.cancelled ==> t'.streams[k].received == t.streams[k].received)
  }

  ghost predicate Follows(t: Table, t': Table) {
    SentByOwners(t, t') && Silent(t, t')
  }

  lemma {:induction false} FollowsTransitive(a: Table, b: Table, c: Table)
    requires Follows(a, b) && Follows(b, c)
    ensures Follows(a, c)
  {
    forall i | |a.sent| <= i < |c.sent|
      ensures var s := c.sent[i];
              s.token !in a.cancelled && s.token in c.streams && c.streams[s.token].flow == s.flow
    {
      if i < |b.sent| {
        assert c.sent[i] == b.sent[i];
      }
    }
  }

  lemma {:induction false} OpenFollows(t: Table, flow: Flow, now: nat)
    requires Inv(t)
    ensures Follows(t, Open(t, flow, now))
  {
    hide AllOwned, Current;
  }

  lemma {:induction false} DropFollows(t: Table, token: nat)
    ensures Follows(t, DropStream(t, token))
  {
  }

  lemma {:induction false} DeliverFollows(t: Table, flow: Flow, payload: Bytes, now: nat)
    requires flow in t.flows && t.flows[flow].token in t.streams ==>
               t.flows[flow].token !in t.cancelled || t.streams[t.flows[flow].token].dropped
    ensures Follows(t, Deliver(t, flow, payload, now))
  {
  }

  lemma {:induction false} InputFollows(t: Table, flow: Flow, payload: Bytes, admitted: bool, taken: bool, now: nat)
    requires Inv(t)
    ensures Follows(t, Input(t, flow, payload, admitted, taken, now))
  {
    hide Deliver, Follows, AllOwned, Current;
    var t1 := Evict(t, flow);
    EvictKeepsInv(t, flow);
    assert Follows(t, t1) by { EvictFollows(t, flow); }
    FollowsItself(t);
    if flow in t1.flows {
      DeliverFollows(t1, flow, payload, now);
      FollowsTransitive(t, t1, Deliver(t1, flow, payload, now));
    } else {
      var t2 := Open(t1, flow, now);
      var t3 := if taken then t2 else DropStream(t2, t1.nextToken);
      OpenFollows(t1, flow, now);
      FollowsTransitive(t, t1, t2);
      DropFollows(t2, t1.nextToken);
      FollowsItself(t2);
      FollowsTransitive(t, t2, t3);
      DeliverFollows(t3, flow, payload, now);
      FollowsTransitive(t, t3, Deliver(t3, flow, payload, now));
    }
  }

  lemma {:induction false} EvictFollows(t: Table, flow: Flow)
    ensures Follows(t, Evict(t, flow))
  {
  }

  lemma {:induction false} CommandFollows(t: Table, now: nat)
    requires Inv(t) && t.pending != []
    ensures Follows(t, Output(t.(pending := t.pending[1..]), t.pending[0], now))
  {
    hide Current;
    assert Owned(t.streams, t.pending[0]);
  }

  lemma {:induction false} OwnStepsFollow(t: Table, token: nat, bytes: Bytes, ended: bool)
    ensures Follows(t, SendOn(t, token, bytes)) && Follows(t, Receive(t, token, ended).0)
  {
  }

  lemma {:induction false} ExpireFollows(t: Table, now: nat, timeout: nat)
    ensures Follows(t, Expire(t, now, timeout))
  {
    hide Stale;
  }

  lemma {:induction false} StepFollows(t: Table, ev: Event)
    requires Inv(t)
    ensures Follows(t, Step(t, ev))
  {
    hide Inv, Follows, Input, Output, Open, DropStream, Expire, SendOn, Receive, FreePort;
    FollowsItself(t);
    match ev
    case Arrives(flow, payload, admitted, taken, now) => InputFollows(t, flow, payload, admitted, taken, now);
    case Dials(target, now) =>
      if FreePort(t, target, FIRST_PORT).Some? {
        OpenFollows(t, FlowFrom(t, FreePort(t, target, FIRST_PORT).value, target), now);
      }
    case Sends(token, bytes) => OwnStepsFollow(t, token, bytes, false);
    case Command(now) =>
      if t.pending != [] {
        CommandFollows(t, now);
      }
    case Receives(token, ended) => OwnStepsFollow(t, token, [], ended);
    case Drops(token) => DropFollows(t, token);
    case Expires(now, timeout) => ExpireFollows(t, now, timeout);
  }

  lemma {:induction false} RunFollows(t: Table, events: seq<Event>)
    requires Inv(t)
    ensures Follows(t, Run(t, events))
    decreases |events|
  {
    hide Inv, Step, Follows;
    if events == [] {
      assert Follows(t, t) by { FollowsItself(t); }
    } else {
      StepKeepsInv(t, events[0]);
      StepFollows(t, events[0]);
      RunFollows(Step(t, events[0]), events[1..]);
      FollowsTransitive(t, Step(t, events[0]), Run(t, events));
    }
  }

  lemma {:induction false} FollowsItself(t: Table)
    ensures Follows(t, t)
  {
  }

  /**
   Once a stream's token is cancelled, nothing it queued leaves, on its old flow or any other, and no datagram
   that arrives later reaches it.
   */
  lemma {:induction false} OldStreamsAreCutOff(t: Table, events: seq<Event>, token: nat)
    requires Inv(t) && token in t.cancelled
    ensures var t' := Run(t, events);
            && token in t'.cancelled && token in t.streams && token in t'.streams
            && t'.streams[token].received == t.streams[token].received
            && t.sent <= t'.sent
            && forall i :: |t.sent| <= i < |t'.sent| ==> t'.sent[i].token != token
  {
    RunFollows(t, events);
    RunKeepsInv(t, events);
  }

  /** What leaves on a flow was sent by the stream that is the flow's entry at that moment. */
  lemma {:induction false} OutputIsTheEntrys(t: Table, now: nat)
    requires Inv(t) && t.pending != []
    ensures var t' := Step(t, Command(now)); var s := t.pending[0];
            && (t'.sent == t.sent || t'.sent == t.sent + [s])
            && (t'.sent == t.sent + [s] <==> s.token !in t.cancelled)
            && (s.token !in t.cancelled ==> s.flow in t.flows && t.flows[s.flow].token == s.token)
  {
    var s := t.pending[0];
    assert Owned(t.streams, s);
    if s.token !in t.cancelled {
      assert Current(t.flows, t.streams[s.token], s.token);
    }
    assert |t.sent + [s]| != |t.sent|;
  }

  /** In every reachable table a good token is its flow's entry, so no two good streams share a flow. */
  lemma {:induction false} GoodTokensAreEntries(local: Ip, events: seq<Event>)
    ensures var t := Run(Start(local), events);
            && |t.flows| <= MAX_CONNECTIONS
            && (forall k :: k in t.streams && k !in t.cancelled ==>
                  t.streams[k].flow in t.flows && t.flows[t.streams[k].flow].token == k)
            && (forall f :: f in t.flows ==> t.flows[f].token in t.streams && t.streams[t.flows[f].token].flow == f)
            && (forall k, m :: k in t.streams && m in t.streams && k != m && k !in t.cancelled && m !in t.cancelled ==>
                  t.streams[k].flow != t.streams[m].flow)
  {
    RunKeepsInv(Start(local), events);
    var t := Run(Start(local), events);
    forall k | k in t.streams && k !in t.cancelled
      ensures t.streams[k].flow in t.flows && t.flows[t.streams[k].flow].token == k
    {
      assert Current(t.flows, t.streams[k], k);
    }
  }

  /** A datagram goes to the stream that is its flow's entry, if it has room, and to no other. */
  lemma {:induction false} DatagramReachesTheEntry(t: Table, flow: Flow, payload: Bytes, admitted: bool, taken: bool,
                                                   now: nat, token: nat)
    requires Inv(t) && flow.local.port != 0 && flow.remote.port != 0
    requires token in t.streams && token !in t.cancelled && t.streams[token].flow == flow
    requires |t.streams[token].received| - t.streams[token].read < QUEUE
    ensures var t' := Input(t, flow, payload, admitted, taken, now);
            && t'.streams.Keys == t.streams.Keys && t'.cancelled == t.cancelled
            && t'.streams[token].received == t.streams[token].received + [payload]
            && forall k :: k in t.streams && k != token ==> t'.streams[k] == t.streams[k]
  {
    hide AllOwned;
    assert Current(t.flows, t.streams[token], token);
  }

  /** Expiry cancels exactly the streams idle for the timeout, and keeps every other flow as it is. */
  lemma {:induction false} OnlyIdleFlowsExpire(t: Table, now: nat, timeout: nat, token: nat)
    requires Inv(t) && token in t.streams && token !in t.cancelled
    ensures var flow := t.streams[token].flow; var t' := Expire(t, now, timeout);
            && flow in t.flows
            && (token in t'.cancelled <==> now - t.flows[flow].touched >= timeout)
            && (token !in t'.cancelled ==> flow in t'.flows && t'.flows[flow] == t.flows[flow])
  {
    hide AllOwned;
    assert Current(t.flows, t.streams[token], token);
    var flow := t.streams[token].flow;
    if now - t.flows[flow].touched < timeout {
      assert !Stale(t, flow, now, timeout);
    } else {
      assert Stale(t, flow, now, timeout);
    }
  }

  // ---- Dialing ----

  /** n ports of one target in use need n entries. */
  lemma {:induction false} PortsNeedEntries(t: Table, target: SocketAddr, flows: set<Flow>, n: nat)
    requires n <= 32768
    requires forall p: Port :: FIRST_PORT <= p < FIRST_PORT + n ==> FlowFrom(t, p, target) in flows
    ensures n <= |flows|
    decreases n
  {
    if n == 0 {
    } else {
      var top := FlowFrom(t, FIRST_PORT + n - 1, target);
      assert forall p: Port :: FIRST_PORT <= p < FIRST_PORT + n - 1 ==> FlowFrom(t, p, target) != top;
      PortsNeedEntries(t, target, flows - {top}, n - 1);
    }
  }

  /** Below the cap the port search always succeeds: a dial fails exactly at 256 flows. */
  lemma {:induction false} DialSucceedsBelowCap(t: Table, target: SocketAddr, now: nat)
    ensures DialUdp(t, target, now).1.None? <==> |t.flows| >= MAX_CONNECTIONS
    ensures |t.flows| < MAX_CONNECTIONS ==>
              var r := DialUdp(t, target, now);
              && r.1 == Some(t.nextToken) && t.nextToken in r.0.streams
              && r.0.streams[t.nextToken].flow !in t.flows
              && r.0.streams[t.nextToken].flow.remote == target
  {
    if |t.flows| < MAX_CONNECTIONS && FreePort(t, target, FIRST_PORT).None? {
      PortsNeedEntries(t, target, t.flows.Keys, 32768);
      assert false;
    }
  }
}
