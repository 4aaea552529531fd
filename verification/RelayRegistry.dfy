/**
 The local relay's table of clients. A client that reconnects displaces its older connection, whose own
 teardown may come later and must leave the newer entry alone.
 */
module RelayRegistry {
  import opened Common

  const QUEUE: nat := 256
  const MAX_PACKET: nat := 65536

  type PublicKey = Bytes

  datatype Packet = Packet(source: PublicKey, data: Bytes)

  /** A connection past its handshake; its channel is named by the order of registration. */
  datatype Connection = Connection(key: PublicKey, torn: bool, queued: seq<Packet>)

  datatype Relay = Relay(clients: map<PublicKey, nat>, connections: seq<Connection>)

  datatype Event =
    | Registers(key: PublicKey)                       // a handshake completes
    | Sends(connection: nat, to: PublicKey, data: Bytes)  // a send-packet frame is read
    | TearsDown(connection: nat)                      // the connection's loop ends, for any reason

  function Register(r: Relay, key: PublicKey): Relay {
    Relay(r.clients[key := |r.connections|], r.connections + [Connection(key, false, [])])
  }

  function Enqueue(c: Connection, p: Packet): Connection {
    if |c.queued| >= QUEUE then c else c.(queued := c.queued + [p])
  }

  /** The packet carries the sender's registered key, and goes to the entry of its destination, if any. */
  function Route(r: Relay, connection: nat, to: PublicKey, data: Bytes): Relay {
    if connection >= |r.connections| || r.connections[connection].torn || |data| > MAX_PACKET then r
    else if to !in r.clients || r.clients[to] >= |r.connections| then r
    else
      var id := r.clients[to];
      r.(connections := r.connections[id := Enqueue(r.connections[id], Packet(r.connections[connection].key, data))])
  }

  /** Removes the entry only if it is still this connection's own channel. */
  function TearDown(r: Relay, connection: nat): Relay {
    if connection >= |r.connections| || r.connections[connection].torn then r
    else
      var c := r.connections[connection];
      Relay(if c.key in r.clients && r.clients[c.key] == connection then r.clients - {c.key} else r.clients,
            r.connections[connection := c.(torn := true)])
  }

  function Step(r: Relay, ev: Event): Relay {
    match ev
    case Registers(key) => Register(r, key)
    case Sends(connection, to, data) => Route(r, connection, to, data)
    case TearsDown(connection) => TearDown(r, connection)
  }

  function Run(r: Relay, events: seq<Event>): Relay
    decreases |events|
  {
    if events == [] then r else Run(Step(r, events[0]), events[1..])
  }

  const EMPTY: Relay := Relay(map[], [])

  /** The most recent registration under the key. */
  predicate Latest(connections: seq<Connection>, key: PublicKey, id: nat) {
    && id < |connections| && connections[id].key == key
    && forall k :: id < k < |connections| ==> connections[k].key != key
  }

  /** An entry exists exactly when the latest registration under its key is not torn down, and is its channel. */
  ghost predicate Exact(r: Relay) {
    && (forall key :: key in r.clients ==>
          Latest(r.connections, key, r.clients[key]) && !r.connections[r.clients[key]].torn)
    && (forall key, id: nat :: Latest(r.connections, key, id) && !r.connections[id].torn ==>
          key in r.clients && r.clients[key] == id)
  }

  lemma {:induction false} RegisterIsExact(r: Relay, key: PublicKey)
    requires Exact(r)
    ensures Exact(Register(r, key))
  {
    var r' := Register(r, key);
    var n := |r.connections|;
    forall k | k in r'.clients
      ensures Latest(r'.connections, k, r'.clients[k]) && !r'.connections[r'.clients[k]].torn
    {
      if k != key {
        assert Latest(r.connections, k, r.clients[k]);
      }
    }
    forall k, id: nat | Latest(r'.connections, k, id) && !r'.connections[id].torn
      ensures k in r'.clients && r'.clients[k] == id
    {
      if id < n {
        assert r'.connections[n].key != k;
        assert forall m :: 0 <= m < n ==> r'.connections[m] == r.connections[m];
        assert Latest(r.connections, k, id);
      }
    }
  }

  lemma {:induction false} SameKeys(a: seq<Connection>, b: seq<Connection>)
    requires |a| == |b| && forall m :: 0 <= m < |a| ==> a[m].key == b[m].key
    ensures forall key, id: nat :: Latest(a, key, id) <==> Latest(b, key, id)
  {
  }

  /** Queues do not matter to the table. */
  lemma {:induction false} RouteIsExact(r: Relay, connection: nat, to: PublicKey, data: Bytes)
    requires Exact(r)
    ensures Exact(Route(r, connection, to, data))
  {
    var r' := Route(r, connection, to, data);
    SameKeys(r.connections, r'.connections);
  }

  lemma {:induction false} TearDownIsExact(r: Relay, connection: nat)
    requires Exact(r)
    ensures Exact(TearDown(r, connection))
  {
    var r' := TearDown(r, connection);
    SameKeys(r.connections, r'.connections);
  }

  lemma {:induction false} RunIsExact(r: Relay, events: seq<Event>)
    requires Exact(r)
    ensures Exact(Run(r, events))
    decreases |events|
  {
    hide Exact, Step;
    if events == [] {
    } else {
      StepIsExact(r, events[0]);
      RunIsExact(Step(r, events[0]), events[1..]);
    }
  }

  lemma {:induction false} StepIsExact(r: Relay, ev: Event)
    requires Exact(r)
    ensures Exact(Step(r, ev))
  {
    hide Exact, Register, Route, TearDown;
    match ev
    case Registers(key) => RegisterIsExact(r, key);
    case Sends(connection, to, data) => RouteIsExact(r, connection, to, data);
    case TearsDown(connection) => TearDownIsExact(r, connection);
  }

  /** For every interleaving of reconnects and late teardowns, the table is exact. */
  lemma {:induction false} TableIsExact(events: seq<Event>, key: PublicKey)
    ensures var r := Run(EMPTY, events);
            && (key in r.clients <==> exists id: nat :: Latest(r.connections, key, id) && !r.connections[id].torn)
            && (key in r.clients ==> Latest(r.connections, key, r.clients[key]))
  {
    RunIsExact(EMPTY, events);
  }

  /** A packet reaches the latest connection of its destination, from its sender's key, and nothing else changes. */
  lemma {:induction false} PacketsReachTheLatest(r: Relay, connection: nat, to: PublicKey, data: Bytes, id: nat)
    requires Exact(r) && connection < |r.connections| && !r.connections[connection].torn && |data| <= 65536
    requires Latest(r.connections, to, id) && !r.connections[id].torn && |r.connections[id].queued| < 256
    ensures var r' := Route(r, connection, to, data);
            && r'.clients == r.clients && |r'.connections| == |r.connections|
            && r'.connections[id].queued
               == r.connections[id].queued + [Packet(r.connections[connection].key, data)]
            && forall k :: 0 <= k < |r.connections| && k != id ==> r'.connections[k] == r.connections[k]
  {
  }

  /** A packet too long, for nobody connected, or for a connection with 256 packets waiting is lost. */
  lemma {:induction false} OtherPacketsAreLost(r: Relay, connection: nat, to: PublicKey, data: Bytes, id: nat)
    requires Exact(r) && Latest(r.connections, to, id)
    requires |data| > 65536 || r.connections[id].torn || |r.connections[id].queued| >= 256
    ensures Route(r, connection, to, data) == r
  {
    if to in r.clients {
      assert Latest(r.connections, to, r.clients[to]);
      assert r.clients[to] == id;
      assert r.connections[id := r.connections[id]] == r.connections;
    }
  }

  /** The teardown of the latest connection takes its entry away, and leaves every other entry and connection alone. */
  lemma {:induction false} TeardownTakesItsOwn(r: Relay, key: PublicKey, id: nat)
    requires Exact(r) && Latest(r.connections, key, id) && !r.connections[id].torn
    ensures var r' := TearDown(r, id);
      && r'.clients == r.clients - {key} && |r'.connections| == |r.connections|
      && r'.connections[id] == r.connections[id].(torn := true)
      && forall k :: 0 <= k < |r.connections| && k != id ==> r'.connections[k] == r.connections[k]
  {
  }

  /** A run goes on with its next event. */
  lemma {:induction false} RunGoesOn(r: Relay, events: seq<Event>, ev: Event)
    ensures Run(r, events + [ev]) == Step(Run(r, events), ev)
    decreases |events|
  {
    hide Step;
    var all := events + [ev];
    if events == [] {
      assert all[1..] == [] && all[0] == ev;
      assert Run(Step(r, ev), []) == Step(r, ev);
    } else {
      assert all[1..] == events[1..] + [ev];
      RunGoesOn(Step(r, events[0]), events[1..], ev);
    }
  }

  /** A displaced connection's teardown leaves the table as it is. */
  lemma {:induction false} LateTeardownIsHarmless(r: Relay, former: nat, newer: nat)
    requires Exact(r) && former < newer < |r.connections| && r.connections[newer].key == r.connections[former].key
    ensures TearDown(r, former).clients == r.clients
  {
    var key := r.connections[former].key;
    if key in r.clients {
      assert Latest(r.connections, key, r.clients[key]);
    }
  }

  /** The table shared by the relay's connection tasks, each method being what a task does under its lock. */
  class Registry {
    var clients: map<PublicKey, nat>
    var connections: seq<Connection>

    constructor ()
      ensures View() == EMPTY
    {
      clients, connections := map[], [];
    }

    function View(): Relay
      reads this
    {
      Relay(clients, connections)
    }

    method Insert(key: PublicKey) returns (id: nat)
      modifies this
      ensures View() == Register(old(View()), key)
      ensures old(Exact(View())) ==> Exact(View()) && Latest(connections, key, id)
    {
      hide Exact;
      if Exact(View()) {
        RegisterIsExact(View(), key);
      }
      id := |connections|;
      connections := connections + [Connection(key, false, [])];
      clients := clients[key := id];
    }

    method Send(connection: nat, to: PublicKey, data: Bytes)
      requires connection < |connections| && !connections[connection].torn
      modifies this`connections
      ensures View() == Route(old(View()), connection, to, data)
    {
      if |data| <= MAX_PACKET && to in clients && clients[to] < |connections| {
        var id := clients[to];
        var c := connections[id];
        if |c.queued| < QUEUE {
          c := c.(queued := c.queued + [Packet(connections[connection].key, data)]);
        }
        connections := connections[id := c];
      }
    }

    method Remove(connection: nat)
      requires connection < |connections| && !connections[connection].torn
      modifies this
      ensures View() == TearDown(old(View()), connection)
    {
      var key := connections[connection].key;
      if key in clients && clients[key] == connection {
        clients := clients - {key};
      }
      connections := connections[connection := connections[connection].(torn := true)];
    }
  }
}
