/** The browser engine as the object its connection objects share. */
module BrowserActor {
  import opened Common
  import opened Endpoints
  import opened Tcp
  import opened BrowserEngine
  import Slots

  // ---- How far a pass over the links has come: those in `todo` are still as they were ----

  ghost predicate Passed(e: Engine, now: nat, fronts: map<nat, nat>, todo: set<nat>, removed: set<nat>,
                         links: map<nat, Link>, sockets: map<nat, Socket>)
    requires Shaped(e)
  {
    && links.Keys == e.links.Keys && sockets.Keys == e.sockets.Keys
    && todo <= e.links.Keys && removed <= e.links.Keys - todo
    && (forall h :: h in todo ==> links[h] == e.links[h] && sockets[h] == e.sockets[h])
    && (forall h :: h in e.links && h !in todo ==>
          var r := SweepAt(e, h, now, fronts);
          links[h] == r.link && sockets[h] == r.socket && (h in removed <==> r.removed))
  }

  ghost predicate ConnsPassed(e: Engine, now: nat, fronts: map<nat, nat>, todo: set<nat>, conns: map<nat, Conn>)
    requires Shaped(e)
  {
    && conns.Keys == e.conns.Keys
    && (forall g :: g in e.conns ==>
          conns[g] == if e.conns[g].handle in todo then e.conns[g] else AfterSweep(e, g, now, fronts))
  }

  lemma {:induction false} PassBegins(e: Engine, now: nat, fronts: map<nat, nat>)
    requires Shaped(e)
    ensures Passed(e, now, fronts, e.links.Keys, {}, e.links, e.sockets)
    ensures ConnsPassed(e, now, fronts, e.links.Keys, e.conns)
  {
    hide SweepAt;
  }

  /** What the next turn of the loop finds. */
  lemma {:induction false} PassAt(e: Engine, now: nat, fronts: map<nat, nat>, todo: set<nat>, removed: set<nat>,
                                  links: map<nat, Link>, sockets: map<nat, Socket>, conns: map<nat, Conn>, h: nat)
    requires Inv(e) && h in todo
    requires Passed(e, now, fronts, todo, removed, links, sockets) && ConnsPassed(e, now, fronts, todo, conns)
    ensures h in e.links && h in links && links[h] == e.links[h]
    ensures h in sockets && sockets[h] == e.sockets[h] && sockets[h].Bounded()
    ensures links[h].generation in conns
    ensures SweepAt(e, h, now, fronts) == SweepOne(links[h], sockets[h], now, Front(fronts, h, sockets[h]))
  {
    hide SweepOne, AfterSweep;
  }

  lemma {:induction false} PassOne(e: Engine, now: nat, fronts: map<nat, nat>, todo: set<nat>, removed: set<nat>,
                                   links: map<nat, Link>, sockets: map<nat, Socket>, h: nat, r: Swept)
    requires Shaped(e) && h in todo && h in e.links
    requires Passed(e, now, fronts, todo, removed, links, sockets) && r == SweepAt(e, h, now, fronts)
    ensures Passed(e, now, fronts, todo - {h}, if r.removed then removed + {h} else removed,
                   links[h := r.link], sockets[h := r.socket])
  {
    hide SweepAt;
  }

  lemma {:induction false} PassConn(e: Engine, now: nat, fronts: map<nat, nat>, todo: set<nat>,
                                    conns: map<nat, Conn>, h: nat, r: Swept)
    requires Inv(e) && h in todo && h in e.links
    requires ConnsPassed(e, now, fronts, todo, conns) && r == SweepAt(e, h, now, fronts)
    ensures var g := e.links[h].generation;
            g in conns
            && ConnsPassed(e, now, fronts, todo - {h}, conns[g := Tally(conns[g], r)])
  {
    hide SweepAt, StreamsOk;
    var g := e.links[h].generation;
    assert Owns(h, e.links[h], e.conns[g], e.sockets[h]);
  }

  lemma {:induction false} PassEnds(e: Engine, now: nat, fronts: map<nat, nat>, removed: set<nat>,
                                    links: map<nat, Link>, sockets: map<nat, Socket>, conns: map<nat, Conn>)
    requires Shaped(e) && Passed(e, now, fronts, {}, removed, links, sockets)
    requires ConnsPassed(e, now, fronts, {}, conns)
    ensures e.(links := links - removed, sockets := sockets - removed, conns := conns)
            == SweepLinks(e, now, fronts)
  {
    PassedLinks(e, now, fronts, removed, links, sockets);
    PassedSockets(e, now, fronts, removed, links, sockets);
    assert conns == SweepLinks(e, now, fronts).conns by {
      hide SweepAt, AfterSweep, Passed;
    }
  }

  lemma {:induction false} PassedLinks(e: Engine, now: nat, fronts: map<nat, nat>, removed: set<nat>,
                                       links: map<nat, Link>, sockets: map<nat, Socket>)
    requires Shaped(e) && Passed(e, now, fronts, {}, removed, links, sockets)
    ensures links - removed == SweepLinks(e, now, fronts).links
  {
    hide SweepAt, AfterSweep;
  }

  lemma {:induction false} PassedSockets(e: Engine, now: nat, fronts: map<nat, nat>, removed: set<nat>,
                                         links: map<nat, Link>, sockets: map<nat, Socket>)
    requires Shaped(e) && Passed(e, now, fronts, {}, removed, links, sockets)
    ensures sockets - removed == SweepLinks(e, now, fronts).sockets
  {
    hide SweepAt, AfterSweep;
  }

  class Browser {
    const local: Ip
    const client: bool
    var links: map<nat, Link>
    var sockets: map<nat, Socket>
    var nextPort: Port
    var nextGeneration: nat
    var closed: bool
    var closeWhenDrained: bool
    var drainedAt: Option<nat>
    var conns: map<nat, Conn>  // the connection objects, by generation, with their histories

    constructor (local: Ip, client: bool)
      ensures View() == Start(local, client)
    {
      this.local, this.client := local, client;
      links, sockets, nextPort, nextGeneration := map[], map[], 32768, 1;
      closed, closeWhenDrained, drainedAt, conns := false, false, None, map[];
    }

    function View(): Engine
      reads this
    {
      Engine(local, client, links, sockets, nextPort, nextGeneration, closed, closeWhenDrained, drainedAt, conns)
    }

    method AddLink(flow: Flow, port: Port, socket: Socket, notified: bool, now: nat) returns (handle: nat, g: nat)
      modifies this`links, this`sockets, this`nextGeneration, this`conns
      ensures View() == Mint(old(View()), flow, port, socket, notified, now)
      ensures handle == Slots.FirstFree(old(sockets).Keys) && g == old(nextGeneration)
    {
      handle := Slots.FirstFree(sockets.Keys);
      sockets := sockets[handle := socket];
      g := nextGeneration;
      nextGeneration := nextGeneration + 1;
      links := links[handle := Link(g, flow, port, notified, false, now)];
      conns := conns[g := NewConn(handle, flow)];
    }

    method Dial(destination: Ip, port: Port, connects: bool, now: nat) returns (r: Option<(nat, nat)>)
      modifies this
      ensures View() == Dialed(old(View()), destination, port, connects, now)
      ensures r.None? <==> DialFails(old(View()), connects)
      ensures r.Some? ==> r.value.1 == old(nextGeneration) && View().Live(r.value.0, r.value.1)
    {
      if |links| >= MAX_CONNECTIONS || !connects {
        return None;
      }
      var flow := Flow(SocketAddr(local, nextPort), SocketAddr(destination, port));
      nextPort := if nextPort == 65535 then 32768 else nextPort + 1;
      var handle, g := AddLink(flow, port, Fresh(SynSent), true, now);
      r := Some((handle, g));
    }

    /** A SYN for this engine's address; `listens` is whether the new socket could be put into LISTEN. */
    method ReceiveSyn(flow: Flow, listens: bool, now: nat)
      modifies this
      ensures View() == SynArrived(old(View()), flow, listens, now)
    {
      if client {
        return;
      }
      var duplicate := exists h :: h in links && h in sockets && links[h].flow == flow && !sockets[h].state.Closed?;
      if !duplicate && |links| < MAX_CONNECTIONS && listens {
        var _, _ := AddLink(flow, flow.local.port, Fresh(Listen), false, now);
      }
    }

    /** One turn of the loop over the links. */
    method SweepLink(l: Link, s: Socket, now: nat, front: nat) returns (r: Swept)
      requires s.Bounded() && front <= |s.RxQueue()|
      ensures r == SweepOne(l, s, now, front)
    {
      var link, socket, accepted, discarded := l, s, false, 0;
      if link.appClosed && socket.CanRecv() {
        socket := socket.Consume(front);
        discarded := front;
      }
      if !link.notified && (socket.state.Established? || socket.state.CloseWait?) {
        link := link.(notified := true);
        accepted := true;
      }
      if !link.notified && now - link.created > ACCEPT_LIMIT_MS {
        socket := socket.Abort();
        link := link.(appClosed := true);
      }
      r := Swept(link, socket, accepted, socket.state.Closed? && socket.RxQueue() == [], discarded);
    }

    method SweepNext(ghost e: Engine, now: nat, fronts: map<nat, nat>, ghost todo: set<nat>, removed: set<nat>, h: nat)
      returns (removed': set<nat>)
      requires Inv(e) && Passed(e, now, fronts, todo, removed, links, sockets) && h in todo
      requires ConnsPassed(e, now, fronts, todo, conns)
      modifies this`links, this`sockets, this`conns
      ensures Passed(e, now, fronts, todo - {h}, removed', links, sockets)
      ensures ConnsPassed(e, now, fronts, todo - {h}, conns)
    {
      hide SweepOne, SweepAt, Inv, Passed, ConnsPassed;
      PassAt(e, now, fronts, todo, removed, links, sockets, conns, h);
      var link, socket := links[h], sockets[h];
      var r := SweepLink(link, socket, now, Front(fronts, h, socket));
      PassOne(e, now, fronts, todo, removed, links, sockets, h, r);
      PassConn(e, now, fronts, todo, conns, h, r);
      conns := conns[link.generation := Tally(conns[link.generation], r)];
      links := links[h := r.link];
      sockets := sockets[h := r.socket];
      removed' := if r.removed then removed + {h} else removed;
    }

    method Sweep(now: nat, fronts: map<nat, nat>)
      requires Inv(View())
      modifies this
      ensures View() == CloseIfDrained(SweepLinks(old(View()), now, fronts), now)
    {
      hide CloseIfDrained, SweepAt, AfterSweep, Inv;
      ghost var e := View();
      SweepAll(now, fronts);
      CloseWhenQuiet(now);
    }

    method SweepAll(now: nat, fronts: map<nat, nat>)
      requires Inv(View())
      modifies this`links, this`sockets, this`conns
      ensures View() == SweepLinks(old(View()), now, fronts)
    {
      hide Inv, Passed, ConnsPassed, SweepLinks;
      ghost var e := View();
      var todo, removed: set<nat> := links.Keys, {};
      PassBegins(e, now, fronts);
      while todo != {}
        invariant Passed(e, now, fronts, todo, removed, links, sockets)
        invariant ConnsPassed(e, now, fronts, todo, conns)
        decreases |todo|
      {
        var h :| h in todo;
        removed := SweepNext(e, now, fronts, todo, removed, h);
        todo := todo - {h};
      }
      PassEnds(e, now, fronts, removed, links, sockets, conns);
      links := links - removed;
      sockets := sockets - removed;
    }

    method CloseWhenQuiet(now: nat)
      modifies this
      ensures View() == CloseIfDrained(old(View()), now)
    {
      if closeWhenDrained && Quiet(View()) {
        var at := if drainedAt.Some? then drainedAt.value else now;
        drainedAt := Some(at);
        if now - at > DRAIN_GRACE_MS {
          Close();
        }
      }
    }

    /** Every slot number may be handed out again, but the generation counter goes on. */
    method Close()
      modifies this`closed, this`links, this`sockets
      ensures View() == Shut(old(View()))
    {
      closed := true;
      links := map[];
      sockets := map[];
    }

    // ---- The connection object's calls; each may find its link gone ----

    method Read(g: nat) returns (r: ReadAnswer)
      requires Shaped(View())
      modifies this`sockets, this`conns
      ensures (View(), r) == ReadOnce(old(View()), g)
    {
      if closed || g !in conns || !View().Live(conns[g].handle, g) {
        return Null;
      }
      var c := conns[g];
      var socket := sockets[c.handle];
      if socket.CanRecv() {
        var data := socket.RxQueue()[..Min(READ_CHUNK, |socket.RxQueue()|)];
        sockets := sockets[c.handle := socket.Consume(|data|)];
        conns := conns[g := c.(got := c.got + data)];
        return Chunk(data);
      }
      r := if socket.MayRecv() then Later else Null;
    }

    method Write(g: nat, data: Bytes) returns (r: WriteAnswer)
      modifies this`conns
      ensures (View(), r) == StartWrite(old(View()), g, data)
    {
      if g !in conns || conns[g].writing {
        return Failed;
      }
      conns := conns[g := conns[g].(writing := true, data := data, offset := 0, base := conns[g].sent)];
      r := Waiting;
    }

    /** One turn of the write loop, from its guard to its guard. */
    method WriteOn(g: nat) returns (r: WriteAnswer)
      requires Shaped(View())
      modifies this`sockets, this`conns
      ensures (View(), r) == WriteOnce(old(View()), g)
    {
      if g !in conns || !conns[g].writing {
        return Failed;
      }
      var c := conns[g];
      if c.offset >= |c.data| {
        conns := conns[g := c.(writing := false)];
        return Done;
      }
      if closed || !View().Live(c.handle, g) || !sockets[c.handle].MaySend() {
        conns := conns[g := c.(writing := false)];
        return Failed;
      }
      r := Waiting;
      var socket := sockets[c.handle];
      if socket.CanSend() {
        var n := Min(BUFFER_SIZE - |socket.TxQueue()|, |c.data| - c.offset);
        var piece := c.data[c.offset..c.offset + n];
        sockets := sockets[c.handle := socket.Send(piece)];
        c := c.(sent := c.sent + piece, offset := c.offset + n);
        conns := conns[g := c];
        if c.offset == |c.data| {
          conns := conns[g := c.(writing := false)];
          r := Done;
        }
      }
    }

    method CloseWriting(g: nat)
      requires Shaped(View())
      modifies this`sockets
      ensures View() == CloseWrite(old(View()), g)
    {
      if g in conns && !conns[g].writing && !closed && View().Live(conns[g].handle, g) {
        var h := conns[g].handle;
        sockets := sockets[h := sockets[h].Close()];
        assert conns[g := conns[g]] == conns;
      }
    }

    method CloseConnection(g: nat)
      requires Shaped(View())
      modifies this`sockets, this`links, this`closeWhenDrained
      ensures View() == CloseConn(old(View()), g)
    {
      if g in conns && !closed && View().Live(conns[g].handle, g) {
        var h := conns[g].handle;
        sockets := sockets[h := sockets[h].Close()];
        links := links[h := links[h].(appClosed := true)];
        if client {
          closeWhenDrained := true;
        }
        assert conns[g := conns[g]] == conns;
      }
    }
  }
}
