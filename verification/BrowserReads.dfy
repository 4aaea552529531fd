/** When what a browser connection has read is exactly what was received, and the run in which it is not. */
module BrowserReads {
  import opened Common
  import opened Endpoints
  import opened Tcp
  import opened BrowserEngine
  import opened BrowserIdentity
  import Slots

  // ---- The exact condition ----

  /** A sweep meets the connection fully closed by its application, with received octets still queued. */
  predicate Discards(e: Engine, ev: Event, g: nat)
    requires Shaped(e)
  {
    && ev.Sweep? && g in e.conns && e.Live(e.conns[g].handle, g)
    && e.links[e.conns[g].handle].appClosed && e.sockets[e.conns[g].handle].CanRecv()
  }

  ghost predicate NeverDiscards(e: Engine, events: seq<Event>, g: nat)
    requires Inv(e)
    decreases |events|
  {
    events == []
    || (!Discards(e, events[0], g)
        && (StepKeepsInv(e, events[0]); NeverDiscards(Step(e, events[0]), events[1..], g)))
  }

  function DiscardedOf(e: Engine, g: nat): nat {
    if g in e.conns then e.conns[g].discarded else 0
  }

  /** One sweep over one link: its reads stay exact if and only if it does not discard. */
  lemma {:induction false} SweepKeepsReadsExact(h: nat, l: Link, c: Conn, s: Socket, now: nat, fronts: map<nat, nat>)
    requires Owns(h, l, c, s) && c.got == s.inn[..s.taken]
    ensures var r := SweepOne(l, s, now, Front(fronts, h, s));
            c.got == r.socket.inn[..r.socket.taken] <==> !(l.appClosed && s.CanRecv())
  {
    var r := SweepOne(l, s, now, Front(fronts, h, s));
    assert r.socket.inn == s.inn;
    if l.appClosed && s.CanRecv() {
      assert |r.socket.inn[..r.socket.taken]| > |c.got|;
    }
  }

  lemma {:induction false} TurnDiscards(l: Link, s: Socket, now: nat, fronts: map<nat, nat>, h: nat)
    requires s.Bounded()
    ensures SweepOne(l, s, now, Front(fronts, h, s)).discarded > 0 <==> l.appClosed && s.CanRecv()
  {
  }

  lemma {:induction false} SweepCountsDiscards(e: Engine, now: nat, fronts: map<nat, nat>, g: nat)
    requires Shaped(e)
    ensures var d := DiscardedOf(SweepLinks(e, now, fronts), g);
            d >= DiscardedOf(e, g) && (d == DiscardedOf(e, g) <==> !Discards(e, Sweep(now, fronts), g))
  {
    hide SweepOne, Front;
    if g in e.conns {
      SweptConn(e, now, fronts, g);
      var h := e.conns[g].handle;
      if e.Live(h, g) {
        TurnDiscards(e.links[h], e.sockets[h], now, fronts, h);
      }
    }
  }

  lemma {:induction false} SweptConn(e: Engine, now: nat, fronts: map<nat, nat>, g: nat)
    requires Shaped(e) && g in e.conns
    ensures g in SweepLinks(e, now, fronts).conns
    ensures SweepLinks(e, now, fronts).conns[g] == AfterSweep(e, g, now, fronts)
  {
    hide SweepAt, AfterSweep;
  }

  lemma {:induction false} OwnCallsDiscardNothing(e: Engine, ev: Event)
    requires Inv(e) && IsCall(ev)
    ensures DiscardedOf(Step(e, ev), ev.g) == DiscardedOf(e, ev.g)
  {
    hide LinksOk, WritePiece;
    if ev.WritesOn? && Usable(e, ev.g) && e.conns[ev.g].offset < |e.conns[ev.g].data|
       && e.sockets[e.conns[ev.g].handle].CanSend() {
      PieceDiscardsNothing(e, ev.g);
    }
  }

  lemma {:induction false} PieceDiscardsNothing(e: Engine, g: nat)
    requires Shaped(e) && Usable(e, g) && e.conns[g].offset < |e.conns[g].data|
    requires |e.sockets[e.conns[g].handle].TxQueue()| < BUFFER_SIZE
    ensures WritePiece(e, g).conns[g].discarded == e.conns[g].discarded
  {
  }

  lemma {:induction false} NewLinksDiscardNothing(e: Engine, ev: Event, g: nat)
    requires Inv(e) && (ev.Dial? || ev.Syn? || ev.Net? || ev.ShutDown?)
    ensures DiscardedOf(Step(e, ev), g) == DiscardedOf(e, g)
  {
    hide LinksOk, OnNet, Duplicate, DialFails;
  }

  lemma {:induction false} StepCountsDiscards(e: Engine, ev: Event, g: nat)
    requires Inv(e)
    ensures DiscardedOf(Step(e, ev), g) >= DiscardedOf(e, g)
    ensures DiscardedOf(Step(e, ev), g) == DiscardedOf(e, g) <==> !Discards(e, ev, g)
  {
    hide Inv, SweepLinks, Mint, Delivered, CloseIfDrained, Touches;
    hide ReadOnce, WriteOnce, CloseWrite, CloseConn, StartWrite;
    if ev.Sweep? {
      SweepCountsDiscards(e, ev.now, ev.fronts, g);
      DrainKeepsConns(SweepLinks(e, ev.now, ev.fronts), ev.now);
    } else if !IsCall(ev) {
      NewLinksDiscardNothing(e, ev, g);
    } else if ev.g == g {
      OwnCallsDiscardNothing(e, ev);
    } else {
      OtherCallsDiscardNothing(e, ev, g);
    }
  }

  lemma {:induction false} OtherCallsDiscardNothing(e: Engine, ev: Event, g: nat)
    requires Inv(e) && IsCall(ev) && ev.g != g
    ensures DiscardedOf(Step(e, ev), g) == DiscardedOf(e, g)
  {
    hide LinksOk, Step, SocketMoves;
    CallTouches(e, ev);
  }

  lemma {:induction false} RunCountsDiscards(e: Engine, events: seq<Event>, g: nat)
    requires Inv(e)
    ensures DiscardedOf(Run(e, events), g) >= DiscardedOf(e, g)
    ensures DiscardedOf(Run(e, events), g) == DiscardedOf(e, g) <==> NeverDiscards(e, events, g)
    decreases |events|
  {
    hide Inv, Step, Discards, DiscardedOf;
    if events == [] {
    } else {
      StepKeepsInv(e, events[0]);
      StepCountsDiscards(e, events[0], g);
      RunCountsDiscards(Step(e, events[0]), events[1..], g);
    }
  }

  /**
   Over every run, what a live connection has read is exactly what was taken off its socket if and only if no
   sweep met it fully closed with octets still queued.
   */
  lemma {:induction false} ReadsAreExactUnlessDiscarded(local: Ip, client: bool, events: seq<Event>, g: nat)
    ensures Inv(Start(local, client))
    ensures var e := Run(Start(local, client), events);
            g in e.conns && e.Live(e.conns[g].handle, g) ==>
              var s := e.sockets[e.conns[g].handle];
              s.Bounded()
              && (e.conns[g].got == s.inn[..s.taken] <==> NeverDiscards(Start(local, client), events, g))
  {
    hide Inv, NeverDiscards;
    StreamsAreExact(local, client, events, g);
    RunCountsDiscards(Start(local, client), events, g);
  }

  // ---- A run that reads past a gap ----

  function DialedFlow(local: Ip, destination: Ip, port: Port): Flow {
    Flow(SocketAddr(local, 32768), SocketAddr(destination, port))
  }

  /** A client with the one connection it dialed. */
  function One(local: Ip, destination: Ip, port: Port, s: Socket, c: Conn, closed: bool): Engine {
    var flow := DialedFlow(local, destination, port);
    Engine(local, true, map[0 := Link(1, flow, port, true, closed, 0)], map[0 := s], 32769, 2,
           false, closed, None, map[1 := c])
  }

  lemma {:induction false} OneDialed(local: Ip, destination: Ip, port: Port)
    ensures Step(Start(local, true), Dial(destination, port, true, 0))
            == One(local, destination, port, Fresh(SynSent), NewConn(0, DialedFlow(local, destination, port)), false)
  {
    var e := Start(local, true);
    assert Slots.FirstFree(e.sockets.Keys) == 0;
  }

  lemma {:induction false} OneDelivered(local: Ip, destination: Ip, port: Port, s: Socket, c: Conn, closed: bool,
                                        ev: NetEvent)
    requires s.Bounded()
    ensures Shaped(One(local, destination, port, s, c, closed))
    ensures Step(One(local, destination, port, s, c, closed), Net(0, ev))
            == One(local, destination, port, OnNet(s, ev), c, closed)
  {
    hide OnNet;
  }

  lemma {:induction false} OneClosed(local: Ip, destination: Ip, port: Port, s: Socket, c: Conn)
    requires s.Bounded() && c.handle == 0
    ensures Shaped(One(local, destination, port, s, c, false))
    ensures Step(One(local, destination, port, s, c, false), Closes(1))
            == One(local, destination, port, s.Close(), c, true)
  {
  }

  lemma {:induction false} OneTurn(l: Link, s: Socket)
    requires s.Bounded() && s.state.FinWait1? && s.RxQueue() != [] && l.notified && l.appClosed
    ensures var n := |s.RxQueue()|;
            SweepOne(l, s, 0, Front(map[], 0, s)) == Swept(l, s.Consume(n), false, false, n)
  {
  }

  lemma {:induction false} OneSweptTables(local: Ip, destination: Ip, port: Port, s: Socket, c: Conn)
    requires s.Bounded() && s.state.FinWait1? && s.RxQueue() != [] && c.handle == 0
    ensures Shaped(One(local, destination, port, s, c, true))
    ensures var n := |s.RxQueue()|;
            SweepLinks(One(local, destination, port, s, c, true), 0, map[])
            == One(local, destination, port, s.Consume(n), c.(discarded := c.discarded + n), true)
  {
    hide SweepOne, Front;
    var e := One(local, destination, port, s, c, true);
    var n := |s.RxQueue()|;
    OneTurn(e.links[0], s);
    var e' := SweepLinks(e, 0, map[]);
    assert e'.links == e.links && e'.sockets == map[0 := s.Consume(n)];
    assert e'.conns == map[1 := c.(discarded := c.discarded + n)];
  }

  lemma {:induction false} OneSwept(local: Ip, destination: Ip, port: Port, s: Socket, c: Conn)
    requires s.Bounded() && s.state.FinWait1? && s.RxQueue() != [] && c.handle == 0
    ensures Shaped(One(local, destination, port, s, c, true))
    ensures var n := |s.RxQueue()|;
            Step(One(local, destination, port, s, c, true), Sweep(0, map[]))
            == One(local, destination, port, s.Consume(n), c.(discarded := c.discarded + n), true)
  {
    hide SweepLinks;
    OneSweptTables(local, destination, port, s, c);
    var e' := SweepLinks(One(local, destination, port, s, c, true), 0, map[]);
    assert 0 in e'.links && 0 in e'.sockets && !Quiet(e');
  }

  lemma {:induction false} RunOne(e: Engine, ev: Event, rest: seq<Event>)
    requires Inv(e)
    ensures Inv(Step(e, ev)) && Run(e, [ev] + rest) == Run(Step(e, ev), rest)
  {
    hide Inv, Step;
    StepKeepsInv(e, ev);
    assert ([ev] + rest)[1..] == rest;
  }

  // The socket as the run takes it: opened, one octet in, closed, discarded, another octet in.

  function Opened(): (s: Socket)
    ensures s.Bounded()
  {
    OnNet(Fresh(SynSent), Synchronize)
  }

  function Filled(): (s: Socket)
    ensures s.Bounded() && s.RxQueue() == [1]
  {
    assert [] + [1] == [1];
    OnNet(Opened(), TakeData([1]))
  }

  function Closing(): (s: Socket)
    ensures s.Bounded() && s.state.FinWait1? && s.inn == [1] && s.taken == 0
  {
    Filled().Close()
  }

  function Refilled(): (s: Socket)
    ensures s.Bounded() && s.state.FinWait1? && s.inn == [1, 2] && s.taken == 1
  {
    assert [1] + [2] == [1, 2];
    OnNet(Closing().Consume(1), TakeData([2]))
  }

  /** From the close on. */
  lemma {:induction false} GapTail(local: Ip, destination: Ip, port: Port, c: Conn, events: seq<Event>)
    requires c == NewConn(0, DialedFlow(local, destination, port))
    requires Inv(One(local, destination, port, Filled(), c, false))
    requires events == [Closes(1)] + ([Sweep(0, map[])] + ([Net(0, TakeData([2]))] + []))
    ensures Run(One(local, destination, port, Filled(), c, false), events)
            == One(local, destination, port, Refilled(), c.(discarded := 1), true)
  {
    hide Inv, Run, Step, One, OnNet;
    var rest5 := [Net(0, TakeData([2]))] + [];
    OneClosed(local, destination, port, Filled(), c);
    RunOne(One(local, destination, port, Filled(), c, false), Closes(1), [Sweep(0, map[])] + rest5);
    OneSwept(local, destination, port, Closing(), c);
    RunOne(One(local, destination, port, Closing(), c, true), Sweep(0, map[]), rest5);
    var s, c3 := Closing().Consume(1), c.(discarded := 1);
    OneDelivered(local, destination, port, s, c3, true, TakeData([2]));
    RunOne(One(local, destination, port, s, c3, true), Net(0, TakeData([2])), []);
    RunNone(One(local, destination, port, Refilled(), c3, true));
  }

  lemma {:induction false} GapHead(local: Ip, destination: Ip, port: Port, c: Conn, rest: seq<Event>)
    requires c == NewConn(0, DialedFlow(local, destination, port)) && Inv(Start(local, true))
    ensures Inv(One(local, destination, port, Filled(), c, false))
    ensures Run(Start(local, true),
                [Dial(destination, port, true, 0)] + ([Net(0, Synchronize)] + ([Net(0, TakeData([1]))] + rest)))
            == Run(One(local, destination, port, Filled(), c, false), rest)
  {
    hide Inv, Run, Step, One, OnNet;
    var rest2 := [Net(0, TakeData([1]))] + rest;
    OneDialed(local, destination, port);
    RunOne(Start(local, true), Dial(destination, port, true, 0), [Net(0, Synchronize)] + rest2);
    OneDelivered(local, destination, port, Fresh(SynSent), c, false, Synchronize);
    RunOne(One(local, destination, port, Fresh(SynSent), c, false), Net(0, Synchronize), rest2);
    OneDelivered(local, destination, port, Opened(), c, false, TakeData([1]));
    RunOne(One(local, destination, port, Opened(), c, false), Net(0, TakeData([1])), rest);
  }

  /**
   Why the condition is needed. A client dials, one octet arrives unread, the application closes, the sweep
   discards the octet, another arrives: a pending read answers the second octet without the first.
   */
  lemma {:induction false} ReadPastGap(local: Ip, destination: Ip, port: Port) returns (events: seq<Event>)
    ensures Inv(Start(local, true))
    ensures events == [Dial(destination, port, true, 0), Net(0, Synchronize), Net(0, TakeData([1])), Closes(1),
                       Sweep(0, map[]), Net(0, TakeData([2]))]
    ensures var e := Run(Start(local, true), events);
            && ReadOnce(e, 1).1 == Chunk([2])
            && 0 in e.sockets && e.sockets[0].inn == [1, 2]
            && 1 in ReadOnce(e, 1).0.conns && ReadOnce(e, 1).0.conns[1].got == [2]
  {
    hide Inv, Run, ReadOnce, One, Refilled, Filled;
    StartInv(local, true);
    var c := NewConn(0, DialedFlow(local, destination, port));
    var rest := [Closes(1)] + ([Sweep(0, map[])] + ([Net(0, TakeData([2]))] + []));
    GapHead(local, destination, port, c, rest);
    GapTail(local, destination, port, c, rest);
    OneReads(local, destination, port, Refilled(), c.(discarded := 1));
    events := [Dial(destination, port, true, 0)] + ([Net(0, Synchronize)] + ([Net(0, TakeData([1]))] + rest));
  }

  lemma {:induction false} RunNone(e: Engine)
    requires Inv(e)
    ensures Run(e, []) == e
  {
  }

  lemma {:induction false} OneReads(local: Ip, destination: Ip, port: Port, s: Socket, c: Conn)
    requires s.Bounded() && s.state.FinWait1? && s.inn == [1, 2] && s.taken == 1 && c.handle == 0 && c.got == []
    ensures var e := One(local, destination, port, s, c, true);
            && Shaped(e) && 0 in e.sockets && e.sockets[0] == s
            && ReadOnce(e, 1).1 == Chunk([2])
            && 1 in ReadOnce(e, 1).0.conns && ReadOnce(e, 1).0.conns[1].got == [2]
  {
    assert s.RxQueue() == [2];
    assert [2][..1] == [2] && [] + [2] == [2];
  }
}
