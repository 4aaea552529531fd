/** Stale owners never reach a recycled socket slot, over every run of the browser engine. */
module BrowserIdentity {
  import opened Common
  import opened Endpoints
  import opened Tcp
  import opened BrowserEngine
  import Slots

  ghost function Run(e: Engine, events: seq<Event>): (r: Engine)
    requires Inv(e)
    ensures Inv(r)
    decreases |events|
  {
    if events == [] then e
    else
      StepKeepsInv(e, events[0]);
      Run(Step(e, events[0]), events[1..])
  }

  lemma {:induction false} StartInv(local: Ip, client: bool)
    ensures Inv(Start(local, client))
  {
  }

  // ---- One life per generation ----

  ghost predicate Grows(s: Socket, s': Socket) {
    s.out <= s'.out && s.inn <= s'.inn && s.taken <= s'.taken
  }

  /** The link and socket in slot h either continue what was there or were minted since. */
  ghost predicate SlotContinues(e: Engine, e': Engine, h: nat)
    requires Shaped(e) && Shaped(e') && h in e'.links
  {
    var l := e'.links[h];
    l.generation >= e.nextGeneration
    || (&& h in e.links && e.links[h].generation == l.generation
        && e.links[h].flow == l.flow && e.links[h].port == l.port && e.links[h].created == l.created
        && Grows(e.sockets[h], e'.sockets[h]))
  }

  ghost predicate Continues(e: Engine, e': Engine)
    requires Shaped(e) && Shaped(e')
  {
    && e.nextGeneration <= e'.nextGeneration
    && (forall h :: h in e'.links ==> SlotContinues(e, e', h))
    && (forall g :: g in e.conns ==> g in e'.conns && e'.conns[g].handle == e.conns[g].handle)
  }

  lemma {:induction false} ContinuesTransitive(a: Engine, b: Engine, c: Engine)
    requires Shaped(a) && Shaped(b) && Shaped(c)
    requires Continues(a, b) && Continues(b, c)
    ensures Continues(a, c)
  {
    forall h | h in c.links
      ensures SlotContinues(a, c, h)
    {
      assert SlotContinues(b, c, h);
      if c.links[h].generation < b.nextGeneration {
        assert SlotContinues(a, b, h);
      }
    }
  }

  lemma {:induction false} MintContinues(e: Engine, flow: Flow, port: Port, socket: Socket, notified: bool, now: nat)
    requires Inv(e) && socket.Bounded()
    ensures Shaped(Mint(e, flow, port, socket, notified, now))
    ensures Continues(e, Mint(e, flow, port, socket, notified, now))
  {
    hide LinksOk;
    MintedShape(e, Slots.FirstFree(e.sockets.Keys), flow, port, socket, notified, now);
  }

  lemma {:induction false} NetGrows(s: Socket, ev: NetEvent)
    requires s.Bounded()
    ensures OnNet(s, ev).Bounded() && Grows(s, OnNet(s, ev))
  {
  }

  ghost predicate Carries(e: Engine, h: nat, r: Swept)
    requires Shaped(e) && h in e.links
  {
    Grows(e.sockets[h], r.socket) && SameTag(e.links[h], r.link) && r.socket.Bounded()
  }

  lemma {:induction false} SweepContinues(e: Engine, now: nat, fronts: map<nat, nat>)
    requires Shaped(e)
    ensures Shaped(SweepLinks(e, now, fronts)) && Continues(e, SweepLinks(e, now, fronts))
  {
    hide SweepAt, Grows, AfterSweep;
    forall h | h in e.links
      ensures Carries(e, h, SweepAt(e, h, now, fronts))
    {
      SweepCarries(e, h, now, fronts);
    }
    forall g | g in e.conns
      ensures AfterSweep(e, g, now, fronts).handle == e.conns[g].handle
    {
      TallyKeepsHandle(e, g, now, fronts);
    }
  }

  lemma {:induction false} SweepCarries(e: Engine, h: nat, now: nat, fronts: map<nat, nat>)
    requires Shaped(e) && h in e.links
    ensures Carries(e, h, SweepAt(e, h, now, fronts))
  {
    hide SweepOne;
    SweepGrows(e.links[h], e.sockets[h], now, Front(fronts, h, e.sockets[h]));
  }

  lemma {:induction false} TallyKeepsHandle(e: Engine, g: nat, now: nat, fronts: map<nat, nat>)
    requires Shaped(e) && g in e.conns
    ensures AfterSweep(e, g, now, fronts).handle == e.conns[g].handle
  {
    hide SweepAt;
  }

  ghost predicate SameTag(l: Link, l': Link) {
    l'.generation == l.generation && l'.flow == l.flow && l'.port == l.port && l'.created == l.created
  }

  lemma {:induction false} SweepGrows(l: Link, s: Socket, now: nat, front: nat)
    requires s.Bounded() && front <= |s.RxQueue()|
    ensures var r := SweepOne(l, s, now, front);
            Grows(s, r.socket) && SameTag(l, r.link) && (!r.socket.state.Closed? ==> !s.state.Closed?)
  {
  }

  // ---- What one call on a connection object changes ----

  ghost predicate IsCall(ev: Event) {
    ev.Reads? || ev.Writes? || ev.WritesOn? || ev.ClosesWrite? || ev.Closes?
  }

  ghost predicate SocketMoves(s: Socket, s': Socket) {
    s'.Bounded() && Grows(s, s') && (s.state.Closed? ==> s'.state.Closed?)
  }

  /** At most the object's own record, and its own link and socket while it may use them. */
  ghost predicate Touches(e: Engine, e': Engine, g: nat)
    ensures Touches(e, e', g) ==> e'.nextGeneration == e.nextGeneration && e'.client == e.client
  {
    && e'.nextGeneration == e.nextGeneration && e'.client == e.client
    && e.links.Keys == e.sockets.Keys == e'.links.Keys == e'.sockets.Keys
    && e'.conns.Keys == e.conns.Keys
    && (forall k :: k in e.conns ==> e'.conns[k].handle == e.conns[k].handle && (k != g ==> e'.conns[k] == e.conns[k]))
    && (!Usable(e, g) ==> e'.links == e.links && e'.sockets == e.sockets)
    && (forall h :: h in e.links && e.links[h].generation != g ==>
          e'.links[h] == e.links[h] && e'.sockets[h] == e.sockets[h])
    && (forall h :: h in e.links ==> SameTag(e.links[h], e'.links[h]) && SocketMoves(e.sockets[h], e'.sockets[h]))
  }

  lemma {:induction false} PutTouches(e: Engine, g: nat, c: Conn, s: Socket)
    requires Shaped(e) && Usable(e, g) && c.handle == e.conns[g].handle && SocketMoves(e.sockets[c.handle], s)
    ensures Touches(e, Put(e, g, c, s), g)
  {
    hide SocketMoves;
    forall h | h in e.links ensures SocketMoves(e.sockets[h], e.sockets[h]) { MovesItself(e.sockets[h]); }
  }

  lemma {:induction false} MovesItself(s: Socket)
    requires s.Bounded()
    ensures SocketMoves(s, s)
  {
  }

  lemma {:induction false} RecordTouches(e: Engine, g: nat, c: Conn)
    requires Shaped(e) && g in e.conns && c.handle == e.conns[g].handle
    ensures Touches(e, e.(conns := e.conns[g := c]), g)
  {
    hide SocketMoves;
    forall h | h in e.links ensures SocketMoves(e.sockets[h], e.sockets[h]) { MovesItself(e.sockets[h]); }
  }

  lemma {:induction false} NothingTouches(e: Engine, g: nat)
    requires Shaped(e)
    ensures Touches(e, e, g)
  {
    hide SocketMoves;
    forall h | h in e.links ensures SocketMoves(e.sockets[h], e.sockets[h]) { MovesItself(e.sockets[h]); }
  }

  lemma {:induction false} ReadTouches(e: Engine, g: nat)
    requires Shaped(e)
    ensures Touches(e, ReadOnce(e, g).0, g)
  {
    hide Touches, Put;
    NothingTouches(e, g);
    if Usable(e, g) {
      var c := e.conns[g];
      var s := e.sockets[c.handle];
      if s.CanRecv() {
        var data := s.RxQueue()[..Min(READ_CHUNK, |s.RxQueue()|)];
        PutTouches(e, g, c.(got := c.got + data), s.Consume(|data|));
      }
    }
  }

  lemma {:induction false} PieceTouches(e: Engine, g: nat, writing: bool)
    requires Shaped(e) && Usable(e, g) && e.conns[g].offset < |e.conns[g].data|
    requires |e.sockets[e.conns[g].handle].TxQueue()| < BUFFER_SIZE
    ensures var e1 := WritePiece(e, g);
            Touches(e, e1.(conns := e1.conns[g := e1.conns[g].(writing := writing)]), g)
  {
    hide Touches;
    var c := e.conns[g];
    var s := e.sockets[c.handle];
    var n := Min(BUFFER_SIZE - |s.TxQueue()|, |c.data| - c.offset);
    var piece := c.data[c.offset..c.offset + n];
    var c1 := c.(sent := c.sent + piece, offset := c.offset + n, writing := writing);
    PutTouches(e, g, c1, s.Send(piece));
    var e1 := WritePiece(e, g);
    assert e1.(conns := e1.conns[g := e1.conns[g].(writing := writing)]) == Put(e, g, c1, s.Send(piece));
  }

  lemma {:induction false} WriteTouches(e: Engine, g: nat)
    requires Shaped(e)
    ensures Touches(e, WriteOnce(e, g).0, g)
  {
    hide Touches, WritePiece;
    NothingTouches(e, g);
    if g in e.conns && e.conns[g].writing {
      var c := e.conns[g];
      RecordTouches(e, g, c.(writing := false));
      if c.offset < |c.data| && Usable(e, g) && e.sockets[c.handle].CanSend() {
        PieceTouches(e, g, false);
        PieceTouches(e, g, true);
        var e1 := WritePiece(e, g);
        assert e1.conns[g].writing by { PieceWrites(e, g); }
        assert e1.(conns := e1.conns[g := e1.conns[g].(writing := true)]) == e1;
      }
    }
  }

  lemma {:induction false} PieceWrites(e: Engine, g: nat)
    requires Shaped(e) && Usable(e, g) && e.conns[g].offset < |e.conns[g].data|
    requires |e.sockets[e.conns[g].handle].TxQueue()| < BUFFER_SIZE
    ensures var c := WritePiece(e, g).conns[g];
            c.writing == e.conns[g].writing && c.data == e.conns[g].data && c.base == e.conns[g].base
  {
  }

  lemma {:induction false} CloseMoves(s: Socket)
    requires s.Bounded()
    ensures SocketMoves(s, s.Close())
  {
  }

  lemma {:induction false} CloseWriteTouches(e: Engine, g: nat)
    requires Shaped(e)
    ensures Touches(e, CloseWrite(e, g), g)
  {
    hide Touches, Put, SocketMoves;
    NothingTouches(e, g);
    if Usable(e, g) {
      var s := e.sockets[e.conns[g].handle];
      CloseMoves(s);
      PutTouches(e, g, e.conns[g], s.Close());
    }
  }

  lemma {:induction false} CloseConnTouches(e: Engine, g: nat)
    requires Shaped(e)
    ensures Touches(e, CloseConn(e, g), g)
  {
    hide SocketMoves;
    NothingTouches(e, g);
    if Usable(e, g) {
      var s := e.sockets[e.conns[g].handle];
      CloseMoves(s);
      PutTouches(e, g, e.conns[g], s.Close());
    }
  }

  lemma {:induction false} CallTouches(e: Engine, ev: Event)
    requires Shaped(e) && IsCall(ev)
    ensures Touches(e, Step(e, ev), ev.g)
  {
    hide Touches, Shaped, ReadOnce, WriteOnce, CloseWrite, CloseConn;
    match ev
    case Reads(g) => ReadTouches(e, g);
    case Writes(g, data) =>
      NothingTouches(e, g);
      if g in e.conns {
        RecordTouches(e, g, e.conns[g].(writing := true, data := data, offset := 0, base := e.conns[g].sent));
      }
    case WritesOn(g) => WriteTouches(e, g);
    case ClosesWrite(g) => CloseWriteTouches(e, g);
    case Closes(g) => CloseConnTouches(e, g);
  }

  lemma {:induction false} TouchedContinues(e: Engine, e': Engine, g: nat)
    requires Shaped(e) && Touches(e, e', g)
    ensures Shaped(e') && Continues(e, e')
  {
  }

  lemma {:induction false} DialContinues(e: Engine, destination: Ip, port: Port, connects: bool, now: nat)
    requires Inv(e)
    ensures Shaped(Dialed(e, destination, port, connects, now))
    ensures Continues(e, Dialed(e, destination, port, connects, now))
  {
    hide LinksOk, Mint, SlotContinues;
    ContinuesItself(e);
    if !DialFails(e, connects) {
      var flow := Flow(SocketAddr(e.local, e.nextPort), SocketAddr(destination, port));
      var next := if e.nextPort == 65535 then 32768 else e.nextPort + 1;
      var e1 := e.(nextPort := next);
      MintContinues(e1, flow, port, Fresh(SynSent), true, now);
      assert Continues(e, e1) by { Renumbered(e, next); }
      ContinuesTransitive(e, e1, Mint(e1, flow, port, Fresh(SynSent), true, now));
    }
  }

  lemma {:induction false} Renumbered(e: Engine, next: Port)
    requires Shaped(e)
    ensures Continues(e, e.(nextPort := next))
  {
  }

  lemma {:induction false} DeliveredContinues(e: Engine, h: nat, ev: NetEvent)
    requires Inv(e)
    ensures Shaped(Delivered(e, h, ev)) && Continues(e, Delivered(e, h, ev))
  {
    hide LinksOk, OnNet;
    if h in e.sockets {
      NetGrows(e.sockets[h], ev);
    }
  }

  lemma {:induction false} DrainContinues(e: Engine, now: nat)
    requires Shaped(e)
    ensures Shaped(CloseIfDrained(e, now)) && Continues(e, CloseIfDrained(e, now))
    ensures Continues(e, Shut(e))
  {
    hide Quiet;
  }

  lemma {:induction false} StepContinues(e: Engine, ev: Event)
    requires Inv(e)
    ensures Shaped(Step(e, ev)) && Continues(e, Step(e, ev))
  {
    hide Inv, SweepLinks, Mint, Dialed, Delivered, CloseIfDrained, Shut, Touches, Continues, Shaped, Duplicate;
    hide ReadOnce, WriteOnce, CloseWrite, CloseConn, StartWrite;
    StepKeepsInv(e, ev);
    ContinuesItself(e);
    match ev
    case Dial(destination, port, connects, now) => DialContinues(e, destination, port, connects, now);
    case Syn(flow, listens, now) => MintContinues(e, flow, flow.local.port, Fresh(Listen), false, now);
    case Net(h, n) => DeliveredContinues(e, h, n);
    case Sweep(now, fronts) =>
      SweepContinues(e, now, fronts);
      var e1 := SweepLinks(e, now, fronts);
      DrainContinues(e1, now);
      ContinuesTransitive(e, e1, CloseIfDrained(e1, now));
    case ShutDown => DrainContinues(e, 0);
    case _ =>
      CallTouches(e, ev);
      TouchedContinues(e, Step(e, ev), ev.g);
  }

  lemma {:induction false} RunContinues(e: Engine, events: seq<Event>)
    requires Inv(e)
    ensures Continues(e, Run(e, events))
    decreases |events|
  {
    hide Inv, Step, Continues, SlotContinues, Shaped;
    if events == [] {
      assert Continues(e, e) by { ContinuesItself(e); }
    } else {
      StepKeepsInv(e, events[0]);
      StepContinues(e, events[0]);
      RunContinues(Step(e, events[0]), events[1..]);
      ContinuesTransitive(e, Step(e, events[0]), Run(e, events));
    }
  }

  lemma {:induction false} ContinuesItself(e: Engine)
    requires Inv(e)
    ensures Continues(e, e)
  {
    hide LinksOk;
  }

  /** A dead (handle, generation) pair is never live again, whatever happens to its slot. */
  lemma {:induction false} DeadStaysDead(e: Engine, events: seq<Event>, handle: nat, generation: nat)
    requires Inv(e) && generation < e.nextGeneration && !e.Live(handle, generation)
    ensures !Run(e, events).Live(handle, generation)
  {
    hide Inv;
    RunContinues(e, events);
    var e' := Run(e, events);
    if handle in e'.links {
      assert SlotContinues(e, e', handle);
    }
  }

  /** While a pair stays live it names one link and one socket, whose streams only grow. */
  lemma {:induction false} LiveIsTheSameLink(e: Engine, events: seq<Event>, handle: nat, generation: nat)
    requires Inv(e) && generation < e.nextGeneration && Run(e, events).Live(handle, generation)
    ensures e.Live(handle, generation)
    ensures var e' := Run(e, events);
            SameTag(e.links[handle], e'.links[handle]) && Grows(e.sockets[handle], e'.sockets[handle])
  {
    hide Inv;
    RunContinues(e, events);
    assert SlotContinues(e, Run(e, events), handle);
  }

  /** A connection object acts on the link it was minted for, or on nothing. */
  lemma {:induction false} ActsOnItsOwnLink(e: Engine, ev: Event)
    requires Inv(e) && IsCall(ev)
    ensures var e' := Step(e, ev);
            && e'.links.Keys == e.links.Keys && e'.sockets.Keys == e.sockets.Keys
            && (!Usable(e, ev.g) ==> e'.links == e.links && e'.sockets == e.sockets)
            && (forall h :: h in e.links && e.links[h].generation != ev.g ==>
                  e'.links[h] == e.links[h] && e'.sockets[h] == e.sockets[h])
            && (Usable(e, ev.g) ==> e.links[e.conns[ev.g].handle].flow == e.conns[ev.g].flow)
  {
    hide LinksOk, Step, SocketMoves;
    CallTouches(e, ev);
    if Usable(e, ev.g) {
      LiveOwns(e, ev.g);
    }
  }

  /** Generations are distinct, links and sockets pair up, and there are at most 256 of each. */
  lemma {:induction false} LinksAndSocketsPair(local: Ip, client: bool, events: seq<Event>)
    ensures Inv(Start(local, client))
    ensures var e := Run(Start(local, client), events);
            && e.links.Keys == e.sockets.Keys
            && |e.links| <= MAX_CONNECTIONS && |e.sockets| <= MAX_CONNECTIONS
            && (forall h :: h in e.links ==> e.links[h].generation < e.nextGeneration)
            && (forall h, k :: h in e.links && k in e.links && h != k ==>
                  e.links[h].generation != e.links[k].generation)
            && (forall g :: g in e.conns ==> e.conns[g].announced <= 1)
  {
    hide StreamsOk;
    StartInv(local, client);
    var e := Run(Start(local, client), events);
    assert |e.links| == |e.links.Keys| == |e.sockets.Keys| == |e.sockets|;
    forall h | h in e.links
      ensures e.links[h].generation in e.conns && e.conns[e.links[h].generation].handle == h
    {
      assert Owns(h, e.links[h], e.conns[e.links[h].generation], e.sockets[h]);
    }
  }

  // ---- What is read and written ----

  /** In every run the socket carries exactly what writes accepted; every octet taken off it was read or discarded. */
  lemma {:induction false} StreamsAreExact(local: Ip, client: bool, events: seq<Event>, g: nat)
    ensures Inv(Start(local, client))
    ensures var e := Run(Start(local, client), events);
            g in e.conns && e.Live(e.conns[g].handle, g) ==>
              var c := e.conns[g];
              var s := e.sockets[c.handle];
              && s.Bounded() && s.out == c.sent
              && |c.got| + c.discarded == s.taken
              && (c.got == s.inn[..s.taken] <==> c.discarded == 0)
              && (!e.links[c.handle].appClosed ==> c.discarded == 0)
  {
    hide LinksOk;
    StartInv(local, client);
    var e := Run(Start(local, client), events);
    if g in e.conns && e.Live(e.conns[g].handle, g) {
      LiveOwns(e, g);
    }
  }

  /** In every run a sweep removes a link only after an application that did not close it has read everything. */
  lemma {:induction false} RemovedWasRead(local: Ip, client: bool, events: seq<Event>, h: nat, now: nat,
                                          fronts: map<nat, nat>)
    ensures Inv(Start(local, client))
    ensures var e := Run(Start(local, client), events);
            h in e.links && SweepAt(e, h, now, fronts).removed && !SweepAt(e, h, now, fronts).link.appClosed ==>
              var g := e.links[h].generation;
              g in e.conns && e.conns[g].got == e.sockets[h].inn && e.sockets[h].state.Closed?
  {
    hide LinksOk, StreamsOk;
    StartInv(local, client);
    var e := Run(Start(local, client), events);
    if h in e.links && SweepAt(e, h, now, fronts).removed && !SweepAt(e, h, now, fronts).link.appClosed {
      LinkOwned(e, h);
      ReadWhenRemoved(h, e.links[h], e.conns[e.links[h].generation], e.sockets[h], now,
                      Front(fronts, h, e.sockets[h]));
    }
  }

  lemma {:induction false} LinkOwned(e: Engine, h: nat)
    requires Inv(e) && h in e.links
    ensures var g := e.links[h].generation; g in e.conns && Owns(h, e.links[h], e.conns[g], e.sockets[h])
  {
    hide Owns, StreamsOk;
  }

  lemma {:induction false} ReadWhenRemoved(h: nat, l: Link, c: Conn, s: Socket, now: nat, front: nat)
    requires Owns(h, l, c, s) && front <= |s.RxQueue()|
    requires SweepOne(l, s, now, front).removed && !SweepOne(l, s, now, front).link.appClosed
    ensures c.got == s.inn && s.state.Closed?
  {
    assert s.inn[..s.taken] == s.inn;
  }

  /** The object's write stays pending through the run. */
  ghost predicate Pending(e: Engine, events: seq<Event>, g: nat)
    requires Inv(e)
    decreases |events|
  {
    g in e.conns && e.conns[g].writing
    && (events != [] ==> (StepKeepsInv(e, events[0]); Pending(Step(e, events[0]), events[1..], g)))
  }

  ghost predicate SameWrite(c: Conn, c': Conn) {
    c.writing && c'.writing ==> c'.data == c.data && c'.base == c.base
  }

  lemma {:induction false} OwnCallsKeepWrite(e: Engine, ev: Event)
    requires Inv(e) && IsCall(ev) && ev.g in e.conns && e.conns[ev.g].writing
    ensures ev.g in Step(e, ev).conns && SameWrite(e.conns[ev.g], Step(e, ev).conns[ev.g])
  {
    hide LinksOk, WritePiece;
    if ev.WritesOn? {
      var c := e.conns[ev.g];
      if c.offset < |c.data| && Usable(e, ev.g) && e.sockets[c.handle].CanSend() {
        PieceWrites(e, ev.g);
      }
    }
  }

  lemma {:induction false} OthersKeepWrite(e: Engine, ev: Event, g: nat)
    requires Inv(e) && g in e.conns && !IsCall(ev)
    ensures g in Step(e, ev).conns && SameWrite(e.conns[g], Step(e, ev).conns[g])
  {
    hide LinksOk, SweepAt, SweepLinks, OnNet, Duplicate, Quiet, Shaped, DialFails;
    if ev.Sweep? {
      SweepKeepsWrite(e, ev.now, ev.fronts, g);
      DrainKeepsConns(SweepLinks(e, ev.now, ev.fronts), ev.now);
    }
  }

  lemma {:induction false} DrainKeepsConns(e: Engine, now: nat)
    ensures CloseIfDrained(e, now).conns == e.conns
  {
    hide Quiet;
  }

  lemma {:induction false} SweepKeepsWrite(e: Engine, now: nat, fronts: map<nat, nat>, g: nat)
    requires Shaped(e) && g in e.conns
    ensures g in SweepLinks(e, now, fronts).conns && SameWrite(e.conns[g], SweepLinks(e, now, fronts).conns[g])
  {
    hide SweepAt;
    assert SweepLinks(e, now, fronts).conns[g] == AfterSweep(e, g, now, fronts);
  }

  lemma {:induction false} PendingStep(e: Engine, ev: Event, g: nat)
    requires Inv(e) && g in e.conns && e.conns[g].writing
    ensures g in Step(e, ev).conns && SameWrite(e.conns[g], Step(e, ev).conns[g])
  {
    hide LinksOk, Step, SocketMoves;
    if !IsCall(ev) {
      OthersKeepWrite(e, ev, g);
    } else if ev.g == g {
      OwnCallsKeepWrite(e, ev);
    } else {
      CallTouches(e, ev);
    }
  }

  lemma {:induction false} PendingRun(e: Engine, events: seq<Event>, g: nat)
    requires Inv(e) && Pending(e, events, g)
    ensures var e' := Run(e, events);
            g in e'.conns && e'.conns[g].writing
            && e'.conns[g].data == e.conns[g].data && e'.conns[g].base == e.conns[g].base
    decreases |events|
  {
    hide Inv, Step;
    if events == [] {
    } else {
      StepKeepsInv(e, events[0]);
      PendingRun(Step(e, events[0]), events[1..], g);
      assert Pending(Step(e, events[0]), events[1..], g);
      PendingStep(e, events[0], g);
    }
  }

  /**
   When a write reports success, its octets lie on the connection's stream whole and in one piece, right after
   what was there when it began, however it was interleaved with everything else.
   */
  lemma {:induction false} WriteIsWhole(e: Engine, g: nat, data: Bytes, events: seq<Event>)
    requires Inv(e) && StartWrite(e, g, data).1 == Waiting
    requires Inv(StartWrite(e, g, data).0) && Pending(StartWrite(e, g, data).0, events, g)
    requires var e1 := Run(StartWrite(e, g, data).0, events);
             WriteOnce(e1, g).1 == Done && e1.Live(e1.conns[g].handle, g)
    ensures var e2 := WriteOnce(Run(StartWrite(e, g, data).0, events), g).0;
            && e2.conns[g].sent == e.conns[g].sent + data
            && e2.conns[g].handle in e2.sockets
            && e2.sockets[e2.conns[g].handle].out == e.conns[g].sent + data
  {
    hide Inv, WriteOnce;
    var e0 := StartWrite(e, g, data).0;
    PendingRun(e0, events, g);
    DoneIsAll(Run(e0, events), g);
  }

  /** What the object and its socket hold once a write's octets are all on the stream. */
  ghost predicate Holds(e: Engine, g: nat, all: Bytes) {
    && g in e.conns && e.conns[g].handle in e.sockets
    && e.conns[g].sent == all && e.sockets[e.conns[g].handle].out == all
  }

  lemma {:induction false} LastPieceFills(e: Engine, g: nat)
    requires Inv(e) && Usable(e, g) && e.conns[g].writing && e.conns[g].offset < |e.conns[g].data|
    requires |e.sockets[e.conns[g].handle].TxQueue()| < BUFFER_SIZE
    requires WritePiece(e, g).conns[g].offset == |e.conns[g].data|
    ensures Holds(WritePiece(e, g), g, e.conns[g].base + e.conns[g].data)
  {
    hide LinksOk;
    LiveOwns(e, g);
    var c := e.conns[g];
    var s := e.sockets[c.handle];
    var n := Min(BUFFER_SIZE - |s.TxQueue()|, |c.data| - c.offset);
    assert c.data[..c.offset] + c.data[c.offset..c.offset + n] == c.data;
    assert c.base + c.data == (c.base + c.data[..c.offset]) + c.data[c.offset..c.offset + n];
  }

  lemma {:induction false} NothingLeftFills(e: Engine, g: nat)
    requires Inv(e) && g in e.conns && e.Live(e.conns[g].handle, g)
    requires e.conns[g].writing && e.conns[g].offset >= |e.conns[g].data|
    ensures Holds(e, g, e.conns[g].base + e.conns[g].data)
  {
    hide LinksOk;
    LiveOwns(e, g);
    assert e.conns[g].data[..e.conns[g].offset] == e.conns[g].data;
  }

  lemma {:induction false} StoppingHolds(e: Engine, g: nat, all: Bytes)
    requires Holds(e, g, all)
    ensures Holds(StopWriting(e, g), g, all)
  {
  }

  lemma {:induction false} DoneIsAll(e: Engine, g: nat)
    requires Inv(e) && WriteOnce(e, g).1 == Done && e.Live(e.conns[g].handle, g)
    ensures Holds(WriteOnce(e, g).0, g, e.conns[g].base + e.conns[g].data)
  {
    hide Inv, WritePiece, StopWriting, Holds;
    var all := e.conns[g].base + e.conns[g].data;
    if e.conns[g].offset >= |e.conns[g].data| {
      NothingLeftFills(e, g);
      StoppingHolds(e, g, all);
    } else {
      LastPieceFills(e, g);
      StoppingHolds(WritePiece(e, g), g, all);
    }
  }

  // ---- Flows on a server ----

  /** Two connections that are not closed are on different flows. */
  ghost predicate FlowsDiffer(e: Engine)
    requires Shaped(e)
  {
    forall h, k :: h in e.links && k in e.links && h != k
                   && !e.sockets[h].state.Closed? && !e.sockets[k].state.Closed? ==>
      e.links[h].flow != e.links[k].flow
  }

  /** Nothing appears and nothing reopens: every open link was open, on the same flow, before. */
  ghost predicate NoneOpened(e: Engine, e': Engine)
    requires Shaped(e) && Shaped(e')
  {
    forall h :: h in e'.links && !e'.sockets[h].state.Closed? ==>
      h in e.links && !e.sockets[h].state.Closed? && e.links[h].flow == e'.links[h].flow
  }

  lemma {:induction false} SweepOpensNone(e: Engine, now: nat, fronts: map<nat, nat>)
    requires Inv(e)
    ensures Shaped(SweepLinks(e, now, fronts)) && NoneOpened(e, SweepLinks(e, now, fronts))
  {
    hide SweepOne, LinksOk;
    forall h | h in e.links
      ensures var r := SweepAt(e, h, now, fronts);
              (!r.socket.state.Closed? ==> !e.sockets[h].state.Closed?) && r.link.flow == e.links[h].flow
              && r.socket.Bounded()
    {
      SweepGrows(e.links[h], e.sockets[h], now, Front(fronts, h, e.sockets[h]));
    }
  }

  lemma {:induction false} FlowsStillDiffer(e: Engine, e': Engine)
    requires Shaped(e) && Shaped(e') && FlowsDiffer(e) && NoneOpened(e, e')
    ensures FlowsDiffer(e')
  {
  }

  lemma {:induction false} TouchedOpensNone(e: Engine, e': Engine, g: nat)
    requires Shaped(e) && Touches(e, e', g)
    ensures Shaped(e') && NoneOpened(e, e')
  {
  }

  lemma {:induction false} DeliveredOpensNone(e: Engine, h: nat, ev: NetEvent)
    requires Shaped(e)
    ensures Shaped(Delivered(e, h, ev)) && NoneOpened(e, Delivered(e, h, ev))
  {
    hide OnNet;
    if h in e.sockets {
      NetGrows(e.sockets[h], ev);
      ClosedStays(e.sockets[h], ev);
    }
  }

  lemma {:induction false} ClosedStays(s: Socket, ev: NetEvent)
    requires s.Bounded()
    ensures s.state.Closed? ==> OnNet(s, ev).state.Closed?
  {
  }

  lemma {:induction false} SynFlowsDiffer(e: Engine, flow: Flow, listens: bool, now: nat)
    requires Inv(e) && FlowsDiffer(e)
    requires Shaped(SynArrived(e, flow, listens, now))
    ensures FlowsDiffer(SynArrived(e, flow, listens, now))
  {
    hide LinksOk;
  }

  lemma {:induction false} DrainOpensNone(e: Engine, now: nat)
    requires Shaped(e)
    ensures Shaped(CloseIfDrained(e, now)) && NoneOpened(e, CloseIfDrained(e, now)) && NoneOpened(e, Shut(e))
    ensures CloseIfDrained(e, now).client == e.client
  {
    hide Quiet;
  }

  lemma {:induction false} ServerStep(e: Engine, ev: Event)
    requires Inv(e) && !e.client && !ev.Dial? && FlowsDiffer(e)
    ensures Shaped(Step(e, ev)) && !Step(e, ev).client && FlowsDiffer(Step(e, ev))
  {
    hide Inv, SweepLinks, CloseIfDrained, Delivered, Touches, FlowsDiffer, NoneOpened, Shaped, MintAt;
    hide ReadOnce, WriteOnce, CloseWrite, CloseConn, StartWrite;
    StepKeepsInv(e, ev);
    var e' := Step(e, ev);
    if ev.Syn? {
      SynFlowsDiffer(e, ev.flow, ev.listens, ev.now);
      assert !e'.client by { SynKeepsRole(e, ev.flow, ev.listens, ev.now); }
    } else if ev.Net? {
      DeliveredOpensNone(e, ev.handle, ev.ev);
      FlowsStillDiffer(e, e');
      assert e'.client == e.client by { DeliveredRole(e, ev.handle, ev.ev); }
    } else if ev.Sweep? {
      var e1 := SweepLinks(e, ev.now, ev.fronts);
      SweepOpensNone(e, ev.now, ev.fronts);
      FlowsStillDiffer(e, e1);
      DrainOpensNone(e1, ev.now);
      FlowsStillDiffer(e1, e');
      assert e1.client == e.client by { SweepRole(e, ev.now, ev.fronts); }
    } else if ev.ShutDown? {
      DrainOpensNone(e, 0);
      FlowsStillDiffer(e, e');
    } else {
      CallTouches(e, ev);
      TouchedOpensNone(e, e', ev.g);
      FlowsStillDiffer(e, e');
    }
  }

  lemma {:induction false} SynKeepsRole(e: Engine, flow: Flow, listens: bool, now: nat)
    ensures SynArrived(e, flow, listens, now).client == e.client
  {
  }

  lemma {:induction false} DeliveredRole(e: Engine, h: nat, ev: NetEvent)
    requires Shaped(e)
    ensures Delivered(e, h, ev).client == e.client
  {
  }

  lemma {:induction false} SweepRole(e: Engine, now: nat, fronts: map<nat, nat>)
    requires Shaped(e)
    ensures SweepLinks(e, now, fronts).client == e.client
  {
  }

  /** On a server, connections that are not closed are always on pairwise distinct flows. */
  lemma {:induction false} ServerFlowsDiffer(e: Engine, events: seq<Event>)
    requires Inv(e) && !e.client && FlowsDiffer(e) && forall ev :: ev in events ==> !ev.Dial?
    ensures FlowsDiffer(Run(e, events))
    decreases |events|
  {
    hide Inv, Step, FlowsDiffer;
    if events == [] {
    } else {
      assert events[0] in events;
      StepKeepsInv(e, events[0]);
      ServerStep(e, events[0]);
      ServerFlowsDiffer(Step(e, events[0]), events[1..]);
    }
  }
}
