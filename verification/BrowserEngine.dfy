/**
 The browser engine's connections. Socket slots are recycled; a connection object names its link by slot and
 generation, and a generation is never used twice.
 */
module BrowserEngine {
  import opened Common
  import opened Endpoints
  import opened Tcp
  import Slots

  const MAX_CONNECTIONS: nat := 256
  const READ_CHUNK: nat := 64 * 1024
  const ACCEPT_LIMIT_MS: nat := 60_000
  const DRAIN_GRACE_MS: nat := 100

  datatype Link = Link(generation: nat, flow: Flow, port: Port, notified: bool, appClosed: bool, created: nat)

  /**
   A connection object, kept after its link is gone. `sent` and `got` are what its writes put on the socket and
   its reads returned, `discarded` counts the octets sweeps threw away, `announced` how often it was reported,
   and `base` is `sent` as the current write found it; the program keeps none of these five.
   */
  datatype Conn = Conn(handle: nat, flow: Flow, sent: Bytes, got: Bytes, discarded: nat, announced: nat,
                       writing: bool, data: Bytes, offset: nat, base: Bytes)

  datatype Engine = Engine(
    local: Ip, client: bool,
    links: map<nat, Link>, sockets: map<nat, Socket>,
    nextPort: Port, nextGeneration: nat,
    closed: bool, closing: bool, drainedAt: Option<nat>,
    conns: map<nat, Conn>)
  {
    predicate Live(handle: nat, generation: nat) {
      handle in links && links[handle].generation == generation
    }
  }

  function Start(local: Ip, client: bool): Engine {
    Engine(local, client, map[], map[], 32768, 1, false, false, None, map[])
  }

  // ---- New links ----

  function NewConn(handle: nat, flow: Flow): Conn {
    Conn(handle, flow, [], [], 0, 0, false, [], 0, [])
  }

  function MintAt(e: Engine, handle: nat, flow: Flow, port: Port, socket: Socket, notified: bool, now: nat): Engine {
    var g := e.nextGeneration;
    e.(links := e.links[handle := Link(g, flow, port, notified, false, now)],
       sockets := e.sockets[handle := socket],
       nextGeneration := g + 1,
       conns := e.conns[g := NewConn(handle, flow)])
  }

  function Mint(e: Engine, flow: Flow, port: Port, socket: Socket, notified: bool, now: nat): Engine {
    MintAt(e, Slots.FirstFree(e.sockets.Keys), flow, port, socket, notified, now)
  }

  predicate DialFails(e: Engine, connects: bool) {
    |e.links| >= MAX_CONNECTIONS || !connects
  }

  function Dialed(e: Engine, destination: Ip, port: Port, connects: bool, now: nat): Engine {
    if DialFails(e, connects) then e
    else
      var flow := Flow(SocketAddr(e.local, e.nextPort), SocketAddr(destination, port));
      var next := if e.nextPort == 65535 then 32768 else e.nextPort + 1;
      Mint(e.(nextPort := next), flow, port, Fresh(SynSent), true, now)
  }

  /** A closed socket awaiting removal does not block a new connection on the same flow. */
  predicate Duplicate(e: Engine, flow: Flow) {
    exists h :: h in e.links && h in e.sockets && e.links[h].flow == flow && !e.sockets[h].state.Closed?
  }

  function SynArrived(e: Engine, flow: Flow, listens: bool, now: nat): Engine {
    if e.client || Duplicate(e, flow) || |e.links| >= MAX_CONNECTIONS || !listens then e
    else Mint(e, flow, flow.local.port, Fresh(Listen), false, now)
  }

  // ---- The sweep that ends every tick ----

  datatype Swept = Swept(link: Link, socket: Socket, accepted: bool, removed: bool, discarded: nat)

  function Front(fronts: map<nat, nat>, h: nat, s: Socket): nat
    requires s.Bounded()
  {
    if h in fronts && 0 < fronts[h] <= |s.RxQueue()| then fronts[h] else |s.RxQueue()|
  }

  /** `front` is the contiguous front of the receive ring, discarded for an application that closed. */
  function SweepOne(l: Link, s: Socket, now: nat, front: nat): (r: Swept)
    requires s.Bounded() && front <= |s.RxQueue()|
    ensures r.socket.Bounded()
  {
    var discarded := if l.appClosed && s.CanRecv() then front else 0;
    var s1 := s.Consume(discarded);
    var accepted := !l.notified && (s1.state.Established? || s1.state.CloseWait?);
    var l1 := if accepted then l.(notified := true) else l;
    var late := !l1.notified && now - l1.created > ACCEPT_LIMIT_MS;
    var s2 := if late then s1.Abort() else s1;
    var l2 := if late then l1.(appClosed := true) else l1;
    Swept(l2, s2, accepted, s2.state.Closed? && s2.RxQueue() == [], discarded)
  }

  predicate AllBounded(sockets: map<nat, Socket>) {
    forall h :: h in sockets ==> sockets[h].Bounded()
  }

  predicate Shaped(e: Engine) {
    e.links.Keys == e.sockets.Keys && AllBounded(e.sockets)
  }

  function SweepAt(e: Engine, h: nat, now: nat, fronts: map<nat, nat>): Swept
    requires Shaped(e) && h in e.links
  {
    SweepOne(e.links[h], e.sockets[h], now, Front(fronts, h, e.sockets[h]))
  }

  /** What a connection's history gains from its link's turn in a sweep. */
  function Tally(c: Conn, r: Swept): Conn {
    c.(announced := if r.accepted then c.announced + 1 else c.announced, discarded := c.discarded + r.discarded)
  }

  function AfterSweep(e: Engine, g: nat, now: nat, fronts: map<nat, nat>): Conn
    requires Shaped(e) && g in e.conns
  {
    var c := e.conns[g];
    if e.Live(c.handle, g) then Tally(c, SweepAt(e, c.handle, now, fronts)) else c
  }

  function SweepLinks(e: Engine, now: nat, fronts: map<nat, nat>): Engine
    requires Shaped(e)
  {
    e.(links := map h | h in e.links && !SweepAt(e, h, now, fronts).removed :: SweepAt(e, h, now, fronts).link,
       sockets := map h | h in e.links && !SweepAt(e, h, now, fronts).removed :: SweepAt(e, h, now, fronts).socket,
       conns := map g | g in e.conns :: AfterSweep(e, g, now, fronts))
  }

  predicate Quiet(e: Engine) {
    forall h :: h in e.links && h in e.sockets ==>
      e.sockets[h].state.Closed? || e.sockets[h].state.TimeWait? || e.sockets[h].state.FinWait2?
  }

  function Shut(e: Engine): Engine {
    e.(closed := true, links := map[], sockets := map[])
  }

  function CloseIfDrained(e: Engine, now: nat): Engine {
    if !e.closing || !Quiet(e) then e
    else
      var at := if e.drainedAt.Some? then e.drainedAt.value else now;
      var e1 := e.(drainedAt := Some(at));
      if now - at > DRAIN_GRACE_MS then Shut(e1) else e1
  }

  // ---- What connection objects do ----

  predicate Usable(e: Engine, g: nat) {
    g in e.conns && !e.closed && e.Live(e.conns[g].handle, g)
  }

  function Put(e: Engine, g: nat, c: Conn, s: Socket): Engine {
    e.(sockets := e.sockets[c.handle := s], conns := e.conns[g := c])
  }

  datatype ReadAnswer = Chunk(data: Bytes) | Null | Later

  /** One look at the socket by a pending read. */
  function ReadOnce(e: Engine, g: nat): (r: (Engine, ReadAnswer))
    requires Shaped(e)
  {
    if !Usable(e, g) then (e, Null)
    else
      var c := e.conns[g];
      var s := e.sockets[c.handle];
      if s.CanRecv() then
        var data := s.RxQueue()[..Min(READ_CHUNK, |s.RxQueue()|)];
        (Put(e, g, c.(got := c.got + data), s.Consume(|data|)), Chunk(data))
      else if !s.MayRecv() then (e, Null)
      else (e, Later)
  }

  datatype WriteAnswer = Done | Failed | Waiting

  function StartWrite(e: Engine, g: nat, data: Bytes): (Engine, WriteAnswer) {
    if g !in e.conns || e.conns[g].writing then (e, Failed)
    else
      var c := e.conns[g];
      (e.(conns := e.conns[g := c.(writing := true, data := data, offset := 0, base := c.sent)]), Waiting)
  }

  function StopWriting(e: Engine, g: nat): Engine
    requires g in e.conns
  {
    e.(conns := e.conns[g := e.conns[g].(writing := false)])
  }

  function WritePiece(e: Engine, g: nat): (e': Engine)
    requires Shaped(e) && Usable(e, g) && e.conns[g].offset < |e.conns[g].data|
    requires |e.sockets[e.conns[g].handle].TxQueue()| < BUFFER_SIZE
    ensures g in e'.conns
  {
    var c := e.conns[g];
    var s := e.sockets[c.handle];
    var n := Min(BUFFER_SIZE - |s.TxQueue()|, |c.data| - c.offset);
    var piece := c.data[c.offset..c.offset + n];
    Put(e, g, c.(sent := c.sent + piece, offset := c.offset + n), s.Send(piece))
  }

  /** One turn of a pending write: as much as the transmit buffer takes. */
  function WriteOnce(e: Engine, g: nat): (Engine, WriteAnswer)
    requires Shaped(e)
  {
    if g !in e.conns || !e.conns[g].writing then (e, Failed)
    else
      var c := e.conns[g];
      if c.offset >= |c.data| then (StopWriting(e, g), Done)
      else if !Usable(e, g) then (StopWriting(e, g), Failed)
      else
        var s := e.sockets[c.handle];
        if !s.MaySend() then (StopWriting(e, g), Failed)
        else if !s.CanSend() then (e, Waiting)
        else
          var e1 := WritePiece(e, g);
          if e1.conns[g].offset == |c.data| then (StopWriting(e1, g), Done) else (e1, Waiting)
  }

  function CloseWrite(e: Engine, g: nat): Engine
    requires Shaped(e)
  {
    if !Usable(e, g) || e.conns[g].writing then e
    else Put(e, g, e.conns[g], e.sockets[e.conns[g].handle].Close())
  }

  function CloseConn(e: Engine, g: nat): Engine
    requires Shaped(e)
  {
    if !Usable(e, g) then e
    else
      var h := e.conns[g].handle;
      var e1 := Put(e, g, e.conns[g], e.sockets[h].Close());
      e1.(links := e1.links[h := e1.links[h].(appClosed := true)], closing := e1.closing || e1.client)
  }

  // ---- Runs ----

  datatype Event =
    | Dial(destination: Ip, port: Port, connects: bool, now: nat)
    | Syn(flow: Flow, listens: bool, now: nat)
    | Net(handle: nat, ev: NetEvent)
    | Sweep(now: nat, fronts: map<nat, nat>)
    | ShutDown
    | Reads(g: nat)
    | Writes(g: nat, data: Bytes)
    | WritesOn(g: nat)
    | ClosesWrite(g: nat)
    | Closes(g: nat)

  function Delivered(e: Engine, h: nat, ev: NetEvent): Engine
    requires Shaped(e)
  {
    if h in e.sockets then e.(sockets := e.sockets[h := OnNet(e.sockets[h], ev)]) else e
  }

  function Step(e: Engine, ev: Event): Engine
    requires Shaped(e)
  {
    match ev
    case Dial(destination, port, connects, now) => Dialed(e, destination, port, connects, now)
    case Syn(flow, listens, now) => SynArrived(e, flow, listens, now)
    case Net(h, n) => Delivered(e, h, n)
    case Sweep(now, fronts) => CloseIfDrained(SweepLinks(e, now, fronts), now)
    case ShutDown => Shut(e)
    case Reads(g) => ReadOnce(e, g).0
    case Writes(g, data) => StartWrite(e, g, data).0
    case WritesOn(g) => WriteOnce(e, g).0
    case ClosesWrite(g) => CloseWrite(e, g)
    case Closes(g) => CloseConn(e, g)
  }

  /** What a connection object has done is what its socket carries, until the application gives the rest up. */
  ghost predicate StreamsOk(l: Link, c: Conn, s: Socket)
    ensures StreamsOk(l, c, s) ==> s.Bounded() && c.announced <= 1
  {
    && s.Bounded()
    && s.out == c.sent
    && |c.got| + c.discarded == s.taken
    && (c.discarded == 0 ==> c.got == s.inn[..s.taken])
    && (!l.appClosed ==> c.discarded == 0)
    && (c.writing ==> c.offset <= |c.data| && c.sent == c.base + c.data[..c.offset])
    && c.announced <= 1
    && (!l.notified ==> c.announced == 0)
  }

  ghost predicate Owns(h: nat, l: Link, c: Conn, s: Socket)
    ensures Owns(h, l, c, s) ==> c.handle == h && c.flow == l.flow && StreamsOk(l, c, s) && s.Bounded()
  {
    c.handle == h && c.flow == l.flow && StreamsOk(l, c, s)
  }

  ghost predicate LinksOk(links: map<nat, Link>, sockets: map<nat, Socket>, conns: map<nat, Conn>)
    requires links.Keys <= sockets.Keys
  {
    forall h :: h in links ==>
      links[h].generation in conns && Owns(h, links[h], conns[links[h].generation], sockets[h])
  }

  ghost predicate Inv(e: Engine)
    ensures Inv(e) ==> Shaped(e)
  {
    && Shaped(e)
    && |e.links| <= MAX_CONNECTIONS
    && 32768 <= e.nextPort
    && LinksOk(e.links, e.sockets, e.conns)
    && (forall g :: g in e.conns ==> g < e.nextGeneration && e.conns[g].announced <= 1)
  }

  lemma {:induction false} MintKeepsInv(e: Engine, handle: nat, flow: Flow, port: Port, socket: Socket,
                                        notified: bool, now: nat)
    requires Inv(e) && |e.links| < MAX_CONNECTIONS && handle !in e.sockets
    requires socket == Fresh(SynSent) || socket == Fresh(Listen)
    ensures Inv(MintAt(e, handle, flow, port, socket, notified, now))
  {
    hide Owns, StreamsOk, LinksOk;
    var l := Link(e.nextGeneration, flow, port, notified, false, now);
    NewOwns(handle, l, socket);
    MintedLinks(e.links, e.sockets, e.conns, handle, l, socket, e.nextGeneration);
    MintedShape(e, handle, flow, port, socket, notified, now);
  }

  lemma {:induction false} MintedShape(e: Engine, handle: nat, flow: Flow, port: Port, socket: Socket,
                                       notified: bool, now: nat)
    requires Shaped(e) && handle !in e.sockets && socket.Bounded()
    ensures Shaped(MintAt(e, handle, flow, port, socket, notified, now))
    ensures |MintAt(e, handle, flow, port, socket, notified, now).links| == |e.links| + 1
  {
    var links := MintAt(e, handle, flow, port, socket, notified, now).links;
    assert links.Keys == e.links.Keys + {handle};
    assert |links| == |links.Keys|;
  }

  lemma {:induction false} MintedLinks(links: map<nat, Link>, sockets: map<nat, Socket>, conns: map<nat, Conn>,
                                       handle: nat, l: Link, socket: Socket, next: nat)
    requires links.Keys <= sockets.Keys && LinksOk(links, sockets, conns)
    requires forall g :: g in conns ==> g < next
    requires l.generation == next && handle !in links
    requires Owns(handle, l, NewConn(handle, l.flow), socket)
    ensures LinksOk(links[handle := l], sockets[handle := socket],
                    conns[next := NewConn(handle, l.flow)])
  {
    hide Owns, StreamsOk;
  }

  lemma {:induction false} NewOwns(h: nat, l: Link, socket: Socket)
    requires (socket == Fresh(SynSent) || socket == Fresh(Listen)) && !l.appClosed
    ensures Owns(h, l, NewConn(h, l.flow), socket)
  {
  }

  lemma {:induction false} PutLinks(links: map<nat, Link>, sockets: map<nat, Socket>, conns: map<nat, Conn>,
                                    h: nat, l: Link, c: Conn, s: Socket)
    requires links.Keys <= sockets.Keys && LinksOk(links, sockets, conns) && h in links
    requires l.generation == links[h].generation && Owns(h, l, c, s)
    ensures LinksOk(links[h := l], sockets[h := s], conns[l.generation := c])
  {
    hide Owns, StreamsOk;
    forall k | k in links
      ensures links[k].generation in conns && Owns(k, links[k], conns[links[k].generation], sockets[k])
    {
    }
  }

  lemma {:induction false} PutShape(links: map<nat, Link>, sockets: map<nat, Socket>, h: nat, l: Link, s: Socket)
    requires links.Keys == sockets.Keys && h in links && s.Bounded()
    requires AllBounded(sockets)
    ensures links[h := l].Keys == links.Keys && sockets[h := s].Keys == sockets.Keys
    ensures |links[h := l]| == |links|
    ensures AllBounded(sockets[h := s])
  {
    assert |links[h := l]| == |links[h := l].Keys| && |links| == |links.Keys|;
  }

  /** Replacing the socket and connection of one live link, and perhaps the link's own flags. */
  lemma {:induction false} PutKeepsInv(e: Engine, h: nat, l: Link, c: Conn, s: Socket)
    requires Inv(e) && h in e.links
    requires l.generation == e.links[h].generation && Owns(h, l, c, s)
    ensures Inv(e.(links := e.links[h := l], sockets := e.sockets[h := s], conns := e.conns[l.generation := c]))
  {
    hide Owns, StreamsOk, LinksOk;
    PutLinks(e.links, e.sockets, e.conns, h, l, c, s);
    PutShape(e.links, e.sockets, h, l, s);
    GenerationsMinted(e, h);
    var links, sockets, conns := e.links[h := l], e.sockets[h := s], e.conns[l.generation := c];
    var e' := e.(links := links, sockets := sockets, conns := conns);
    assert e'.links == links && e'.sockets == sockets && e'.conns == conns;
    assert forall g :: g in conns ==> g < e.nextGeneration && conns[g].announced <= 1;
  }

  lemma {:induction false} GenerationsMinted(e: Engine, h: nat)
    requires Inv(e) && h in e.links
    ensures e.links[h].generation < e.nextGeneration
  {
    hide Owns, StreamsOk;
  }

  lemma {:induction false} NetOwns(h: nat, l: Link, c: Conn, s: Socket, ev: NetEvent)
    requires Owns(h, l, c, s)
    ensures Owns(h, l, c, OnNet(s, ev))
  {
    if ev.TakeData? && Accepts(s, ev) {
      assert (s.inn + ev.data)[..s.taken] == s.inn[..s.taken];
    }
  }

  lemma {:induction false} SweepOwns(h: nat, l: Link, c: Conn, s: Socket, now: nat, front: nat)
    requires Owns(h, l, c, s) && front <= |s.RxQueue()|
    ensures var r := SweepOne(l, s, now, front);
            Owns(h, r.link, Tally(c, r), r.socket)
            && r.link.generation == l.generation && r.link.flow == l.flow
  {
  }

  lemma {:induction false} ReadOwns(h: nat, l: Link, c: Conn, s: Socket, data: Bytes)
    requires Owns(h, l, c, s) && data <= s.RxQueue()
    ensures Owns(h, l, c.(got := c.got + data), s.Consume(|data|))
  {
    assert s.inn[..s.taken + |data|] == s.inn[..s.taken] + data;
  }

  ghost predicate SweptOk(e: Engine, h: nat, now: nat, fronts: map<nat, nat>)
    requires Shaped(e) && h in e.links
  {
    var g, r := e.links[h].generation, SweepAt(e, h, now, fronts);
    && g in e.conns && e.conns[g].handle == h && r.link.generation == g
    && Owns(h, r.link, AfterSweep(e, g, now, fronts), r.socket)
  }

  lemma {:induction false} SweepKeepsLink(e: Engine, h: nat, now: nat, fronts: map<nat, nat>)
    requires Inv(e) && h in e.links
    ensures SweptOk(e, h, now, fronts)
  {
    hide Owns, StreamsOk, SweepOne;
    var g := e.links[h].generation;
    assert Owns(h, e.links[h], e.conns[g], e.sockets[h]);
    SweepOwns(h, e.links[h], e.conns[g], e.sockets[h], now, Front(fronts, h, e.sockets[h]));
  }

  lemma {:induction false} SweepCounts(e: Engine, g: nat, now: nat, fronts: map<nat, nat>)
    requires Inv(e) && g in e.conns
    ensures AfterSweep(e, g, now, fronts).announced <= 1
  {
    hide Owns, StreamsOk, SweepAt;
    var h := e.conns[g].handle;
    if e.Live(h, g) {
      SweepKeepsLink(e, h, now, fronts);
    }
  }

  lemma {:induction false} SweepKeepsInv(e: Engine, now: nat, fronts: map<nat, nat>)
    requires Inv(e)
    ensures Inv(SweepLinks(e, now, fronts))
  {
    hide Owns, StreamsOk, SweepAt, AfterSweep;
    var e' := SweepLinks(e, now, fronts);
    forall h | h in e'.links
      ensures SweptOk(e, h, now, fronts) && e'.sockets[h].Bounded()
    {
      SweepKeepsLink(e, h, now, fronts);
    }
    forall g | g in e'.conns
      ensures e'.conns[g].announced <= 1
    {
      SweepCounts(e, g, now, fronts);
    }
    Fewer(e'.links.Keys, e.links.Keys);
  }

  lemma {:induction false} ReadKeepsInv(e: Engine, g: nat)
    requires Inv(e)
    ensures Inv(ReadOnce(e, g).0)
  {
    hide Owns, StreamsOk, Put, LinksOk;
    if Usable(e, g) {
      var c := e.conns[g];
      var l, s := e.links[c.handle], e.sockets[c.handle];
      LiveOwns(e, g);
      if s.CanRecv() {
        var data := s.RxQueue()[..Min(READ_CHUNK, |s.RxQueue()|)];
        ReadOwns(c.handle, l, c, s, data);
        KeepLink(e, g, c.(got := c.got + data), s.Consume(|data|));
      }
    }
  }

  lemma {:induction false} WriteOwns(h: nat, l: Link, c: Conn, s: Socket, n: nat)
    requires Owns(h, l, c, s) && c.writing && c.offset + n <= |c.data|
    ensures var piece := c.data[c.offset..c.offset + n];
            Owns(h, l, c.(sent := c.sent + piece, offset := c.offset + n), s.Send(piece))
  {
    assert c.data[..c.offset] + c.data[c.offset..c.offset + n] == c.data[..c.offset + n];
  }

  lemma {:induction false} CloseOwns(h: nat, l: Link, c: Conn, s: Socket)
    requires Owns(h, l, c, s)
    ensures Owns(h, l, c, s.Close()) && Owns(h, l.(appClosed := true), c, s.Close())
  {
  }

  /** A write that starts or ends leaves the streams as they are. */
  lemma {:induction false} WritingOwns(h: nat, l: Link, c: Conn, c': Conn, s: Socket)
    requires Owns(h, l, c, s)
    requires c' == c.(writing := false)
             || exists data :: c' == c.(writing := true, data := data, offset := 0, base := c.sent)
    ensures Owns(h, l, c', s)
  {
    assert c'.data[..0] == [];
  }

  /** Starting or ending a write touches no socket, and the object may have outlived its link. */
  lemma {:induction false} WritingKeepsInv(e: Engine, g: nat, c: Conn)
    requires Inv(e) && g in e.conns
    requires c == e.conns[g].(writing := false)
             || exists data :: c == e.conns[g].(writing := true, data := data, offset := 0, base := e.conns[g].sent)
    ensures Inv(e.(conns := e.conns[g := c]))
  {
    hide Owns, StreamsOk;
    forall h | h in e.links
      ensures var g' := e.links[h].generation; Owns(h, e.links[h], e.conns[g := c][g'], e.sockets[h])
    {
      var g' := e.links[h].generation;
      assert Owns(h, e.links[h], e.conns[g'], e.sockets[h]);
      if g' == g {
        WritingOwns(h, e.links[h], e.conns[g], c, e.sockets[h]);
      }
    }
  }

  lemma {:induction false} PieceKeepsInv(e: Engine, g: nat)
    requires Inv(e) && Usable(e, g) && e.conns[g].writing && e.conns[g].offset < |e.conns[g].data|
    requires |e.sockets[e.conns[g].handle].TxQueue()| < BUFFER_SIZE
    ensures Inv(WritePiece(e, g))
  {
    hide Owns, StreamsOk, Put, LinksOk;
    var c := e.conns[g];
    var l, s := e.links[c.handle], e.sockets[c.handle];
    assert Owns(c.handle, l, c, s) by { LiveOwns(e, g); }
    var n := Min(BUFFER_SIZE - |s.TxQueue()|, |c.data| - c.offset);
    WriteOwns(c.handle, l, c, s, n);
    var piece := c.data[c.offset..c.offset + n];
    KeepLink(e, g, c.(sent := c.sent + piece, offset := c.offset + n), s.Send(piece));
  }

  lemma {:induction false} LiveOwns(e: Engine, g: nat)
    requires Inv(e) && g in e.conns && e.Live(e.conns[g].handle, g)
    ensures var c := e.conns[g]; Owns(c.handle, e.links[c.handle], c, e.sockets[c.handle])
  {
    hide Owns, StreamsOk;
  }

  lemma {:induction false} KeepLink(e: Engine, g: nat, c: Conn, s: Socket)
    requires Inv(e) && e.Live(c.handle, g) && Owns(c.handle, e.links[c.handle], c, s)
    ensures Inv(Put(e, g, c, s))
  {
    hide Inv, Owns, StreamsOk;
    PutKeepsInv(e, c.handle, e.links[c.handle], c, s);
    assert e.links[c.handle := e.links[c.handle]] == e.links;
  }

  lemma {:induction false} WriteOnceKeepsInv(e: Engine, g: nat)
    requires Inv(e)
    ensures Inv(WriteOnce(e, g).0)
  {
    hide Inv, WritePiece;
    if g in e.conns && e.conns[g].writing {
      var c := e.conns[g];
      WritingKeepsInv(e, g, c.(writing := false));
      if c.offset < |c.data| && Usable(e, g) && e.sockets[c.handle].CanSend() {
        PieceKeepsInv(e, g);
        var e1 := WritePiece(e, g);
        WritingKeepsInv(e1, g, e1.conns[g].(writing := false));
      }
    }
  }

  lemma {:induction false} CloseWriteKeepsInv(e: Engine, g: nat)
    requires Inv(e)
    ensures Inv(CloseWrite(e, g))
  {
    hide Owns, StreamsOk, Put, LinksOk;
    if Usable(e, g) {
      var c := e.conns[g];
      LiveOwns(e, g);
      CloseOwns(c.handle, e.links[c.handle], c, e.sockets[c.handle]);
      KeepLink(e, g, c, e.sockets[c.handle].Close());
    }
  }

  lemma {:induction false} CloseConnKeepsInv(e: Engine, g: nat)
    requires Inv(e)
    ensures Inv(CloseConn(e, g))
  {
    hide Owns, StreamsOk, LinksOk;
    if Usable(e, g) {
      var c := e.conns[g];
      var l, s := e.links[c.handle], e.sockets[c.handle];
      LiveOwns(e, g);
      CloseOwns(c.handle, l, c, s);
      PutKeepsInv(e, c.handle, l.(appClosed := true), c, s.Close());
    }
  }

  lemma {:induction false} DeliveredKeepsInv(e: Engine, h: nat, ev: NetEvent)
    requires Inv(e)
    ensures Inv(Delivered(e, h, ev))
  {
    hide Owns, StreamsOk, OnNet;
    if h in e.sockets {
      var l := e.links[h];
      var c := e.conns[l.generation];
      assert Owns(h, l, c, e.sockets[h]);
      NetOwns(h, l, c, e.sockets[h], ev);
      PutKeepsInv(e, h, l, c, OnNet(e.sockets[h], ev));
      assert e.links[h := l] == e.links && e.conns[l.generation := c] == e.conns;
    }
  }

  lemma {:induction false} ShutKeepsInv(e: Engine)
    requires Inv(e)
    ensures Inv(Shut(e))
  {
    hide Owns, StreamsOk;
  }

  lemma {:induction false} DrainKeepsInv(e: Engine, now: nat)
    requires Inv(e)
    ensures Inv(CloseIfDrained(e, now))
  {
    hide LinksOk, Shut, Quiet;
    var at := if e.drainedAt.Some? then e.drainedAt.value else now;
    ShutKeepsInv(e.(drainedAt := Some(at)));
  }

  lemma {:induction false} StepKeepsInv(e: Engine, ev: Event)
    requires Inv(e)
    ensures Inv(Step(e, ev))
  {
    hide Inv, MintAt, SweepLinks, CloseIfDrained, Delivered, ReadOnce, WriteOnce, CloseWrite, CloseConn;
    var handle := Slots.FirstFree(e.sockets.Keys);
    match ev
    case Dial(destination, port, connects, now) =>
      if !DialFails(e, connects) {
        DialKeepsInv(e, destination, port, now);
      }
    case Syn(flow, listens, now) =>
      if |e.links| < MAX_CONNECTIONS {
        MintKeepsInv(e, handle, flow, flow.local.port, Fresh(Listen), false, now);
      }
    case Net(h, n) => DeliveredKeepsInv(e, h, n);
    case Sweep(now, fronts) =>
      SweepKeepsInv(e, now, fronts);
      DrainKeepsInv(SweepLinks(e, now, fronts), now);
    case ShutDown => ShutKeepsInv(e);
    case Reads(g) => ReadKeepsInv(e, g);
    case Writes(g, data) => StartKeepsInv(e, g, data);
    case WritesOn(g) => WriteOnceKeepsInv(e, g);
    case ClosesWrite(g) => CloseWriteKeepsInv(e, g);
    case Closes(g) => CloseConnKeepsInv(e, g);
  }

  lemma {:induction false} StartKeepsInv(e: Engine, g: nat, data: Bytes)
    requires Inv(e)
    ensures Inv(StartWrite(e, g, data).0)
  {
    hide Inv;
    if g in e.conns {
      var c := e.conns[g];
      WritingKeepsInv(e, g, c.(writing := true, data := data, offset := 0, base := c.sent));
    }
  }

  lemma {:induction false} DialKeepsInv(e: Engine, destination: Ip, port: Port, now: nat)
    requires Inv(e) && |e.links| < MAX_CONNECTIONS
    ensures Inv(Dialed(e, destination, port, true, now))
  {
    hide MintAt, LinksOk;
    var flow := Flow(SocketAddr(e.local, e.nextPort), SocketAddr(destination, port));
    var e1 := e.(nextPort := if e.nextPort == 65535 then 32768 else e.nextPort + 1);
    MintKeepsInv(e1, Slots.FirstFree(e1.sockets.Keys), flow, port, Fresh(SynSent), true, now);
  }
}
