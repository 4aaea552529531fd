/**
 The TCP side of the native runtime actor: links between bounded application pipes and sockets.
 `PollOne` is one iteration of the polling loop; `Pump` is the function it is proved against.
 */
module LinkPump {
  import opened Common
  import opened Endpoints
  import opened Tcp

  const MAX_CONNECTIONS: nat := 256
  const CHUNK: nat := 16384
  const CONNECT_LIMIT_MS: nat := 20_000

  /** One direction of a duplex pipe: all octets ever written, how many were read, and whether the writer is done. */
  datatype Half = Half(data: Bytes, taken: nat, shut: bool) {
    predicate Bounded() {
      taken <= |data| <= taken + BUFFER_SIZE
    }

    function Queue(): Bytes
      requires Bounded()
    {
      data[taken..]
    }

    function Given(): Bytes
      requires Bounded()
    {
      data[..taken]
    }

    function Write(more: Bytes): Half {
      this.(data := data + more)
    }

    function Read(n: nat): Half {
      this.(taken := taken + n)
    }
  }

  /** `toNet` carries what the application writes, `toApp` what it will read. */
  datatype Pipe = Pipe(toNet: Half, toApp: Half, appReads: bool) {
    /** The application drops its end. */
    function AppDropped(): Pipe {
      this.(toNet := toNet.(shut := true), appReads := false)
    }
  }

  datatype Link = Link(
    handle: nat,
    flow: Flow,
    pipe: Pipe,
    appHeld: bool,      // the application's end waits here until the handshake completes
    connected: bool,    // a dialer waits for the result
    handler: bool,      // a service handler waits for the stream
    writeClosed: bool,
    readClosed: bool,
    started: nat,
    dialedAt: Option<nat>)  // the step of the port counter that dialed it; the program keeps no such number

  /** What one iteration can observe outside the actor. */
  datatype Observed = Observed(
    now: nat,
    dialerGone: bool,  // the dialer dropped its end of the result channel
    stretch: nat)      // length of the contiguous front of the receive ring

  datatype Polled = Polled(link: Link, socket: Socket, retired: bool)

  predicate Shaped(l: Link, s: Socket) {
    s.Bounded() && l.pipe.toNet.Bounded() && l.pipe.toApp.Bounded()
  }

  predicate SameLink(l: Link, l': Link) {
    l'.handle == l.handle && l'.flow == l.flow && l'.started == l.started && l'.dialedAt == l.dialedAt
  }

  // ----- One iteration, phase by phase -----

  /** An established connection hands the application its end of the pipe. */
  function HandOver(l: Link, s: Socket, o: Observed): (r: (Link, Socket))
    requires Shaped(l, s)
    ensures Shaped(r.0, r.1) && SameLink(l, r.0)
  {
    if !((s.state.Established? || s.state.CloseWait?) && l.appHeld) then (l, s)
    else if l.connected then
      if o.dialerGone then
        (l.(appHeld := false, connected := false, pipe := l.pipe.AppDropped()), s.Abort())
      else (l.(appHeld := false, connected := false), s)
    else if l.handler then (l.(appHeld := false, handler := false), s)
    else (l.(appHeld := false, pipe := l.pipe.AppDropped()), s)
  }

  function GiveUp(l: Link, s: Socket, o: Observed): (r: Socket)
    ensures s.Bounded() ==> r.Bounded()
  {
    if (l.connected && o.dialerGone) || (l.appHeld && o.now - l.started > CONNECT_LIMIT_MS)
    then s.Abort() else s
  }

  /** Application to network, at most one chunk; an exhausted, finished pipe closes the socket. */
  function PumpOut(l: Link, s: Socket): (r: (Link, Socket))
    requires Shaped(l, s)
    ensures Shaped(r.0, r.1) && SameLink(l, r.0)
  {
    if !s.CanSend() || l.writeClosed || l.appHeld then (l, s) else
    var queue := l.pipe.toNet.Queue();
    var n := Min(|queue|, Min(BUFFER_SIZE - |s.TxQueue()|, CHUNK));
    if queue == [] then
      if l.pipe.toNet.shut then (l.(writeClosed := true), s.Close()) else (l, s)
    else
      (l.(pipe := l.pipe.(toNet := l.pipe.toNet.Read(n))), s.Send(queue[..n]))
  }

  function Stretch(s: Socket, o: Observed): Bytes
    requires s.Bounded()
    ensures s.RxQueue() != [] ==> Stretch(s, o) != []
    ensures Stretch(s, o) <= s.RxQueue()
  {
    if 0 < o.stretch <= |s.RxQueue()| then s.RxQueue()[..o.stretch] else s.RxQueue()
  }

  /** Network to application; octets for an application that stopped reading are discarded. */
  function PumpIn(l: Link, s: Socket, o: Observed): (r: (Link, Socket))
    requires Shaped(l, s)
    ensures Shaped(r.0, r.1) && SameLink(l, r.0)
  {
    if !s.CanRecv() || l.appHeld then (l, s) else
    var data := Stretch(s, o);
    if !l.pipe.appReads || l.pipe.toApp.shut then
      (l.(readClosed := true), s.Consume(|data|))
    else
      var n := Min(|data|, BUFFER_SIZE - |l.pipe.toApp.Queue()|);
      (l.(pipe := l.pipe.(toApp := l.pipe.toApp.Write(data[..n]))), s.Consume(n))
  }

  /** The end of the received stream reaches the application. */
  function PassEof(l: Link, s: Socket): (r: Link)
    requires Shaped(l, s)
    ensures Shaped(r, s) && SameLink(l, r)
  {
    if !s.MayRecv() && !l.readClosed && !l.appHeld
    then l.(readClosed := true, pipe := l.pipe.(toApp := l.pipe.toApp.(shut := true)))
    else l
  }

  predicate Finished(l: Link, s: Socket)
    requires s.Bounded()
  {
    s.state.Closed? && (!s.CanRecv() || l.readClosed)
  }

  function Pump(l: Link, s: Socket, o: Observed): (r: Polled)
    requires Shaped(l, s)
    ensures Shaped(r.link, r.socket) && SameLink(l, r.link)
  {
    var (l1, s1) := HandOver(l, s, o);
    var s2 := GiveUp(l1, s1, o);
    var (l3, s3) := PumpOut(l1, s2);
    var (l4, s4) := PumpIn(l3, s3, o);
    var l5 := PassEof(l4, s4);
    if Finished(l5, s4) then Polled(l5.(connected := false), s4, true) else Polled(l5, s4, false)
  }

  // ----- What one iteration decides -----

  /** A link is retired exactly when its socket is closed and nothing received is left to pass on. */
  lemma {:induction false} PumpRetires(l: Link, s: Socket, o: Observed)
    requires Shaped(l, s)
    ensures var r := Pump(l, s, o);
      r.retired <==> r.socket.state.Closed? && (r.socket.RxQueue() == [] || r.link.readClosed)
  {
    hide HandOver, GiveUp, PumpOut, PumpIn, PassEof;
  }

  /** The handshake is over, and the application's end of the pipe still waits. */
  predicate Hands(l: Link, s: Socket) {
    l.appHeld && (s.state.Established? || s.state.CloseWait?)
  }

  /** Nobody takes the end handed over: the dialer has gone, or nobody dialed and there is no handler. */
  predicate Untaken(l: Link, s: Socket, o: Observed) {
    Hands(l, s) && if l.connected then o.dialerGone else !l.handler
  }

  /** The dialer has gone, or the handshake took more than twenty seconds. */
  predicate GivenUp(l: Link, s: Socket, o: Observed) {
    (l.connected && o.dialerGone) || (l.appHeld && !Hands(l, s) && o.now > l.started + 20_000)
  }

  /** The end is handed over once, when the handshake is over: to the dialer, else to the handler, else dropped. */
  lemma {:induction false} PumpHandsOver(l: Link, s: Socket, o: Observed)
    requires Shaped(l, s)
    ensures var r := Pump(l, s, o);
      && (r.link.appHeld <==> l.appHeld && !Hands(l, s))
      && (r.link.handler <==> l.handler && (l.connected || !Hands(l, s)))
      && (r.link.connected <==> l.connected && !Hands(l, s) && !r.retired)
      && (r.link.pipe.appReads <==> l.pipe.appReads && !Untaken(l, s, o))
      && (r.link.pipe.toNet.shut <==> l.pipe.toNet.shut || Untaken(l, s, o))
  {
    hide HandOver, GiveUp, PumpOut, PumpIn, PassEof, Shaped;
    HandsExactly(l, s, o);
    PumpKeepsFlags(l, s, o);
  }

  lemma {:induction false} HandsExactly(l: Link, s: Socket, o: Observed)
    requires Shaped(l, s)
    ensures var (l', s') := HandOver(l, s, o);
      && (l'.appHeld <==> l.appHeld && !Hands(l, s))
      && (l'.handler <==> l.handler && (l.connected || !Hands(l, s)))
      && (l'.connected <==> l.connected && !Hands(l, s))
      && (l'.pipe.appReads <==> l.pipe.appReads && !Untaken(l, s, o))
      && (l'.pipe.toNet.shut <==> l.pipe.toNet.shut || Untaken(l, s, o))
  {
  }

  predicate SameFlags(l: Link, l': Link) {
    && l'.appHeld == l.appHeld && l'.handler == l.handler && l'.connected == l.connected
    && l'.pipe.appReads == l.pipe.appReads && l'.pipe.toNet.shut == l.pipe.toNet.shut
  }

  /** Moving octets and passing on the end leave them alone. */
  lemma {:induction false} PumpKeepsFlags(l: Link, s: Socket, o: Observed)
    requires Shaped(l, s)
    ensures var h := HandOver(l, s, o); var r := Pump(l, s, o);
      SameFlags(h.0, r.link.(connected := if r.retired then h.0.connected else r.link.connected))
      && (r.retired ==> !r.link.connected)
  {
    hide HandOver, GiveUp, PumpOut, PumpIn, PassEof;
    var (l1, s1) := HandOver(l, s, o);
    var s2 := GiveUp(l1, s1, o);
    OutKeepsFlags(l1, s2);
    var (l3, s3) := PumpOut(l1, s2);
    InKeepsFlags(l3, s3, o);
    var (l4, s4) := PumpIn(l3, s3, o);
    EofKeepsFlags(l4, s4);
  }

  lemma {:induction false} OutKeepsFlags(l: Link, s: Socket)
    requires Shaped(l, s)
    ensures var r := PumpOut(l, s); SameFlags(l, r.0) && r.1.aborted == s.aborted && (s.state.Closed? ==> r.1 == s)
  {
  }

  lemma {:induction false} InKeepsFlags(l: Link, s: Socket, o: Observed)
    requires Shaped(l, s)
    ensures var r := PumpIn(l, s, o); SameFlags(l, r.0) && r.1.aborted == s.aborted && r.1.state == s.state
  {
  }

  lemma {:induction false} EofKeepsFlags(l: Link, s: Socket)
    requires Shaped(l, s)
    ensures SameFlags(l, PassEof(l, s))
  {
  }

  /** A link is aborted exactly when it is given up or dropped, and then its socket is closed. */
  lemma {:induction false} PumpAborts(l: Link, s: Socket, o: Observed)
    requires Shaped(l, s)
    ensures var r := Pump(l, s, o);
      && (r.socket.aborted <==> s.aborted || (GivenUp(l, s, o) && !s.state.Closed?))
      && (GivenUp(l, s, o) ==> r.socket.state.Closed?)
  {
    hide HandOver, GiveUp, PumpOut, PumpIn, PassEof;
    AbortsExactly(l, s, o);
    var (l1, s1) := HandOver(l, s, o);
    var s2 := GiveUp(l1, s1, o);
    OutKeepsFlags(l1, s2);
    var (l3, s3) := PumpOut(l1, s2);
    InKeepsFlags(l3, s3, o);
  }

  lemma {:induction false} AbortsExactly(l: Link, s: Socket, o: Observed)
    requires Shaped(l, s)
    ensures var h := HandOver(l, s, o); var s' := GiveUp(h.0, h.1, o);
      s' == if GivenUp(l, s, o) then s.Abort() else s
  {
  }

  /** Octets leave the pipe while the socket can send: as many as there are and fit, at most 16 KiB. */
  lemma {:induction false} PumpOutIsExact(l: Link, s: Socket)
    requires Shaped(l, s)
    ensures var queue, room := l.pipe.toNet.Queue(), BUFFER_SIZE - |s.TxQueue()|;
      var open := !l.appHeld && !l.writeClosed && (s.state.Established? || s.state.CloseWait?) && room > 0;
      var r := PumpOut(l, s);
      if open && queue != [] then
        var n := Min(|queue|, Min(room, 16384));
        r.1 == s.(out := s.out + queue[..n]) && r.0 == l.(pipe := r.0.pipe) && r.0.pipe.toNet.Queue() == queue[n..]
      else if open && l.pipe.toNet.shut then
        && r.0 == l.(writeClosed := true)
        && r.1 == s.(finQueued := true, state := if s.state.Established? then FinWait1 else LastAck)
      else r == (l, s)
  {
    assert forall n :: 0 <= n <= |l.pipe.toNet.Queue()| ==>
      l.pipe.toNet.data[l.pipe.toNet.taken + n..] == l.pipe.toNet.Queue()[n..];
  }

  function FrontOf(waiting: Bytes, stretch: nat): (n: nat)
    ensures n <= |waiting|
  {
    if 0 < stretch <= |waiting| then stretch else |waiting|
  }

  lemma {:induction false} StretchIsFront(s: Socket, o: Observed)
    requires s.Bounded()
    ensures Stretch(s, o) == s.RxQueue()[..FrontOf(s.RxQueue(), o.stretch)]
    ensures s.CanRecv() <==> s.RxQueue() != []
  {
  }

  /**
   Received octets move on, the contiguous front of them as far as the pipe has room; for an application that reads
   no more they are thrown away.
   */
  lemma {:induction false} PumpInIsExact(l: Link, s: Socket, o: Observed)
    requires Shaped(l, s)
    ensures var waiting := s.RxQueue();
      var front := FrontOf(waiting, o.stretch);
      var r := PumpIn(l, s, o);
      if l.appHeld || waiting == [] then r == (l, s)
      else if !l.pipe.appReads || l.pipe.toApp.shut then
        r == (l.(readClosed := true), s.(taken := s.taken + front))
      else
        var n := Min(front, BUFFER_SIZE - |l.pipe.toApp.Queue()|);
        && r.1 == s.(taken := s.taken + n)
        && r.0 == l.(pipe := l.pipe.(toApp := l.pipe.toApp.(data := l.pipe.toApp.data + waiting[..n])))
  {
    StretchIsFront(s, o);
    hide Stretch, FrontOf, Socket.CanRecv;
    var waiting := s.RxQueue();
    var front := FrontOf(waiting, o.stretch);
    assert forall n :: 0 <= n <= front ==> waiting[..front][..n] == waiting[..n];
  }

  /** The end of what is received is passed on once, when the socket can receive no more and nothing waits. */
  lemma {:induction false} PassEofIsExact(l: Link, s: Socket)
    requires Shaped(l, s)
    ensures var l' := PassEof(l, s);
      var ends := !l.appHeld && !l.readClosed && s.RxQueue() == []
                  && !s.state.Established? && !s.state.FinWait1? && !s.state.FinWait2?;
      && (l'.readClosed <==> l.readClosed || ends)
      && (l'.pipe.toApp.shut <==> l.pipe.toApp.shut || ends)
      && l' == l.(readClosed := l'.readClosed, pipe := l.pipe.(toApp := l.pipe.toApp.(shut := l'.pipe.toApp.shut)))
  {
  }

  // ----- What holds of one link, whatever the network and the application do -----

  /**
   The link invariant. Octets only move forward: pipe to socket outgoing, socket to pipe
   incoming. Every way the socket can be closed without an abort has gone through both FINs.
   */
  ghost predicate LinkInv(l: Link, s: Socket)
    ensures LinkInv(l, s) ==> Shaped(l, s)
  {
    && Shaped(l, s)
    && s.out == l.pipe.toNet.Given()
    && s.finQueued == l.writeClosed
    && (l.writeClosed ==> l.pipe.toNet.shut && l.pipe.toNet.Queue() == [])
    && (s.finAcked ==> s.finQueued && s.una == |s.out|)
    && l.pipe.toApp.data <= s.inn
    && (l.pipe.appReads ==> l.pipe.toApp.data == s.inn[..s.taken])
    && (l.pipe.toApp.shut ==> l.readClosed)
    && (l.readClosed && l.pipe.appReads ==>
          s.RxQueue() == [] && (s.finRcvd || s.aborted) && l.pipe.toApp.shut)
    && StateInv(l, s)
  }

  ghost predicate StateInv(l: Link, s: Socket) {
    && (l.appHeld ==> !l.writeClosed && !l.readClosed && l.pipe.toNet == Half([], 0, false)
                      && l.pipe.toApp == Half([], 0, false) && l.pipe.appReads)
    && (s.aborted ==> s.state.Closed?)
    && match s.state
       case Listen | SynSent | SynReceived => l.appHeld && !s.finQueued && !s.finRcvd && s.inn == []
       case Established => !s.finQueued && !s.finRcvd
       case FinWait1 => s.finQueued && !s.finRcvd && !s.finAcked
       case FinWait2 => s.finQueued && !s.finRcvd && s.finAcked
       case CloseWait => !s.finQueued && s.finRcvd
       case Closing | LastAck => s.finQueued && s.finRcvd && !s.finAcked
       case TimeWait => s.finQueued && s.finRcvd && s.finAcked
       case Closed => s.aborted || (s.finQueued && s.finRcvd && s.finAcked)
  }

  lemma {:induction false} HandOverKeepsLinkInv(l: Link, s: Socket, o: Observed)
    requires LinkInv(l, s)
    ensures var r := HandOver(l, s, o); LinkInv(r.0, GiveUp(r.0, r.1, o))
  {
  }

  lemma {:induction false} PumpOutKeepsLinkInv(l: Link, s: Socket)
    requires LinkInv(l, s)
    ensures var r := PumpOut(l, s); LinkInv(r.0, r.1)
  {
  }

  lemma {:induction false} PumpInKeepsLinkInv(l: Link, s: Socket, o: Observed)
    requires LinkInv(l, s)
    ensures var r := PumpIn(l, s, o); LinkInv(r.0, r.1)
  {
    hide StateInv;
    PumpInKeepsState(l, s, o);
    if s.CanRecv() && !l.appHeld {
      if !l.pipe.appReads || l.pipe.toApp.shut {
        assert !l.pipe.appReads;
      } else {
        var n := Min(|Stretch(s, o)|, BUFFER_SIZE - |l.pipe.toApp.Queue()|);
        assert s.RxQueue()[..n] == Stretch(s, o)[..n];
        PutKeepsLinkInv(l, s, n);
      }
    }
  }

  /** Moving the next n received octets into the application's pipe. */
  lemma {:induction false} PutKeepsLinkInv(l: Link, s: Socket, n: nat)
    requires LinkInv(l, s) && l.pipe.appReads && !l.readClosed && n <= |s.RxQueue()|
    requires n <= BUFFER_SIZE - |l.pipe.toApp.Queue()|
    requires var l' := l.(pipe := l.pipe.(toApp := l.pipe.toApp.Write(s.RxQueue()[..n]))); StateInv(l', s.Consume(n))
    ensures LinkInv(l.(pipe := l.pipe.(toApp := l.pipe.toApp.Write(s.RxQueue()[..n]))), s.Consume(n))
  {
    hide StateInv;
    assert s.inn[..s.taken + n] == s.inn[..s.taken] + s.RxQueue()[..n];
  }

  lemma {:induction false} PumpInKeepsState(l: Link, s: Socket, o: Observed)
    requires Shaped(l, s) && StateInv(l, s)
    ensures var r := PumpIn(l, s, o); StateInv(r.0, r.1)
  {
  }

  lemma {:induction false} PassEofKeepsLinkInv(l: Link, s: Socket)
    requires LinkInv(l, s)
    ensures LinkInv(PassEof(l, s), s)
  {
  }

  lemma {:induction false} RetiringKeepsLinkInv(l: Link, s: Socket)
    requires LinkInv(l, s)
    ensures LinkInv(l.(connected := false), s)
  {
  }

  lemma {:induction false} PumpKeepsLinkInv(l: Link, s: Socket, o: Observed)
    requires LinkInv(l, s)
    ensures var r := Pump(l, s, o); LinkInv(r.link, r.socket)
  {
    hide LinkInv, HandOver, GiveUp, PumpOut, PumpIn, PassEof;
    var (l1, s1) := HandOver(l, s, o);
    HandOverKeepsLinkInv(l, s, o);
    var s2 := GiveUp(l1, s1, o);
    PumpOutKeepsLinkInv(l1, s2);
    var (l3, s3) := PumpOut(l1, s2);
    PumpInKeepsLinkInv(l3, s3, o);
    var (l4, s4) := PumpIn(l3, s3, o);
    PassEofKeepsLinkInv(l4, s4);
    RetiringKeepsLinkInv(PassEof(l4, s4), s4);
  }

  lemma {:induction false} NetKeepsLinkInv(l: Link, s: Socket, ev: NetEvent)
    requires LinkInv(l, s)
    ensures LinkInv(l, OnNet(s, ev))
  {
  }

  /** What the application can do to its end of the pipe once it has it. */
  datatype AppEvent = Write(data: Bytes) | Shutdown | Read(n: nat) | Drop

  function OnApp(p: Pipe, ev: AppEvent): Pipe
    requires p.toNet.Bounded() && p.toApp.Bounded()
  {
    match ev
    case Write(data) =>
      if p.toNet.shut || |p.toNet.Queue()| + |data| > BUFFER_SIZE then p
      else p.(toNet := p.toNet.Write(data))
    case Shutdown => p.(toNet := p.toNet.(shut := true))
    case Read(n) =>
      if p.appReads && n <= |p.toApp.Queue()| then p.(toApp := p.toApp.Read(n)) else p
    case Drop => p.AppDropped()
  }

  /**
   The pipe holds at most 256 KiB for the network and gives its reader what waits, in order; a shut-down end takes no
   more, and a dropped one neither takes nor gives.
   */
  lemma {:induction false} AppIsExact(p: Pipe, data: Bytes, n: nat)
    requires p.toNet.Bounded() && p.toApp.Bounded()
    ensures OnApp(p, Write(data)) == p.(toNet := p.toNet.(data := p.toNet.data
      + if !p.toNet.shut && |p.toNet.Queue()| + |data| <= 256 * 1024 then data else []))
    ensures OnApp(p, Shutdown) == p.(toNet := p.toNet.(shut := true))
    ensures OnApp(p, Read(n)) == p.(toApp := p.toApp.(taken := p.toApp.taken
      + if p.appReads && n <= |p.toApp.Queue()| then n else 0))
    ensures OnApp(p, Drop) == p.(toNet := p.toNet.(shut := true), appReads := false)
  {
    assert p.toNet.data + [] == p.toNet.data;
  }

  lemma {:induction false} AppKeepsLinkInv(l: Link, s: Socket, ev: AppEvent)
    requires LinkInv(l, s) && !l.appHeld
    ensures LinkInv(l.(pipe := OnApp(l.pipe, ev)), s)
  {
  }
}
