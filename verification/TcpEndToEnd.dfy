/**
 Two link pumps joined by reliable TCP: the end-to-end promises to the applications.

 Each end is one link with its socket. An end's acts read the other end's history (which octets
 it has sent, what it has received) but change only their own end, so a run is any interleaving
 of application calls, polling iterations and deliveries on either side.
 */
module TcpEndToEnd {
  import opened Common
  import opened Endpoints
  import opened Tcp
  import opened LinkPump

  datatype End = End(link: Link, sock: Socket, removed: bool) {
    /** Everything this end's application has written. */
    function Wrote(): Bytes {
      link.pipe.toNet.data
    }

    /** Everything this end's application has read. */
    function Received(): Bytes
      requires link.pipe.toApp.Bounded()
    {
      link.pipe.toApp.Given()
    }

    /** The next read of this end's application returns end-of-file. */
    predicate AtEof()
      requires link.pipe.toApp.Bounded()
    {
      !link.appHeld && link.pipe.appReads && link.pipe.toApp.shut && link.pipe.toApp.Queue() == []
    }

    predicate Finished() {
      link.pipe.toNet.shut
    }

    predicate Bounded() {
      Shaped(link, sock)
    }
  }

  datatype Act =
    | App(ev: AppEvent)
    | Tick(o: Observed)
    | Sync
    | DataIn(n: nat)
    | FinIn
    | AckIn(n: nat)
    | FinAckIn
    | Timer
    | ResetIn

  /** What the reliable channel lets an act deliver, given the other end's history. */
  function Delivered(me: Socket, peer: Socket, act: Act): Option<NetEvent> {
    match act
    case Sync => Some(Synchronize)
    case DataIn(n) =>
      var i := |me.inn|;
      if i + n <= |peer.out| then Some(TakeData(peer.out[i..i + n])) else None
    case FinIn => if peer.finQueued && me.inn == peer.out then Some(TakeFin) else None
    case AckIn(n) => if me.una + n <= |peer.inn| then Some(TakeAck(n)) else None
    case FinAckIn => if peer.finRcvd then Some(TakeFinAck) else None
    case Timer => Some(Expire)
    case ResetIn => Some(Reset)
    case _ => None
  }

  function Perform(me: End, peer: End, act: Act): (r: End)
    requires me.Bounded() && peer.Bounded()
    ensures r.Bounded()
  {
    match act
    case App(ev) =>
      if me.link.appHeld || (me.removed && ev.Write?) then me
      else me.(link := me.link.(pipe := OnApp(me.link.pipe, ev)))
    case Tick(o) =>
      if me.removed then me
      else var r := Pump(me.link, me.sock, o); End(r.link, r.socket, r.retired)
    case _ =>
      if me.removed then me
      else match Delivered(me.sock, peer.sock, act)
        case None => me
        case Some(ev) => me.(sock := OnNet(me.sock, ev))
  }

  datatype Net = Net(a: End, b: End) {
    predicate Bounded() {
      a.Bounded() && b.Bounded()
    }

    function Flip(): Net {
      Net(b, a)
    }
  }

  datatype Event = OnA(act: Act) | OnB(act: Act) {
    function Flip(): Event {
      match this
      case OnA(act) => OnB(act)
      case OnB(act) => OnA(act)
    }
  }

  function Apply(s: Net, e: Event): (r: Net)
    requires s.Bounded()
    ensures r.Bounded()
  {
    match e
    case OnA(act) => s.(a := Perform(s.a, s.b, act))
    case OnB(act) => s.(b := Perform(s.b, s.a, act))
  }

  function Run(s: Net, es: seq<Event>): (r: Net)
    requires s.Bounded()
    ensures r.Bounded()
    decreases |es|
  {
    if es == [] then s else Run(Apply(s, es[0]), es[1..])
  }

  /** A dialed link and the listening link its SYN creates. */
  function Start(flow: Flow, handleA: nat, handleB: nat, now: nat): (s: Net)
    ensures s.Bounded()
  {
    var half := Half([], 0, false);
    var pipe := Pipe(half, half, true);
    Net(
      End(Link(handleA, flow, pipe, true, true, false, false, false, now, Some(0)), Fresh(SynSent), false),
      End(Link(handleB, Flow(flow.remote, flow.local), pipe, true, false, true, false, false, now, None),
          Fresh(Listen), false))
  }

  // ----- The invariant -----

  /** What holds of the stream from x to y. */
  ghost predicate StreamInv(x: Socket, y: Socket) {
    && y.inn <= x.out
    && x.una <= |y.inn|
    && (y.finRcvd ==> x.finQueued && y.inn == x.out)
    && (x.finAcked ==> y.finRcvd)
  }

  ghost predicate EndInv(e: End)
    ensures EndInv(e) ==> e.Bounded()
  {
    && LinkInv(e.link, e.sock)
    && (e.removed ==> LinkPump.Finished(e.link, e.sock) && (e.link.appHeld || e.link.readClosed))
  }

  ghost predicate Inv(s: Net)
    ensures Inv(s) ==> s.Bounded()
  {
    EndInv(s.a) && EndInv(s.b) && StreamInv(s.a.sock, s.b.sock) && StreamInv(s.b.sock, s.a.sock)
  }

  /** Polling only appends to the outgoing stream, and not at all once its FIN is queued. */
  ghost predicate Extends(s: Socket, t: Socket) {
    && s.out <= t.out && (s.finQueued ==> t.out == s.out && t.finQueued)
    && t.una == s.una && t.inn == s.inn && t.finRcvd == s.finRcvd && t.finAcked == s.finAcked
  }

  lemma {:induction false} PumpFrame(l: Link, s: Socket, o: Observed)
    requires LinkInv(l, s)
    ensures Extends(s, Pump(l, s, o).socket)
  {
    hide HandOver, GiveUp, PumpIn, PumpOut, PassEof, LinkInv, Extends;
    var h := HandOver(l, s, o);
    var s2 := GiveUp(h.0, h.1, o);
    HandOverKeepsLinkInv(l, s, o);
    HandOverExtends(l, s, o);
    PumpOutExtends(h.0, s2);
    var p := PumpOut(h.0, s2);
    PumpInExtends(p.0, p.1, o);
    ExtendsTransitive(s, s2, p.1);
    ExtendsTransitive(s, p.1, PumpIn(p.0, p.1, o).1);
  }

  lemma {:induction false} ExtendsTransitive(s: Socket, t: Socket, u: Socket)
    requires Extends(s, t) && Extends(t, u)
    ensures Extends(s, u)
  {
  }

  lemma {:induction false} HandOverExtends(l: Link, s: Socket, o: Observed)
    requires Shaped(l, s)
    ensures var h := HandOver(l, s, o); Extends(s, GiveUp(h.0, h.1, o))
  {
    var h := HandOver(l, s, o);
    assert h.1 == s || h.1 == s.Abort();
    assert GiveUp(h.0, h.1, o) == h.1 || GiveUp(h.0, h.1, o) == h.1.Abort();
  }

  lemma {:induction false} PumpOutExtends(l: Link, s: Socket)
    requires LinkInv(l, s)
    ensures Extends(s, PumpOut(l, s).1)
  {
  }

  lemma {:induction false} PumpInExtends(l: Link, s: Socket, o: Observed)
    requires Shaped(l, s)
    ensures Extends(s, PumpIn(l, s, o).1)
  {
  }

  lemma {:induction false} RetiredInv(l: Link, s: Socket, o: Observed)
    requires LinkInv(l, s)
    ensures var r := Pump(l, s, o);
      r.retired ==> LinkPump.Finished(r.link, r.socket) && (r.link.appHeld || r.link.readClosed)
  {
  }

  lemma {:induction false} PerformKeepsEnd(me: End, peer: End, act: Act)
    requires EndInv(me) && peer.Bounded()
    ensures EndInv(Perform(me, peer, act))
  {
    hide LinkInv, Pump, OnNet;
    match act
    case App(ev) =>
      if !me.link.appHeld {
        AppKeepsLinkInv(me.link, me.sock, ev);
      }
    case Tick(o) =>
      PumpKeepsLinkInv(me.link, me.sock, o);
      RetiredInv(me.link, me.sock, o);
    case _ =>
      if !me.removed && Delivered(me.sock, peer.sock, act).Some? {
        NetKeepsLinkInv(me.link, me.sock, Delivered(me.sock, peer.sock, act).value);
      }
  }

  /** What the channel delivers to one socket fits both streams. */
  lemma {:induction false} DeliveryKeepsStreams(me: Socket, peer: Socket, act: Act)
    requires me.Bounded() && peer.Bounded() && StreamInv(me, peer) && StreamInv(peer, me)
    requires Delivered(me, peer, act).Some?
    ensures var s := OnNet(me, Delivered(me, peer, act).value); StreamInv(s, peer) && StreamInv(peer, s)
  {
  }

  lemma {:induction false} PerformKeepsStreams(me: End, peer: End, act: Act)
    requires EndInv(me) && EndInv(peer)
    requires StreamInv(me.sock, peer.sock) && StreamInv(peer.sock, me.sock)
    ensures var r := Perform(me, peer, act);
      StreamInv(r.sock, peer.sock) && StreamInv(peer.sock, r.sock)
  {
    hide Pump, OnNet, LinkInv;
    if !me.removed {
      if act.Tick? {
        PumpFrame(me.link, me.sock, act.o);
      } else if Delivered(me.sock, peer.sock, act).Some? {
        hide StreamInv;
        DeliveryKeepsStreams(me.sock, peer.sock, act);
      }
    }
  }

  lemma {:induction false} ApplyKeepsInv(s: Net, e: Event)
    requires Inv(s)
    ensures Inv(Apply(s, e))
  {
    hide EndInv, StreamInv, Perform;
    match e
    case OnA(act) => PerformKeepsEnd(s.a, s.b, act); PerformKeepsStreams(s.a, s.b, act);
    case OnB(act) => PerformKeepsEnd(s.b, s.a, act); PerformKeepsStreams(s.b, s.a, act);
  }

  lemma {:induction false} RunKeepsInv(s: Net, es: seq<Event>)
    requires Inv(s)
    ensures Inv(Run(s, es))
    decreases |es|
  {
    hide Inv, Apply;
    if es == [] {
    } else {
      ApplyKeepsInv(s, es[0]);
      RunKeepsInv(Apply(s, es[0]), es[1..]);
    }
  }

  lemma {:induction false} Reachable(flow: Flow, handleA: nat, handleB: nat, now: nat, es: seq<Event>)
    ensures Inv(Run(Start(flow, handleA, handleB, now), es))
  {
    RunKeepsInv(Start(flow, handleA, handleB, now), es);
  }

  /** Polling removes a link exactly when its socket is then closed and nothing received is left to pass on. */
  lemma {:induction false} TickRemovesFinished(me: End, peer: End, o: Observed)
    requires me.Bounded() && peer.Bounded() && !me.removed
    ensures var r := Perform(me, peer, Tick(o));
      r.removed <==> r.sock.state.Closed? && (r.sock.RxQueue() == [] || r.link.readClosed)
  {
    hide Pump;
    PumpRetires(me.link, me.sock, o);
  }

  /** So in every run a link that has finished is gone after its next polling. */
  lemma {:induction false} FinishedLinkIsRemoved(flow: Flow, handleA: nat, handleB: nat, now: nat, es: seq<Event>,
                                                 o: Observed)
    ensures var s := Apply(Run(Start(flow, handleA, handleB, now), es), OnA(Tick(o)));
      s.a.sock.state.Closed? && (s.a.sock.RxQueue() == [] || s.a.link.readClosed) ==> s.a.removed
  {
    hide Perform, Run, Start;
    var s := Run(Start(flow, handleA, handleB, now), es);
    if !s.a.removed {
      TickRemovesFinished(s.a, s.b, o);
    } else {
      RemovedStays(s.a, s.b, o);
    }
  }

  lemma {:induction false} RemovedStays(me: End, peer: End, o: Observed)
    requires me.Bounded() && peer.Bounded() && me.removed
    ensures Perform(me, peer, Tick(o)) == me
  {
  }

  // ----- Safety, for every run -----

  lemma {:induction false} StreamFacts(x: End, y: End)
    requires EndInv(x) && EndInv(y) && StreamInv(x.sock, y.sock)
    ensures y.Received() <= x.Wrote()
    ensures y.AtEof() && y.sock.finRcvd ==> x.Finished() && y.Received() == x.Wrote()
    ensures y.AtEof() && !y.sock.finRcvd ==> y.sock.aborted
    ensures (x.sock.state.Closed? || x.sock.state.TimeWait? || x.sock.state.FinWait2?) && !x.sock.aborted ==>
      x.Finished() && y.sock.inn == x.Wrote() && y.sock.finRcvd
    ensures y.removed && y.link.pipe.appReads && !y.link.appHeld ==> y.link.pipe.toApp.data == y.sock.inn
  {
    assert y.Received() <= y.link.pipe.toApp.data <= y.sock.inn <= x.sock.out <= x.Wrote();
  }

  /** What an application has read is a prefix of what the other wrote, in both directions. */
  lemma {:induction false} PrefixDelivery(flow: Flow, handleA: nat, handleB: nat, now: nat, es: seq<Event>)
    ensures var s := Run(Start(flow, handleA, handleB, now), es);
      s.b.Received() <= s.a.Wrote() && s.a.Received() <= s.b.Wrote()
  {
    hide EndInv, StreamInv, Run;
    Reachable(flow, handleA, handleB, now, es);
    var s := Run(Start(flow, handleA, handleB, now), es);
    StreamFacts(s.a, s.b);
    StreamFacts(s.b, s.a);
  }

  /**
   End-of-file is complete once the FIN has arrived, even if a reset follows: it is read only after every octet,
   and only when the other application has finished writing. Without the FIN, end-of-file means this end's own
   socket was aborted or reset.
   */
  lemma {:induction false} EofIsComplete(flow: Flow, handleA: nat, handleB: nat, now: nat, es: seq<Event>)
    ensures var s := Run(Start(flow, handleA, handleB, now), es);
      && (s.b.AtEof() && s.b.sock.finRcvd ==> s.a.Finished() && s.b.Received() == s.a.Wrote())
      && (s.a.AtEof() && s.a.sock.finRcvd ==> s.b.Finished() && s.a.Received() == s.b.Wrote())
      && (s.b.AtEof() && !s.b.sock.finRcvd ==> s.b.sock.aborted)
      && (s.a.AtEof() && !s.a.sock.finRcvd ==> s.a.sock.aborted)
  {
    hide EndInv, StreamInv, Run;
    Reachable(flow, handleA, handleB, now, es);
    var s := Run(Start(flow, handleA, handleB, now), es);
    StreamFacts(s.a, s.b);
    StreamFacts(s.b, s.a);
  }

  /**
   What a drain observes (a socket Closed, TimeWait or FinWait2) means, end to end, that the
   other TCP holds every octet this application wrote, and its FIN.
   */
  lemma {:induction false} QuietEndDelivered(flow: Flow, handleA: nat, handleB: nat, now: nat, es: seq<Event>)
    ensures var s := Run(Start(flow, handleA, handleB, now), es);
      var quiet := s.a.sock.state.Closed? || s.a.sock.state.TimeWait? || s.a.sock.state.FinWait2?;
      quiet && !s.a.sock.aborted ==> s.a.Finished() && s.b.sock.inn == s.a.Wrote() && s.b.sock.finRcvd
  {
    hide EndInv, StreamInv, Run;
    Reachable(flow, handleA, handleB, now, es);
    var s := Run(Start(flow, handleA, handleB, now), es);
    StreamFacts(s.a, s.b);
  }

  /** Why the condition is needed: a reset can end the stream early, with an octet undelivered. */
  lemma {:induction false} ResetTruncates(flow: Flow) returns (es: seq<Event>)
    ensures var s := Run(Start(flow, 0, 0, 0), es);
      s.b.AtEof() && s.b.Received() != s.a.Wrote()
  {
    var tick := Tick(Observed(0, false, 0));
    var s0 := Start(flow, 0, 0, 0);
    var last := ResetRun(flow, tick);
    var first := EstablishRun(s0, tick);
    RunSplit(s0, first, last);
    es := first + last;
  }

  /** One octet is written, the peer is reset before it arrives, and its next pass reports the end. */
  lemma {:induction false} ResetRun(flow: Flow, tick: Act) returns (es: seq<Event>)
    requires tick == Tick(Observed(0, false, 0))
    ensures var s := Run(Established(Start(flow, 0, 0, 0)), es);
      s.b.AtEof() && s.b.Received() != s.a.Wrote()
  {
    var s1 := Established(Start(flow, 0, 0, 0));
    var sent := s1.a.(link := s1.a.link.(pipe := s1.a.link.pipe.(toNet := Half([7], 0, false))));
    assert Apply(s1, OnA(App(Write([7])))) == s1.(a := sent);
    var s2 := s1.(a := sent, b := s1.b.(sock := s1.b.sock.Abort()));
    assert Apply(s1.(a := sent), OnB(ResetIn)) == s2;
    var s3 := Apply(s2, OnB(tick));
    assert s3.b.AtEof() && s3.b.Received() == [] && s3.a.Wrote() == [7];
    es := [OnA(App(Write([7]))), OnB(ResetIn), OnB(tick)];
    RunThree(s1, es[0], es[1], es[2]);
  }

  /** Both handshakes done and both applications holding their ends. */
  function Established(s: Net): Net {
    Net(s.a.(link := s.a.link.(appHeld := false, connected := false), sock := s.a.sock.(state := State.Established)),
        s.b.(link := s.b.link.(appHeld := false, handler := false), sock := s.b.sock.(state := State.Established)))
  }

  lemma {:induction false} EstablishRun(s: Net, tick: Act) returns (es: seq<Event>)
    requires exists flow :: s == Start(flow, 0, 0, 0)
    requires tick == Tick(Observed(0, false, 0))
    ensures Run(s, es) == Established(s)
  {
    var b := Perform(Perform(s.b, s.a, Sync), s.a, Sync);
    assert b == s.b.(sock := s.b.sock.(state := State.Established));
    assert Perform(b, s.a, tick) == Established(s).b;
    var t := Net(s.a, Established(s).b);
    RunThree(s, OnB(Sync), OnB(Sync), OnB(tick));
    var a := Perform(s.a, t.b, Sync);
    assert a == s.a.(sock := s.a.sock.(state := State.Established));
    assert Perform(a, t.b, tick) == Established(s).a;
    RunThree(t, OnA(Sync), OnA(tick), OnA(DataIn(0)));
    assert Apply(Established(s), OnA(DataIn(0))) == Established(s);
    es := [OnB(Sync), OnB(Sync), OnB(tick)] + [OnA(Sync), OnA(tick), OnA(DataIn(0))];
    RunSplit(s, [OnB(Sync), OnB(Sync), OnB(tick)], [OnA(Sync), OnA(tick), OnA(DataIn(0))]);
  }

  lemma {:induction false} RunThree(s: Net, e1: Event, e2: Event, e3: Event)
    requires s.Bounded()
    ensures Run(s, [e1, e2, e3]) == Apply(Apply(Apply(s, e1), e2), e3)
  {
    hide Apply;
    assert [e1, e2, e3][1..] == [e2, e3] && [e2, e3][1..] == [e3] && [e3][1..] == [];
    assert Run(Apply(Apply(Apply(s, e1), e2), e3), []) == Apply(Apply(Apply(s, e1), e2), e3);
    assert Run(Apply(Apply(s, e1), e2), [e3]) == Apply(Apply(Apply(s, e1), e2), e3);
    assert Run(Apply(s, e1), [e2, e3]) == Run(Apply(Apply(s, e1), e2), [e3]);
  }

  lemma {:induction false} RunSplit(s: Net, first: seq<Event>, rest: seq<Event>)
    requires s.Bounded()
    ensures Run(s, first + rest) == Run(Run(s, first), rest)
    decreases |first|
  {
    if first == [] {
      assert first + rest == rest;
    } else {
      assert (first + rest)[1..] == first[1..] + rest;
      RunSplit(Apply(s, first[0]), first[1..], rest);
    }
  }

  /** A link goes away only after all its socket received is in the pipe of a reading application. */
  lemma {:induction false} RemovedLinkLeftNothing(flow: Flow, handleA: nat, handleB: nat, now: nat, es: seq<Event>)
    ensures var s := Run(Start(flow, handleA, handleB, now), es);
      forall e :: e in {s.a, s.b} && e.removed && e.link.pipe.appReads && !e.link.appHeld ==>
        e.link.pipe.toApp.data == e.sock.inn
  {
    hide EndInv, StreamInv, Run;
    Reachable(flow, handleA, handleB, now, es);
    var s := Run(Start(flow, handleA, handleB, now), es);
    StreamFacts(s.a, s.b);
    StreamFacts(s.b, s.a);
  }

  // ----- Progress: one direction does not depend on the other -----

  /** Both applications hold their ends, nothing was aborted, and b still reads. */
  ghost predicate Open(s: Net) {
    && !s.a.link.appHeld && !s.b.link.appHeld
    && !s.a.sock.aborted && !s.b.sock.aborted
    && s.b.link.pipe.appReads
  }

  /** b's application has everything a's wrote and, if a's has finished, the end of it. */
  ghost predicate AllArrived(s: Net)
    requires s.Bounded()
  {
    s.b.Received() == s.a.Wrote() && (s.a.Finished() ==> s.b.AtEof())
  }

  /** How much is left to do on the way from a to b. */
  function Remaining(s: Net): int
    requires s.Bounded()
  {
    var x, y := s.a, s.b;
    8 * (|x.Wrote()| - x.link.pipe.toNet.taken)
    + (|x.sock.out| - x.sock.una)
    + 3 * (|x.sock.out| - |y.sock.inn|)
    + 2 * (|y.sock.inn| - y.sock.taken)
    + (|y.link.pipe.toApp.data| - y.link.pipe.toApp.taken)
    + (if x.sock.finQueued then 0 else 1)
    + (if y.sock.finRcvd then 0 else 1)
    + (if y.link.pipe.toApp.shut then 0 else 1)
  }

  /** A polling iteration on the writing side moves octets, or closes an exhausted, finished stream. */
  lemma {:induction false} PumpOutMoves(l: Link, s: Socket, o: Observed)
    requires LinkInv(l, s) && !l.appHeld && !l.writeClosed && !s.aborted && !o.dialerGone && s.CanSend()
    ensures var r := Pump(l, s, o);
      && !r.link.appHeld && !r.socket.aborted
      && r.link.pipe.toNet.data == l.pipe.toNet.data && r.link.pipe.toNet.shut == l.pipe.toNet.shut
      && r.link.pipe.toNet.taken == |r.socket.out|
      && (l.pipe.toNet.Queue() != [] ==> |r.socket.out| > |s.out|)
      && (l.pipe.toNet.Queue() == [] && l.pipe.toNet.shut ==> r.socket.out == s.out && r.socket.finQueued)
  {
    hide PumpIn, PassEof, LinkInv;
    PumpKeepsLinkInv(l, s, o);
    PumpOutGains(l, s);
    var p := PumpOut(l, s);
    PumpInLeavesOutgoing(p.0, p.1, o);
  }

  lemma {:induction false} PumpOutGains(l: Link, s: Socket)
    requires LinkInv(l, s) && !l.appHeld && !l.writeClosed && !s.aborted && s.CanSend()
    ensures var p := PumpOut(l, s);
      && !p.0.appHeld && !p.1.aborted
      && p.0.pipe.toNet.data == l.pipe.toNet.data && p.0.pipe.toNet.shut == l.pipe.toNet.shut
      && p.0.pipe.toNet.taken == |p.1.out|
      && (l.pipe.toNet.Queue() != [] ==> |p.1.out| > |s.out|)
      && (l.pipe.toNet.Queue() == [] && l.pipe.toNet.shut ==> p.1.out == s.out && p.1.finQueued)
  {
  }

  lemma {:induction false} PumpInLeavesOutgoing(l: Link, s: Socket, o: Observed)
    requires Shaped(l, s)
    ensures var q := PumpIn(l, s, o); var e := PassEof(q.0, q.1);
      && e.pipe.toNet == l.pipe.toNet && e.appHeld == l.appHeld && e.pipe.appReads == l.pipe.appReads
      && q.1 == s.(taken := q.1.taken)
  {
  }

  /** A polling iteration on the reading side moves octets on, or passes the end of the stream. */
  lemma {:induction false} PumpInMoves(l: Link, s: Socket, o: Observed)
    requires LinkInv(l, s) && !l.appHeld && !s.aborted && l.pipe.appReads && !o.dialerGone
    requires l.pipe.toApp.Queue() == []
    ensures var r := Pump(l, s, o);
      && !r.link.appHeld && !r.socket.aborted && r.link.pipe.appReads
      && r.socket.inn == s.inn && r.socket.finRcvd == s.finRcvd
      && r.link.pipe.toApp.taken == l.pipe.toApp.taken
      && (l.pipe.toApp.shut ==> r.link.pipe.toApp.shut)
      && |r.link.pipe.toApp.data| == r.socket.taken
      && (s.RxQueue() != [] ==> r.socket.taken > s.taken)
      && r.socket.taken >= s.taken
      && (s.RxQueue() == [] && s.finRcvd ==> r.link.pipe.toApp.shut)
  {
    hide PumpIn, PumpOut;
    PumpFrame(l, s, o);
    PumpKeepsLinkInv(l, s, o);
    PumpOutLeavesIncoming(l, s);
    var p := PumpOut(l, s);
    PumpInTakes(p.0, p.1, o);
  }

  lemma {:induction false} PumpOutLeavesIncoming(l: Link, s: Socket)
    requires LinkInv(l, s)
    ensures var p := PumpOut(l, s);
      && p.0 == l.(pipe := l.pipe.(toNet := p.0.pipe.toNet), writeClosed := p.0.writeClosed)
      && p.1.taken == s.taken && p.1.inn == s.inn && p.1.aborted == s.aborted
      && LinkInv(p.0, p.1)
  {
    PumpOutKeepsLinkInv(l, s);
  }

  lemma {:induction false} PumpInTakes(l: Link, s: Socket, o: Observed)
    requires LinkInv(l, s) && !l.appHeld && l.pipe.appReads && l.pipe.toApp.Queue() == []
    ensures var q := PumpIn(l, s, o);
      && q.0.pipe.toApp.taken == l.pipe.toApp.taken && q.0.pipe.toApp.shut == l.pipe.toApp.shut
      && q.0.appHeld == l.appHeld && q.0.pipe.appReads && q.1 == s.(taken := q.1.taken)
      && |q.0.pipe.toApp.data| == q.1.taken >= s.taken
      && (s.RxQueue() != [] ==> q.1.taken > s.taken)
  {
  }
}
