/** What a connection's calls answer, in every run: end of stream, failure, or wait. */
module BrowserAnswers {
  import opened Common
  import opened Endpoints
  import opened Tcp
  import opened BrowserEngine
  import opened BrowserIdentity

  predicate Handshaking(s: Socket) {
    s.state.Listen? || s.state.SynSent? || s.state.SynReceived?
  }

  /** A socket that can still receive: connected, and the peer's FIN has not arrived. */
  predicate Receiving(s: Socket) {
    s.state.Established? || s.state.FinWait1? || s.state.FinWait2?
  }

  /** The state of a socket tells whether the peer's FIN has arrived. */
  ghost predicate Phase(s: Socket) {
    && s.Bounded()
    && (Handshaking(s) || Receiving(s) ==> !s.finRcvd)
    && (!Handshaking(s) && !Receiving(s) && !s.state.Closed? ==> s.finRcvd)
  }

  ghost predicate Phases(e: Engine) {
    forall h :: h in e.sockets ==> Phase(e.sockets[h])
  }

  lemma {:induction false} NetKeepsPhase(s: Socket, ev: NetEvent)
    requires Phase(s)
    ensures Phase(OnNet(s, ev))
  {
  }

  lemma {:induction false} CloseKeepsPhase(s: Socket)
    requires Phase(s)
    ensures Phase(s.Close()) && Phase(s.Abort()) && Phase(s.Consume(0))
  {
  }

  lemma {:induction false} SweepKeepsPhases(e: Engine, now: nat, fronts: map<nat, nat>)
    requires Shaped(e) && Phases(e)
    ensures Phases(CloseIfDrained(SweepLinks(e, now, fronts), now))
  {
    hide SweepOne;
    var e' := SweepLinks(e, now, fronts);
    forall h | h in e'.sockets
      ensures Phase(e'.sockets[h])
    {
      TurnKeepsPhase(e.links[h], e.sockets[h], now, Front(fronts, h, e.sockets[h]));
    }
  }

  lemma {:induction false} TurnKeepsPhase(l: Link, s: Socket, now: nat, front: nat)
    requires Phase(s) && front <= |s.RxQueue()|
    ensures Phase(SweepOne(l, s, now, front).socket)
  {
  }

  lemma {:induction false} PutKeepsPhases(e: Engine, g: nat, c: Conn, s: Socket)
    requires Phases(e) && Phase(s)
    ensures Phases(Put(e, g, c, s))
  {
  }

  lemma {:induction false} CallsKeepPhases(e: Engine, ev: Event)
    requires Shaped(e) && Phases(e) && IsCall(ev)
    ensures Phases(Step(e, ev))
  {
    hide Phase;
    if ev.Reads? {
      ReadKeepsPhases(e, ev.g);
    } else if ev.WritesOn? {
      WriteKeepsPhases(e, ev.g);
    } else if !ev.Writes? && Usable(e, ev.g) {
      CloseKeepsPhase(e.sockets[e.conns[ev.g].handle]);
    }
  }

  lemma {:induction false} ReadKeepsPhases(e: Engine, g: nat)
    requires Shaped(e) && Phases(e)
    ensures Phases(ReadOnce(e, g).0)
  {
  }

  lemma {:induction false} PieceKeepsPhases(e: Engine, g: nat)
    requires Shaped(e) && Phases(e) && Usable(e, g) && e.conns[g].offset < |e.conns[g].data|
    requires |e.sockets[e.conns[g].handle].TxQueue()| < BUFFER_SIZE
    ensures Phases(WritePiece(e, g))
  {
  }

  lemma {:induction false} WriteKeepsPhases(e: Engine, g: nat)
    requires Shaped(e) && Phases(e)
    ensures Phases(WriteOnce(e, g).0)
  {
    hide WritePiece, Phase;
    if Usable(e, g) && e.conns[g].offset < |e.conns[g].data| && e.sockets[e.conns[g].handle].CanSend() {
      PieceKeepsPhases(e, g);
    }
  }

  lemma {:induction false} StepKeepsPhases(e: Engine, ev: Event)
    requires Inv(e) && Phases(e)
    ensures Phases(Step(e, ev))
  {
    match ev
    case Dial(_, _, _, _) =>
    case Syn(_, _, _) =>
    case Net(h, n) =>
      hide Inv, OnNet;
      if h in e.sockets {
        NetKeepsPhase(e.sockets[h], n);
      }
    case Sweep(now, fronts) => SweepKeepsPhases(e, now, fronts);
    case ShutDown =>
    case _ => CallsKeepPhases(e, ev);
  }

  lemma {:induction false} RunKeepsPhases(e: Engine, events: seq<Event>)
    requires Inv(e) && Phases(e)
    ensures Inv(Run(e, events)) && Phases(Run(e, events))
    decreases |events|
  {
    hide Inv, Step, Phases;
    if events == [] {
    } else {
      StepKeepsInv(e, events[0]);
      StepKeepsPhases(e, events[0]);
      RunKeepsPhases(Step(e, events[0]), events[1..]);
    }
  }

  /**
   What a read is answered, in every run. Data is the next at most 64 KiB of what waits. End of stream is answered on
   a connection that is gone, before it is established, or when nothing waits and the peer has sent its FIN or the
   socket is closed; and a read waits exactly when nothing has come yet and more may.
   */
  lemma {:induction false} ReadIsAnswered(local: Ip, client: bool, events: seq<Event>, g: nat)
    ensures Inv(Start(local, client)) && Shaped(Run(Start(local, client), events))
    ensures var e := Run(Start(local, client), events);
      var (e', r) := ReadOnce(e, g);
      if g !in e.conns || e.closed || !e.Live(e.conns[g].handle, g) then r == Null && e' == e
      else
        var h := e.conns[g].handle;
        var s := e.sockets[h];
        && (r.Chunk? <==> s.RxQueue() != [])
        && (r.Null? <==> s.RxQueue() == [] && (s.finRcvd || s.state.Closed? || Handshaking(s)))
        && (r.Later? <==> s.RxQueue() == [] && !s.finRcvd && Receiving(s))
        && (!r.Chunk? ==> e' == e)
        && (r.Chunk? ==>
              && 0 < |r.data| == Min(65536, |s.RxQueue()|) && r.data + e'.sockets[h].RxQueue() == s.RxQueue()
              && e'.conns[g].got == e.conns[g].got + r.data)
  {
    StartInv(local, client);
    RunKeepsPhases(Start(local, client), events);
    hide Run, Start;
    var e := Run(Start(local, client), events);
    if Usable(e, g) {
      ReadAnswers(e, g);
    }
  }

  lemma {:induction false} ReadAnswers(e: Engine, g: nat)
    requires Shaped(e) && Phases(e) && Usable(e, g)
    ensures var (e', r) := ReadOnce(e, g);
      var h := e.conns[g].handle; var s := e.sockets[h];
        && (r.Chunk? <==> s.RxQueue() != [])
        && (r.Null? <==> s.RxQueue() == [] && (s.finRcvd || s.state.Closed? || Handshaking(s)))
        && (r.Later? <==> s.RxQueue() == [] && !s.finRcvd && Receiving(s))
        && (!r.Chunk? ==> e' == e)
        && (r.Chunk? ==>
              && 0 < |r.data| == Min(65536, |s.RxQueue()|) && r.data + e'.sockets[h].RxQueue() == s.RxQueue()
              && e'.conns[g].got == e.conns[g].got + r.data)
  {
    var s := e.sockets[e.conns[g].handle];
    assert Phase(s);
    var n := Min(65536, |s.RxQueue()|);
    assert s.RxQueue()[..n] + s.Consume(n).RxQueue() == s.RxQueue();
  }

  /**
   What a turn of a pending write is answered. It fails when the connection is gone or its sending side closed, is
   done when the last octet fits into the transmit buffer, and waits otherwise, the buffer filled.
   */
  lemma {:induction false} WriteIsAnswered(e: Engine, g: nat)
    requires Shaped(e) && g in e.conns && e.conns[g].writing && e.conns[g].offset < |e.conns[g].data|
    ensures var (e', r) := WriteOnce(e, g); var c := e.conns[g];
      if e.closed || !e.Live(c.handle, g) then r == Failed && e' == StopWriting(e, g)
      else
        var s := e.sockets[c.handle];
        var left, room := |c.data| - c.offset, BUFFER_SIZE - |s.TxQueue()|;
        && g in e'.conns && c.handle in e'.sockets && e'.links == e.links
        && (r.Failed? <==> !s.state.Established? && !s.state.CloseWait?)
        && (r.Done? <==> (s.state.Established? || s.state.CloseWait?) && 0 < room && left <= room)
        && (e'.conns[g].writing <==> r.Waiting?)
        && (r.Failed? ==> e'.sockets == e.sockets)
        && (r.Done? ==> e'.sockets[c.handle].out == s.out + c.data[c.offset..])
        && (r.Waiting? ==> |e'.sockets[c.handle].out| == |s.out| + if room > 0 then room else 0)
  {
  }

  lemma {:induction false} NothingToWrite(e: Engine, g: nat)
    requires Shaped(e) && g in e.conns
    ensures !e.conns[g].writing ==> WriteOnce(e, g) == (e, Failed)
    ensures e.conns[g].writing && e.conns[g].offset >= |e.conns[g].data| ==>
      WriteOnce(e, g) == (StopWriting(e, g), Done)
  {
  }

  /**
   Closing the sending side queues a FIN on an established connection, once; a pending write forbids it, and a
   connection that is gone ignores it. Nothing else changes, so reads go on.
   */
  lemma {:induction false} CloseWriteQueuesFin(e: Engine, g: nat)
    requires Shaped(e) && g in e.conns
    ensures var e' := CloseWrite(e, g); var c := e.conns[g];
      if e.closed || !e.Live(c.handle, g) || c.writing then e' == e
      else
        var s := e.sockets[c.handle];
        && e' == e.(sockets := e.sockets[c.handle := s.Close()])
        && (s.state.Established? ==> e'.sockets[c.handle] == s.(state := FinWait1, finQueued := true))
        && (s.state.CloseWait? ==> e'.sockets[c.handle] == s.(state := LastAck, finQueued := true))
  {
    assert e.conns[g := e.conns[g]] == e.conns;
  }

  /** After it a write with data fails. */
  lemma {:induction false} WriteAfterCloseFails(e: Engine, g: nat, data: Bytes)
    requires Shaped(e) && Usable(e, g) && !e.conns[g].writing && data != []
    ensures Shaped(StartWrite(CloseWrite(e, g), g, data).0)
    ensures WriteOnce(StartWrite(CloseWrite(e, g), g, data).0, g).1 == Failed
  {
    hide WriteOnce, CloseWrite;
    CloseWriteQueuesFin(e, g);
    var e1 := CloseWrite(e, g);
    var e2 := StartWrite(e1, g, data).0;
    assert Shaped(e1) && e2.sockets == e1.sockets && e2.links == e.links && Usable(e2, g);
    WriteIsAnswered(e2, g);
  }

  /** Closing the connection ends its sending side and gives up what comes; a client then drains and closes. */
  lemma {:induction false} CloseGivesUp(e: Engine, g: nat)
    requires Shaped(e) && g in e.conns
    ensures var e' := CloseConn(e, g); var h := e.conns[g].handle;
      if e.closed || !e.Live(h, g) then e' == e
      else
        && e'.sockets == e.sockets[h := e.sockets[h].Close()]
        && e'.links == e.links[h := e.links[h].(appClosed := true)]
        && (e'.closing <==> e.closing || e.client)
        && e' == e.(sockets := e'.sockets, links := e'.links, closing := e'.closing)
  {
    assert e.conns[g := e.conns[g]] == e.conns;
  }

  /**
   A sweep announces a link the first time it finds it connected, gives one up that is not connected after more than
   sixty seconds, and removes one whose socket is closed with nothing left to read.
   */
  lemma {:induction false} SweepDecides(l: Link, s: Socket, now: nat, front: nat)
    requires s.Bounded() && front <= |s.RxQueue()|
    ensures var r := SweepOne(l, s, now, front);
      var connected := s.state.Established? || s.state.CloseWait?;
      var late := !l.notified && !connected && now > l.created + 60_000;
      && (r.accepted <==> !l.notified && connected)
      && (r.link.notified <==> l.notified || connected)
      && (r.link.appClosed <==> l.appClosed || late)
      && r.socket.state == (if late then Closed else s.state)
      && r.discarded == (if l.appClosed && s.RxQueue() != [] then front else 0)
      && (r.removed <==> (s.state.Closed? || late) && |s.RxQueue()| == r.discarded)
  {
  }
}
