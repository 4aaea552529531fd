/** The runtime actor's table of links and sockets, and the drains waiting on it. */
module LinkActor {
  import opened Common
  import opened Endpoints
  import opened Tcp
  import opened LinkPump
  import Slots

  // ----- Vec::swap_remove -----

  function SwapRemove<T>(s: seq<T>, i: nat): seq<T>
    requires i < |s|
  {
    s[i := s[|s| - 1]][..|s| - 1]
  }

  function Handles(links: seq<Link>): set<nat> {
    set l | l in links :: l.handle
  }

  ghost predicate DistinctHandles(links: seq<Link>) {
    forall i, j :: 0 <= i < j < |links| ==> links[i].handle != links[j].handle
  }

  ghost predicate DistinctFlows(links: seq<Link>) {
    forall i, j :: 0 <= i < j < |links| ==> links[i].flow != links[j].flow
  }

  lemma {:induction false} SwapRemoveMultiset<T>(s: seq<T>, i: nat)
    requires i < |s|
    ensures multiset(SwapRemove(s, i)) == multiset(s) - multiset{s[i]}
  {
    var n := |s| - 1;
    assert s == s[..n] + [s[n]];
    if i < n {
      assert s == s[..i] + [s[i]] + s[i + 1..n] + [s[n]];
      assert SwapRemove(s, i) == s[..i] + [s[n]] + s[i + 1..n];
    } else {
      assert SwapRemove(s, i) == s[..n];
    }
  }

  lemma {:induction false} SwapRemoveHandles(ls: seq<Link>, i: nat)
    requires i < |ls| && DistinctHandles(ls)
    ensures DistinctHandles(SwapRemove(ls, i))
    ensures Handles(SwapRemove(ls, i)) == Handles(ls) - {ls[i].handle}
  {
    var r := SwapRemove(ls, i);
    forall l | l in ls && l.handle != ls[i].handle ensures l in r {
      var k :| 0 <= k < |ls| && ls[k] == l;
      assert r[if k == |ls| - 1 then i else k] == l;
    }
  }

  // ----- A new link -----

  function NewLink(handle: nat, flow: Flow, dialedAt: Option<nat>, now: nat): Link {
    var empty := Half([], 0, false);
    Link(handle, flow, Pipe(empty, empty, true), true, dialedAt.Some?, dialedAt.None?, false, false, now, dialedAt)
  }

  lemma {:induction false} NewLinkInv(l: Link, s: Socket)
    requires l == NewLink(l.handle, l.flow, l.dialedAt, l.started)
    requires s == Fresh(SynSent) || s == Fresh(Listen)
    ensures LinkInv(l, s)
  {
  }

  lemma {:induction false} AppendPaired(links: seq<Link>, sockets: map<nat, Socket>, l: Link, s: Socket)
    requires Paired(links, sockets) && l.handle !in sockets && LinkInv(l, s)
    ensures Paired(links + [l], sockets[l.handle := s])
  {
    hide LinkInv;
    assert forall k :: k in links + [l] <==> k in links || k == l;
    assert forall k :: k in links ==> k.handle in Handles(links);
  }

  // ----- Ports of dialed links -----

  const FIRST_PORT: int := 32768
  const PORTS: int := 32768

  /** Where the port counter stands after that many steps. */
  function PortAt(steps: nat): Port {
    FIRST_PORT + steps % PORTS
  }

  lemma {:induction false} PortWraps(steps: nat)
    ensures PortAt(steps + 1) == if PortAt(steps) == 65535 then FIRST_PORT else PortAt(steps) + 1
  {
  }

  lemma {:induction false} SamePort(a: nat, b: nat)
    ensures PortAt(a) == PortAt(b) <==> (b - a) % PORTS == 0
  {
    assert a == PORTS * (a / PORTS) + a % PORTS && b == PORTS * (b / PORTS) + b % PORTS;
  }

  /** A dialed link has the port of its own step, and no two links were dialed at one step. */
  ghost predicate DialsOk(local: Ip, steps: nat, links: seq<Link>) {
    && (forall l :: l in links && l.dialedAt.Some? ==>
          l.dialedAt.value < steps && l.flow.local == SocketAddr(local, PortAt(l.dialedAt.value)))
    && (forall i, j :: 0 <= i < j < |links| && links[i].dialedAt.Some? ==> links[i].dialedAt != links[j].dialedAt)
  }

  /** The actor of a client accepts nothing: all its links are dialed. */
  ghost predicate AllDialed(links: seq<Link>) {
    forall l :: l in links ==> l.dialedAt.Some?
  }

  /** Two dialed links share their flow if and only if they went to one target a multiple of 32768 steps apart. */
  lemma {:induction false} DialedFlowsCollide(local: Ip, steps: nat, links: seq<Link>, i: nat, j: nat)
    requires DialsOk(local, steps, links) && i < j < |links|
    requires links[i].dialedAt.Some? && links[j].dialedAt.Some?
    ensures links[i].flow == links[j].flow <==>
              links[i].flow.remote == links[j].flow.remote
              && (links[j].dialedAt.value - links[i].dialedAt.value) % PORTS == 0
  {
    hide PortAt;
    assert links[i] in links && links[j] in links;
    SamePort(links[i].dialedAt.value, links[j].dialedAt.value);
  }

  /** While no live link is older than 32768 steps, a client's flows are pairwise distinct. */
  lemma {:induction false} RecentDialsAreDistinct(local: Ip, steps: nat, links: seq<Link>)
    requires DialsOk(local, steps, links) && AllDialed(links)
    requires forall l :: l in links ==> steps - l.dialedAt.value <= PORTS
    ensures DistinctFlows(links)
  {
    hide PortAt;
    forall i, j | 0 <= i < j < |links|
      ensures links[i].flow != links[j].flow
    {
      assert links[i] in links && links[j] in links;
      DialedFlowsCollide(local, steps, links, i, j);
      SmallGap(links[j].dialedAt.value - links[i].dialedAt.value);
    }
  }

  lemma {:induction false} SmallGap(d: int)
    ensures -PORTS < d < PORTS && d % PORTS == 0 ==> d == 0
  {
  }

  /** Whether the next dial to a target takes a flow in use, from what a caller can see before it. */
  lemma {:induction false} NextDialIsFresh(local: Ip, steps: nat, links: seq<Link>, remote: SocketAddr)
    requires DialsOk(local, steps, links) && AllDialed(links)
    ensures (forall l :: l in links ==> l.flow != Flow(SocketAddr(local, PortAt(steps)), remote)) <==>
            (forall l :: l in links && l.flow.remote == remote ==> (steps - l.dialedAt.value) % PORTS != 0)
  {
    hide PortAt;
    forall l | l in links
      ensures l.flow == Flow(SocketAddr(local, PortAt(steps)), remote) <==>
              l.flow.remote == remote && (steps - l.dialedAt.value) % PORTS == 0
    {
      SamePort(l.dialedAt.value, steps);
    }
  }

  lemma {:induction false} MoreSteps(local: Ip, steps: nat, links: seq<Link>)
    requires DialsOk(local, steps, links)
    ensures DialsOk(local, steps + 1, links)
    ensures forall l :: l in links ==> l.dialedAt != Some(steps)
  {
    hide PortAt;
  }

  lemma {:induction false} DialsAfterAppend(local: Ip, steps: nat, links: seq<Link>, l: Link)
    requires DialsOk(local, steps, links)
    requires l.dialedAt.Some? ==>
               l.dialedAt.value < steps && l.flow.local == SocketAddr(local, PortAt(l.dialedAt.value))
    requires l.dialedAt.Some? ==> forall k :: k in links ==> k.dialedAt != l.dialedAt
    ensures DialsOk(local, steps, links + [l])
  {
    hide PortAt;
    assert forall i :: 0 <= i < |links| ==> (links + [l])[i] == links[i] && links[i] in links;
  }

  // ----- One polling pass over every link -----

  /** Every link has its own socket and every socket its link. */
  ghost predicate Paired(links: seq<Link>, sockets: map<nat, Socket>)
    ensures Paired(links, sockets) ==> DistinctHandles(links) && sockets.Keys == Handles(links)
  {
    && DistinctHandles(links)
    && sockets.Keys == Handles(links)
    && forall l :: l in links ==> LinkInv(l, sockets[l.handle])
  }

  ghost function PumpAll(links: seq<Link>, sockets: map<nat, Socket>, obs: seq<Observed>): (r: seq<Polled>)
    requires Paired(links, sockets) && |obs| == |links|
    ensures |r| == |links|
    ensures forall i :: 0 <= i < |r| ==>
      r[i] == Pump(links[i], sockets[links[i].handle], obs[i])
  {
    seq(|links|, i requires 0 <= i < |links| => Pump(links[i], sockets[links[i].handle], obs[i]))
  }

  function Kept(polled: seq<Polled>): seq<Polled> {
    if polled == [] then []
    else (if polled[0].retired then [] else [polled[0]]) + Kept(polled[1..])
  }

  function LinksOf(polled: seq<Polled>): (r: seq<Link>)
    ensures |r| == |polled| && forall i :: 0 <= i < |r| ==> r[i] == polled[i].link
  {
    seq(|polled|, i requires 0 <= i < |polled| => polled[i].link)
  }

  lemma {:induction false} KeptAppend(a: seq<Polled>, b: seq<Polled>)
    ensures Kept(a + b) == Kept(a) + Kept(b)
  {
    if a == [] {
      assert a + b == b;
    } else {
      KeptAppend(a[1..], b);
      assert (a + b)[1..] == a[1..] + b && (a + b)[0] == a[0];
      var head := if a[0].retired then [] else [a[0]];
      assert head + (Kept(a[1..]) + Kept(b)) == (head + Kept(a[1..])) + Kept(b);
    }
  }

  lemma {:induction false} KeptAll(a: seq<Polled>)
    requires forall p :: p in a ==> !p.retired
    ensures Kept(a) == a
  {
    if a == [] {
    } else {
      KeptAll(a[1..]);
    }
  }

  lemma {:induction false} KeptExactly(polled: seq<Polled>)
    ensures forall p :: p in Kept(polled) <==> p in polled && !p.retired
  {
    if polled == [] {
    } else {
      KeptExactly(polled[1..]);
      forall p ensures p in Kept(polled) <==> p in polled && !p.retired {
        assert p in polled <==> p == polled[0] || p in polled[1..];
      }
    }
  }

  /** A drain may be answered when every socket has nothing left to send. */
  predicate Quiet(s: Socket) {
    s.state.Closed? || s.state.TimeWait? || s.state.FinWait2?
  }

  /** All the application wrote, and the end of it, is acknowledged by the peer. */
  ghost predicate FullyAcknowledged(l: Link, s: Socket)
    requires LinkInv(l, s)
  {
    l.pipe.toNet.shut && s.out == l.pipe.toNet.data && s.TxQueue() == [] && s.finAcked
  }

  lemma {:induction false} QuietMeansAcknowledged(l: Link, s: Socket)
    requires LinkInv(l, s) && Quiet(s)
    ensures s.aborted || FullyAcknowledged(l, s)
  {
  }

  /** A link retires only once nothing received is left for an application that still reads. */
  lemma {:induction false} RetiredLeavesNothingUnread(l: Link, s: Socket, o: Observed)
    requires LinkInv(l, s) && Pump(l, s, o).retired
    ensures var r := Pump(l, s, o);
      r.link.pipe.appReads ==> r.socket.RxQueue() == [] && r.link.pipe.toApp.data == r.socket.inn
  {
    hide HandOver, GiveUp, PumpOut, PumpIn;
    PumpKeepsLinkInv(l, s, o);
    var r := Pump(l, s, o);
    if r.link.pipe.appReads {
      assert r.socket.RxQueue() == [];
      assert r.socket.inn[..r.socket.taken] == r.socket.inn;
    }
  }

  datatype DialOutcome = Abandoned | TooMany | ConnectFailed | Dialing(handle: nat)

  class Actor {
    const local: Ip
    var links: seq<Link>
    var sockets: map<nat, Socket>
    var nextPort: Port
    var drains: nat
    var steps: nat  // how often the port counter moved; kept only to state when ports repeat

    ghost predicate Valid()
      reads this
    {
      && Paired(links, sockets)
      && |links| <= MAX_CONNECTIONS
      && nextPort == PortAt(steps)
      && DialsOk(local, steps, links)
    }

    constructor (local: Ip)
      ensures Valid() && links == [] && drains == 0 && this.local == local
      ensures nextPort == 32768 && steps == 0
    {
      this.local := local;
      links, sockets, nextPort, drains, steps := [], map[], 32768, 0, 0;
    }

    /** Registers a socket and its link; the handle may have belonged to a retired link. */
    method AddLink(flow: Flow, socket: Socket, dialedAt: Option<nat>, now: nat) returns (handle: nat)
      requires Valid() && |links| < MAX_CONNECTIONS
      requires dialedAt.Some? ==>
        && dialedAt.value < steps && flow.local == SocketAddr(local, PortAt(dialedAt.value))
        && forall l :: l in links ==> l.dialedAt != dialedAt
      requires socket == Fresh(SynSent) || socket == Fresh(Listen)
      modifies this`links, this`sockets
      ensures Valid()
      ensures handle !in old(sockets) && sockets == old(sockets)[handle := socket]
      ensures |links| == |old(links)| + 1 && links[..|old(links)|] == old(links)
      ensures links[|old(links)|].handle == handle && links[|old(links)|].flow == flow
      ensures links[|old(links)|].dialedAt == dialedAt
    {
      hide LinkInv, PortAt, DialsOk, Paired;
      handle := Slots.FirstFree(sockets.Keys);
      var link := NewLink(handle, flow, dialedAt, now);
      NewLinkInv(link, socket);
      AppendPaired(links, sockets, link, socket);
      DialsAfterAppend(local, steps, links, link);
      sockets := sockets[handle := socket];
      links := links + [link];
    }

    /**
     `Command::Dial`. A fresh flow is not guaranteed: the port counter wraps without looking, and moves even
     when the connect fails.
     */
    method Dial(target: SocketAddr, abandoned: bool, connects: bool, now: nat) returns (r: DialOutcome)
      requires Valid()
      modifies this`links, this`sockets, this`nextPort, this`steps
      ensures Valid()
      ensures r.Abandoned? <==> abandoned
      ensures r.TooMany? <==> !abandoned && |old(links)| >= MAX_CONNECTIONS
      ensures r.ConnectFailed? <==> !abandoned && |old(links)| < MAX_CONNECTIONS && !connects
      ensures !r.Dialing? ==> links == old(links) && sockets == old(sockets)
      ensures r.Dialing? ==>
        var flow := Flow(SocketAddr(local, old(nextPort)), SocketAddr(Nat64(target.ip), target.port));
        && r.handle !in old(sockets) && sockets == old(sockets)[r.handle := Fresh(SynSent)]
        && |links| == |old(links)| + 1 && links[..|old(links)|] == old(links)
        && links[|old(links)|].handle == r.handle && links[|old(links)|].flow == flow
        && links[|old(links)|].dialedAt == Some(old(steps))
        && (DistinctFlows(links) <==>
              DistinctFlows(old(links)) && forall l :: l in old(links) ==> l.flow != flow)
        && (AllDialed(old(links)) ==>
              (DistinctFlows(links) <==>
                DistinctFlows(old(links))
                && forall l :: l in old(links) && l.flow.remote == flow.remote ==>
                     (old(steps) - l.dialedAt.value) % PORTS != 0))
      ensures steps == if r.Abandoned? || r.TooMany? then old(steps) else old(steps) + 1
      ensures nextPort == if r.Abandoned? || r.TooMany? then old(nextPort)
                          else if old(nextPort) == 65535 then 32768 else old(nextPort) + 1
    {
      hide LinkInv, PortAt, Paired, DistinctFlows;
      if abandoned { return Abandoned; }
      if |links| >= MAX_CONNECTIONS { return TooMany; }
      var port := nextPort;
      MoreSteps(local, steps, links);
      PortWraps(steps);
      nextPort := if port == 65535 then 32768 else port + 1;
      steps := steps + 1;
      if !connects { return ConnectFailed; }
      var flow := Flow(SocketAddr(local, port), SocketAddr(Nat64(target.ip), target.port));
      ghost var before := links;
      var handle := AddLink(flow, Fresh(SynSent), Some(steps - 1), now);
      FlowsAfterAppend(before, links);
      if AllDialed(before) {
        NextDialIsFresh(local, old(steps), before, flow.remote);
      }
      r := Dialing(handle);
    }

    /**
     A valid SYN for an admitted port. `serves` is whether a listener or handler takes the flow,
     `listens` whether the socket could be put into LISTEN.
     */
    method ReceiveSyn(flow: Flow, serves: bool, listens: bool, now: nat) returns (accepted: bool)
      requires Valid()
      modifies this`links, this`sockets
      ensures Valid()
      ensures accepted <==>
        (forall l :: l in old(links) ==> l.flow != flow) && |old(links)| < MAX_CONNECTIONS
        && serves && listens
      ensures !accepted ==> links == old(links) && sockets == old(sockets)
      ensures accepted ==>
        && |links| == |old(links)| + 1 && links[..|old(links)|] == old(links)
        && links[|old(links)|].flow == flow
        && links[|old(links)|].handle !in old(sockets)
        && sockets == old(sockets)[links[|old(links)|].handle := Fresh(Listen)]
      ensures old(DistinctFlows(links)) ==> DistinctFlows(links)
    {
      var duplicate := false;
      for i := 0 to |links|
        invariant duplicate <==> exists j :: 0 <= j < i && links[j].flow == flow
      {
        duplicate := duplicate || links[i].flow == flow;
      }
      accepted := !duplicate && |links| < MAX_CONNECTIONS && serves && listens;
      if accepted {
        ghost var before := links;
        var _ := AddLink(flow, Fresh(Listen), None, now);
        FlowsAfterAppend(before, links);
      }
    }

    /** The stack delivers one network event to the socket of link `i`. */
    method Deliver(i: nat, ev: NetEvent)
      requires Valid() && i < |links|
      modifies this`sockets
      ensures Valid()
      ensures var h := links[i].handle; sockets == old(sockets)[h := OnNet(old(sockets)[h], ev)]
    {
      var h := links[i].handle;
      NetKeepsLinkInv(links[i], sockets[h], ev);
      sockets := sockets[h := OnNet(sockets[h], ev)];
      assert h in Handles(links);
      assert forall l :: l in links && l != links[i] ==> l.handle != h;
    }

    /** An application uses the end of the pipe it was handed. */
    method AppActs(i: nat, ev: AppEvent)
      requires Valid() && i < |links| && !links[i].appHeld
      modifies this`links
      ensures Valid()
      ensures links == old(links)[i := old(links)[i].(pipe := OnApp(old(links)[i].pipe, ev))]
    {
      hide LinkInv, OnApp, PortAt, DialsOk;
      var l := links[i].(pipe := OnApp(links[i].pipe, ev));
      AppKeepsLinkInv(links[i], sockets[links[i].handle], ev);
      ghost var links0 := links;
      links := links[i := l];
      SameHandles(links0, links);
      SameDials(local, steps, links0, links);
      OneChanged(links0, links, sockets, i);
    }

    /** The first statements of one iteration: hand over, or give up on, the application's end. */
    method PassApp(l: Link, s: Socket, o: Observed) returns (link: Link, socket: Socket)
      requires Shaped(l, s)
      ensures var h := HandOver(l, s, o); link == h.0 && socket == GiveUp(h.0, h.1, o)
    {
      link, socket := l, s;
      if (socket.state.Established? || socket.state.CloseWait?) && link.appHeld {
        link := link.(appHeld := false);
        if link.connected {
          link := link.(connected := false);
          if o.dialerGone {
            link := link.(pipe := link.pipe.AppDropped());
            socket := socket.Abort();
          }
        } else if link.handler {
          link := link.(handler := false);
        } else {
          link := link.(pipe := link.pipe.AppDropped());
        }
      }
      if link.connected && o.dialerGone {
        socket := socket.Abort();
      }
      if link.appHeld && o.now - link.started > CONNECT_LIMIT_MS {
        socket := socket.Abort();
      }
    }

    /** Then octets move out of the application's pipe, and its end closes the socket. */
    method MoveOut(l: Link, s: Socket) returns (link: Link, socket: Socket)
      requires Shaped(l, s)
      ensures (link, socket) == PumpOut(l, s)
    {
      link, socket := l, s;
      if socket.CanSend() && !link.writeClosed && !link.appHeld {
        var available := Min(BUFFER_SIZE - |socket.TxQueue()|, CHUNK);
        var queue := link.pipe.toNet.Queue();
        if queue == [] {
          if link.pipe.toNet.shut {
            link := link.(writeClosed := true);
            socket := socket.Close();
          }
        } else {
          var n := Min(|queue|, available);
          link := link.(pipe := link.pipe.(toNet := link.pipe.toNet.Read(n)));
          socket := socket.Send(queue[..n]);
        }
      }
    }

    /** Then octets move into the application's pipe. */
    method MoveIn(l: Link, s: Socket, o: Observed) returns (link: Link, socket: Socket)
      requires Shaped(l, s)
      ensures (link, socket) == PumpIn(l, s, o)
    {
      link, socket := l, s;
      if socket.CanRecv() && !link.appHeld {
        var data := Stretch(socket, o);
        if !link.pipe.appReads || link.pipe.toApp.shut {
          link := link.(readClosed := true);
          socket := socket.Consume(|data|);
        } else {
          var n := Min(|data|, BUFFER_SIZE - |link.pipe.toApp.Queue()|);
          link := link.(pipe := link.pipe.(toApp := link.pipe.toApp.Write(data[..n])));
          socket := socket.Consume(n);
        }
      }
    }

    /** One iteration of the polling loop. */
    method PollOne(l: Link, s: Socket, o: Observed) returns (link: Link, socket: Socket, retire: bool)
      requires Shaped(l, s)
      ensures Polled(link, socket, retire) == Pump(l, s, o)
      ensures retire <==> socket.state.Closed? && (socket.RxQueue() == [] || link.readClosed)
    {
      hide HandOver, GiveUp, PumpOut, PumpIn;
      link, socket := PassApp(l, s, o);
      link, socket := MoveOut(link, socket);
      link, socket := MoveIn(link, socket, o);
      if !socket.MayRecv() && !link.readClosed && !link.appHeld {
        link := link.(readClosed := true, pipe := link.pipe.(toApp := link.pipe.toApp.(shut := true)));
      }
      retire := socket.state.Closed? && (!socket.CanRecv() || link.readClosed);
      if retire {
        link := link.(connected := false);
      }
    }

    /** Pumps every link in place and notes, in order, which have finished. */
    method PumpLinks(obs: seq<Observed>) returns (remove: seq<nat>)
      requires Valid() && |obs| == |links|
      modifies this`links, this`sockets
      ensures var polled := PumpAll(old(links), old(sockets), obs);
        && links == LinksOf(polled)
        && Paired(links, sockets)
        && (forall i :: 0 <= i < |polled| ==> sockets[polled[i].link.handle] == polled[i].socket)
        && Ascending(remove, |polled|)
        && forall i :: 0 <= i < |polled| ==> (polled[i].retired <==> i in remove)
    {
      hide LinkInv, Pump, Paired, LinksOf, Shaped, PumpInv;
      ghost var links0, sockets0 := links, sockets;
      ghost var polled := PumpAll(links, sockets, obs);
      PolledFacts(links, sockets, obs);
      remove := [];
      PumpStart(links0, sockets0, polled);
      for i := 0 to |links|
        invariant PumpInv(links0, sockets0, polled, i, links, sockets, remove)
      {
        var link, socket, retire := PollOne(links[i], sockets[links[i].handle], obs[i]);
        PumpStep(links0, sockets0, polled, i, links, sockets, remove);
        sockets := sockets[links[i].handle := socket];
        links := links[i := link];
        if retire {
          remove := remove + [i];
        }
      }
      PumpDone(links0, sockets0, polled, links, sockets, remove);
    }

    /** Removes the finished links from the back with swap_remove, and their sockets. */
    method RetireLinks(remove: seq<nat>, ghost polled: seq<Polled>)
      requires links == LinksOf(polled) && Paired(links, sockets) && Ascending(remove, |polled|)
      requires forall i :: 0 <= i < |polled| ==> (polled[i].retired <==> i in remove)
      modifies this`links, this`sockets
      ensures Paired(links, sockets) && |links| <= |polled|
      ensures multiset(links) == multiset(LinksOf(Kept(polled)))
      ensures forall h :: h in sockets ==> h in old(sockets) && sockets[h] == old(sockets)[h]
    {
      hide LinkInv, Paired, LinksOf, Kept;
      var k := |remove|;
      ghost var rest: seq<Link> := [];
      ghost var cut: nat := |polled|;
      RetireStart(polled, remove);
      while k > 0
        invariant 0 <= k <= |remove| && RetireInv(polled, remove, k, cut, links, rest)
        invariant Paired(links, sockets)
        invariant forall h :: h in sockets ==> h in old(sockets) && sockets[h] == old(sockets)[h]
        decreases k
      {
        k := k - 1;
        var index := remove[k];
        RetireStep(polled, remove, k, cut, links, rest);
        SwapRemovePaired(links, sockets, index);
        rest, cut := SwapRemove(links, index)[index..], index;
        sockets := sockets - {links[index].handle};
        links := SwapRemove(links, index);
      }
      RetireDone(polled, remove, cut, links, rest);
    }

    /**
     Polls every link, then retires the finished ones: exactly those are gone, and every other
     link stays with its own socket.
     */
    method PollLinks(obs: seq<Observed>)
      requires Valid() && |obs| == |links|
      modifies this`links, this`sockets
      ensures Valid()
      ensures var polled := PumpAll(old(links), old(sockets), obs);
        && multiset(links) == multiset(LinksOf(Kept(polled)))
        && sockets.Keys == Handles(links)
        && forall i :: 0 <= i < |polled| && !polled[i].retired ==>
             polled[i].link.handle in sockets && sockets[polled[i].link.handle] == polled[i].socket
      ensures |links| <= |old(links)|
      ensures old(DistinctFlows(links)) ==> DistinctFlows(links)
      ensures forall l :: l in links ==>
        !(sockets[l.handle].state.Closed? && (sockets[l.handle].RxQueue() == [] || l.readClosed))
    {
      hide LinkInv, Pump, Paired, DistinctFlows, Kept, LinksOf;
      ghost var polled := PumpAll(links, sockets, obs);
      PolledFacts(links, sockets, obs);
      var remove := PumpLinks(obs);
      RetireLinks(remove, polled);
      SurvivorsKeepSockets(polled, links);
      SurvivorsKeepDials(local, steps, old(links), polled, links);
      if old(DistinctFlows(links)) {
        SurvivorsKeepFlows(old(links), polled, links);
      }
      NoneFinishedStays(old(links), old(sockets), obs, polled, links, sockets);
    }

    /** Answers every waiting drain if nothing is left to send anywhere. */
    method AnswerDrains(outgoingEmpty: bool) returns (answered: nat)
      requires Valid()
      modifies this`drains
      ensures answered + drains == old(drains)
      ensures answered > 0 ==>
        drains == 0 && forall l :: l in links ==>
          sockets[l.handle].aborted || FullyAcknowledged(l, sockets[l.handle])
      ensures answered == 0 && old(drains) > 0 ==>
        !outgoingEmpty || exists l :: l in links && !Quiet(sockets[l.handle])
    {
      var quiet := true;
      for i := 0 to |links|
        invariant quiet <==> forall j :: 0 <= j < i ==> Quiet(sockets[links[j].handle])
      {
        quiet := quiet && Quiet(sockets[links[i].handle]);
      }
      answered := 0;
      if drains != 0 && quiet && outgoingEmpty {
        forall l | l in links ensures sockets[l.handle].aborted || FullyAcknowledged(l, sockets[l.handle]) {
          QuietMeansAcknowledged(l, sockets[l.handle]);
        }
        answered, drains := drains, 0;
      }
    }
  }

  /**
   Why a dialed flow is not promised to be fresh: one dial that stays up, 32767 whose connect fails, and the next
   dial to the same target has the first one's flow.
   */
  method DialTwice(local: Ip, target: SocketAddr) returns (actor: Actor)
    ensures actor.Valid() && |actor.links| == 2
    ensures actor.links[0].flow == actor.links[1].flow && actor.links[0].handle != actor.links[1].handle
  {
    hide LinkInv, DialsOk, DistinctFlows, AllDialed;
    actor := new Actor(local);
    var first := actor.Dial(target, false, true, 0);
    ghost var links := actor.links;
    for i := 0 to 32767
      invariant actor.Valid() && actor.links == links && actor.steps == i + 1
      invariant fresh(actor)
    {
      var failed := actor.Dial(target, false, false, 0);
    }
    assert PortAt(32768) == PortAt(0);
    var again := actor.Dial(target, false, true, 0);
  }

  // ----- Lemmas the methods above use -----

  ghost predicate Ascending(s: seq<nat>, bound: nat) {
    && (forall i, j :: 0 <= i < j < |s| ==> s[i] < s[j])
    && forall i :: 0 <= i < |s| ==> s[i] < bound
  }

  lemma {:induction false} FlowsAfterAppend(before: seq<Link>, after: seq<Link>)
    requires |after| == |before| + 1 && after[..|before|] == before
    ensures DistinctFlows(after) <==>
      DistinctFlows(before) && forall l :: l in before ==> l.flow != after[|before|].flow
  {
    assert forall i :: 0 <= i < |before| ==> after[i] == before[i];
  }

  lemma {:induction false} SameHandles(links0: seq<Link>, links: seq<Link>)
    requires |links| == |links0| && DistinctHandles(links0)
    requires forall k :: 0 <= k < |links| ==> links[k].handle == links0[k].handle
    ensures DistinctHandles(links) && Handles(links) == Handles(links0)
  {
    forall h ensures h in Handles(links) <==> h in Handles(links0) {
      if h in Handles(links) {
        var k :| 0 <= k < |links| && links[k].handle == h;
        assert links0[k] in links0;
      }
      if h in Handles(links0) {
        var k :| 0 <= k < |links0| && links0[k].handle == h;
        assert links[k] in links;
      }
    }
  }

  /** One link changed in place, its socket left alone. */
  lemma {:induction false} OneChanged(links0: seq<Link>, links: seq<Link>, sockets: map<nat, Socket>, i: nat)
    requires i < |links0| == |links|
    requires forall l :: l in links0 ==> l.handle in sockets && LinkInv(l, sockets[l.handle])
    requires links == links0[i := links[i]] && links[i].handle == links0[i].handle
    requires LinkInv(links[i], sockets[links0[i].handle])
    ensures forall l :: l in links ==> l.handle in sockets && LinkInv(l, sockets[l.handle])
  {
    hide LinkInv;
    forall l | l in links
      ensures l.handle in sockets && LinkInv(l, sockets[l.handle])
    {
      var k :| 0 <= k < |links| && links[k] == l;
      assert links0[k] in links0;
    }
  }

  lemma {:induction false} SameDials(local: Ip, steps: nat, links0: seq<Link>, links: seq<Link>)
    requires DialsOk(local, steps, links0) && |links| == |links0|
    requires forall k :: 0 <= k < |links| ==>
      links[k].dialedAt == links0[k].dialedAt && links[k].flow == links0[k].flow
    ensures DialsOk(local, steps, links)
  {
    hide PortAt;
    forall l | l in links && l.dialedAt.Some?
      ensures l.dialedAt.value < steps && l.flow.local == SocketAddr(local, PortAt(l.dialedAt.value))
    {
      var k :| 0 <= k < |links| && links[k] == l;
      assert links0[k] in links0;
    }
  }

  lemma {:induction false} PolledFacts(links: seq<Link>, sockets: map<nat, Socket>, obs: seq<Observed>)
    requires Paired(links, sockets) && |obs| == |links|
    ensures forall i :: 0 <= i < |links| ==>
      links[i].handle in sockets && Shaped(links[i], sockets[links[i].handle])
    ensures var polled := PumpAll(links, sockets, obs);
      forall i :: 0 <= i < |polled| ==>
        SameLink(links[i], polled[i].link) && LinkInv(polled[i].link, polled[i].socket)
  {
    hide LinkInv;
    var polled := PumpAll(links, sockets, obs);
    forall i | 0 <= i < |links|
      ensures links[i].handle in sockets && Shaped(links[i], sockets[links[i].handle])
      ensures SameLink(links[i], polled[i].link) && LinkInv(polled[i].link, polled[i].socket)
    {
      assert links[i] in links;
      PumpKeepsLinkInv(links[i], sockets[links[i].handle], obs[i]);
    }
  }

  lemma {:induction false} PumpDone(links0: seq<Link>, sockets0: map<nat, Socket>, polled: seq<Polled>,
                                    links: seq<Link>, sockets: map<nat, Socket>, remove: seq<nat>)
    requires PumpInv(links0, sockets0, polled, |links0|, links, sockets, remove)
    requires sockets0.Keys == Handles(links0)
    requires forall i :: 0 <= i < |polled| ==>
      SameLink(links0[i], polled[i].link) && LinkInv(polled[i].link, polled[i].socket)
    ensures Paired(links, sockets) && links == LinksOf(polled)
    ensures Ascending(remove, |polled|)
    ensures forall i :: 0 <= i < |polled| ==> (polled[i].retired <==> i in remove)
    ensures forall i :: 0 <= i < |polled| ==>
      polled[i].link.handle in sockets && sockets[polled[i].link.handle] == polled[i].socket
  {
    hide LinkInv;
    SameHandles(links0, links);
    forall l | l in links ensures l.handle in sockets && LinkInv(l, sockets[l.handle]) {
      var k :| 0 <= k < |links| && links[k] == l;
    }
  }

  lemma {:induction false} SwapRemovePaired(links: seq<Link>, sockets: map<nat, Socket>, i: nat)
    requires Paired(links, sockets) && i < |links|
    ensures Paired(SwapRemove(links, i), sockets - {links[i].handle})
  {
    SwapRemoveHandles(links, i);
    forall l | l in SwapRemove(links, i) ensures l in links && l.handle != links[i].handle {
      assert l.handle in Handles(SwapRemove(links, i));
    }
  }

  /** The first `i` links are polled, with the results `polled`; the others are untouched. */
  ghost predicate PumpInv(links0: seq<Link>, sockets0: map<nat, Socket>, polled: seq<Polled>, i: nat,
                          links: seq<Link>, sockets: map<nat, Socket>, remove: seq<nat>): (holds: bool)
    ensures holds ==>
      && i <= |links| == |links0| == |polled|
      && Ascending(remove, i)
      && (i < |links| ==>
            links[i] == links0[i] && links[i].handle in sockets && links[i].handle in sockets0
            && sockets[links[i].handle] == sockets0[links[i].handle])
  {
    && i <= |links| == |links0| == |polled|
    && DistinctHandles(links0)
    && sockets.Keys == sockets0.Keys
    && (forall k :: 0 <= k < |links0| ==> links0[k].handle in sockets0)
    && (forall k :: 0 <= k < i ==>
          links[k] == polled[k].link && sockets[links0[k].handle] == polled[k].socket)
    && (forall k :: i <= k < |links| ==>
          links[k] == links0[k] && sockets[links0[k].handle] == sockets0[links0[k].handle])
    && Ascending(remove, i)
    && (forall k :: 0 <= k < i ==> (polled[k].retired <==> k in remove))
  }

  lemma {:induction false} PumpStart(links0: seq<Link>, sockets0: map<nat, Socket>, polled: seq<Polled>)
    requires DistinctHandles(links0) && sockets0.Keys == Handles(links0) && |polled| == |links0|
    ensures PumpInv(links0, sockets0, polled, 0, links0, sockets0, [])
  {
    assert forall k :: 0 <= k < |links0| ==> links0[k] in links0;
  }

  lemma {:induction false} PumpStep(links0: seq<Link>, sockets0: map<nat, Socket>, polled: seq<Polled>, i: nat,
                                    links: seq<Link>, sockets: map<nat, Socket>, remove: seq<nat>)
    requires i < |links| && PumpInv(links0, sockets0, polled, i, links, sockets, remove)
    ensures PumpInv(links0, sockets0, polled, i + 1,
                    links[i := polled[i].link], sockets[links0[i].handle := polled[i].socket],
                    if polled[i].retired then remove + [i] else remove)
  {
    assert i !in remove;
  }

  /** `links` is the untouched prefix below `cut`, then the survivors from `cut` on in some order. */
  ghost predicate RetireInv(polled: seq<Polled>, remove: seq<nat>, k: nat, cut: nat, links: seq<Link>, rest: seq<Link>)
  {
    && k <= |remove| && cut <= |polled|
    && Ascending(remove, |polled|)
    && (forall i :: 0 <= i < |polled| ==> (polled[i].retired <==> i in remove))
    && (k > 0 ==> remove[k - 1] < cut)
    && (forall j :: 0 <= j < cut && polled[j].retired ==> j in remove[..k])
    && links == LinksOf(polled)[..cut] + rest
    && |links| <= |polled|
    && multiset(rest) == multiset(LinksOf(Kept(polled[cut..])))
  }

  lemma {:induction false} RetireStart(polled: seq<Polled>, remove: seq<nat>)
    requires Ascending(remove, |polled|)
    requires forall i :: 0 <= i < |polled| ==> (polled[i].retired <==> i in remove)
    ensures RetireInv(polled, remove, |remove|, |polled|, LinksOf(polled), [])
  {
    assert polled[|polled|..] == [] && remove[..|remove|] == remove;
    assert LinksOf(polled) == LinksOf(polled)[..|polled|] + [];
  }

  lemma {:induction false} RetireStep(polled: seq<Polled>, remove: seq<nat>, k: nat, cut: nat,
                                      links: seq<Link>, rest: seq<Link>)
    requires k < |remove| && RetireInv(polled, remove, k + 1, cut, links, rest)
    ensures remove[k] < |links|
    ensures var r := SwapRemove(links, remove[k]);
      RetireInv(polled, remove, k, remove[k], r, r[remove[k]..])
  {
    hide Kept;
    var index := remove[k];
    assert index in remove;
    RetireOrder(polled, remove, k, cut);
    SwapRemoveRest(links, LinksOf(polled), cut, rest, index);
    KeptAcross(polled, index, cut);
  }

  /** The next index to remove is the last retired one below the cut. */
  lemma {:induction false} RetireOrder(polled: seq<Polled>, remove: seq<nat>, k: nat, cut: nat)
    requires k < |remove| && cut <= |polled| && Ascending(remove, |polled|) && remove[k] < cut
    requires forall i :: 0 <= i < |polled| ==> (polled[i].retired <==> i in remove)
    requires forall j :: 0 <= j < cut && polled[j].retired ==> j in remove[..k + 1]
    ensures polled[remove[k]].retired
    ensures forall j :: remove[k] < j < cut ==> !polled[j].retired
    ensures forall j :: 0 <= j < remove[k] && polled[j].retired ==> j in remove[..k]
    ensures k > 0 ==> remove[k - 1] < remove[k]
  {
    var index := remove[k];
    assert index in remove;
    assert forall m :: 0 <= m < k + 1 ==> remove[m] <= index;
    forall j | 0 <= j < index && polled[j].retired ensures j in remove[..k] {
      var m :| 0 <= m < k + 1 && remove[m] == j;
      assert remove[..k][m] == j;
    }
  }

  lemma {:induction false} SwapRemoveRest<T>(s: seq<T>, all: seq<T>, cut: nat, rest: seq<T>, index: nat)
    requires index < cut <= |all| && s == all[..cut] + rest
    ensures var r := SwapRemove(s, index);
      && r == all[..index] + r[index..]
      && multiset(r[index..]) == multiset(all[index + 1..cut]) + multiset(rest)
  {
    var a, b := all[..index], all[index + 1..cut];
    assert all[..cut] == a + [all[index]] + b;
    assert s[index..] == [all[index]] + b + rest;
    var r := SwapRemove(s, index);
    assert r == a + r[index..];
    assert r[index..] == SwapRemove(s[index..], 0);
    SwapRemoveMultiset(s[index..], 0);
  }

  lemma {:induction false} KeptAcross(polled: seq<Polled>, index: nat, cut: nat)
    requires index < cut <= |polled| && polled[index].retired
    requires forall j :: index < j < cut ==> !polled[j].retired
    ensures multiset(LinksOf(Kept(polled[index..]))) ==
            multiset(LinksOf(polled)[index + 1..cut]) + multiset(LinksOf(Kept(polled[cut..])))
  {
    assert polled[index..] == [polled[index]] + (polled[index + 1..cut] + polled[cut..]);
    KeptAppend(polled[index + 1..cut], polled[cut..]);
    KeptAll(polled[index + 1..cut]);
    assert LinksOf(Kept(polled[index..])) == LinksOf(polled)[index + 1..cut] + LinksOf(Kept(polled[cut..]));
  }

  lemma {:induction false} KeptAcross'(polled: seq<Polled>, cut: nat)
    requires cut <= |polled| && forall j :: 0 <= j < cut ==> !polled[j].retired
    ensures LinksOf(Kept(polled)) == LinksOf(polled)[..cut] + LinksOf(Kept(polled[cut..]))
  {
    assert polled == polled[..cut] + polled[cut..];
    KeptAppend(polled[..cut], polled[cut..]);
    KeptAll(polled[..cut]);
  }

  lemma {:induction false} RetireDone(polled: seq<Polled>, remove: seq<nat>, cut: nat,
                                      links: seq<Link>, rest: seq<Link>)
    requires RetireInv(polled, remove, 0, cut, links, rest)
    ensures multiset(links) == multiset(LinksOf(Kept(polled))) && |links| <= |polled|
  {
    KeptAcross'(polled, cut);
  }

  lemma {:induction false} SurvivorsKeepSockets(polled: seq<Polled>, links: seq<Link>)
    requires multiset(links) == multiset(LinksOf(Kept(polled)))
    ensures forall i :: 0 <= i < |polled| && !polled[i].retired ==> polled[i].link in links
  {
    KeptExactly(polled);
    forall i | 0 <= i < |polled| && !polled[i].retired ensures polled[i].link in links {
      var k :| 0 <= k < |Kept(polled)| && Kept(polled)[k] == polled[i];
      assert LinksOf(Kept(polled))[k] in multiset(links);
    }
  }

  /** No link is left whose socket is closed with nothing more to pass on. */
  lemma {:induction false} NoneFinishedStays(links0: seq<Link>, sockets0: map<nat, Socket>, obs: seq<Observed>,
                                             polled: seq<Polled>, links: seq<Link>, sockets: map<nat, Socket>)
    requires Paired(links0, sockets0) && |obs| == |links0| && polled == PumpAll(links0, sockets0, obs)
    requires multiset(links) == multiset(LinksOf(Kept(polled)))
    requires forall i :: 0 <= i < |polled| && !polled[i].retired ==>
      polled[i].link.handle in sockets && sockets[polled[i].link.handle] == polled[i].socket
    ensures forall l :: l in links ==>
      && l.handle in sockets && sockets[l.handle].Bounded()
      && !(sockets[l.handle].state.Closed? && (sockets[l.handle].RxQueue() == [] || l.readClosed))
  {
    hide Kept, LinksOf, Paired, Pump;
    PolledFacts(links0, sockets0, obs);
    forall l | l in links
      ensures l.handle in sockets && sockets[l.handle].Bounded()
      ensures !(sockets[l.handle].state.Closed? && (sockets[l.handle].RxQueue() == [] || l.readClosed))
    {
      var k :| 0 <= k < |links| && links[k] == l;
      var a := Survivor(polled, links, k);
      PumpRetires(links0[a], sockets0[links0[a].handle], obs[a]);
    }
  }

  lemma {:induction false} SurvivorsKeepFlows(links0: seq<Link>, polled: seq<Polled>, links: seq<Link>)
    requires |polled| == |links0| && DistinctFlows(links0) && DistinctHandles(links)
    requires forall i :: 0 <= i < |polled| ==> SameLink(links0[i], polled[i].link)
    requires multiset(links) == multiset(LinksOf(Kept(polled)))
    ensures DistinctFlows(links)
  {
    KeptExactly(polled);
    forall i, j | 0 <= i < j < |links| ensures links[i].flow != links[j].flow {
      var a := Survivor(polled, links, i);
      var b := Survivor(polled, links, j);
      assert links[i].handle != links[j].handle;
    }
  }

  lemma {:induction false} SurvivorsKeepDials(local: Ip, steps: nat, links0: seq<Link>, polled: seq<Polled>,
                                              links: seq<Link>)
    requires |polled| == |links0| && DialsOk(local, steps, links0) && DistinctHandles(links)
    requires forall i :: 0 <= i < |polled| ==> SameLink(links0[i], polled[i].link)
    requires multiset(links) == multiset(LinksOf(Kept(polled)))
    ensures DialsOk(local, steps, links)
  {
    hide PortAt, Kept, LinksOf;
    forall l | l in links && l.dialedAt.Some?
      ensures l.dialedAt.value < steps && l.flow.local == SocketAddr(local, PortAt(l.dialedAt.value))
    {
      var k :| 0 <= k < |links| && links[k] == l;
      var a := Survivor(polled, links, k);
      assert links0[a] in links0;
    }
    forall i, j | 0 <= i < j < |links| && links[i].dialedAt.Some?
      ensures links[i].dialedAt != links[j].dialedAt
    {
      var a := Survivor(polled, links, i);
      var b := Survivor(polled, links, j);
      assert links[i].handle != links[j].handle;
      assert a != b && (a < b || b < a);
    }
  }

  lemma {:induction false} Survivor(polled: seq<Polled>, links: seq<Link>, i: nat) returns (k: nat)
    requires multiset(links) == multiset(LinksOf(Kept(polled))) && i < |links|
    ensures k < |polled| && polled[k].link == links[i] && !polled[k].retired
  {
    KeptExactly(polled);
    assert links[i] in multiset(links);
    assert links[i] in LinksOf(Kept(polled));
    var m :| 0 <= m < |Kept(polled)| && LinksOf(Kept(polled))[m] == links[i];
    assert Kept(polled)[m] in polled;
    k :| 0 <= k < |polled| && polled[k] == Kept(polled)[m];
  }
}
