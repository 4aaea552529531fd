/**
 The two-party control protocol of the throughput test: both peers run the same loop over two
 FIFO channels, while stream tasks finish in any order on either side.
 */
module PerfProtocol {
  import opened Common
  import opened PerfAccounting

  datatype Dir = Up | Down | Both

  /** Whether the server (or the client) sends data in this direction. */
  predicate Sends(dir: Dir, server: bool) {
    dir.Both? || (if server then dir.Down? else dir.Up?)
  }

  datatype Msg = Ping(t: nat) | Pong(t: nat) | Done(stats: Stats) | Result(stats: Stats)

  /** Statistics travel without their intervals. */
  function Wire(s: Stats): Stats {
    s.(intervals := [])
  }

  /** The local variables of one peer's loop. */
  datatype Peer = Peer(
    server: bool, dir: Dir,
    senders: nat, sent: seq<Stats>,
    receivers: nat, received: seq<Stats>,
    localSent: Option<Stats>, localReceived: Option<Stats>,
    peerSent: Option<Stats>, peerReceived: Option<Stats>,
    pending: Option<nat>, rtts: nat,
    left: bool)
  {
    predicate SendsHere() {
      Sends(dir, server)
    }

    predicate ReceivesHere() {
      Sends(dir, !server)
    }

    predicate MaySayDone() {
      SendsHere() && senders == 0 && localSent.None?
    }

    predicate MaySayResult() {
      ReceivesHere() && receivers == 0 && localReceived.None?
    }

    predicate MayLeave() {
      && (!SendsHere() || (localSent.Some? && peerReceived.Some?))
      && (!ReceivesHere() || (localReceived.Some? && peerSent.Some?))
    }
  }

  function Begin(server: bool, dir: Dir, streams: nat): Peer {
    Peer(server, dir,
         if Sends(dir, server) then streams else 0, [],
         if Sends(dir, !server) then streams else 0, [],
         None, None, None, None, None, 0, false)
  }

  // ----- One turn of the loop: an event of the select, then the top of the loop -----

  datatype Happening =
    | SenderEnds(stats: Stats)
    | ReceiverEnds(stats: Stats)
    | MessageComes(m: Msg)
    | PingTick(stamp: nat)

  function OnHappening(p: Peer, h: Happening): (Peer, seq<Msg>) {
    match h
    case SenderEnds(stats) =>
      if p.senders == 0 then (p, []) else (p.(senders := p.senders - 1, sent := p.sent + [stats]), [])
    case ReceiverEnds(stats) =>
      if p.receivers == 0 then (p, [])
      else (p.(receivers := p.receivers - 1, received := p.received + [stats]), [])
    case MessageComes(Ping(t)) => (p, [Pong(t)])
    case MessageComes(Pong(t)) =>
      (p.(pending := None, rtts := p.rtts + if p.pending == Some(t) then 1 else 0), [])
    case MessageComes(Done(stats)) => (p.(peerSent := Some(stats)), [])
    case MessageComes(Result(stats)) => (p.(peerReceived := Some(stats)), [])
    case PingTick(stamp) =>
      if p.server || p.pending.Some? then (p, []) else (p.(pending := Some(stamp)), [Ping(stamp)])
  }

  /** The top of the loop: announce what is complete, then leave if nothing is missing. */
  function Top(p: Peer): (Peer, seq<Msg>) {
    var sent := Combined(p.sent);
    var p1 := if p.MaySayDone() then p.(localSent := Some(sent)) else p;
    var received := Combined(p1.received);
    var p2 := if p1.MaySayResult() then p1.(localReceived := Some(received)) else p1;
    (p2.(left := p2.MayLeave()),
     (if p.MaySayDone() then [Done(Wire(sent))] else [])
     + (if p1.MaySayResult() then [Result(Wire(received))] else []))
  }

  function Turn(p: Peer, h: Happening): (Peer, seq<Msg>) {
    var (p1, out1) := OnHappening(p, h);
    var (p2, out2) := Top(p1);
    (p2, out1 + out2)
  }

  // ----- Two peers -----

  datatype Net = Net(client: Peer, server: Peer, toServer: seq<Msg>, toClient: seq<Msg>) {
    function Flip(): Net {
      Net(server, client, toClient, toServer)
    }
  }

  datatype Who = Client | Server

  datatype Step =
    | TaskEnds(who: Who, sender: bool, stats: Stats)
    | Reads(who: Who)
    | Ticks(stamp: nat)

  /** Whether the step can happen: a peer that has left does nothing more. */
  predicate Enabled(s: Net, step: Step) {
    match step
    case TaskEnds(who, sender, _) =>
      var p := if who.Client? then s.client else s.server;
      !p.left && (if sender then p.senders > 0 else p.receivers > 0)
    case Reads(Client) => !s.client.left && s.toClient != []
    case Reads(Server) => !s.server.left && s.toServer != []
    case Ticks(_) => !s.client.left
  }

  function ClientTurn(s: Net, h: Happening): Net {
    var (p, out) := Turn(s.client, h);
    s.(client := p, toServer := s.toServer + out)
  }

  function ServerTurn(s: Net, h: Happening): Net {
    ClientTurn(s.Flip(), h).Flip()
  }

  function Apply(s: Net, step: Step): Net
    requires Enabled(s, step)
  {
    match step
    case TaskEnds(who, sender, stats) =>
      var h := if sender then SenderEnds(stats) else ReceiverEnds(stats);
      if who.Client? then ClientTurn(s, h) else ServerTurn(s, h)
    case Reads(Client) => ClientTurn(s.(toClient := s.toClient[1..]), MessageComes(s.toClient[0]))
    case Reads(Server) => ServerTurn(s.(toServer := s.toServer[1..]), MessageComes(s.toServer[0]))
    case Ticks(stamp) => ClientTurn(s, PingTick(stamp))
  }

  /** Both peers pass the top of the loop once before they first wait. */
  function Start(dir: Dir, streams: nat): Net {
    var (client, out1) := Top(Begin(false, dir, streams));
    var (server, out2) := Top(Begin(true, dir, streams));
    Net(client, server, out1, out2)
  }

  predicate Runs(s: Net, steps: seq<Step>)
    decreases |steps|
  {
    steps == [] || (Enabled(s, steps[0]) && Runs(Apply(s, steps[0]), steps[1..]))
  }

  function After(s: Net, steps: seq<Step>): Net
    requires Runs(s, steps)
    decreases |steps|
  {
    if steps == [] then s else After(Apply(s, steps[0]), steps[1..])
  }

  // ----- The invariant -----

  function AsSeq(o: Option<Stats>): seq<Stats> {
    match o case None => [] case Some(s) => [s]
  }

  function Announced(o: Option<Stats>): seq<Stats> {
    match o case None => [] case Some(s) => [Wire(s)]
  }

  function Dones(q: seq<Msg>): seq<Stats> {
    if q == [] then [] else (if q[0].Done? then [q[0].stats] else []) + Dones(q[1..])
  }

  function Results(q: seq<Msg>): seq<Stats> {
    if q == [] then [] else (if q[0].Result? then [q[0].stats] else []) + Results(q[1..])
  }

  /** What x announced is, once each and in the channel or already taken, what y has or will have. */
  ghost predicate ChannelInv(x: Peer, y: Peer, q: seq<Msg>) {
    && AsSeq(y.peerSent) + Dones(q) == Announced(x.localSent)
    && AsSeq(y.peerReceived) + Results(q) == Announced(x.localReceived)
  }

  /** A peer at its select has announced all it can, and is there only while something is missing. */
  ghost predicate PeerInv(p: Peer) {
    && !p.MaySayDone() && !p.MaySayResult()
    && (p.left <==> p.MayLeave())
    && (p.localSent.Some? ==> p.SendsHere() && p.senders == 0)
    && (p.localReceived.Some? ==> p.ReceivesHere() && p.receivers == 0)
    && (!p.SendsHere() ==> p.senders == 0)
    && (!p.ReceivesHere() ==> p.receivers == 0)
  }

  ghost predicate Inv(s: Net) {
    && s.client.dir == s.server.dir && !s.client.server && s.server.server
    && PeerInv(s.client) && PeerInv(s.server)
    && ChannelInv(s.client, s.server, s.toServer)
    && ChannelInv(s.server, s.client, s.toClient)
  }

  lemma {:induction false} DonesAppend(q: seq<Msg>, r: seq<Msg>)
    ensures Dones(q + r) == Dones(q) + Dones(r)
    decreases |q|
  {
    if q == [] {
      assert q + r == r;
    } else {
      assert (q + r)[1..] == q[1..] + r;
      DonesAppend(q[1..], r);
      var head := if q[0].Done? then [q[0].stats] else [];
      assert head + (Dones(q[1..]) + Dones(r)) == (head + Dones(q[1..])) + Dones(r);
    }
  }

  lemma {:induction false} ResultsAppend(q: seq<Msg>, r: seq<Msg>)
    ensures Results(q + r) == Results(q) + Results(r)
    decreases |q|
  {
    if q == [] {
      assert q + r == r;
    } else {
      assert (q + r)[1..] == q[1..] + r;
      ResultsAppend(q[1..], r);
      var head := if q[0].Result? then [q[0].stats] else [];
      assert head + (Results(q[1..]) + Results(r)) == (head + Results(q[1..])) + Results(r);
    }
  }

  lemma {:induction false} TopAnnounces(p: Peer)
    requires p.localSent.Some? ==> p.SendsHere() && p.senders == 0
    requires p.localReceived.Some? ==> p.ReceivesHere() && p.receivers == 0
    requires (!p.SendsHere() ==> p.senders == 0) && (!p.ReceivesHere() ==> p.receivers == 0)
    ensures var (p', out) := Top(p);
      && PeerInv(p')
      && Announced(p.localSent) + Dones(out) == Announced(p'.localSent)
      && Announced(p.localReceived) + Results(out) == Announced(p'.localReceived)
      && p'.peerSent == p.peerSent && p'.peerReceived == p.peerReceived
      && p'.dir == p.dir && p'.server == p.server
  {
    hide Combined, Wire;
    var (p', out) := Top(p);
    var a := if p.MaySayDone() then [Done(Wire(Combined(p.sent)))] else [];
    var b := if p.MaySayResult() then [Result(Wire(Combined(p.received)))] else [];
    assert out == a + b;
    DonesAppend(a, b);
    ResultsAppend(a, b);
  }

  /** A happening itself announces nothing, and keeps what the peer has announced. */
  lemma {:induction false} HappeningAnnouncesNothing(p: Peer, h: Happening)
    requires PeerInv(p) && !p.left
    ensures var (p', out) := OnHappening(p, h);
      && Dones(out) == [] && Results(out) == []
      && p'.localSent == p.localSent && p'.localReceived == p.localReceived
      && p'.dir == p.dir && p'.server == p.server
      && (p'.localSent.Some? ==> p'.SendsHere() && p'.senders == 0)
      && (p'.localReceived.Some? ==> p'.ReceivesHere() && p'.receivers == 0)
      && (!p'.SendsHere() ==> p'.senders == 0) && (!p'.ReceivesHere() ==> p'.receivers == 0)
  {
    NoneInPing(h);
    hide Dones, Results;
  }

  /** What a happening takes leaves the channel. */
  lemma {:induction false} HappeningTakes(p: Peer, other: Peer, inbox: seq<Msg>, h: Happening)
    requires if h.MessageComes? then ChannelInv(other, p, [h.m] + inbox) else ChannelInv(other, p, inbox)
    ensures ChannelInv(other, OnHappening(p, h).0, inbox)
  {
    if h.MessageComes? {
      QueueHead(h.m, inbox);
    }
    hide Announced, Dones, Results, Combined;
  }

  lemma {:induction false} QueueHead(m: Msg, q: seq<Msg>)
    ensures Dones([m] + q) == (if m.Done? then [m.stats] else []) + Dones(q)
    ensures Results([m] + q) == (if m.Result? then [m.stats] else []) + Results(q)
  {
    assert ([m] + q)[1..] == q;
  }

  lemma {:induction false} NoneInPing(h: Happening)
    ensures Dones([]) == [] && Results([]) == []
    ensures h.PingTick? ==> Dones([Ping(h.stamp)]) == [] && Results([Ping(h.stamp)]) == []
    ensures h.MessageComes? && h.m.Ping? ==> Dones([Pong(h.m.t)]) == [] && Results([Pong(h.m.t)]) == []
  {
  }

  lemma {:induction false} TurnKeepsInv(p: Peer, other: Peer, outbox: seq<Msg>, inbox: seq<Msg>, h: Happening)
    requires PeerInv(p) && !p.left && ChannelInv(p, other, outbox)
    requires if h.MessageComes? then ChannelInv(other, p, [h.m] + inbox) else ChannelInv(other, p, inbox)
    ensures var (p', out) := Turn(p, h);
      && PeerInv(p') && ChannelInv(p', other, outbox + out) && ChannelInv(other, p', inbox)
      && p'.dir == p.dir && p'.server == p.server
  {
    hide OnHappening, Top, PeerInv, Dones, Results;
    HappeningTakes(p, other, inbox, h);
    HappeningAnnouncesNothing(p, h);
    var (p1, out1) := OnHappening(p, h);
    TopAnnounces(p1);
    var (p2, out2) := Top(p1);
    DonesAppend(out1, out2);
    ResultsAppend(out1, out2);
    DonesAppend(outbox, out1 + out2);
    ResultsAppend(outbox, out1 + out2);
    assert AsSeq(other.peerSent) + (Dones(outbox) + Dones(out2)) == Announced(p2.localSent);
    assert AsSeq(other.peerReceived) + (Results(outbox) + Results(out2)) == Announced(p2.localReceived);
    assert [] + Dones(out2) == Dones(out2) && [] + Results(out2) == Results(out2);
  }

  lemma {:induction false} StepKeepsInv(s: Net, step: Step)
    requires Inv(s) && Enabled(s, step)
    ensures Inv(Apply(s, step))
  {
    hide Turn, PeerInv, ChannelInv;
    match step
    case TaskEnds(who, sender, stats) =>
      var h := if sender then SenderEnds(stats) else ReceiverEnds(stats);
      if who.Client? {
        TurnKeepsInv(s.client, s.server, s.toServer, s.toClient, h);
      } else {
        TurnKeepsInv(s.server, s.client, s.toClient, s.toServer, h);
      }
    case Reads(Client) =>
      assert s.toClient == [s.toClient[0]] + s.toClient[1..];
      TurnKeepsInv(s.client, s.server, s.toServer, s.toClient[1..], MessageComes(s.toClient[0]));
    case Reads(Server) =>
      assert s.toServer == [s.toServer[0]] + s.toServer[1..];
      TurnKeepsInv(s.server, s.client, s.toClient, s.toServer[1..], MessageComes(s.toServer[0]));
    case Ticks(stamp) =>
      TurnKeepsInv(s.client, s.server, s.toServer, s.toClient, PingTick(stamp));
  }

  lemma {:induction false} StartInv(dir: Dir, streams: nat)
    ensures Inv(Start(dir, streams))
  {
    hide Top, PeerInv, Dones, Results;
    var s := Start(dir, streams);
    TopAnnounces(Begin(false, dir, streams));
    TopAnnounces(Begin(true, dir, streams));
    NothingTaken(s.client, s.server, s.toServer);
    NothingTaken(s.server, s.client, s.toClient);
  }

  lemma {:induction false} NothingTaken(x: Peer, y: Peer, q: seq<Msg>)
    requires y.peerSent.None? && y.peerReceived.None?
    requires [] + Dones(q) == Announced(x.localSent) && [] + Results(q) == Announced(x.localReceived)
    ensures ChannelInv(x, y, q)
  {
  }

  lemma {:induction false} RunKeepsInv(s: Net, steps: seq<Step>)
    requires Inv(s) && Runs(s, steps)
    ensures Inv(After(s, steps))
    decreases |steps|
  {
    hide Inv, Apply, Enabled;
    if steps == [] {
    } else {
      StepKeepsInv(s, steps[0]);
      RunKeepsInv(Apply(s, steps[0]), steps[1..]);
    }
  }

  // ----- Leaving is safe -----

  /**
   A peer leaves only when all the other still needs is already in the other's inbox; so a peer
   still in its loop never finds the control channel ended.
   */
  lemma {:induction false} LeavingIsSafe(x: Peer, y: Peer, inbox: seq<Msg>, outbox: seq<Msg>)
    requires PeerInv(x) && PeerInv(y) && x.dir == y.dir && x.server == !y.server
    requires ChannelInv(x, y, inbox) && ChannelInv(y, x, outbox)
    requires x.left && !y.left
    ensures y.SendsHere() ==> y.localSent.Some? && (y.peerReceived.None? ==> Results(inbox) != [])
    ensures y.ReceivesHere() ==> y.localReceived.Some? && (y.peerSent.None? ==> Dones(inbox) != [])
    ensures inbox != []
  {
  }

  lemma {:induction false} NeverReadsEof(dir: Dir, streams: nat, steps: seq<Step>)
    requires Runs(Start(dir, streams), steps)
    ensures var s := After(Start(dir, streams), steps);
      && (s.client.left && !s.server.left ==> s.toServer != [])
      && (s.server.left && !s.client.left ==> s.toClient != [])
  {
    StartInv(dir, streams);
    RunKeepsInv(Start(dir, streams), steps);
    var s := After(Start(dir, streams), steps);
    hide PeerInv, ChannelInv;
    if s.client.left && !s.server.left {
      LeavingIsSafe(s.client, s.server, s.toServer, s.toClient);
    }
    if s.server.left && !s.client.left {
      LeavingIsSafe(s.server, s.client, s.toClient, s.toServer);
    }
  }

  // ----- Agreement -----

  /** The four statistics a finished peer reports, in the order of the report. */
  datatype Report = Report(clientSent: Option<Stats>, serverSent: Option<Stats>,
                           clientReceived: Option<Stats>, serverReceived: Option<Stats>)

  function Reported(p: Peer): Report {
    if p.server then Report(p.peerSent, p.localSent, p.peerReceived, p.localReceived)
    else Report(p.localSent, p.peerSent, p.localReceived, p.peerReceived)
  }

  function WireOption(o: Option<Stats>): Option<Stats> {
    match o case None => None case Some(s) => Some(Wire(s))
  }

  function WireReport(r: Report): Report {
    Report(WireOption(r.clientSent), WireOption(r.serverSent),
           WireOption(r.clientReceived), WireOption(r.serverReceived))
  }

  /** The statistics of the tasks that ended on one side in a run, in order. */
  function Ended(steps: seq<Step>, who: Who, sender: bool): seq<Stats> {
    if steps == [] then []
    else OneEnded(steps[0], who, sender) + Ended(steps[1..], who, sender)
  }

  function OneEnded(step: Step, who: Who, sender: bool): seq<Stats> {
    if step.TaskEnds? && step.who == who && step.sender == sender then [step.stats] else []
  }

  /** What a side has to say about its tasks: one result of each, combined, if the direction has such tasks. */
  function Outcome(dir: Dir, steps: seq<Step>, who: Who, sender: bool): Option<Stats> {
    if Sends(dir, who.Server? == sender) then Some(Combined(Ended(steps, who, sender))) else None
  }

  /** A peer's totals combine the results it has, and no result of its tasks is missing. */
  ghost predicate TotalsInv(p: Peer, streams: nat) {
    && (p.localSent.Some? ==> p.localSent == Some(Combined(p.sent)))
    && (p.localReceived.Some? ==> p.localReceived == Some(Combined(p.received)))
    && |p.sent| + p.senders == (if p.SendsHere() then streams else 0)
    && |p.received| + p.receivers == (if p.ReceivesHere() then streams else 0)
  }

  lemma {:induction false} TopKeepsTotals(p: Peer, streams: nat)
    requires TotalsInv(p, streams)
    ensures TotalsInv(Top(p).0, streams)
    ensures Top(p).0.sent == p.sent && Top(p).0.received == p.received && Top(p).0.dir == p.dir
  {
    hide Combined;
  }

  lemma {:induction false} HappeningKeepsTotals(p: Peer, h: Happening, streams: nat)
    requires PeerInv(p) && TotalsInv(p, streams)
    requires (h.SenderEnds? ==> p.senders > 0) && (h.ReceiverEnds? ==> p.receivers > 0)
    ensures var p' := OnHappening(p, h).0;
      && TotalsInv(p', streams) && p'.dir == p.dir
      && p'.sent == p.sent + (if h.SenderEnds? then [h.stats] else [])
      && p'.received == p.received + (if h.ReceiverEnds? then [h.stats] else [])
  {
    hide Combined;
  }

  lemma {:induction false} TurnKeepsTotals(p: Peer, h: Happening, streams: nat)
    requires PeerInv(p) && TotalsInv(p, streams)
    requires (h.SenderEnds? ==> p.senders > 0) && (h.ReceiverEnds? ==> p.receivers > 0)
    ensures var p' := Turn(p, h).0;
      && TotalsInv(p', streams) && p'.dir == p.dir
      && p'.sent == p.sent + (if h.SenderEnds? then [h.stats] else [])
      && p'.received == p.received + (if h.ReceiverEnds? then [h.stats] else [])
  {
    hide TotalsInv, PeerInv, OnHappening, Top;
    HappeningKeepsTotals(p, h, streams);
    TopKeepsTotals(OnHappening(p, h).0, streams);
  }

  ghost predicate NetTotals(s: Net, streams: nat) {
    TotalsInv(s.client, streams) && TotalsInv(s.server, streams)
  }

  lemma {:induction false} StepKeepsTotals(s: Net, step: Step, streams: nat)
    requires Inv(s) && NetTotals(s, streams) && Enabled(s, step)
    ensures var t := Apply(s, step);
      && NetTotals(t, streams) && t.client.dir == s.client.dir
      && t.client.sent == s.client.sent + OneEnded(step, Client, true)
      && t.client.received == s.client.received + OneEnded(step, Client, false)
      && t.server.sent == s.server.sent + OneEnded(step, Server, true)
      && t.server.received == s.server.received + OneEnded(step, Server, false)
  {
    hide Turn, PeerInv, ChannelInv, TotalsInv;
    match step
    case TaskEnds(who, sender, stats) =>
      var h := if sender then SenderEnds(stats) else ReceiverEnds(stats);
      TurnKeepsTotals(if who.Client? then s.client else s.server, h, streams);
    case Reads(Client) => TurnKeepsTotals(s.client, MessageComes(s.toClient[0]), streams);
    case Reads(Server) => TurnKeepsTotals(s.server, MessageComes(s.toServer[0]), streams);
    case Ticks(stamp) => TurnKeepsTotals(s.client, PingTick(stamp), streams);
  }

  /** Every result a task ends with is counted, once, in order, in its side's totals. */
  lemma {:induction false} RunKeepsTotals(s: Net, steps: seq<Step>, streams: nat)
    requires Inv(s) && NetTotals(s, streams) && Runs(s, steps)
    ensures var t := After(s, steps);
      && NetTotals(t, streams) && t.client.dir == s.client.dir
      && t.client.sent == s.client.sent + Ended(steps, Client, true)
      && t.client.received == s.client.received + Ended(steps, Client, false)
      && t.server.sent == s.server.sent + Ended(steps, Server, true)
      && t.server.received == s.server.received + Ended(steps, Server, false)
    decreases |steps|
  {
    hide Inv, Apply, Enabled, NetTotals, OneEnded;
    if steps == [] {
    } else {
      StepKeepsInv(s, steps[0]);
      StepKeepsTotals(s, steps[0], streams);
      RunKeepsTotals(Apply(s, steps[0]), steps[1..], streams);
    }
  }

  lemma {:induction false} StartTotals(dir: Dir, streams: nat)
    ensures var s := Start(dir, streams);
      && NetTotals(s, streams) && s.client.dir == dir
      && s.client.sent == s.client.received == s.server.sent == s.server.received == []
  {
    hide Combined, Wire;
    TopKeepsTotals(Begin(false, dir, streams), streams);
    TopKeepsTotals(Begin(true, dir, streams), streams);
  }

  /**
   When both peers have left, each reports its own combined statistics and the other's without their intervals:
   one result of every stream task of the direction and nothing else, so the two reports differ in intervals only.
   */
  lemma {:induction false} FinishedPeersAgree(dir: Dir, streams: nat, steps: seq<Step>)
    requires Runs(Start(dir, streams), steps)
    ensures var s := After(Start(dir, streams), steps);
      s.client.left && s.server.left ==>
        var cs, cr := Outcome(dir, steps, Client, true), Outcome(dir, steps, Client, false);
        var ss, sr := Outcome(dir, steps, Server, true), Outcome(dir, steps, Server, false);
        && Reported(s.client) == Report(cs, WireOption(ss), cr, WireOption(sr))
        && Reported(s.server) == Report(WireOption(cs), ss, WireOption(cr), sr)
        && WireReport(Reported(s.client)) == WireReport(Reported(s.server))
    ensures var s := After(Start(dir, streams), steps);
      s.client.left && s.server.left ==>
        forall who, sender :: Sends(dir, who == Server <==> sender) ==> |Ended(steps, who, sender)| == streams
  {
    hide After, Start, Combined, Inv, NetTotals;
    StartInv(dir, streams);
    StartTotals(dir, streams);
    RunKeepsInv(Start(dir, streams), steps);
    RunKeepsTotals(Start(dir, streams), steps, streams);
    var s := After(Start(dir, streams), steps);
    if s.client.left && s.server.left {
      LeftTotals(s, streams);
      assert [] + Ended(steps, Client, true) == Ended(steps, Client, true);
      assert [] + Ended(steps, Client, false) == Ended(steps, Client, false);
      assert [] + Ended(steps, Server, true) == Ended(steps, Server, true);
      assert [] + Ended(steps, Server, false) == Ended(steps, Server, false);
    }
  }

  predicate OneSided(r: Report, dir: Dir) {
    match dir
    case Up => r.clientSent.Some? && r.serverReceived.Some? && r.serverSent.None? && r.clientReceived.None?
    case Down => r.serverSent.Some? && r.clientReceived.Some? && r.clientSent.None? && r.serverReceived.None?
    case Both => r.clientSent.Some? && r.serverSent.Some? && r.clientReceived.Some? && r.serverReceived.Some?
  }

  /**
   Which statistics there are, direction by direction: in an upload the client sends and the server receives, in a
   download the other way round, and in a test of both directions each does both.
   */
  lemma {:induction false} ReportsFollowDirection(dir: Dir, streams: nat, steps: seq<Step>)
    requires Runs(Start(dir, streams), steps)
    ensures var s := After(Start(dir, streams), steps);
      s.client.left && s.server.left ==>
        OneSided(Reported(s.client), dir) && OneSided(Reported(s.server), dir)
  {
    hide After, Start, Combined;
    FinishedPeersAgree(dir, streams, steps);
  }

  /** And which stream tasks each side starts; nothing else has happened yet. */
  lemma {:induction false} TasksFollowDirection(streams: nat, server: bool, dir: Dir)
    ensures var c, s := Begin(false, Up, streams), Begin(true, Up, streams);
      c.senders == s.receivers == streams && c.receivers == s.senders == 0
    ensures var c, s := Begin(false, Down, streams), Begin(true, Down, streams);
      s.senders == c.receivers == streams && s.receivers == c.senders == 0
    ensures var c, s := Begin(false, Both, streams), Begin(true, Both, streams);
      c.senders == c.receivers == s.senders == s.receivers == streams
    ensures var p := Begin(server, dir, streams);
      && p.server == server && p.dir == dir && !p.left && p.sent == p.received == []
      && p.localSent == p.localReceived == p.peerSent == p.peerReceived == None && p.pending == None && p.rtts == 0
  {
  }

  /**
   Round trips are timed by the client, one at a time: a ping waits for the pong that repeats its stamp, which the
   other side sends at once; any pong ends the wait, and only the one waited for counts.
   */
  lemma {:induction false} PingsAreAnswered(client: Peer, server: Peer, stamp: nat, other: nat)
    requires !client.server && server.server && client.pending.None? && other != stamp
    ensures var (pinging, asked) := OnHappening(client, PingTick(stamp));
      && asked == [Ping(stamp)] && pinging == client.(pending := Some(stamp))
      && OnHappening(pinging, PingTick(other)) == (pinging, [])
      && OnHappening(server, MessageComes(asked[0])) == (server, [Pong(stamp)])
      && OnHappening(pinging, MessageComes(Pong(stamp))) == (client.(rtts := client.rtts + 1), [])
      && OnHappening(pinging, MessageComes(Pong(other))) == (client, [])
      && OnHappening(server, PingTick(stamp)) == (server, [])
  {
  }

  /** Own totals are complete, and the other's are its announcements. */
  lemma {:induction false} LeftTotals(s: Net, streams: nat)
    requires Inv(s) && NetTotals(s, streams) && s.client.left && s.server.left
    ensures LeftWith(s.client, s.server, streams) && LeftWith(s.server, s.client, streams)
    ensures s.client.dir == s.server.dir && !s.client.server && s.server.server
  {
    hide PeerInv, ChannelInv;
    BothLeft(s.client, s.server, s.toServer, streams);
    BothLeft(s.server, s.client, s.toClient, streams);
  }

  ghost predicate LeftWith(x: Peer, y: Peer, streams: nat) {
    && x.localSent == (if x.SendsHere() then Some(Combined(x.sent)) else None)
    && x.localReceived == (if x.ReceivesHere() then Some(Combined(x.received)) else None)
    && y.peerSent == WireOption(x.localSent) && y.peerReceived == WireOption(x.localReceived)
    && (x.SendsHere() ==> |x.sent| == streams) && (x.ReceivesHere() ==> |x.received| == streams)
  }

  lemma {:induction false} BothLeft(x: Peer, y: Peer, q: seq<Msg>, streams: nat)
    requires PeerInv(x) && PeerInv(y) && x.dir == y.dir && x.server == !y.server
    requires ChannelInv(x, y, q) && x.left && y.left && TotalsInv(x, streams)
    ensures LeftWith(x, y, streams)
  {
    hide Combined, Wire;
    assert x.SendsHere() == y.ReceivesHere() && x.ReceivesHere() == y.SendsHere();
    assert x.SendsHere() ==> AsSeq(y.peerSent)[0] == Announced(x.localSent)[0];
    assert x.ReceivesHere() ==> AsSeq(y.peerReceived)[0] == Announced(x.localReceived)[0];
  }

  // ----- Termination -----

  function Weight(q: seq<Msg>): nat {
    if q == [] then 0 else (if q[0].Ping? then 2 else 1) + Weight(q[1..])
  }

  function Load(p: Peer): nat {
    p.senders + p.receivers
    + (if p.SendsHere() && p.localSent.None? then 2 else 0)
    + (if p.ReceivesHere() && p.localReceived.None? then 2 else 0)
  }

  function Work(s: Net): nat {
    Load(s.client) + Load(s.server) + Weight(s.toServer) + Weight(s.toClient)
  }

  lemma {:induction false} WeightAppend(q: seq<Msg>, r: seq<Msg>)
    ensures Weight(q + r) == Weight(q) + Weight(r)
    decreases |q|
  {
    if q == [] {
      assert q + r == r;
    } else {
      assert (q + r)[1..] == q[1..] + r;
      WeightAppend(q[1..], r);
    }
  }

  lemma {:induction false} TopWeighs(p: Peer)
    ensures var (p', out) := Top(p); Load(p') + Weight(out) <= Load(p)
  {
    hide Combined, Wire;
    var a := if p.MaySayDone() then [Done(Wire(Combined(p.sent)))] else [];
    var b := if p.MaySayResult() then [Result(Wire(Combined(p.received)))] else [];
    assert Top(p).1 == a + b;
    WeightAppend(a, b);
  }

  lemma {:induction false} TurnWeighs(p: Peer, h: Happening)
    requires h.SenderEnds? ==> p.senders > 0
    requires h.ReceiverEnds? ==> p.receivers > 0
    ensures var (p', out) := Turn(p, h);
      Load(p') + Weight(out) <= Load(p) + match h
        case SenderEnds(_) => -1
        case ReceiverEnds(_) => -1
        case MessageComes(m) => Weight([m]) - 1
        case PingTick(_) => 2
  {
    var (p1, out1) := OnHappening(p, h);
    assert Load(p1) + Weight(out1) <= Load(p) + match h
        case SenderEnds(_) => -1
        case ReceiverEnds(_) => -1
        case MessageComes(m) => Weight([m]) - 1
        case PingTick(_) => 2;
    hide OnHappening, Top;
    TopWeighs(p1);
    var (p2, out2) := Top(p1);
    WeightAppend(out1, out2);
  }

  /** Every step but a ping tick uses up work; a ping tick adds at most two. */
  lemma {:induction false} StepUsesWork(s: Net, step: Step)
    requires Enabled(s, step)
    ensures Work(Apply(s, step)) <= Work(s) + if step.Ticks? then 2 else -1
  {
    hide Turn, Load;
    match step
    case TaskEnds(who, sender, stats) =>
      var h := if sender then SenderEnds(stats) else ReceiverEnds(stats);
      var p := if who.Client? then s.client else s.server;
      TurnWeighs(p, h);
      WeightAppend(if who.Client? then s.toServer else s.toClient, Turn(p, h).1);
    case Reads(Client) =>
      var m := s.toClient[0];
      TurnWeighs(s.client, MessageComes(m));
      WeightAppend(s.toServer, Turn(s.client, MessageComes(m)).1);
    case Reads(Server) =>
      var m := s.toServer[0];
      TurnWeighs(s.server, MessageComes(m));
      WeightAppend(s.toClient, Turn(s.server, MessageComes(m)).1);
    case Ticks(stamp) =>
      TurnWeighs(s.client, PingTick(stamp));
      WeightAppend(s.toServer, Turn(s.client, PingTick(stamp)).1);
  }

  function TickCount(steps: seq<Step>): nat {
    if steps == [] then 0 else (if steps[0].Ticks? then 1 else 0) + TickCount(steps[1..])
  }

  /** No run is longer than its initial work plus three steps for every ping tick. */
  lemma {:induction false} RunsAreBounded(s: Net, steps: seq<Step>)
    requires Runs(s, steps)
    ensures |steps| + Work(After(s, steps)) <= Work(s) + 3 * TickCount(steps)
    decreases |steps|
  {
    hide Apply, Enabled, Work;
    if steps == [] {
    } else {
      StepUsesWork(s, steps[0]);
      RunsAreBounded(Apply(s, steps[0]), steps[1..]);
    }
  }

  /** Until both peers have left, some task can end or some message can be read. */
  lemma {:induction false} NeverDeadlocks(dir: Dir, streams: nat, steps: seq<Step>) returns (next: Step)
    requires Runs(Start(dir, streams), steps)
    requires var s := After(Start(dir, streams), steps); !(s.client.left && s.server.left)
    ensures Enabled(After(Start(dir, streams), steps), next) && !next.Ticks?
  {
    StartInv(dir, streams);
    RunKeepsInv(Start(dir, streams), steps);
    var s := After(Start(dir, streams), steps);
    hide After, Start;
    if !s.client.left && s.client.senders > 0 {
      next := TaskEnds(Client, true, NO_STATS);
    } else if !s.client.left && s.client.receivers > 0 {
      next := TaskEnds(Client, false, NO_STATS);
    } else if !s.server.left && s.server.senders > 0 {
      next := TaskEnds(Server, true, NO_STATS);
    } else if !s.server.left && s.server.receivers > 0 {
      next := TaskEnds(Server, false, NO_STATS);
    } else if !s.client.left && s.toClient != [] {
      next := Reads(Client);
    } else if !s.server.left && s.toServer != [] {
      next := Reads(Server);
    } else {
      if s.client.left {
        LeavingIsSafe(s.client, s.server, s.toServer, s.toClient);
      } else if s.server.left {
        LeavingIsSafe(s.server, s.client, s.toClient, s.toServer);
      } else {
        NothingLeftToDo(s.client, s.server);
      }
      assert false;
    }
  }

  /** With every task over and both channels empty, nothing is missing on either side. */
  lemma {:induction false} NothingLeftToDo(x: Peer, y: Peer)
    requires PeerInv(x) && PeerInv(y) && x.dir == y.dir && x.server == !y.server
    requires ChannelInv(x, y, []) && ChannelInv(y, x, [])
    requires x.senders == 0 && x.receivers == 0 && y.senders == 0 && y.receivers == 0
    ensures x.left && y.left
  {
  }

  // ----- The loop of one peer, updating its variables in place -----

  class Loop {
    const server: bool
    const dir: Dir
    var senders: nat
    var sent: seq<Stats>
    var receivers: nat
    var received: seq<Stats>
    var localSent: Option<Stats>
    var localReceived: Option<Stats>
    var peerSent: Option<Stats>
    var peerReceived: Option<Stats>
    var pending: Option<nat>
    var rtts: nat
    var left: bool

    ghost function View(): Peer
      reads this
    {
      Peer(server, dir, senders, sent, receivers, received,
           localSent, localReceived, peerSent, peerReceived, pending, rtts, left)
    }

    constructor (server: bool, dir: Dir, streams: nat)
      ensures View() == Begin(server, dir, streams)
      ensures senders == if dir.Both? || (dir.Up? && !server) || (dir.Down? && server) then streams else 0
      ensures receivers == if dir.Both? || (dir.Up? && server) || (dir.Down? && !server) then streams else 0
    {
      this.server, this.dir := server, dir;
      senders, sent := if Sends(dir, server) then streams else 0, [];
      receivers, received := if Sends(dir, !server) then streams else 0, [];
      localSent, localReceived, peerSent, peerReceived := None, None, None, None;
      pending, rtts, left := None, 0, false;
    }

    method PassTop() returns (out: seq<Msg>)
      modifies this
      ensures (View(), out) == Top(old(View()))
    {
      hide Combined;
      ghost var p := View();
      ghost var a := if p.MaySayDone() then [Done(Wire(Combined(p.sent)))] else [];
      ghost var b := if p.MaySayResult() then [Result(Wire(Combined(p.received)))] else [];
      out := [];
      if Sends(dir, server) && senders == 0 && localSent.None? {
        var stats := Combine(sent);
        out := out + [Done(stats.(intervals := []))];
        localSent := Some(stats);
      }
      if Sends(dir, !server) && receivers == 0 && localReceived.None? {
        var stats := Combine(received);
        out := out + [Result(stats.(intervals := []))];
        localReceived := Some(stats);
      }
      left := (!Sends(dir, server) || (localSent.Some? && peerReceived.Some?))
              && (!Sends(dir, !server) || (localReceived.Some? && peerSent.Some?));
      assert out == a + b;
    }

    method Select(h: Happening) returns (out: seq<Msg>)
      modifies this
      ensures (View(), out) == OnHappening(old(View()), h)
    {
      out := [];
      match h
      case SenderEnds(stats) =>
        if senders > 0 {
          senders, sent := senders - 1, sent + [stats];
        }
      case ReceiverEnds(stats) =>
        if receivers > 0 {
          receivers, received := receivers - 1, received + [stats];
        }
      case MessageComes(Ping(t)) => out := [Pong(t)];
      case MessageComes(Pong(t)) =>
        if pending == Some(t) {
          rtts := rtts + 1;
        }
        pending := None;
      case MessageComes(Done(stats)) => peerSent := Some(stats);
      case MessageComes(Result(stats)) => peerReceived := Some(stats);
      case PingTick(stamp) =>
        if !server && pending.None? {
          pending := Some(stamp);
          out := [Ping(stamp)];
        }
    }

    method Iterate(h: Happening) returns (out: seq<Msg>)
      modifies this
      ensures (View(), out) == Turn(old(View()), h)
    {
      hide OnHappening, Top;
      out := Select(h);
      var announced := PassTop();
      out := out + announced;
    }
  }
}
