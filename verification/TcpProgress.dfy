/**
 Progress of one direction under every fair schedule: whatever else both sides do, as long as polling, deliveries
 and the reader's reads keep coming round, everything written arrives.
 */
module TcpProgress {
  import opened Common
  import opened Endpoints
  import opened Tcp
  import opened LinkPump
  import opened TcpEndToEnd

  /**
   Everything but a's application writing or finishing more, an application dropping its end, and what aborts a
   socket. The other direction may do as it likes.
   */
  predicate Allowed(e: Event) {
    match e
    case OnA(act) => Harmless(act) && (act.App? ==> act.ev.Read?)
    case OnB(act) => Harmless(act) && (act.App? ==> !act.ev.Drop?)
  }

  predicate Harmless(act: Act) {
    !act.ResetIn? && (act.Tick? ==> !act.o.dialerGone)
  }

  // ---- How far the stream from a to b has come ----

  /** Octets taken from a's pipe, acknowledged, received, passed on and read, and the three marks of its end. */
  datatype Way = Way(taken: nat, acked: nat, received: nat, passed: nat, read: nat,
                     finQueued: bool, finRcvd: bool, shut: bool)

  function WayOf(s: Net): Way {
    Way(s.a.link.pipe.toNet.taken, s.a.sock.una, |s.b.sock.inn|, s.b.sock.taken, s.b.link.pipe.toApp.taken,
        s.a.sock.finQueued, s.b.sock.finRcvd, s.b.link.pipe.toApp.shut)
  }

  predicate NoLess(v: Way, w: Way) {
    && v.taken <= w.taken && v.acked <= w.acked && v.received <= w.received && v.passed <= w.passed && v.read <= w.read
    && (v.finQueued ==> w.finQueued) && (v.finRcvd ==> w.finRcvd) && (v.shut ==> w.shut)
  }

  /** In the invariant's terms the lengths of the streams are these numbers. */
  lemma {:induction false} Lengths(s: Net)
    requires Inv(s) && Open(s)
    ensures |s.a.sock.out| == WayOf(s).taken && |s.b.link.pipe.toApp.data| == WayOf(s).passed
    ensures WayOf(s).read <= WayOf(s).passed <= WayOf(s).received <= WayOf(s).taken <= |s.a.Wrote()|
    ensures WayOf(s).acked <= WayOf(s).received
    ensures s.b.sock.inn == s.a.Wrote()[..WayOf(s).received]
    ensures s.b.Received() == s.a.Wrote()[..WayOf(s).read]
    ensures Remaining(s) >= 0
  {
    assert s.a.sock.out == s.a.Wrote()[..WayOf(s).taken];
    assert s.b.link.pipe.toApp.data == s.b.sock.inn[..WayOf(s).passed];
  }

  /** Same promise to keep, and no less of it done. */
  ghost predicate Onward(s: Net, t: Net) {
    && Inv(t) && Open(t) && t.a.Wrote() == s.a.Wrote() && t.a.Finished() == s.a.Finished()
    && NoLess(WayOf(s), WayOf(t))
  }

  lemma {:induction false} OnwardRemaining(s: Net, t: Net)
    requires Inv(s) && Open(s) && Onward(s, t)
    ensures Remaining(t) <= Remaining(s)
    ensures Remaining(t) == Remaining(s) <==> WayOf(t) == WayOf(s)
  {
    hide Inv, Open;
    Lengths(s);
    Lengths(t);
  }

  lemma {:induction false} OnwardTransitive(s: Net, t: Net, u: Net)
    requires Onward(s, t) && Onward(t, u)
    ensures Onward(s, u)
  {
    hide Inv, Open;
  }

  // ---- No allowed event undoes anything ----

  /** A polling iteration without abort, seen from the outgoing stream. */
  lemma {:induction false} PumpKeepsOutgoing(l: Link, s: Socket, o: Observed)
    requires LinkInv(l, s) && !l.appHeld && !s.aborted && !o.dialerGone
    ensures var r := Pump(l, s, o);
      && !r.link.appHeld && !r.socket.aborted
      && r.link.pipe.toNet.data == l.pipe.toNet.data && r.link.pipe.toNet.shut == l.pipe.toNet.shut
      && r.link.pipe.toNet.taken >= l.pipe.toNet.taken && r.link.pipe.appReads == l.pipe.appReads
  {
    hide PumpIn, PassEof, LinkInv;
    PumpOutKeepsOutgoing(l, s);
    var p := PumpOut(l, s);
    PumpInLeavesOutgoing(p.0, p.1, o);
  }

  lemma {:induction false} PumpOutKeepsOutgoing(l: Link, s: Socket)
    requires Shaped(l, s)
    ensures var p := PumpOut(l, s);
      && p.0.appHeld == l.appHeld && p.1.aborted == s.aborted && p.0.pipe.appReads == l.pipe.appReads
      && p.0.pipe.toNet.data == l.pipe.toNet.data && p.0.pipe.toNet.shut == l.pipe.toNet.shut
      && p.0.pipe.toNet.taken >= l.pipe.toNet.taken && p.0.pipe.toApp == l.pipe.toApp && p.1.taken == s.taken
  {
  }

  /** And from the incoming one. */
  lemma {:induction false} PumpKeepsIncoming(l: Link, s: Socket, o: Observed)
    requires LinkInv(l, s) && !l.appHeld && !s.aborted && !o.dialerGone
    ensures var r := Pump(l, s, o);
      && r.socket.taken >= s.taken && r.link.pipe.toApp.taken == l.pipe.toApp.taken
      && (l.pipe.toApp.shut ==> r.link.pipe.toApp.shut)
  {
    hide PumpIn, PumpOut, PassEof, LinkInv;
    PumpOutKeepsOutgoing(l, s);
    var p := PumpOut(l, s);
    PumpInKeepsIncoming(p.0, p.1, o);
  }

  lemma {:induction false} PumpInKeepsIncoming(l: Link, s: Socket, o: Observed)
    requires Shaped(l, s)
    ensures var q := PumpIn(l, s, o); var e := PassEof(q.0, q.1);
      && q.1.taken >= s.taken && e.pipe.toApp.taken == l.pipe.toApp.taken
      && (l.pipe.toApp.shut ==> e.pipe.toApp.shut)
  {
  }

  lemma {:induction false} NetMovesOn(s: Socket, ev: NetEvent)
    requires s.Bounded() && !ev.Reset?
    ensures var t := OnNet(s, ev);
      && t.aborted == s.aborted && t.out == s.out && t.una >= s.una && t.finQueued == s.finQueued
      && s.inn <= t.inn && t.taken == s.taken && (s.finRcvd ==> t.finRcvd)
  {
  }

  /** What one end may lose by an allowed act: nothing. */
  ghost predicate EndOnward(x: End, y: End) {
    && y.link.appHeld == x.link.appHeld && y.sock.aborted == x.sock.aborted
    && y.link.pipe.appReads == x.link.pipe.appReads
    && y.link.pipe.toNet.taken >= x.link.pipe.toNet.taken && y.sock.una >= x.sock.una
    && (x.sock.finQueued ==> y.sock.finQueued)
    && |y.sock.inn| >= |x.sock.inn| && y.sock.taken >= x.sock.taken
    && y.link.pipe.toApp.taken >= x.link.pipe.toApp.taken
    && (x.sock.finRcvd ==> y.sock.finRcvd) && (x.link.pipe.toApp.shut ==> y.link.pipe.toApp.shut)
  }

  lemma {:induction false} PerformOnward(me: End, peer: End, act: Act)
    requires EndInv(me) && peer.Bounded() && !me.link.appHeld && !me.sock.aborted
    requires Harmless(act) && (act.App? ==> !act.ev.Drop?)
    ensures EndOnward(me, Perform(me, peer, act))
    ensures var t := Perform(me, peer, act);
      (act.App? ==> act.ev.Read?) ==> t.Wrote() == me.Wrote() && t.Finished() == me.Finished()
  {
    hide Pump, OnNet, LinkInv;
    if act.Tick? {
      if !me.removed {
        PumpKeepsOutgoing(me.link, me.sock, act.o);
        PumpKeepsIncoming(me.link, me.sock, act.o);
        PumpFrame(me.link, me.sock, act.o);
      }
    } else if !act.App? && !me.removed && Delivered(me.sock, peer.sock, act).Some? {
      NetMovesOn(me.sock, Delivered(me.sock, peer.sock, act).value);
    }
  }

  lemma {:induction false} AllowedOnward(s: Net, e: Event)
    requires Inv(s) && Open(s) && Allowed(e)
    ensures Onward(s, Apply(s, e))
  {
    hide EndInv, StreamInv, Perform;
    ApplyKeepsInv(s, e);
    match e
    case OnA(act) => PerformOnward(s.a, s.b, act);
    case OnB(act) => PerformOnward(s.b, s.a, act);
  }

  /** No schedule of allowed events ever has more left to do than before. */
  lemma {:induction false} RunOnward(s: Net, es: seq<Event>)
    requires Inv(s) && Open(s) && forall e :: e in es ==> Allowed(e)
    ensures Onward(s, Run(s, es)) && Remaining(Run(s, es)) <= Remaining(s)
    decreases |es|
  {
    hide Inv, Open, Apply, Onward, Allowed, Remaining;
    if es == [] {
      assert Onward(s, s) by { OnwardItself(s); }
    } else {
      var t := Apply(s, es[0]);
      AllowedOnward(s, es[0]);
      Onwards(s, t);
      RunOnward(t, es[1..]);
      OnwardTransitive(s, t, Run(s, es));
      OnwardRemaining(s, Run(s, es));
    }
  }

  lemma {:induction false} Onwards(s: Net, t: Net)
    requires Onward(s, t)
    ensures Inv(t) && Open(t)
  {
  }

  lemma {:induction false} OnwardItself(s: Net)
    requires Inv(s) && Open(s)
    ensures Onward(s, s)
  {
  }

  // ---- What helps next ----

  /** The kinds of event that move the stream: reads, deliveries, acknowledgements and polling on either side. */
  datatype Kind = Reading | PollingB | Delivering | Ending | Acknowledging | PollingA

  function KindOf(e: Event): Option<Kind> {
    match e
    case OnB(App(Read(_))) => Some(Reading)
    case OnB(Tick(_)) => Some(PollingB)
    case OnB(DataIn(_)) => Some(Delivering)
    case OnB(FinIn) => Some(Ending)
    case OnA(AckIn(_)) => Some(Acknowledging)
    case OnA(Tick(_)) => Some(PollingA)
    case _ => None
  }

  /** The socket takes what the channel has for it. */
  predicate Takes(me: End, peer: End, act: Act)
    requires me.Bounded()
  {
    !me.removed && Delivered(me.sock, peer.sock, act).Some?
    && Accepts(me.sock, Delivered(me.sock, peer.sock, act).value)
  }

  /** The event, of one of the kinds, can do something now: any number of octets from one up, as far as there are. */
  predicate Enabled(s: Net, e: Event)
    requires s.Bounded()
  {
    match e
    case OnB(App(Read(n))) => 1 <= n <= |s.b.link.pipe.toApp.Queue()|
    case OnB(Tick(o)) => !o.dialerGone
    case OnB(DataIn(n)) => n >= 1 && Takes(s.b, s.a, DataIn(n))
    case OnB(FinIn) => Takes(s.b, s.a, FinIn)
    case OnA(AckIn(n)) => n >= 1 && Takes(s.a, s.b, AckIn(n))
    case OnA(Tick(o)) => !o.dialerGone
    case _ => false
  }

  /** Some event of the kind can do something now. */
  ghost predicate Possible(s: Net, k: Kind)
    requires s.Bounded()
  {
    exists e :: KindOf(e) == Some(k) && Enabled(s, e)
  }

  /** Whether events of this kind move the stream on from where it is. */
  predicate Helps(w: Way, k: Kind) {
    match k
    case Reading => w.read < w.passed
    case PollingB => w.read == w.passed && (w.passed < w.received || (w.finRcvd && !w.shut))
    case Delivering => w.read == w.passed == w.received < w.taken
    case Ending => w.read == w.passed == w.received == w.taken && w.finQueued && !w.finRcvd
    case Acknowledging => w.received == w.taken && !w.finQueued && w.acked < w.taken
    case PollingA => w.read == w.passed == w.received == w.taken == w.acked && !w.finQueued
  }

  /** While anything is missing one of the kinds helps. */
  lemma {:induction false} SomethingHelps(s: Net) returns (k: Kind)
    requires Inv(s) && Open(s) && !AllArrived(s)
    ensures Helps(WayOf(s), k) && Possible(s, k)
  {
    hide EndInv, StreamInv, Possible;
    Lengths(s);
    var w := WayOf(s);
    if w.read < w.passed {
      k := Reading;
    } else if w.passed < w.received || (w.finRcvd && !w.shut) {
      k := PollingB;
    } else if w.received < w.taken {
      k := Delivering;
    } else if w.finQueued {
      EndMissing(s);
      k := Ending;
    } else if w.acked < w.taken {
      k := Acknowledging;
    } else {
      k := PollingA;
    }
    HelpIsPossible(s, k);
  }

  /** With every octet read and a's end of the stream sent, what is missing is that end. */
  lemma {:induction false} EndMissing(s: Net)
    requires Inv(s) && Open(s) && !AllArrived(s)
    requires var w := WayOf(s); w.read == w.passed == w.received == w.taken && w.finQueued && (w.finRcvd ==> w.shut)
    ensures !WayOf(s).finRcvd
  {
    Lengths(s);
    assert s.a.Wrote()[..|s.a.Wrote()|] == s.a.Wrote();
  }

  /** The smallest event of a kind. */
  function Least(k: Kind): (e: Event)
    ensures KindOf(e) == Some(k)
  {
    var tick := Tick(Observed(0, false, 0));
    match k
    case Reading => OnB(App(Read(1)))
    case PollingB => OnB(tick)
    case Delivering => OnB(DataIn(1))
    case Ending => OnB(FinIn)
    case Acknowledging => OnA(AckIn(1))
    case PollingA => OnA(tick)
  }

  lemma {:induction false} HelpIsPossible(s: Net, k: Kind)
    requires Inv(s) && Open(s) && Helps(WayOf(s), k)
    ensures Enabled(s, Least(k)) && Possible(s, k)
  {
    Lengths(s);
    if k.Ending? {
      assert s.b.sock.inn == s.a.sock.out;
    }
  }

  /** A kind is possible exactly when its smallest event is enabled. */
  lemma {:induction false} LeastIsEnabled(s: Net, e: Event)
    requires s.Bounded() && KindOf(e).Some? && Enabled(s, e)
    ensures Enabled(s, Least(KindOf(e).value))
  {
  }

  /** An enabled event of a kind that helps leaves strictly less to do, however many octets it moves. */
  lemma {:induction false} HelpMoves(s: Net, e: Event)
    requires Inv(s) && Open(s) && !AllArrived(s) && KindOf(e).Some?
    requires Helps(WayOf(s), KindOf(e).value) && Enabled(s, e)
    ensures WayOf(Apply(s, e)) != WayOf(s)
  {
    hide Pump, LinkInv, EndInv, StreamInv, AllArrived;
    match e
    case OnB(Tick(o)) => TickBHelps(s, o);
    case OnA(Tick(o)) => TickAHelps(s, o);
    case _ => OtherHelps(s, e);
  }

  lemma {:induction false} OtherHelps(s: Net, e: Event)
    requires s.Bounded() && Open(s) && KindOf(e).Some? && !e.act.Tick? && Enabled(s, e)
    requires Helps(WayOf(s), KindOf(e).value)
    ensures WayOf(Apply(s, e)) != WayOf(s)
  {
    hide Pump;
  }

  lemma {:induction false} TickBHelps(s: Net, o: Observed)
    requires Inv(s) && Open(s) && Helps(WayOf(s), PollingB) && !o.dialerGone
    ensures WayOf(Apply(s, OnB(Tick(o)))) != WayOf(s)
  {
    hide Pump;
    Lengths(s);
    PumpInMoves(s.b.link, s.b.sock, o);
    assert !s.b.removed;
  }

  lemma {:induction false} TickAHelps(s: Net, o: Observed)
    requires Inv(s) && Open(s) && !AllArrived(s) && Helps(WayOf(s), PollingA) && !o.dialerGone
    ensures WayOf(Apply(s, OnA(Tick(o)))) != WayOf(s)
  {
    hide Pump;
    Lengths(s);
    assert !s.a.removed && s.a.sock.CanSend();
    assert s.a.link.pipe.toNet.Queue() != [] || s.a.link.pipe.toNet.shut by {
      if s.a.link.pipe.toNet.Queue() == [] {
        assert s.a.Wrote()[..|s.a.Wrote()|] == s.a.Wrote();
      }
    }
    PumpOutMoves(s.a.link, s.a.sock, o);
    PumpFrame(s.a.link, s.a.sock, o);
  }

  // ---- Rounds ----

  /**
   A kind gets its turn in a stretch of a schedule: at some moment of it an event of the kind that can do something
   is performed, or none could.
   */
  ghost predicate Turn(s: Net, es: seq<Event>, k: Kind)
    requires s.Bounded()
    decreases |es|
  {
    || !Possible(s, k)
    || (es != [] && KindOf(es[0]) == Some(k) && Enabled(s, es[0]))
    || (es != [] && Turn(Apply(s, es[0]), es[1..], k))
  }

  /** A stretch in which every kind gets its turn, among any other allowed events. */
  ghost predicate Round(s: Net, es: seq<Event>)
    requires s.Bounded()
  {
    (forall e :: e in es ==> Allowed(e)) && forall k :: Turn(s, es, k)
  }

  /** A schedule cut into rounds. */
  ghost predicate Fair(s: Net, rounds: seq<seq<Event>>)
    requires s.Bounded()
    decreases |rounds|
  {
    rounds == [] || (Round(s, rounds[0]) && Fair(Run(s, rounds[0]), rounds[1..]))
  }

  /** In a stretch in which a helping kind gets its turn, something moves. */
  lemma {:induction false} TurnMoves(s: Net, es: seq<Event>, k: Kind)
    requires Inv(s) && Open(s) && !AllArrived(s) && forall e :: e in es ==> Allowed(e)
    requires Helps(WayOf(s), k) && Turn(s, es, k)
    ensures Onward(s, Run(s, es)) && Remaining(Run(s, es)) < Remaining(s)
    decreases |es|
  {
    hide Inv, Open, Apply, Onward, Allowed, Helps, Remaining, AllArrived, Possible, Enabled;
    HelpIsPossible(s, k);
    var t := Apply(s, es[0]);
    AllowedOnward(s, es[0]);
    Onwards(s, t);
    OnwardRemaining(s, t);
    RunOnward(s, es);
    RunOnward(t, es[1..]);
    if WayOf(t) == WayOf(s) {
      if KindOf(es[0]) == Some(k) && Enabled(s, es[0]) {
        HelpMoves(s, es[0]);
        assert false;
      } else {
        assert !AllArrived(t) by { SameWayArrived(s, t); }
        TurnMoves(t, es[1..], k);
      }
    }
  }

  lemma {:induction false} SameWayArrived(s: Net, t: Net)
    requires Inv(s) && Open(s) && Onward(s, t) && WayOf(s) == WayOf(t)
    ensures t.Bounded() && (AllArrived(t) <==> AllArrived(s))
  {
    hide EndInv, StreamInv;
    Lengths(s);
    Lengths(t);
  }

  lemma {:induction false} ArrivedStays(s: Net, t: Net)
    requires Inv(s) && Open(s) && Onward(s, t) && AllArrived(s)
    ensures AllArrived(t)
  {
    hide EndInv, StreamInv;
    Lengths(s);
    Lengths(t);
    assert WayOf(s).read == |s.a.Wrote()|;
    assert s.a.Wrote()[..|s.a.Wrote()|] == s.a.Wrote();
  }

  function RunRounds(s: Net, rounds: seq<seq<Event>>): (t: Net)
    requires s.Bounded()
    ensures t.Bounded()
    decreases |rounds|
  {
    if rounds == [] then s else RunRounds(Run(s, rounds[0]), rounds[1..])
  }

  /**
   One direction never waits for the other, under every fair schedule: cut the schedule into rounds in which each
   kind of event gets its turn, in any order, with any number of octets and among any other allowed events, and
   after as many rounds as there was left to do, b's application has everything a's wrote and, if a's finished,
   the end of it.
   */
  lemma {:induction false} FairSchedulesDeliver(s: Net, rounds: seq<seq<Event>>)
    requires Inv(s) && Open(s) && Fair(s, rounds) && |rounds| >= Remaining(s)
    ensures var t := RunRounds(s, rounds);
      AllArrived(t) && t.a.Wrote() == s.a.Wrote() && t.a.Finished() == s.a.Finished()
    decreases |rounds|
  {
    hide Inv, Open, Round, Run, AllArrived, Remaining, WayOf, NoLess;
    if rounds == [] {
      NothingRemains(s);
    } else {
      var r := rounds[0];
      RoundIsAllowed(s, r);
      RunOnward(s, r);
      var t := Run(s, r);
      if AllArrived(s) {
        ArrivedStays(s, t);
        ArrivedKeeps(t, rounds[1..]);
      } else {
        RoundMoves(s, r);
        FairSchedulesDeliver(t, rounds[1..]);
      }
    }
  }

  lemma {:induction false} RoundMoves(s: Net, r: seq<Event>)
    requires Inv(s) && Open(s) && !AllArrived(s) && Round(s, r)
    ensures Onward(s, Run(s, r)) && Remaining(Run(s, r)) < Remaining(s)
  {
    hide Inv, Open, Run, AllArrived, Remaining, Turn, Helps;
    var k := SomethingHelps(s);
    TurnMoves(s, r, k);
  }

  lemma {:induction false} RoundIsAllowed(s: Net, r: seq<Event>)
    requires s.Bounded() && Round(s, r)
    ensures forall e :: e in r ==> Allowed(e)
  {
  }

  lemma {:induction false} NothingRemains(s: Net)
    requires Inv(s) && Open(s) && Remaining(s) <= 0
    ensures AllArrived(s)
  {
    hide EndInv, StreamInv;
    Lengths(s);
    assert s.a.Wrote()[..|s.a.Wrote()|] == s.a.Wrote();
  }

  lemma {:induction false} ArrivedKeeps(s: Net, rounds: seq<seq<Event>>)
    requires Inv(s) && Open(s) && AllArrived(s) && Fair(s, rounds)
    ensures var t := RunRounds(s, rounds);
      AllArrived(t) && t.a.Wrote() == s.a.Wrote() && t.a.Finished() == s.a.Finished()
    decreases |rounds|
  {
    hide Inv, Open, Round, Run, AllArrived, Remaining, WayOf, NoLess;
    if rounds == [] {
    } else {
      RoundIsAllowed(s, rounds[0]);
      RunOnward(s, rounds[0]);
      ArrivedStays(s, Run(s, rounds[0]));
      ArrivedKeeps(Run(s, rounds[0]), rounds[1..]);
    }
  }

  // ---- Some schedule ----

  /** Acts that move the stream from a to b: polling, deliveries and b's reads. None writes or closes. */
  predicate Moves(e: Event) {
    KindOf(e).Some? && (e.act.Tick? ==> !e.act.o.dialerGone)
  }

  const KINDS: seq<Kind> := [Reading, PollingB, Delivering, Ending, Acknowledging, PollingA]

  /** The smallest event of each of these kinds. */
  function LeastOf(kinds: seq<Kind>): (es: seq<Event>)
    ensures forall e :: e in es ==> Moves(e)
  {
    if kinds == [] then [] else [Least(kinds[0])] + LeastOf(kinds[1..])
  }

  /** In a stretch of smallest events each of their kinds gets its turn, from any state. */
  lemma {:induction false} LeastTakesTurn(s: Net, kinds: seq<Kind>, k: Kind)
    requires s.Bounded() && k in kinds
    ensures Turn(s, LeastOf(kinds), k)
    decreases |kinds|
  {
    hide Apply, Possible, Least, Enabled;
    var es := LeastOf(kinds);
    if Possible(s, k) {
      if kinds[0] == k {
        PossibleIsLeast(s, k);
      } else {
        LeastTakesTurn(Apply(s, es[0]), kinds[1..], k);
      }
    }
  }

  lemma {:induction false} PossibleIsLeast(s: Net, k: Kind)
    requires s.Bounded() && Possible(s, k)
    ensures Enabled(s, Least(k))
  {
    hide Enabled, Least;
    var e :| KindOf(e) == Some(k) && Enabled(s, e);
    LeastIsEnabled(s, e);
  }

  lemma {:induction false} LeastIsRound(s: Net)
    requires s.Bounded()
    ensures Round(s, LeastOf(KINDS))
  {
    hide Turn, LeastOf, Moves, Allowed;
    forall k
      ensures Turn(s, LeastOf(KINDS), k)
    {
      EveryKind(k);
      LeastTakesTurn(s, KINDS, k);
    }
    forall e | e in LeastOf(KINDS)
      ensures Allowed(e)
    {
      MovesIsAllowed(e);
    }
  }

  lemma {:induction false} EveryKind(k: Kind)
    ensures k in KINDS
  {
    assert KINDS[0] == Reading && KINDS[1] == PollingB && KINDS[2] == Delivering;
    assert KINDS[3] == Ending && KINDS[4] == Acknowledging && KINDS[5] == PollingA;
  }

  lemma {:induction false} MovesIsAllowed(e: Event)
    requires Moves(e)
    ensures Allowed(e)
  {
  }

  function Repeated(round: seq<Event>, n: nat): (es: seq<Event>)
    ensures forall e :: e in es ==> e in round
  {
    if n == 0 then [] else round + Repeated(round, n - 1)
  }

  lemma {:induction false} RepeatedRuns(s: Net, n: nat)
    requires s.Bounded()
    ensures var round := LeastOf(KINDS);
      && Run(s, Repeated(round, n)) == RunRounds(s, seq(n, _ => round))
      && Fair(s, seq(n, _ => round))
    decreases n
  {
    hide Run, LeastOf, Round;
    var round := LeastOf(KINDS);
    var rounds := seq(n, _ => round);
    if n == 0 {
      RunNothing(s);
    } else {
      LeastIsRound(s);
      RunSplit(s, round, Repeated(round, n - 1));
      RepeatedRuns(Run(s, round), n - 1);
      assert rounds[1..] == seq(n - 1, _ => round);
    }
  }

  lemma {:induction false} RunNothing(s: Net)
    requires s.Bounded()
    ensures Run(s, []) == s
  {
  }

  /**
   So whatever b's application has done with its own writing side, from every reachable state with both ends open
   polling, deliveries and b's reads alone bring b everything a wrote, and end-of-file if a has finished.
   */
  lemma {:induction false} NeverStuck(s: Net) returns (es: seq<Event>)
    requires Inv(s) && Open(s)
    ensures forall e :: e in es ==> Moves(e)
    ensures var t := Run(s, es);
      AllArrived(t) && t.a.Wrote() == s.a.Wrote() && t.a.Finished() == s.a.Finished()
  {
    hide Inv, Open, AllArrived, Run, Moves, Remaining, Fair;
    var round := LeastOf(KINDS);
    var n: nat := if Remaining(s) < 0 then 0 else Remaining(s);
    es := Repeated(round, n);
    RepeatedRuns(s, n);
    FairSchedulesDeliver(s, seq(n, _ => round));
  }
}
