/**
 The contract this project assumes of a userspace TCP socket: the connection states of
 section 3.3.2 of RFC 9293, and one reliable octet stream in each direction.

 Each stream is kept as its whole history plus cursors. `out` is everything accepted from the
 local side and `una` how much of it the peer has acknowledged, so the transmit queue is
 `out[una..]`; `inn` is everything received in order and `taken` how much of it the local side
 has consumed, so the receive queue is `inn[taken..]`.
 */
module Tcp {
  import opened Common

  const BUFFER_SIZE: nat := 256 * 1024

  datatype State =
    | Closed | Listen | SynSent | SynReceived | Established
    | FinWait1 | FinWait2 | CloseWait | Closing | LastAck | TimeWait

  datatype Socket = Socket(
    state: State,
    out: Bytes, una: nat,
    inn: Bytes, taken: nat,
    finQueued: bool,  // the local side asked to close; a FIN follows `out`
    finAcked: bool,   // the peer acknowledged that FIN
    finRcvd: bool,    // the peer's FIN arrived, after all of its octets
    aborted: bool)    // torn down by abort, reset or timeout
  {
    /** The cursors lie inside their streams. */
    predicate Bounded() {
      una <= |out| && taken <= |inn|
    }

    function TxQueue(): Bytes
      requires Bounded()
    {
      out[una..]
    }

    function RxQueue(): Bytes
      requires Bounded()
    {
      inn[taken..]
    }

    predicate MaySend() {
      state.Established? || state.CloseWait?
    }

    predicate CanSend()
      requires Bounded()
    {
      MaySend() && |TxQueue()| < BUFFER_SIZE
    }

    predicate MayRecv()
      requires Bounded()
    {
      state.Established? || state.FinWait1? || state.FinWait2? || RxQueue() != []
    }

    predicate CanRecv()
      requires Bounded()
    {
      MayRecv() && RxQueue() != []
    }

    function Abort(): Socket {
      this.(aborted := aborted || !state.Closed?, state := Closed)
    }

    /** Ends the outgoing stream; the FIN is sent after the octets already queued. */
    function Close(): Socket {
      match state
      case Listen | SynSent => this.(state := Closed)
      case SynReceived | Established => this.(state := FinWait1, finQueued := true)
      case CloseWait => this.(state := LastAck, finQueued := true)
      case _ => this
    }

    function Send(data: Bytes): Socket {
      this.(out := out + data)
    }

    function Consume(n: nat): Socket {
      this.(taken := taken + n)
    }
  }

  /** A socket before its handshake: connecting or listening. */
  function Fresh(state: State): Socket {
    Socket(state, [], 0, [], 0, false, false, false, false)
  }

  /** What the network can do to one socket. */
  datatype NetEvent =
    | Synchronize            // the next handshake segment arrives
    | TakeData(data: Bytes)  // the next in-order octets arrive
    | TakeFin                // the peer's FIN arrives, in order
    | TakeAck(n: nat)        // the peer acknowledges n more octets
    | TakeFinAck             // the peer acknowledges everything, the FIN included
    | Expire                 // the 2*MSL timer of TIME-WAIT runs out
    | Reset                  // a reset segment or a retransmission timeout

  /** Whether a socket in this state acts on the event; otherwise it is dropped. */
  predicate Accepts(s: Socket, ev: NetEvent)
    requires s.Bounded()
  {
    match ev
    case Synchronize => s.state.Listen? || s.state.SynSent? || s.state.SynReceived?
    case TakeData(data) =>
      (s.state.Established? || s.state.FinWait1? || s.state.FinWait2?)
      && |s.RxQueue()| + |data| <= BUFFER_SIZE
    case TakeFin => s.state.Established? || s.state.FinWait1? || s.state.FinWait2?
    case TakeAck(n) => !s.state.Closed? && s.una + n <= |s.out|
    case TakeFinAck => s.state.FinWait1? || s.state.Closing? || s.state.LastAck?
    case Expire => s.state.TimeWait?
    case Reset => !s.state.Closed?
  }

  /** The socket after the event. */
  function OnNet(s: Socket, ev: NetEvent): Socket
    requires s.Bounded()
  {
    if !Accepts(s, ev) then s else
    match ev
    case Synchronize => s.(state := if s.state.Listen? then SynReceived else Established)
    case TakeData(data) => s.(inn := s.inn + data)
    case TakeFin =>
      s.(finRcvd := true,
         state := match s.state
           case Established => CloseWait
           case FinWait1 => Closing
           case _ => TimeWait)
    case TakeAck(n) => s.(una := s.una + n)
    case TakeFinAck =>
      s.(una := |s.out|, finAcked := true,
         state := match s.state
           case FinWait1 => FinWait2
           case Closing => TimeWait
           case _ => Closed)
    case Expire => s.(state := Closed)
    case Reset => s.Abort()
  }
}
