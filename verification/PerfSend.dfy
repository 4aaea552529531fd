/** The sending side of the throughput test, and what the receiving side makes of what it sends over UDP. */
module PerfSend {
  import opened Common
  import opened PerfAccounting
  import opened PerfReceive

  const HEADER: nat := 32

  datatype Params = Params(bytes: nat, duration: nat, length: nat, interval: nat)

  /** What `validate` leaves of these parameters; times are in nanoseconds. */
  predicate Validated(p: Params, udp: bool) {
    && (p.bytes > 0 || 0 < p.duration <= 600_000_000_000)
    && 0 < p.length <= 1_048_576 && (udp ==> HEADER <= p.length <= 65507)
    && (p.interval == 0 || p.interval >= 100_000_000)
  }

  /** Readings of the clock, in the order they are taken, never go back. */
  ghost predicate Clock(clock: nat -> nat) {
    forall i: nat, j: nat :: i <= j ==> clock(i) <= clock(j)
  }

  /** A datagram as it is sent. */
  datatype Packet = Packet(id: Bytes, ends: bool, seqno: nat, len: nat)

  /** n datagrams of data, numbered in the order they are sent. */
  function Numbered(id: Bytes, length: nat, n: nat): (r: seq<Packet>)
    ensures |r| == n && forall i :: 0 <= i < n ==> r[i] == Packet(id, false, i, length)
  {
    seq(n, i requires 0 <= i => Packet(id, false, i, length))
  }

  /** Three copies of the datagram that ends the test. */
  function Closing(id: Bytes): seq<Packet> {
    var end := Packet(id, true, 0, HEADER);
    [end, end, end]
  }

  /**
   The sending loop. Reading 2i of the clock guards iteration i, reading 2i+1 dates its transfer.
   With a byte target TCP sends exactly the target, and UDP the least whole number of datagrams
   that reaches it; without one, sending stops at the first guard past the duration. Then TCP
   shuts its writing side down, and UDP says three times that it is done.
   */
  method SendData(p: Params, udp: bool, id: Bytes, clock: nat -> nat, ghost end: nat)
    returns (stats: Stats, sent: seq<Packet>, shut: bool, ghost transfers: seq<Transfer>)
    requires Validated(p, udp) && Clock(clock)
    requires p.bytes == 0 ==> clock(2 * end) >= p.duration
    ensures p.bytes > 0 && !udp ==> stats.bytes == p.bytes
    ensures p.bytes > 0 && udp ==> stats.bytes == p.length * |transfers| && stats.bytes < p.bytes + p.length
    ensures p.bytes > 0 ==> stats.bytes >= p.bytes
    ensures p.bytes == 0 ==>
      && stats.bytes == p.length * |transfers|
      && clock(2 * |transfers|) >= p.duration
      && forall i: nat :: i < |transfers| ==> clock(2 * i) < p.duration
    ensures Monotone(transfers) && stats.bytes == Total(transfers)
    ensures stats.(duration := 0) == CountedAll(NO_STATS, transfers, udp, p.interval)
    ensures stats.duration == clock(2 * |transfers|)
    ensures stats.datagrams == if udp then |transfers| else 0
    ensures shut == !udp
    ensures sent == if udp then Numbered(id, p.length, |transfers|) + Closing(id) else []
  {
    hide CountedAll, Total, Resize;
    stats, sent, transfers := NO_STATS, [], [];
    NothingCounted(udp, p.interval);
    var i: nat := 0;
    while !((p.bytes > 0 && stats.bytes >= p.bytes) || (p.bytes == 0 && clock(2 * i) >= p.duration))
      invariant |transfers| == i && stats == CountedAll(NO_STATS, transfers, udp, p.interval)
      invariant stats.bytes == Total(transfers)
      invariant stats.datagrams == if udp then i else 0
      invariant sent == if udp then Numbered(id, p.length, i) else []
      invariant p.bytes == 0 || udp ==> stats.bytes == p.length * i
      invariant p.bytes > 0 && !udp ==> stats.bytes <= p.bytes
      invariant p.bytes > 0 && udp ==> stats.bytes < p.bytes + p.length
      invariant p.bytes == 0 ==> i <= end && forall j: nat :: j < i ==> clock(2 * j) < p.duration
      invariant Monotone(transfers)
      invariant forall t :: t in transfers ==> t.elapsed <= clock(2 * i)
      decreases if p.bytes > 0 then p.bytes - stats.bytes else end - i
    {
      assert end <= i ==> clock(2 * end) <= clock(2 * i);
      var n := p.length;
      if udp {
        sent := sent + [Packet(id, false, stats.datagrams, n)];
      } else if p.bytes > 0 {
        n := Min(n, p.bytes - stats.bytes);
      }
      var at := clock(2 * i + 1);
      assert clock(2 * i) <= at <= clock(2 * (i + 1));
      CountedAppend(NO_STATS, transfers, Transfer(n, at), udp, p.interval);
      stats := Count(stats, n, udp, at, p.interval);
      transfers := transfers + [Transfer(n, at)];
      assert p.length * (i + 1) == p.length * i + p.length;
      i := i + 1;
    }
    CountedKeepsDuration(transfers, udp, p.interval);
    stats := stats.(duration := clock(2 * i));
    shut := false;
    if udp {
      var last := Packet(id, true, 0, HEADER);
      sent := sent + [last, last, last];
    } else {
      shut := true;
    }
  }

  // ----- Over a network that may lose, repeat and reorder datagrams -----

  /** That the packet with this index arrives, and when. */
  datatype Arrival = Arrival(index: nat, at: nat)

  function Arriving(sent: seq<Packet>, arrivals: seq<Arrival>): (r: seq<Datagram>)
    requires forall i :: 0 <= i < |arrivals| ==> arrivals[i].index < |sent|
    ensures |r| == |arrivals|
  {
    seq(|arrivals|, i requires 0 <= i < |arrivals| =>
      var k := sent[arrivals[i].index];
      Datagram(k.len >= HEADER, k.id, k.ends, false, k.seqno, k.len, arrivals[i].at))
  }

  /** How many datagrams arrive before the first of those that end the test. */
  function BeforeEnd(arrivals: seq<Arrival>, n: nat): (m: nat)
    ensures m <= |arrivals| && (m < |arrivals| ==> arrivals[m].index >= n)
    ensures forall i :: 0 <= i < m ==> arrivals[i].index < n
  {
    if arrivals == [] || arrivals[0].index >= n then 0 else 1 + BeforeEnd(arrivals[1..], n)
  }

  /** The receiver counts the data of its test up to the end of it. */
  lemma {:induction false} CountsUpToEnd(ds: seq<Datagram>, id: Bytes, m: nat)
    requires m <= |ds| && forall i :: 0 <= i < |ds| ==> ds[i].whole && ds[i].id == id && !ds[i].skipped
    requires (forall i :: 0 <= i < m ==> !ds[i].ends) && (m < |ds| ==> ds[m].ends)
    ensures Counting(ds, id) == ds[..m]
    decreases m
  {
    if m == 0 {
    } else {
      CountsUpToEnd(ds[1..], id, m - 1);
      assert ds[..m] == [ds[0]] + ds[1..][..m - 1];
    }
  }

  lemma {:induction false} TotalOfEqual(ds: seq<Datagram>, length: nat)
    requires forall i :: 0 <= i < |ds| ==> ds[i].len == length
    ensures Total(Transfers(ds)) == length * |ds|
    decreases |ds|
  {
    var ts := Transfers(ds);
    if ds == [] {
    } else {
      var rest := ds[..|ds| - 1];
      TotalOfEqual(rest, length);
      assert ts[..|ts| - 1] == Transfers(rest);
    }
  }

  /** A network that only loses: what arrives keeps its order. */
  ghost predicate Rising(arrivals: seq<Arrival>) {
    forall i, j :: 0 <= i < j < |arrivals| ==> arrivals[i].index < arrivals[j].index
  }

  lemma {:induction false} RisingApart(arrivals: seq<Arrival>, i: nat, j: nat)
    requires Rising(arrivals) && i <= j < |arrivals|
    ensures arrivals[j].index - arrivals[i].index >= j - i
    decreases j
  {
    if i == j {
    } else {
      RisingApart(arrivals, i, j - 1);
    }
  }

  lemma {:induction false} RisingCounts(arrivals: seq<Arrival>, n: nat)
    requires Rising(arrivals) && forall i :: 0 <= i < |arrivals| ==> arrivals[i].index < n + 3
    ensures BeforeEnd(arrivals, n) <= n
    ensures |arrivals| == n + 3 ==> BeforeEnd(arrivals, n) == n
  {
    hide BeforeEnd;
    var m := BeforeEnd(arrivals, n);
    if m > 0 {
      RisingApart(arrivals, 0, m - 1);
    }
    if |arrivals| == n + 3 {
      RisingApart(arrivals, m, n + 2);
    }
  }

  lemma {:induction false} InOrder(ds: seq<Datagram>, arrivals: seq<Arrival>, m: nat)
    requires Rising(arrivals) && m <= |arrivals| == |ds|
    requires forall i :: 0 <= i < m ==> ds[i].seqno == arrivals[i].index
    ensures Late(ds[..m]) == 0
  {
    InOrderIsNeverLate(ds[..m]);
  }

  lemma {:induction false} DataThenEnd(id: Bytes, length: nat, n: nat, arrivals: seq<Arrival>)
    requires length >= HEADER && forall i :: 0 <= i < |arrivals| ==> arrivals[i].index < n + 3
    ensures var ds := Arriving(Numbered(id, length, n) + Closing(id), arrivals);
      forall i :: 0 <= i < |ds| ==>
        && ds[i].whole && ds[i].id == id && !ds[i].skipped && ds[i].ends == (arrivals[i].index >= n)
        && (arrivals[i].index < n ==> ds[i].seqno == arrivals[i].index && ds[i].len == length)
  {
  }

  /**
   A whole UDP test of n datagrams. Whatever the network does, the receiver counts whole datagrams, those that
   arrive before the first word of the end. If the network only loses, none is late and no more are counted than
   were sent; if it loses nothing the receiver counts exactly what the sender did.
   */
  lemma {:induction false} ReceivedOfSent(id: Bytes, length: nat, n: nat, arrivals: seq<Arrival>)
    requires length >= HEADER && forall i :: 0 <= i < |arrivals| ==> arrivals[i].index < n + 3
    ensures var counted := Counting(Arriving(Numbered(id, length, n) + Closing(id), arrivals), id);
      && |counted| == BeforeEnd(arrivals, n) && Total(Transfers(counted)) == length * |counted|
      && (forall i :: 0 <= i < |counted| ==> counted[i].seqno == arrivals[i].index)
      && (Rising(arrivals) ==> Late(counted) == 0 && |counted| <= n)
      && (Rising(arrivals) && |arrivals| == n + 3 ==> |counted| == n)
  {
    hide Counting, Late, Total, Transfers, BeforeEnd, Arriving, Rising;
    var m := BeforeEnd(arrivals, n);
    var ds := Arriving(Numbered(id, length, n) + Closing(id), arrivals);
    DataThenEnd(id, length, n, arrivals);
    CountsUpToEnd(ds, id, m);
    TotalOfEqual(ds[..m], length);
    if Rising(arrivals) {
      RisingCounts(arrivals, n);
      InOrder(ds, arrivals, m);
    }
  }
}
