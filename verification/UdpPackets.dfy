/** UDP datagrams inside IPv6 packets (RFC 768, RFC 8200), as the actor builds and reads them. */
module UdpPackets {
  import opened Common
  import opened Endpoints

  const IP_HEADER: nat := 40
  const UDP_HEADER: nat := 8
  const UDP_PROTOCOL: nat := 17
  const HOP_LIMIT: nat := 64

  /** A number cut to 16 bits, most significant octet first. */
  function Word(n: nat): (r: Bytes)
    ensures |r| == 2
  {
    [n / 256 % 256, n % 256]
  }

  function WordAt(b: Bytes, i: nat): (r: nat)
    requires i + 2 <= |b|
    ensures r < 65536
  {
    b[i] as int * 256 + b[i + 1]
  }

  // ---- The Internet checksum ----

  /** The sum of the 16-bit words, the last octet of an odd number padded with zero. */
  function Words(b: Bytes): nat {
    if |b| == 0 then 0
    else if |b| == 1 then b[0] as int * 256
    else WordAt(b, 0) + Words(b[2..])
  }

  /** Adding the carries back in. */
  function Fold(n: nat): (r: nat)
    ensures r < 65536
  {
    if n < 65536 then n else Fold(n / 65536 + n % 65536)
  }

  /** The pseudo-header of section 8.1 of RFC 8200. */
  function Pseudo(source: Octets16, target: Octets16, length: nat): (r: Bytes)
    ensures |r| == 40
  {
    source + target + [0, 0] + Word(length) + [0, 0, 0, UDP_PROTOCOL]
  }

  function Sum(source: Octets16, target: Octets16, udp: Bytes): nat {
    Words(Pseudo(source, target, |udp|)) + Words(udp)
  }

  /** A checksum of zero would mean that there is none. */
  function Checksum(source: Octets16, target: Octets16, udp: Bytes): (r: nat)
    ensures 0 < r < 65536
  {
    var c := 65535 - Fold(Sum(source, target, udp));
    if c == 0 then 65535 else c
  }

  predicate ChecksumOk(source: Octets16, target: Octets16, udp: Bytes) {
    Fold(Sum(source, target, udp)) == 65535
  }

  // ---- Packets ----

  function Address(ip: Ip): Octets16 {
    Nat64(ip).o16
  }

  function Udp(flow: Flow, payload: Bytes, checksum: nat): (r: Bytes)
    ensures |r| == UDP_HEADER + |payload|
  {
    Word(flow.local.port) + Word(flow.remote.port) + Word(UDP_HEADER + |payload|) + Word(checksum) + payload
  }

  function IpHeader(source: Octets16, target: Octets16, length: nat): (r: Bytes)
    ensures |r| == IP_HEADER
  {
    [0x60, 0, 0, 0] + Word(length) + [UDP_PROTOCOL, HOP_LIMIT] + source + target
  }

  /** The packet that carries a payload from the local to the remote end of a flow. */
  function PacketOf(flow: Flow, payload: Bytes): Bytes {
    var source, target := Address(flow.local.ip), Address(flow.remote.ip);
    IpHeader(source, target, UDP_HEADER + |payload|)
    + Udp(flow, payload, Checksum(source, target, Udp(flow, payload, 0)))
  }

  datatype Received = Received(flow: Flow, payload: Bytes)

  /** The UDP part of a packet, if its lengths fit. */
  function UdpPart(packet: Bytes): Option<Bytes> {
    if |packet| < IP_HEADER || |packet| < IP_HEADER + WordAt(packet, 4) then None
    else
      var udp := packet[IP_HEADER..IP_HEADER + WordAt(packet, 4)];
      if |udp| < UDP_HEADER || !(UDP_HEADER <= WordAt(udp, 4) <= |udp|) then None
      else Some(udp[..WordAt(udp, 4)])
  }

  /** What the receiver takes from a packet, its own end of the flow first. */
  function Parse(packet: Bytes): Option<Received> {
    match UdpPart(packet)
    case None => None
    case Some(udp) =>
      if |packet| < IP_HEADER || |udp| < UDP_HEADER || packet[0] / 16 != 6 || packet[6] != UDP_PROTOCOL then None
      else
        var source, target := packet[8..24], packet[24..40];
        if !ChecksumOk(source, target, udp) || WordAt(udp, 0) == 0 || WordAt(udp, 2) == 0 then None
        else
          Some(Received(Flow(SocketAddr(V6(target), WordAt(udp, 2)), SocketAddr(V6(source), WordAt(udp, 0))),
                        udp[UDP_HEADER..]))
  }

  /** The same flow as its other end sees it. */
  function OtherEnd(flow: Flow): Flow {
    Flow(SocketAddr(Nat64(flow.remote.ip), flow.remote.port), SocketAddr(Nat64(flow.local.ip), flow.local.port))
  }

  // ---- Checksums add up ----

  lemma {:induction false} FoldIsModulo(n: nat)
    ensures Fold(n) % 65535 == n % 65535 && (Fold(n) == 0 <==> n == 0)
    decreases n
  {
    if n < 65536 {
    } else {
      FoldIsModulo(n / 65536 + n % 65536);
      assert n == 65535 * (n / 65536) + (n / 65536 + n % 65536);
    }
  }

  lemma {:induction false} FoldIsFull(n: nat)
    ensures Fold(n) == 65535 <==> n > 0 && n % 65535 == 0
  {
    FoldIsModulo(n);
  }

  lemma {:induction false} WordsOfConcat(a: Bytes, b: Bytes)
    requires |a| % 2 == 0
    ensures Words(a + b) == Words(a) + Words(b)
    decreases |a|
  {
    if a == [] {
      assert a + b == b;
    } else {
      assert (a + b)[2..] == a[2..] + b;
      WordsOfConcat(a[2..], b);
    }
  }

  lemma {:induction false} WordsOfWord(n: nat)
    requires n < 65536
    ensures Words(Word(n)) == n && WordAt(Word(n), 0) == n
  {
    assert Word(n)[2..] == [];
  }

  /** The checksum field adds exactly its value to the sum. */
  lemma {:induction false} ChecksumAdds(flow: Flow, payload: Bytes, checksum: nat)
    requires checksum < 65536
    ensures Words(Udp(flow, payload, checksum)) == Words(Udp(flow, payload, 0)) + checksum
  {
    hide Words;
    var front := Word(flow.local.port) + Word(flow.remote.port) + Word(UDP_HEADER + |payload|);
    SplitWords(front, checksum, payload);
    SplitWords(front, 0, payload);
  }

  lemma {:induction false} SplitWords(front: Bytes, n: nat, rest: Bytes)
    requires |front| % 2 == 0 && n < 65536
    ensures Words(front + Word(n) + rest) == Words(front) + n + Words(rest)
  {
    hide Words;
    WordsOfConcat(front + Word(n), rest);
    WordsOfConcat(front, Word(n));
    WordsOfWord(n);
  }

  /** Filling the checksum in makes the datagram verify, whatever its addresses and contents. */
  lemma {:induction false} FilledChecksumVerifies(flow: Flow, payload: Bytes, source: Octets16, target: Octets16)
    ensures ChecksumOk(source, target, Udp(flow, payload, Checksum(source, target, Udp(flow, payload, 0))))
  {
    hide Words, Fold, Udp;
    var bare := Udp(flow, payload, 0);
    var n := Sum(source, target, bare);
    var c := Checksum(source, target, bare);
    ChecksumAdds(flow, payload, c);
    FoldIsModulo(n);
    FoldIsFull(n + c);
  }

  // ---- Round trip ----

  lemma {:induction false} WordReads(b: Bytes, i: nat, n: nat)
    requires i + 2 <= |b| && b[i..i + 2] == Word(n) && n < 65536
    ensures WordAt(b, i) == n
  {
    assert b[i] == b[i..i + 2][0] && b[i + 1] == b[i..i + 2][1];
  }

  lemma {:induction false} UdpFields(flow: Flow, payload: Bytes, checksum: nat)
    requires UDP_HEADER + |payload| < 65536
    ensures var udp := Udp(flow, payload, checksum);
      && WordAt(udp, 0) == flow.local.port && WordAt(udp, 2) == flow.remote.port
      && WordAt(udp, 4) == |udp| && udp[UDP_HEADER..] == payload
  {
    hide Word, WordAt;
    var udp := Udp(flow, payload, checksum);
    WordReads(udp, 0, flow.local.port);
    WordReads(udp, 2, flow.remote.port);
    WordReads(udp, 4, |udp|);
  }

  lemma {:induction false} IpFields(source: Octets16, target: Octets16, length: nat, udp: Bytes)
    requires length < 65536 && |udp| == length
    ensures var packet := IpHeader(source, target, length) + udp;
      && packet[0] / 16 == 6 && packet[6] == UDP_PROTOCOL && WordAt(packet, 4) == length
      && packet[8..24] == source && packet[24..40] == target && packet[IP_HEADER..IP_HEADER + length] == udp
  {
    hide Word, WordAt;
    var packet := IpHeader(source, target, length) + udp;
    WordReads(packet, 4, length);
  }

  /** What one end sends the other end receives, on the same flow seen from its side, up to the longest datagram. */
  lemma {:induction false} PacketIsRead(flow: Flow, payload: Bytes)
    requires UDP_HEADER + |payload| < 65536 && flow.local.port != 0 && flow.remote.port != 0
    ensures Parse(PacketOf(flow, payload)) == Some(Received(OtherEnd(flow), payload))
  {
    hide Udp, IpHeader, Checksum, ChecksumOk, WordAt;
    var source, target := Address(flow.local.ip), Address(flow.remote.ip);
    var c := Checksum(source, target, Udp(flow, payload, 0));
    var udp := Udp(flow, payload, c);
    FilledChecksumVerifies(flow, payload, source, target);
    UdpFields(flow, payload, c);
    IpFields(source, target, |udp|, udp);
    assert udp[..|udp|] == udp;
  }

  /** A reply on the other end's flow comes back to the flow it answers. */
  lemma {:induction false} ReplyComesBack(flow: Flow, reply: Bytes)
    requires flow.local.ip.V6? && flow.remote.ip.V6? && flow.local.port != 0 && flow.remote.port != 0
    requires UDP_HEADER + |reply| < 65536
    ensures Parse(PacketOf(OtherEnd(flow), reply)) == Some(Received(flow, reply))
  {
    PacketIsRead(OtherEnd(flow), reply);
  }

  // ---- The layout on the wire ----

  /** The fixed header of section 3 of RFC 8200 and the UDP header of RFC 768, octet by octet. */
  lemma {:induction false} HeadersAreLaidOut(flow: Flow, payload: Bytes)
    requires UDP_HEADER + |payload| < 65536
    ensures var b := PacketOf(flow, payload); var length := 8 + |payload|;
      && |b| == 40 + length && b[..4] == [0x60, 0, 0, 0] && b[4] as int * 256 + b[5] as int == length
      && b[6] == 17 && b[7] == 64 && b[8..24] == Nat64(flow.local.ip).o16 && b[24..40] == Nat64(flow.remote.ip).o16
      && b[40] as int * 256 + b[41] as int == flow.local.port && b[42] as int * 256 + b[43] as int == flow.remote.port
      && b[44] as int * 256 + b[45] as int == length && (b[46] != 0 || b[47] != 0) && b[48..] == payload
  {
    hide Checksum;
    var source, target := Address(flow.local.ip), Address(flow.remote.ip);
    var c := Checksum(source, target, Udp(flow, payload, 0));
    var udp := Udp(flow, payload, c);
    var b := PacketOf(flow, payload);
    assert forall k :: 0 <= k < |udp| ==> b[40 + k] == udp[k];
    assert b[48..] == udp[8..];
    assert b[..40] == IpHeader(source, target, |udp|);
    assert b[..4] == b[..40][..4] && b[8..24] == b[..40][8..24] && b[24..40] == b[..40][24..40];
  }

  /** The sum takes in the addresses, the length as 32 bits, three zeros and the protocol number. */
  lemma {:induction false} PseudoIsLaidOut(source: Octets16, target: Octets16, length: nat)
    requires length < 65536
    ensures var b := Pseudo(source, target, length);
      && b[..16] == source && b[16..32] == target && b[32] == b[33] == 0
      && b[34] as int * 256 + b[35] as int == length && b[36..] == [0, 0, 0, 17]
  {
  }

  /** Exactly the packets that are taken: version 6, next header UDP, lengths that fit, a good checksum, real ports. */
  lemma {:induction false} TakenExactly(b: Bytes)
    ensures Parse(b).Some? <==>
      && |b| >= 48 && b[0] / 16 == 6 && b[6] == 17
      && 8 <= b[44] as int * 256 + b[45] as int <= b[4] as int * 256 + b[5] as int <= |b| - 40
      && ChecksumOk(b[8..24], b[24..40], b[40..40 + b[44] as int * 256 + b[45] as int])
      && (b[40] != 0 || b[41] != 0) && (b[42] != 0 || b[43] != 0)
  {
    hide ChecksumOk;
    if |b| >= 48 && 8 <= WordAt(b, 4) <= |b| - 40 {
      var udp := b[40..40 + WordAt(b, 4)];
      assert forall k :: 0 <= k < |udp| ==> udp[k] == b[40 + k];
      assert WordAt(udp, 4) == WordAt(b, 44);
      if 8 <= WordAt(udp, 4) <= |udp| {
        assert udp[..WordAt(udp, 4)] == b[40..40 + WordAt(b, 44)];
      }
    }
  }

  // ---- Damage is noticed ----

  lemma {:induction false} WordsOfChange(b: Bytes, i: nat, x: Byte)
    requires i < |b|
    ensures Words(b[i := x]) == Words(b) + (x - b[i]) * (if i % 2 == 0 then 256 else 1)
    decreases |b|
  {
    var c := b[i := x];
    if |b| == 1 {
    } else if i < 2 {
      assert c[2..] == b[2..];
    } else {
      WordsOfChange(b[2..], i - 2, x);
      assert c[2..] == b[2..][i - 2 := x];
    }
  }

  /** A datagram that verifies no longer does when any one octet of it is changed. */
  lemma {:induction false} OneOctetIsNoticed(source: Octets16, target: Octets16, udp: Bytes, i: nat, x: Byte)
    requires ChecksumOk(source, target, udp) && i < |udp| && x != udp[i]
    ensures !ChecksumOk(source, target, udp[i := x])
  {
    hide Words, Fold;
    WordsOfChange(udp, i, x);
    FoldIsFull(Sum(source, target, udp));
    FoldIsFull(Sum(source, target, udp[i := x]));
    var before, after := Sum(source, target, udp), Sum(source, target, udp[i := x]);
    var change := (x - udp[i]) * (if i % 2 == 0 then 256 else 1);
    assert after == before + change && change != 0 && -65535 < change < 65535;
  }

  /** So a packet with one octet of its datagram changed, the length field aside, reaches no flow at all. */
  lemma {:induction false} DamagedIsDropped(flow: Flow, payload: Bytes, i: nat, x: Byte)
    requires UDP_HEADER + |payload| < 65536
    requires i < UDP_HEADER + |payload| && i != 4 && i != 5 && x != PacketOf(flow, payload)[IP_HEADER + i]
    ensures Parse(PacketOf(flow, payload)[IP_HEADER + i := x]) == None
  {
    hide Udp, IpHeader, Checksum, ChecksumOk, WordAt, Word;
    var source, target := Address(flow.local.ip), Address(flow.remote.ip);
    var udp := Udp(flow, payload, Checksum(source, target, Udp(flow, payload, 0)));
    FilledChecksumVerifies(flow, payload, source, target);
    OneOctetIsNoticed(source, target, udp, i, x);
    var damaged := udp[i := x];
    assert PacketOf(flow, payload)[IP_HEADER + i := x] == IpHeader(source, target, |udp|) + damaged;
    UdpFields(flow, payload, Checksum(source, target, Udp(flow, payload, 0)));
    SameWord(udp, damaged, 4);
    IpFields(source, target, |udp|, damaged);
    assert damaged[..|udp|] == damaged;
  }

  lemma {:induction false} SameWord(b: Bytes, c: Bytes, i: nat)
    requires i + 2 <= |b| && i + 2 <= |c| && b[i] == c[i] && b[i + 1] == c[i + 1]
    ensures WordAt(b, i) == WordAt(c, i)
  {
  }

  // ---- Building a packet in place ----

  method CopyInto(a: array<Byte>, at: nat, octets: Bytes)
    requires at + |octets| <= a.Length
    modifies a
    ensures a[..] == old(a[..])[..at] + octets + old(a[..])[at + |octets|..]
  {
    for i := 0 to |octets|
      invariant forall k :: 0 <= k < i ==> a[at + k] == octets[k]
      invariant forall k :: 0 <= k < a.Length && !(at <= k < at + i) ==> a[k] == old(a[k])
    {
      a[at + i] := octets[i];
    }
    assert forall k :: 0 <= k < |octets| ==> a[..][at + k] == octets[k];
  }

  lemma {:induction false} OnlyTheChecksum(flow: Flow, payload: Bytes, checksum: nat)
    ensures var bare := Udp(flow, payload, 0);
      Udp(flow, payload, checksum) == bare[..6] + Word(checksum) + bare[UDP_HEADER..]
  {
    hide Word;
  }

  /** The datagram is laid out with no checksum, which is then filled in. */
  method BuildUdp(flow: Flow, payload: Bytes, source: Octets16, target: Octets16) returns (udp: Bytes)
    ensures udp == Udp(flow, payload, Checksum(source, target, Udp(flow, payload, 0)))
  {
    var a := LayOut(flow, payload);
    hide Udp;
    OnlyTheChecksum(flow, payload, Checksum(source, target, a[..]));
    CopyInto(a, 6, Word(Checksum(source, target, a[..])));
    udp := a[..];
  }

  lemma {:induction false} ZeroWord()
    ensures Word(0) == [0, 0]
  {
  }

  lemma {:induction false} LaidOut(zeros: Bytes, a: Bytes, b: Bytes, c: Bytes, d: Bytes)
    requires |a| == |b| == |c| == 2 && |zeros| == UDP_HEADER + |d|
    requires forall i :: 0 <= i < |zeros| ==> zeros[i] == 0
    ensures var one := zeros[..0] + a + zeros[2..];
      var two := one[..2] + b + one[4..];
      var three := two[..4] + c + two[6..];
      three[..UDP_HEADER] + d + three[UDP_HEADER + |d|..] == a + b + c + [0, 0] + d
  {
    var one := zeros[..0] + a + zeros[2..];
    var two := one[..2] + b + one[4..];
    assert two == a + b + zeros[4..];
    assert two[..4] + c + two[6..] == a + b + c + zeros[6..];
    assert zeros[6..8] == [0, 0];
  }

  method LayOut(flow: Flow, payload: Bytes) returns (a: array<Byte>)
    ensures fresh(a) && a[..] == Udp(flow, payload, 0)
  {
    hide Word;
    ZeroWord();
    a := new Byte[UDP_HEADER + |payload|](_ => 0);
    LaidOut(a[..], Word(flow.local.port), Word(flow.remote.port), Word(UDP_HEADER + |payload|), payload);
    CopyInto(a, 0, Word(flow.local.port));
    CopyInto(a, 2, Word(flow.remote.port));
    CopyInto(a, 4, Word(UDP_HEADER + |payload|));
    CopyInto(a, UDP_HEADER, payload);
  }

  lemma {:induction false} HeaderLaidOut(zeros: Bytes, length: Bytes, source: Octets16, target: Octets16)
    requires |length| == 2 && |zeros| >= IP_HEADER && forall i :: 0 <= i < |zeros| ==> zeros[i] == 0
    ensures var one := zeros[0 := 0x60];
      var two := one[..4] + length + one[6..];
      var three := two[6 := UDP_PROTOCOL][7 := HOP_LIMIT];
      var four := three[..8] + source + three[24..];
      four[..24] + target + four[IP_HEADER..]
      == [0x60, 0, 0, 0] + length + [UDP_PROTOCOL, HOP_LIMIT] + source + target + zeros[IP_HEADER..]
  {
    var two := zeros[0 := 0x60][..4] + length + zeros[6..];
    assert zeros[0 := 0x60][6..] == zeros[6..];
    assert two == [0x60, 0, 0, 0] + length + zeros[6..];
    var three := two[6 := UDP_PROTOCOL][7 := HOP_LIMIT];
    assert three == [0x60, 0, 0, 0] + length + [UDP_PROTOCOL, HOP_LIMIT] + zeros[8..];
    var four := three[..8] + source + three[24..];
    assert four == [0x60, 0, 0, 0] + length + [UDP_PROTOCOL, HOP_LIMIT] + source + zeros[24..];
  }

  method LayOutHeader(a: array<Byte>, source: Octets16, target: Octets16, length: nat)
    requires a.Length >= IP_HEADER && forall i :: 0 <= i < a.Length ==> a[i] == 0
    modifies a
    ensures a[..] == IpHeader(source, target, length) + old(a[..])[IP_HEADER..]
  {
    hide Word;
    HeaderLaidOut(a[..], Word(length), source, target);
    a[0] := 0x60;
    CopyInto(a, 4, Word(length));
    a[6] := UDP_PROTOCOL;
    a[7] := HOP_LIMIT;
    CopyInto(a, 8, source);
    CopyInto(a, 24, target);
  }

  method BuildPacket(flow: Flow, payload: Bytes) returns (packet: Bytes)
    ensures packet == PacketOf(flow, payload)
  {
    hide Word, Checksum, Udp, IpHeader;
    var source, target := Address(flow.local.ip), Address(flow.remote.ip);
    var a := new Byte[IP_HEADER + UDP_HEADER + |payload|](_ => 0);
    LayOutHeader(a, source, target, UDP_HEADER + |payload|);
    var udp := BuildUdp(flow, payload, source, target);
    CopyInto(a, IP_HEADER, udp);
    packet := a[..];
  }
}
