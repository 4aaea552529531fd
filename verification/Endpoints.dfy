/** IP addresses and transport endpoints, in octets. */
module Endpoints {
  import opened Common

  type Octets4 = b: Bytes | |b| == 4 witness [0, 0, 0, 0]
  type Octets16 = b: Bytes | |b| == 16 witness [0, 0, 0, 0, 0, 0, 0, 0, 0, 0, 0, 0, 0, 0, 0, 0]
  type Port = p: int | 0 <= p < 0x1_0000

  datatype Ip = V4(o4: Octets4) | V6(o16: Octets16)

  datatype SocketAddr = SocketAddr(ip: Ip, port: Port)

  /** (local, remote), as the runtime's tables key them. */
  datatype Flow = Flow(local: SocketAddr, remote: SocketAddr)

  /** IPv4 destinations travel inside the tunnel under 64:ff9b::/96 (section 2.1 of RFC 6052). */
  function Nat64(ip: Ip): Ip {
    match ip
    case V4(o) => V6([0, 0x64, 0xff, 0x9b, 0, 0, 0, 0, 0, 0, 0, 0] + o)
    case V6(_) => ip
  }
}
