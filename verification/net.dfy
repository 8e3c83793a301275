/** The parts of `std::net` the protocol relies on: socket addresses, the
    octets of an IP address, and the abstract outcome of socket I/O. */
module Net {
  import opened Bytes

  type Ipv4Octets = s: seq<Byte> | |s| == 4 witness [0, 0, 0, 0]
  type Ipv6Segments = s: seq<U16> | |s| == 8 witness [0, 0, 0, 0, 0, 0, 0, 0]

  /** `SocketAddr`: an IPv4 address and port, or an IPv6 address (eight 16-bit
      segments), port, flow label and scope id. */
  datatype SocketAddr =
    | SocketV4(ip4: Ipv4Octets, port: U16)
    | SocketV6(ip6: Ipv6Segments, port: U16, flowinfo: U32, scopeId: U32)

  /** Each 16-bit segment as two big-endian bytes, in order. */
  function SegmentsToOctets(segs: seq<U16>): (o: seq<Byte>)
    ensures |o| == 2 * |segs|
  {
    if |segs| == 0 then [] else ToBeBytes(segs[0]) + SegmentsToOctets(segs[1..])
  }

  /** Each pair of consecutive bytes read as one big-endian 16-bit segment. */
  function OctetsToSegments(o: seq<Byte>): (segs: seq<U16>)
    requires |o| % 2 == 0
    ensures 2 * |segs| == |o|
  {
    if |o| == 0 then [] else [FromBeBytes(o[0], o[1])] + OctetsToSegments(o[2..])
  }

  lemma {:induction false} OctetsRoundTrip(o: seq<Byte>)
    requires |o| % 2 == 0
    ensures SegmentsToOctets(OctetsToSegments(o)) == o
  {
    if |o| != 0 {
      OctetsRoundTrip(o[2..]);
      var segs := OctetsToSegments(o);
      assert segs[1..] == OctetsToSegments(o[2..]);
      assert o == [o[0], o[1]] + o[2..];
    }
  }

  lemma {:induction false} SegmentsRoundTrip(segs: seq<U16>)
    ensures OctetsToSegments(SegmentsToOctets(segs)) == segs
  {
    if |segs| != 0 {
      SegmentsRoundTrip(segs[1..]);
      var o := SegmentsToOctets(segs);
      assert o[2..] == SegmentsToOctets(segs[1..]);
      BeBytesRoundTrip(segs[0]);
      assert segs == [segs[0]] + segs[1..];
    }
  }

  /** `Ipv6Addr::octets`: the sixteen octets of an address, network order. */
  function Ipv6ToOctets(segs: Ipv6Segments): (o: seq<Byte>)
    ensures |o| == 16
  {
    SegmentsToOctets(segs)
  }

  /** `Ipv6Addr::new(a, ..., h)` with each segment `u16::from_be_bytes` of two
      consecutive octets; reading the octets back gives the input. */
  function Ipv6FromOctets(o: seq<Byte>): (segs: Ipv6Segments)
    requires |o| == 16
    ensures Ipv6ToOctets(segs) == o
  {
    OctetsRoundTrip(o);
    OctetsToSegments(o)
  }

  /** Regrouping an address's octets into segments loses nothing. */
  lemma Ipv6SegmentsRoundTrip(segs: Ipv6Segments)
    ensures Ipv6FromOctets(Ipv6ToOctets(segs)) == segs
  {
    SegmentsRoundTrip(segs);
  }

  /** `raddr.is_ipv6()`: the `ip_size` byte of a Conn frame, 4 or 16. */
  function IpSize(a: SocketAddr): (n: nat)
    ensures n == 4 || n == 16
  {
    if a.SocketV6? then 16 else 4
  }

  /** `raddr.ip().octets()`. */
  function IpOctets(a: SocketAddr): (o: seq<Byte>)
    ensures |o| == IpSize(a)
  {
    match a
    case SocketV4(ip, _) => ip
    case SocketV6(segs, _, _, _) => Ipv6ToOctets(segs)
  }

  /** `SocketAddr::new(ip, port)` from the octets read off the wire: an IPv6
      address gets flow label 0 and scope id 0. */
  function SocketFromOctets(o: seq<Byte>, port: U16): (a: SocketAddr)
    requires |o| == 4 || |o| == 16
    ensures IpSize(a) == |o| && IpOctets(a) == o && a.port == port
    ensures a.SocketV6? ==> a.flowinfo == 0 && a.scopeId == 0
  {
    if |o| == 4 then SocketV4(o, port) else SocketV6(Ipv6FromOctets(o), port, 0, 0)
  }

  /** What a Conn frame carries of an address: everything but the IPv6 flow
      label and scope id. */
  function Carried(a: SocketAddr): (c: SocketAddr)
    ensures IpSize(c) == IpSize(a) && IpOctets(c) == IpOctets(a) && c.port == a.port
    ensures c.SocketV6? ==> c.flowinfo == 0 && c.scopeId == 0
  {
    match a
    case SocketV4(_, _) => a
    case SocketV6(segs, port, _, _) => SocketV6(segs, port, 0, 0)
  }

  /** An address survives being written as octets and port and read back,
      up to the fields the wire does not carry. */
  lemma SocketRoundTrip(a: SocketAddr)
    ensures SocketFromOctets(IpOctets(a), a.port) == Carried(a)
  {
    if a.SocketV6? {
      Ipv6SegmentsRoundTrip(a.ip6);
    }
  }

  /** One datagram sent: destination and payload. */
  datatype Send = Send(dest: SocketAddr, frame: seq<Byte>)

  /** The outcome of one receive: a datagram (`buf[..n]` and the sender),
      `ErrorKind::WouldBlock`, or any other receive error. */
  datatype Recv =
    | Datagram(data: seq<Byte>, from: SocketAddr)
    | WouldBlock
    | RecvError

  /** One iteration of a send-then-poll loop: the send failed (so nothing was
      polled), or it succeeded and the poll gave `poll`. */
  datatype Tick = SendFailed | Sent(poll: Recv)
}
