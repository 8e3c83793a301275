/** The wire codec of src/message.rs: the Stun (registration) frame
    `[1][kind][fqdn...]`, the Conn (introduction) frame
    `[2][kind][4|16][ip octets][port, big-endian][fqdn...]`, and the
    top-level decoder that dispatches on byte 0. Host names are bytes; the
    Rust code's lossy UTF-8 conversion is taken to be the identity. */
module Codec {
  import opened Bytes
  import opened Wrappers
  import opened Endpoint
  import opened Net

  type Fqdn = seq<Byte>

  /** The failures the Rust code reports through `FmtError`. */
  datatype CodecError = KindError | SizeError | NotStun | NotConn | IpFormatError

  /** `MessageKind`, the first byte of a frame. */
  datatype MessageKind = UnknownKind | StunKind | ConnKind

  /** `MessageKind::from(u8)`. */
  function MessageKindFrom(b: Byte): (k: MessageKind)
    ensures k == StunKind <==> b == 1
    ensures k == ConnKind <==> b == 2
  {
    match b
    case 1 => StunKind
    case 2 => ConnKind
    case _ => UnknownKind
  }

  // ---------------------------------------------------------------- Stun

  /** `StunMessage`: a role and a host name. */
  datatype StunMessage = StunMessage(kind: Kind, fqdn: Fqdn)

  /** `StunMessage::encode`: refuses an `Unknown` kind, otherwise lays out
      `[1][kind][fqdn...]`. */
  function StunEncode(m: StunMessage): (r: Result<seq<Byte>, CodecError>)
    ensures r.Failure? <==> m.kind == Unknown
    ensures r.Failure? ==> r.error == KindError
    ensures r.Success? ==> |r.value| == 2 + |m.fqdn|
    ensures r.Success? ==> r.value[0] == 1 && KindFrom(r.value[1]) == m.kind && r.value[2..] == m.fqdn
  {
    if m.kind == Unknown then Failure(KindError)
    else Success([1, KindToByte(m.kind)] + m.fqdn)
  }

  /** `StunMessage::decode`: needs more than two bytes and byte 0 equal to 1;
      any role byte is accepted (outside 1..3 it reads as `Unknown`). A frame
      whose role byte is a real role re-encodes to the same bytes. */
  function StunDecode(buf: seq<Byte>): (r: Result<StunMessage, CodecError>)
    ensures |buf| <= 2 ==> r == Failure(SizeError)
    ensures |buf| > 2 && buf[0] != 1 ==> r == Failure(NotStun)
    ensures r.Success? <==> |buf| > 2 && buf[0] == 1
    ensures r.Success? ==> r.value.kind == KindFrom(buf[1]) && |r.value.fqdn| > 0
    ensures r.Success? && 1 <= buf[1] <= 3 ==> StunEncode(r.value) == Success(buf)
  {
    if |buf| <= 2 then Failure(SizeError)
    else if MessageKindFrom(buf[0]) != StunKind then Failure(NotStun)
    else
      assert buf == [buf[0], buf[1]] + buf[2..];
      Success(StunMessage(KindFrom(buf[1]), buf[2..]))
  }

  /** The Rust code decodes into a `&mut self`: on error the receiver keeps its
      fields, on success it takes the decoded ones. */
  function StunDecodeInto(self: StunMessage, buf: seq<Byte>): (r: (StunMessage, Result<(), CodecError>))
    ensures r.1.Failure? ==> r.0 == self
    ensures r.1.Success? <==> |buf| > 2 && buf[0] == 1
    ensures r.1.Success? ==> r.0.kind == KindFrom(buf[1]) && r.0.fqdn == buf[2..]
  {
    match StunDecode(buf)
    case Failure(e) => (self, Failure(e))
    case Success(m) => (m, Success(()))
  }

  /** Encoding then decoding a Stun frame gives the message back, provided
      it has a role and a non-empty name. */
  lemma StunRoundTrip(m: StunMessage)
    requires m.kind != Unknown && |m.fqdn| > 0
    ensures StunEncode(m).Success?
    ensures StunDecode(StunEncode(m).value) == Success(m)
  {
    KindRoundTrip(m.kind);
  }

  /** A frame with an empty name encodes to two bytes, which the decoder
      refuses as too short. */
  lemma EmptyFqdnRejected(k: Kind)
    requires k != Unknown
    ensures StunEncode(StunMessage(k, [])).Success?
    ensures StunDecode(StunEncode(StunMessage(k, [])).value) == Failure(SizeError)
  {
  }

  // ---------------------------------------------------------------- Conn

  /** `ConnMessage`: a role, a host name and a socket address. */
  datatype ConnMessage = ConnMessage(kind: Kind, fqdn: Fqdn, raddr: SocketAddr)

  /** `ConnMessage::encode`: never checks the kind, and a `SocketAddr` is
      always IPv4 or IPv6, so it always succeeds (its "ip type error" branch
      cannot be reached). */
  function ConnEncode(m: ConnMessage): (r: seq<Byte>)
    ensures |r| == 5 + IpSize(m.raddr) + |m.fqdn|
    ensures r[0] == 2 && r[1] == KindToByte(m.kind) && KindFrom(r[1]) == m.kind && r[2] == IpSize(m.raddr)
    ensures r[3..3 + IpSize(m.raddr)] == IpOctets(m.raddr)
    ensures FromBeBytes(r[3 + IpSize(m.raddr)], r[4 + IpSize(m.raddr)]) == m.raddr.port
    ensures r[5 + IpSize(m.raddr)..] == m.fqdn
  {
    var n := IpSize(m.raddr);
    var port := ToBeBytes(m.raddr.port);
    var r := [2, KindToByte(m.kind), n] + IpOctets(m.raddr) + port + m.fqdn;
    assert r[3 + n] == port[0] && r[4 + n] == port[1];
    r
  }

  /** The condition under which `ConnMessage::decode` stays inside the buffer:
      once its guards pass it reads up to index `4 + ip_size` and slices from
      `5 + ip_size`, which the `len > 2` guard does not ensure. */
  predicate ConnReadsInBounds(buf: seq<Byte>)
  {
    |buf| > 2 && buf[0] == 2 && (buf[2] == 4 || buf[2] == 16) ==> |buf| >= 5 + buf[2]
  }

  /** `ConnMessage::decode` as written: it would panic outside
      `ConnReadsInBounds`. A frame whose role byte is a discriminant
      re-encodes to the same bytes. */
  function ConnDecodeAsWritten(buf: seq<Byte>): (r: Result<ConnMessage, CodecError>)
    requires ConnReadsInBounds(buf)
    ensures |buf| <= 2 ==> r == Failure(SizeError)
    ensures |buf| > 2 && buf[0] != 2 ==> r == Failure(NotConn)
    ensures |buf| > 2 && buf[0] == 2 && buf[2] != 4 && buf[2] != 16 ==> r == Failure(IpFormatError)
    ensures r.Success? <==> |buf| > 2 && buf[0] == 2 && (buf[2] == 4 || buf[2] == 16)
    ensures r.Success? ==> r.value.kind == KindFrom(buf[1]) && IpSize(r.value.raddr) == buf[2]
    ensures r.Success? ==> r.value.raddr.SocketV6? ==> r.value.raddr.flowinfo == 0 && r.value.raddr.scopeId == 0
    ensures r.Success? ==>
      && IpOctets(r.value.raddr) == buf[3..3 + buf[2]]
      && r.value.raddr.port == FromBeBytes(buf[3 + buf[2]], buf[4 + buf[2]])
      && r.value.fqdn == buf[5 + buf[2]..]
    ensures r.Success? && buf[1] <= 3 ==> ConnEncode(r.value) == buf
  {
    if |buf| <= 2 then Failure(SizeError)
    else if MessageKindFrom(buf[0]) != ConnKind then Failure(NotConn)
    else
      var kind := KindFrom(buf[1]);
      var n := buf[2];
      if n != 4 && n != 16 then Failure(IpFormatError)
      else
        var port := FromBeBytes(buf[3 + n], buf[4 + n]);
        var m := ConnMessage(kind, buf[5 + n..], SocketFromOctets(buf[3..3 + n], port));
        assert buf[1] <= 3 ==> ConnEncode(m) == buf by {
          if buf[1] <= 3 {
            var e := ConnEncode(m);
            assert e[..3] == buf[..3];
            assert e[3..3 + n] == buf[3..3 + n];
            assert e[3 + n..5 + n] == ToBeBytes(port) == buf[3 + n..5 + n];
            assert e[5 + n..] == buf[5 + n..];
            assert e == e[..3] + e[3..3 + n] + e[3 + n..5 + n] + e[5 + n..];
            assert buf == buf[..3] + buf[3..3 + n] + buf[3 + n..5 + n] + buf[5 + n..];
          }
        }
        Success(m)
  }

  /** `ConnMessage::decode` with the missing length check added: a truncated
      frame is a size error instead of a panic. It agrees with the Rust
      decoder wherever that stays in bounds. */
  function ConnDecode(buf: seq<Byte>): (r: Result<ConnMessage, CodecError>)
    ensures r.Success? <==> |buf| > 2 && buf[0] == 2 && (buf[2] == 4 || buf[2] == 16) && |buf| >= 5 + buf[2]
    ensures ConnReadsInBounds(buf) ==> r == ConnDecodeAsWritten(buf)
    ensures !ConnReadsInBounds(buf) ==> r == Failure(SizeError)
  {
    if !ConnReadsInBounds(buf) then Failure(SizeError) else ConnDecodeAsWritten(buf)
  }

  /** Encoding then decoding a Conn frame gives the message back for either
      address family and any name, the empty one included; only the IPv6
      flow label and scope id are lost. */
  lemma ConnRoundTrip(m: ConnMessage)
    ensures ConnDecode(ConnEncode(m)) == Success(ConnMessage(m.kind, m.fqdn, Carried(m.raddr)))
  {
    var buf := ConnEncode(m);
    var n := IpSize(m.raddr);
    KindRoundTrip(m.kind);
    SocketRoundTrip(m.raddr);
    BeBytesRoundTrip(m.raddr.port);
    assert ToBeBytes(m.raddr.port) == [buf[3 + n], buf[4 + n]];
  }

  /** The three-byte frame `[2, 2, 4]` passes every guard of the Rust
      `ConnMessage::decode` yet is shorter than the nine bytes it reads. */
  lemma TruncatedConnPassesGuards()
    ensures var b: seq<Byte> := [2, 2, 4];
      |b| > 2 && MessageKindFrom(b[0]) == ConnKind && b[2] == 4 && !ConnReadsInBounds(b)
      && ConnDecode(b) == Failure(SizeError)
  {
  }

  // ---------------------------------------------------------------- dispatch

  /** `Message`: a decoded Stun frame, a decoded Conn frame, or the raw bytes
      of anything else. */
  datatype Message = StunMsg(stun: StunMessage) | ConnMsg(conn: ConnMessage) | UnknownMsg(data: seq<Byte>)

  /** The condition under which the Rust `decode` stays inside the
      buffer: it reads byte 0 unguarded, then the Conn decoder's reads. */
  predicate DecodeReadsInBounds(buf: seq<Byte>)
  {
    |buf| >= 1 && ConnReadsInBounds(buf)
  }

  /** `message::decode` as written: dispatches on byte 0 only and turns any
      inner failure into `Unknown` carrying the same bytes. */
  function DecodeAsWritten(buf: seq<Byte>): (r: Message)
    requires DecodeReadsInBounds(buf)
    ensures r.UnknownMsg? ==> r.data == buf
    ensures r.StunMsg? <==> buf[0] == 1 && StunDecode(buf).Success?
    ensures r.ConnMsg? <==> buf[0] == 2 && ConnDecodeAsWritten(buf).Success?
  {
    match MessageKindFrom(buf[0])
    case ConnKind =>
      (match ConnDecodeAsWritten(buf)
       case Failure(_) => UnknownMsg(buf)
       case Success(m) => ConnMsg(m))
    case StunKind =>
      (match StunDecode(buf)
       case Failure(_) => UnknownMsg(buf)
       case Success(m) => StunMsg(m))
    case UnknownKind => UnknownMsg(buf)
  }

  /** The top-level decoder with an empty or truncated buffer read as
      `Unknown`: total, never fails, and equal to the Rust `decode` wherever the
      latter stays in bounds. */
  function Decode(buf: seq<Byte>): (r: Message)
    ensures DecodeReadsInBounds(buf) ==> r == DecodeAsWritten(buf)
    ensures r.UnknownMsg? ==> r.data == buf
    ensures |buf| < 3 ==> r == UnknownMsg(buf)
    ensures r.StunMsg? <==> |buf| > 0 && buf[0] == 1 && StunDecode(buf).Success?
    ensures r.StunMsg? ==> r.stun == StunDecode(buf).value
    ensures r.ConnMsg? <==> |buf| > 0 && buf[0] == 2 && ConnDecode(buf).Success?
    ensures r.ConnMsg? ==> r.conn == ConnDecode(buf).value
  {
    if !DecodeReadsInBounds(buf) then UnknownMsg(buf) else DecodeAsWritten(buf)
  }

  /** A zero-byte datagram makes the Rust `decode` read past the end. */
  lemma EmptyBufferOutOfBounds()
    ensures !DecodeReadsInBounds([])
    ensures Decode([]) == UnknownMsg([])
  {
  }

  /** Every encoded Conn frame decodes at the top level as that Conn frame. */
  lemma DecodeConnFrame(m: ConnMessage)
    ensures Decode(ConnEncode(m)) == ConnMsg(ConnMessage(m.kind, m.fqdn, Carried(m.raddr)))
  {
    ConnRoundTrip(m);
  }

  /** Every encoded Stun frame with a role and a name decodes at the top level
      as that Stun frame; one with an empty name is `Unknown`. */
  lemma DecodeStunFrame(m: StunMessage)
    requires m.kind != Unknown
    ensures |m.fqdn| > 0 ==> Decode(StunEncode(m).value) == StunMsg(m)
    ensures |m.fqdn| == 0 ==> Decode(StunEncode(m).value) == UnknownMsg(StunEncode(m).value)
  {
    if |m.fqdn| > 0 {
      StunRoundTrip(m);
    }
  }
}
