/** The frontend handshake of src/frontend.rs (`Frontend::run` up to the
    QUIC client setup): register with the broker, wait for one introduction,
    then punch toward the introduced address until a Conn frame of kind
    Backend arrives, and hand the socket off.

    Socket I/O is a sequence of `Tick`s: the first is the registration send
    and the blocking receive of the reply, each later one is a punch send and
    the non-blocking poll after the two-second sleep. */
module FrontendHandshake {
  import opened Bytes
  import opened Wrappers
  import opened Endpoint
  import opened Net
  import opened Codec

  /** Why the handshake returns `Err`. */
  datatype FrontendError = SendError | RecvFailed | ReplyDecodeFailed(err: CodecError)

  /** Where the handshake stands when the ticks run out, or how it ended. */
  datatype Outcome =
    | AwaitingReply
    | Punching(target: SocketAddr)
    | Handoff(target: SocketAddr)
    | Failed(err: FrontendError)

  /** The datagrams sent, in order, and the outcome. */
  datatype Trace = Trace(sends: seq<Send>, outcome: Outcome)

  /** `StunMessage::new(Kind::Frontend, fqdn).encode()`. */
  function RegistrationFrame(fqdn: Fqdn): (f: seq<Byte>)
    ensures |fqdn| > 0 ==> Decode(f) == StunMsg(StunMessage(Frontend, fqdn))
  {
    DecodeStunFrame(StunMessage(Frontend, fqdn));
    StunEncode(StunMessage(Frontend, fqdn)).value
  }

  /** `ConnMessage::new(Kind::Frontend, local, fqdn).encode()`. */
  function PunchFrame(local: SocketAddr, fqdn: Fqdn): (f: seq<Byte>)
    ensures Decode(f) == ConnMsg(ConnMessage(Frontend, fqdn, Carried(local)))
  {
    DecodeConnFrame(ConnMessage(Frontend, fqdn, local));
    ConnEncode(ConnMessage(Frontend, fqdn, local))
  }

  /** A polled datagram that decodes as a Conn frame of kind Backend. */
  predicate IsBackendReply(p: Recv)
  {
    p.Datagram? && Decode(p.data).ConnMsg? && Decode(p.data).conn.kind == Backend
  }

  /** A punch iteration that leaves the loop: the send failed, the poll
      failed with anything but WouldBlock, or the backend replied. */
  predicate EndsPunching(t: Tick)
  {
    t.SendFailed? || t.poll.RecvError? || IsBackendReply(t.poll)
  }

  /** The index of the first tick that leaves the punch loop, or `|ticks|`
      when none does. */
  function PunchEnd(ticks: seq<Tick>): (k: nat)
    ensures k <= |ticks|
    ensures forall j :: 0 <= j < k ==> !EndsPunching(ticks[j])
    ensures k < |ticks| ==> EndsPunching(ticks[k])
  {
    if |ticks| == 0 then 0
    else if EndsPunching(ticks[0]) then 0
    else 1 + PunchEnd(ticks[1..])
  }

  /** The punch loop (lines 68-97): every iteration first sends the punch
      frame to the target. WouldBlock, a Stun frame, an Unknown datagram or a
      Conn frame of another kind keep it punching; a Conn frame of kind
      Backend hands the socket off; any other failure ends it with `Err`. */
  function Punch(target: SocketAddr, frame: seq<Byte>, ticks: seq<Tick>): (r: Trace)
    ensures forall i :: 0 <= i < |r.sends| ==> r.sends[i] == Send(target, frame)
    ensures |r.sends| == if PunchEnd(ticks) < |ticks| then PunchEnd(ticks) + 1 else |ticks|
    ensures PunchEnd(ticks) == |ticks| ==> r.outcome == Punching(target)
    ensures PunchEnd(ticks) < |ticks| && ticks[PunchEnd(ticks)].SendFailed? ==> r.outcome == Failed(SendError)
    ensures PunchEnd(ticks) < |ticks| && ticks[PunchEnd(ticks)].Sent? && ticks[PunchEnd(ticks)].poll.RecvError?
      ==> r.outcome == Failed(RecvFailed)
    ensures PunchEnd(ticks) < |ticks| && ticks[PunchEnd(ticks)].Sent? && IsBackendReply(ticks[PunchEnd(ticks)].poll)
      ==> r.outcome == Handoff(target)
    decreases |ticks|
  {
    if |ticks| == 0 then Trace([], Punching(target))
    else
      var send := Send(target, frame);
      match ticks[0]
      case SendFailed => Trace([send], Failed(SendError))
      case Sent(poll) =>
        if poll.RecvError? then Trace([send], Failed(RecvFailed))
        else if IsBackendReply(poll) then Trace([send], Handoff(target))
        else
          // WouldBlock, a Stun frame, an Unknown datagram or a Conn frame of
          // another kind: log and punch again.
          var rest := Punch(target, frame, ticks[1..]);
          Trace([send] + rest.sends, rest.outcome)
  }

  /** The first tick delivered a reply that decodes as a Conn frame. */
  predicate IsConnReply(t: Tick)
  {
    t.Sent? && t.poll.Datagram? && ConnDecode(t.poll.data).Success?
  }

  /** The address a decoded reply tells the frontend to punch. */
  function IntroducedTarget(t: Tick): SocketAddr
    requires IsConnReply(t)
  {
    ConnDecode(t.poll.data).value.raddr
  }

  /** The punch loop ended on a Conn frame of kind Backend. */
  predicate PunchConfirmed(ticks: seq<Tick>)
  {
    var k := PunchEnd(ticks);
    k < |ticks| && ticks[k].Sent? && IsBackendReply(ticks[k].poll)
  }

  /** `Frontend::run` up to the handoff (lines 48-100): send one Stun frame of
      kind Frontend to the broker, receive exactly one reply, which must
      decode as a Conn frame or the run fails without retrying, then punch
      toward the reply's address from the local address `local`. The reply
      is awaited with a blocking `recv_from`, which retries on WouldBlock
      itself: a first tick that polled WouldBlock leaves the frontend still
      waiting for its reply. */
  function Run(fqdn: Fqdn, broker: SocketAddr, local: SocketAddr, ticks: seq<Tick>): (r: Trace)
    ensures |r.sends| >= 1 && r.sends[0] == Send(broker, RegistrationFrame(fqdn))
    ensures r.outcome.AwaitingReply? <==> |ticks| == 0 || ticks[0] == Sent(WouldBlock)
    ensures |ticks| > 0 && ticks[0] == SendFailed ==> r == Trace([r.sends[0]], Failed(SendError))
    ensures |ticks| > 0 && ticks[0] == Sent(RecvError) ==> r == Trace([r.sends[0]], Failed(RecvFailed))
    ensures |ticks| > 0 && ticks[0].Sent? && ticks[0].poll.Datagram? && !IsConnReply(ticks[0])
      ==> r == Trace([r.sends[0]], Failed(ReplyDecodeFailed(ConnDecode(ticks[0].poll.data).error)))
    ensures |ticks| > 0 && IsConnReply(ticks[0]) ==>
      var p := Punch(IntroducedTarget(ticks[0]), PunchFrame(local, fqdn), ticks[1..]);
      r == Trace([r.sends[0]] + p.sends, p.outcome)
    ensures |r.sends| > 1 || r.outcome.Punching? || r.outcome.Handoff? ==>
      && |ticks| > 0 && IsConnReply(ticks[0])
      && forall i :: 1 <= i < |r.sends| ==> r.sends[i] == Send(IntroducedTarget(ticks[0]), PunchFrame(local, fqdn))
    ensures r.outcome.Handoff? <==> |ticks| > 0 && IsConnReply(ticks[0]) && PunchConfirmed(ticks[1..])
    ensures r.outcome.Handoff? ==> r.outcome.target == IntroducedTarget(ticks[0])
  {
    var register := Send(broker, RegistrationFrame(fqdn));
    if |ticks| == 0 then Trace([register], AwaitingReply)
    else
      match ticks[0]
      case SendFailed => Trace([register], Failed(SendError))
      case Sent(poll) =>
        match poll
        case Datagram(data, _) =>
          (match ConnDecode(data)
           case Failure(e) => Trace([register], Failed(ReplyDecodeFailed(e)))
           case Success(msg) =>
             var p := Punch(msg.raddr, PunchFrame(local, fqdn), ticks[1..]);
             Trace([register] + p.sends, p.outcome))
        case WouldBlock => Trace([register], AwaitingReply)
        case RecvError => Trace([register], Failed(RecvFailed))
  }

  /** While punching, nothing but a Conn frame of kind Backend confirms the
      path: WouldBlock, the frontend's own kind of Conn frame, the broker's
      Stun frames and garbage (the empty datagram included) all keep the loop
      going. */
  lemma NonRepliesKeepPunching(fqdn: Fqdn, a: SocketAddr, from: SocketAddr, k: Kind, stun: StunMessage, junk: seq<Byte>)
    requires k != Backend
    requires stun.kind != Unknown
    requires |junk| == 0 || (junk[0] != 1 && junk[0] != 2)
    ensures !EndsPunching(Sent(WouldBlock))
    ensures !EndsPunching(Sent(Datagram(ConnEncode(ConnMessage(k, fqdn, a)), from)))
    ensures StunEncode(stun).Success? && !EndsPunching(Sent(Datagram(StunEncode(stun).value, from)))
    ensures !EndsPunching(Sent(Datagram(junk, from)))
  {
    DecodeConnFrame(ConnMessage(k, fqdn, a));
    DecodeStunFrame(stun);
  }
}
