/** The backend handshake of src/backend.rs: `fetch` binds a fresh socket,
    re-registers with the broker every iteration, and on the first Conn
    frame of any kind sends one Conn frame of kind Backend to the address it
    carries and returns the socket without waiting; `run` repeats `fetch`,
    handing each socket to a spawned handler, until a `fetch` fails.

    Socket I/O is a sequence of `Tick`s per `fetch`: the registration send
    and the non-blocking poll after the two-second sleep. The outcome of the
    single reply send and of the bind are given per cycle. */
module BackendHandshake {
  import opened Bytes
  import opened Wrappers
  import opened Endpoint
  import opened Net
  import opened Codec

  /** Why `fetch` returns `Err`. */
  datatype FetchError = BindFailed | SendError

  /** Where `fetch` stands when the ticks run out, or how it ended: `Ready`
      carries the local address of the returned socket. */
  datatype FetchOutcome = Registering | Ready(socket: SocketAddr) | Failed(err: FetchError)

  datatype FetchTrace = FetchTrace(sends: seq<Send>, outcome: FetchOutcome)

  /** `StunMessage::new(Kind::Backend, fqdn).encode()`. */
  function RegistrationFrame(fqdn: Fqdn): (f: seq<Byte>)
    ensures |fqdn| > 0 ==> Decode(f) == StunMsg(StunMessage(Backend, fqdn))
  {
    DecodeStunFrame(StunMessage(Backend, fqdn));
    StunEncode(StunMessage(Backend, fqdn)).value
  }

  /** The reply to an introduction: `ConnMessage::new(Kind::Backend, local,
      fqdn)` sent to the introduced address. */
  function Reply(intro: ConnMessage, local: SocketAddr): (s: Send)
    ensures s.dest == intro.raddr
    ensures Decode(s.frame) == ConnMsg(ConnMessage(Backend, intro.fqdn, Carried(local)))
  {
    DecodeConnFrame(ConnMessage(Backend, intro.fqdn, local));
    Send(intro.raddr, ConnEncode(ConnMessage(Backend, intro.fqdn, local)))
  }

  /** A polled datagram that decodes as a Conn frame, whatever its kind. */
  predicate IsIntroduction(p: Recv)
  {
    p.Datagram? && Decode(p.data).ConnMsg?
  }

  /** An iteration that leaves the registration loop: the send failed, or a
      Conn frame arrived. A failed poll, WouldBlock or not, does not. */
  predicate EndsRegistering(t: Tick)
  {
    t.SendFailed? || IsIntroduction(t.poll)
  }

  /** The index of the first tick that leaves the loop, or `|ticks|`. */
  function RegisterEnd(ticks: seq<Tick>): (k: nat)
    ensures k <= |ticks|
    ensures forall j :: 0 <= j < k ==> !EndsRegistering(ticks[j])
    ensures k < |ticks| ==> EndsRegistering(ticks[k])
  {
    if |ticks| == 0 then 0
    else if EndsRegistering(ticks[0]) then 0
    else 1 + RegisterEnd(ticks[1..])
  }

  /** The loop of `fetch` (lines 49-75): every iteration first sends the
      registration frame. Stun frames, Unknown datagrams and every receive
      failure keep it registering; a failed send ends it with `Err`; a Conn
      frame is answered once with `Reply` and `fetch` returns, with `Err`
      if that reply could not be sent. */
  function Register(broker: SocketAddr, frame: seq<Byte>, local: SocketAddr, ticks: seq<Tick>, replySent: bool): (r: FetchTrace)
    ensures var k := RegisterEnd(ticks);
      k == |ticks| ==> r.outcome == Registering && |r.sends| == |ticks|
    ensures var k := RegisterEnd(ticks);
      k < |ticks| && ticks[k].SendFailed? ==> r.outcome == Failed(SendError) && |r.sends| == k + 1
    ensures var k := RegisterEnd(ticks);
      k < |ticks| && ticks[k].Sent? ==>
        && |r.sends| == k + 2
        && r.sends[k + 1] == Reply(Decode(ticks[k].poll.data).conn, local)
        && r.outcome == (if replySent then Ready(local) else Failed(SendError))
    ensures forall i :: 0 <= i < |r.sends| && i <= RegisterEnd(ticks) ==> r.sends[i] == Send(broker, frame)
    decreases |ticks|
  {
    if |ticks| == 0 then FetchTrace([], Registering)
    else
      var register := Send(broker, frame);
      match ticks[0]
      case SendFailed => FetchTrace([register], Failed(SendError))
      case Sent(poll) =>
        if IsIntroduction(poll) then
          var reply := Reply(Decode(poll.data).conn, local);
          FetchTrace([register, reply], if replySent then Ready(local) else Failed(SendError))
        else
          // WouldBlock, another receive error, a Stun frame or an Unknown
          // datagram: log (or ignore) and register again.
          var rest := Register(broker, frame, local, ticks[1..], replySent);
          assert RegisterEnd(ticks) == 1 + RegisterEnd(ticks[1..]);
          assert RegisterEnd(ticks) < |ticks| ==> ticks[RegisterEnd(ticks)] == ticks[1..][RegisterEnd(ticks[1..])];
          FetchTrace([register] + rest.sends, rest.outcome)
  }

  /** `Backend::fetch`: a failed bind (`bound == None`) is an `Err`;
      otherwise the registration loop runs on the freshly bound socket. */
  function Fetch(broker: SocketAddr, fqdn: Fqdn, bound: Option<SocketAddr>, ticks: seq<Tick>, replySent: bool): (r: FetchTrace)
    ensures bound.None? ==> r == FetchTrace([], Failed(BindFailed))
    ensures bound.Some? ==> r == Register(broker, RegistrationFrame(fqdn), bound.value, ticks, replySent)
    ensures r.outcome.Ready? ==> bound == Some(r.outcome.socket)
  {
    match bound
    case None => FetchTrace([], Failed(BindFailed))
    case Some(local) => Register(broker, RegistrationFrame(fqdn), local, ticks, replySent)
  }

  /** `fetch` returns a socket only after polling a Conn frame, and keeps
      registering for as long as no send fails and no Conn frame arrives. */
  lemma FetchReadyOnlyAfterIntroduction(broker: SocketAddr, fqdn: Fqdn, bound: Option<SocketAddr>,
                                        ticks: seq<Tick>, replySent: bool)
    ensures var r := Fetch(broker, fqdn, bound, ticks, replySent);
      r.outcome.Ready? ==> exists k :: 0 <= k < |ticks| && ticks[k].Sent? && IsIntroduction(ticks[k].poll)
    ensures bound.Some? && (forall j :: 0 <= j < |ticks| ==> !EndsRegistering(ticks[j])) ==>
      Fetch(broker, fqdn, bound, ticks, replySent).outcome == Registering
  {
    if bound.Some? {
      var k := RegisterEnd(ticks);
      if k < |ticks| && ticks[k].Sent? {
        assert IsIntroduction(ticks[k].poll);
      }
    }
  }

  /** The inputs of one `fetch` call: the bind result, the ticks of its loop,
      and the outcome of its reply send. */
  datatype Cycle = Cycle(bound: Option<SocketAddr>, ticks: seq<Tick>, replySent: bool)

  /** `handoffs` are the sockets passed to `handle`, in order; `stopped` means
      `run` has returned `Ok(())`. */
  datatype RunTrace = RunTrace(handoffs: seq<SocketAddr>, sends: seq<Send>, stopped: bool)

  /** The `fetch` call made with the inputs of cycle `c`. */
  function CycleTrace(broker: SocketAddr, fqdn: Fqdn, c: Cycle): FetchTrace
  {
    Fetch(broker, fqdn, c.bound, c.ticks, c.replySent)
  }

  /** The datagrams sent by the given `fetch` calls, one call after the other. */
  function Flatten(fetches: seq<FetchTrace>): seq<Send>
  {
    if |fetches| == 0 then [] else fetches[0].sends + Flatten(fetches[1..])
  }

  /** How many `fetch` calls `run` has made: the ones that handed off a
      socket, and the one it stopped in or is still inside, if any. */
  function Performed(handoffs: nat, total: nat): nat
  {
    if handoffs < total then handoffs + 1 else handoffs
  }

  /** The loop of `run` over the results of successive `fetch` calls: a
      returned socket is handed off and the loop goes on; the first error
      ends it. Its traffic is that of every `fetch` it performed, in order. */
  function RunLoop(fetches: seq<FetchTrace>): (r: RunTrace)
    ensures |r.handoffs| <= |fetches|
    ensures forall i :: 0 <= i < |r.handoffs| ==> fetches[i].outcome == Ready(r.handoffs[i])
    ensures r.stopped ==> |r.handoffs| < |fetches| && fetches[|r.handoffs|].outcome.Failed?
    ensures !r.stopped && |r.handoffs| < |fetches| ==> fetches[|r.handoffs|].outcome == Registering
    ensures r.sends == Flatten(fetches[..Performed(|r.handoffs|, |fetches|)])
    decreases |fetches|
  {
    if |fetches| == 0 then RunTrace([], [], false)
    else
      var f := fetches[0];
      match f.outcome
      case Ready(socket) =>
        var rest := RunLoop(fetches[1..]);
        var k := Performed(|rest.handoffs|, |fetches| - 1);
        assert fetches[..k + 1][1..] == fetches[1..][..k];
        RunTrace([socket] + rest.handoffs, f.sends + rest.sends, rest.stopped)
      case Failed(_) =>
        assert Flatten(fetches[..1][1..]) == [];
        RunTrace([], f.sends, true)
      case Registering =>
        assert Flatten(fetches[..1][1..]) == [];
        RunTrace([], f.sends, false)
  }

  /** The `fetch` calls of the given cycles, one per cycle. */
  function CycleTraces(broker: SocketAddr, fqdn: Fqdn, cycles: seq<Cycle>): (t: seq<FetchTrace>)
    ensures |t| == |cycles|
    ensures forall i :: 0 <= i < |cycles| ==> t[i] == CycleTrace(broker, fqdn, cycles[i])
  {
    seq(|cycles|, i requires 0 <= i < |cycles| => CycleTrace(broker, fqdn, cycles[i]))
  }

  /** `Backend::run` (lines 28-39): `fetch` after `fetch`, each on its own
      socket, until one fails; that failure ends `run` with `Ok(())`. A
      `fetch` still registering when its ticks run out leaves `run` inside it.
      Everything `run` sends is sent by the `fetch` calls it made, in order. */
  function Run(broker: SocketAddr, fqdn: Fqdn, cycles: seq<Cycle>): (r: RunTrace)
    ensures |r.handoffs| <= |cycles|
    ensures forall i :: 0 <= i < |r.handoffs| ==> CycleTrace(broker, fqdn, cycles[i]).outcome == Ready(r.handoffs[i])
    ensures r.stopped ==> |r.handoffs| < |cycles| && CycleTrace(broker, fqdn, cycles[|r.handoffs|]).outcome.Failed?
    ensures !r.stopped && |r.handoffs| < |cycles| ==> CycleTrace(broker, fqdn, cycles[|r.handoffs|]).outcome == Registering
    ensures r.sends == Flatten(CycleTraces(broker, fqdn, cycles)[..Performed(|r.handoffs|, |cycles|)])
  {
    RunLoop(CycleTraces(broker, fqdn, cycles))
  }

  /** Each socket `run` hands to a handler is the one freshly bound by the
      `fetch` of its own cycle. */
  lemma HandoffsAreFreshSockets(broker: SocketAddr, fqdn: Fqdn, cycles: seq<Cycle>)
    ensures var r := Run(broker, fqdn, cycles);
      forall i :: 0 <= i < |r.handoffs| ==> cycles[i].bound == Some(r.handoffs[i])
  {
    var r := Run(broker, fqdn, cycles);
    forall i | 0 <= i < |r.handoffs|
      ensures cycles[i].bound == Some(r.handoffs[i])
    {
      assert CycleTrace(broker, fqdn, cycles[i]).outcome == Ready(r.handoffs[i]);
    }
  }

  /** Unlike the frontend, the backend does not look at the kind of a Conn
      frame: one of any kind is answered, and the answer goes to the address
      it carries. */
  lemma AnyConnKindIsAnswered(broker: SocketAddr, frame: seq<Byte>, local: SocketAddr, intro: ConnMessage,
                              from: SocketAddr, replySent: bool)
    ensures var tick := Sent(Datagram(ConnEncode(intro), from));
      Register(broker, frame, local, [tick], replySent)
      == FetchTrace([Send(broker, frame), Send(Carried(intro.raddr), ConnEncode(ConnMessage(Backend, intro.fqdn, local)))],
                    if replySent then Ready(local) else Failed(SendError))
  {
    DecodeConnFrame(intro);
    var tick := Sent(Datagram(ConnEncode(intro), from));
    assert RegisterEnd([tick]) == 0;
  }

  /** Every receive failure, WouldBlock or not, and every Stun or Unknown
      datagram leaves the backend registering. */
  lemma NonIntroductionsKeepRegistering(stun: StunMessage, junk: seq<Byte>, from: SocketAddr)
    requires stun.kind != Unknown
    requires |junk| == 0 || (junk[0] != 1 && junk[0] != 2)
    ensures !EndsRegistering(Sent(WouldBlock)) && !EndsRegistering(Sent(RecvError))
    ensures StunEncode(stun).Success? && !EndsRegistering(Sent(Datagram(StunEncode(stun).value, from)))
    ensures !EndsRegistering(Sent(Datagram(junk, from)))
  {
    DecodeStunFrame(stun);
  }
}
