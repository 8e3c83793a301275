/** The rendezvous broker of src/server.rs: the presence registry
    `fqdn -> (backend address -> last registration time)`, its upsert
    (`add_backend`) and single-use lookup with lazy expiry (`get_backend`),
    and one iteration of the receive loop of `run` as a pure step.

    Time is the `Duration` since the Unix epoch, in nanoseconds. The
    unspecified iteration order of a registry bucket is a parameter. */
module Broker {
  import opened Bytes
  import opened Wrappers
  import opened Endpoint
  import opened Net
  import opened Codec

  /** `Duration::from_secs(120)` in nanoseconds. */
  const LivenessWindow: nat := 120 * 1_000_000_000

  type Bucket = map<SocketAddr, nat>
  type Registry = map<Fqdn, Bucket>

  /** `now.sub(ts) > 120 s`: the entry is too old to hand out. */
  predicate Expired(ts: nat, now: nat)
  {
    now - ts > LivenessWindow
  }

  /** The bucket of `fqdn`, empty when there is none. */
  function BucketOf(reg: Registry, fqdn: Fqdn): Bucket
  {
    if fqdn in reg then reg[fqdn] else map[]
  }

  /** `order` lists every key of the bucket exactly once: one iteration order
      of nnat's `HashMap`. */
  predicate IsEnumeration(order: seq<SocketAddr>, keys: set<SocketAddr>)
  {
    && (forall a :: a in order ==> a in keys)
    && (forall a :: a in keys ==> a in order)
    && (forall i, j :: 0 <= i < j < |order| ==> order[i] != order[j])
  }

  /** No stored registration time lies after `now`: time did not go back. */
  predicate ClockMonotone(reg: Registry, now: nat)
  {
    forall f, a :: f in reg && a in reg[f] ==> reg[f][a] <= now
  }

  // ---------------------------------------------------------------- add_backend

  /** `add_backend`: creates the bucket if missing and records `raddr` with
      time `now`, refreshing an older time. The result flag is always true:
      the `return false` path cannot be reached because the bucket was just
      ensured. */
  function AddBackend(reg: Registry, fqdn: Fqdn, raddr: SocketAddr, now: nat): (r: (Registry, bool))
    ensures r.1
    ensures r.0.Keys == reg.Keys + {fqdn}
    ensures r.0[fqdn].Keys == BucketOf(reg, fqdn).Keys + {raddr}
    ensures r.0[fqdn][raddr] == now
    ensures forall a :: a in r.0[fqdn] && a != raddr ==> r.0[fqdn][a] == BucketOf(reg, fqdn)[a]
    ensures forall f :: f in reg && f != fqdn ==> r.0[f] == reg[f]
  {
    var reg1: Registry := if fqdn !in reg then reg[fqdn := map[]] else reg;
    if fqdn in reg1 then
      var addrs: Bucket := reg1[fqdn][raddr := now];
      (reg1[fqdn := addrs], true)
    else (reg1, false)
  }

  // ---------------------------------------------------------------- get_backend

  /** The scan of `get_backend`: the index in `order` of the first entry that
      has not expired, or `|order|` when every entry has. */
  function FirstLive(bucket: Bucket, order: seq<SocketAddr>, now: nat): (i: nat)
    requires forall a :: a in order ==> a in bucket
    ensures i <= |order|
    ensures forall j :: 0 <= j < i ==> Expired(bucket[order[j]], now)
    ensures i < |order| ==> !Expired(bucket[order[i]], now)
    decreases |order|
  {
    if |order| == 0 then 0
    else if Expired(bucket[order[0]], now) then 1 + FirstLive(bucket, order[1..], now)
    else 0
  }

  /** `now.sub(*v)` panics when `v > now`. An expired entry is older than
      `now`, so only the entry where the scan stops can trigger it. */
  predicate ScanSafe(bucket: Bucket, order: seq<SocketAddr>, now: nat)
  {
    && (forall a :: a in order ==> a in bucket)
    && var i := FirstLive(bucket, order, now);
       i < |order| ==> bucket[order[i]] <= now
  }

  /** `get_backend`: walks the bucket of `fqdn` in `order`, collecting expired
      entries, and takes the first live one. The taken entry and the expired
      entries before it are removed; entries after it, other buckets and an
      emptied bucket stay. An absent name changes nothing. */
  function GetBackend(reg: Registry, fqdn: Fqdn, order: seq<SocketAddr>, now: nat): (r: (Registry, Option<SocketAddr>))
    requires IsEnumeration(order, BucketOf(reg, fqdn).Keys)
    requires ScanSafe(BucketOf(reg, fqdn), order, now)
    ensures fqdn !in reg ==> r == (reg, None)
    ensures r.0.Keys == reg.Keys
    ensures forall f :: f in reg && f != fqdn ==> r.0[f] == reg[f]
    ensures fqdn in reg ==> forall a :: a in r.0[fqdn] ==> a in reg[fqdn] && r.0[fqdn][a] == reg[fqdn][a]
    ensures r.1.Some? ==> fqdn in reg && r.1.value in reg[fqdn] && r.1.value !in r.0[fqdn]
    ensures r.1.Some? ==> !Expired(reg[fqdn][r.1.value], now) && reg[fqdn][r.1.value] <= now
    ensures r.1.None? && fqdn in reg ==> r.0[fqdn] == map[]
    ensures r.1.None? ==> forall a :: a in BucketOf(reg, fqdn) ==> Expired(BucketOf(reg, fqdn)[a], now)
    ensures fqdn in reg ==> forall j :: 0 <= j < |order| ==>
      (order[j] in r.0[fqdn] <==> j > FirstLive(reg[fqdn], order, now))
  {
    if fqdn !in reg then (reg, None)
    else
      var bucket := reg[fqdn];
      var i := FirstLive(bucket, order, now);
      var taken := set j | 0 <= j < |order| && j <= i :: order[j];
      var chosen := if i < |order| then Some(order[i]) else None;
      (reg[fqdn := bucket - taken], chosen)
  }

  // ---------------------------------------------------------------- registry lemmas

  /** When no stored time lies after `now`, any iteration order of the bucket
      is safe to scan. */
  lemma ClockMonotoneScanSafe(reg: Registry, fqdn: Fqdn, order: seq<SocketAddr>, now: nat)
    requires ClockMonotone(reg, now)
    requires IsEnumeration(order, BucketOf(reg, fqdn).Keys)
    ensures ScanSafe(BucketOf(reg, fqdn), order, now)
  {
    var i := FirstLive(BucketOf(reg, fqdn), order, now);
    if i < |order| {
      assert order[i] in BucketOf(reg, fqdn);
    }
  }

  /** A backend registered at `t` under a name nobody else uses is handed to
      the first lookup made no more than 120 s later (an age of exactly 120 s
      still counts as live), and not to the one after it. */
  lemma RegisterThenSelect(reg: Registry, fqdn: Fqdn, a: SocketAddr, t: nat, t': nat)
    requires fqdn !in reg
    requires t <= t' <= t + LivenessWindow
    ensures var reg1 := AddBackend(reg, fqdn, a, t).0;
      && IsEnumeration([a], BucketOf(reg1, fqdn).Keys)
      && ScanSafe(BucketOf(reg1, fqdn), [a], t')
      && GetBackend(reg1, fqdn, [a], t') == (reg1[fqdn := map[]], Some(a))
    ensures var reg2 := AddBackend(reg, fqdn, a, t).0[fqdn := map[]];
      && IsEnumeration([], BucketOf(reg2, fqdn).Keys)
      && ScanSafe(BucketOf(reg2, fqdn), [], t')
      && GetBackend(reg2, fqdn, [], t') == (reg2, None)
  {
    var reg1 := AddBackend(reg, fqdn, a, t).0;
    assert reg1[fqdn] == map[a := t];
    var r := GetBackend(reg1, fqdn, [a], t');
    assert FirstLive(reg1[fqdn], [a], t') == 0;
    assert r.0[fqdn] == map[];
    var reg2 := reg1[fqdn := map[]];
    var g := GetBackend(reg2, fqdn, [], t');
    assert g.0[fqdn] == map[];
    assert g.0 == reg2;
  }

  /** A backend registered at `t` and looked up more than 120 s later is not
      handed out, and the lookup purges it. */
  lemma RegistrationExpires(reg: Registry, fqdn: Fqdn, a: SocketAddr, t: nat, t': nat)
    requires fqdn !in reg
    requires t' > t + LivenessWindow
    ensures var reg1 := AddBackend(reg, fqdn, a, t).0;
      && IsEnumeration([a], BucketOf(reg1, fqdn).Keys)
      && ScanSafe(BucketOf(reg1, fqdn), [a], t')
      && GetBackend(reg1, fqdn, [a], t') == (reg1[fqdn := map[]], None)
  {
    var reg1 := AddBackend(reg, fqdn, a, t).0;
    assert reg1[fqdn] == map[a := t];
    assert FirstLive(reg1[fqdn], [a], t') == 1 by {
      assert FirstLive(reg1[fqdn], [a][1..], t') == 0;
    }
  }

  /** Single use: an address handed out by `GetBackend` is not in its bucket
      any more, so no later lookup of the same name, in any iteration order,
      hands it out again before it registers anew. */
  lemma SelectedAddressConsumed(reg: Registry, fqdn: Fqdn, order: seq<SocketAddr>, now: nat,
                                order': seq<SocketAddr>, now': nat)
    requires IsEnumeration(order, BucketOf(reg, fqdn).Keys)
    requires ScanSafe(BucketOf(reg, fqdn), order, now)
    requires GetBackend(reg, fqdn, order, now).1.Some?
    requires var reg1 := GetBackend(reg, fqdn, order, now).0;
      IsEnumeration(order', BucketOf(reg1, fqdn).Keys) && ScanSafe(BucketOf(reg1, fqdn), order', now')
    ensures var (reg1, first) := GetBackend(reg, fqdn, order, now);
      GetBackend(reg1, fqdn, order', now').1 != first
  {
    var (reg1, first) := GetBackend(reg, fqdn, order, now);
    var second := GetBackend(reg1, fqdn, order', now').1;
    if second.Some? {
      assert second.value in BucketOf(reg1, fqdn);
    }
  }

  // ---------------------------------------------------------------- run

  /** Why `run` returns `Err`. */
  datatype BrokerError = RecvFailed | DecodeFailed(err: CodecError) | AckSendFailed

  /** The loop goes on with a new registry after sending `sends`, or `run`
      returns an error. */
  datatype StepResult = Continue(reg: Registry, sends: seq<Send>) | Stop(err: BrokerError)

  /** A datagram carrying a Frontend registration for `fqdn`. */
  predicate IsFrontendRequest(recv: Recv)
  {
    recv.Datagram? && StunDecode(recv.data).Success? && StunDecode(recv.data).value.kind == Frontend
  }

  /** What one step needs from its environment: for a Frontend registration,
      `order` is an iteration order of the looked-up bucket and the scan does
      not panic. */
  predicate StepDefined(reg: Registry, recv: Recv, now: nat, order: seq<SocketAddr>)
  {
    IsFrontendRequest(recv) ==>
      var fqdn := StunDecode(recv.data).value.fqdn;
      IsEnumeration(order, BucketOf(reg, fqdn).Keys) && ScanSafe(BucketOf(reg, fqdn), order, now)
  }

  /** One iteration of `run`'s loop. A failed receive ends `run`, but the
      blocking `recv_from` never reports WouldBlock: it keeps waiting. An empty
      datagram is ignored; anything else must be a Stun frame or `run` ends
      with the decode error. Kinds Unknown and Stun are ignored. A Backend
      registration is recorded and acknowledged to its sender, and a failed
      acknowledgement ends `run`. A Frontend registration takes one live
      backend for its name, if any, and introduces the two parties to each
      other; those two sends are best-effort. `ackSent` is the outcome of the
      acknowledgement's `send_to`. */
  function BrokerStep(reg: Registry, recv: Recv, now: nat, order: seq<SocketAddr>, ackSent: bool): (r: StepResult)
    requires StepDefined(reg, recv, now, order)
    ensures recv.RecvError? ==> r == Stop(RecvFailed)
    ensures recv.WouldBlock? ==> r == Continue(reg, [])
    ensures recv.Datagram? && |recv.data| == 0 ==> r == Continue(reg, [])
    ensures recv.Datagram? && |recv.data| > 0 && StunDecode(recv.data).Failure? ==> r == Stop(DecodeFailed(StunDecode(recv.data).error))
    ensures r == Stop(AckSendFailed) ==> !ackSent
    ensures recv.Datagram? && StunDecode(recv.data).Success? && StunDecode(recv.data).value.kind == Backend
      ==> (r == Stop(AckSendFailed) <==> !ackSent)
    ensures r.Continue? ==> r.reg.Keys >= reg.Keys && |r.sends| <= 2
  {
    match recv
    case WouldBlock => Continue(reg, [])
    case RecvError => Stop(RecvFailed)
    case Datagram(data, from) =>
      if |data| == 0 then Continue(reg, [])
      else
        match StunDecode(data)
        case Failure(e) => Stop(DecodeFailed(e))
        case Success(msg) =>
          match msg.kind
          case Unknown => Continue(reg, [])
          case Stun => Continue(reg, [])
          case Frontend =>
            var (reg1, found) := GetBackend(reg, msg.fqdn, order, now);
            if found.None? then Continue(reg1, [])
            else
              var baddr := found.value;
              var toFrontend := ConnEncode(ConnMessage(Backend, msg.fqdn, baddr));
              var toBackend := ConnEncode(ConnMessage(Backend, msg.fqdn, from));
              Continue(reg1, [Send(from, toFrontend), Send(baddr, toBackend)])
          case Backend =>
            var (reg1, added) := AddBackend(reg, msg.fqdn, from, now);
            if added then
              var ack := StunEncode(StunMessage(Stun, msg.fqdn)).value;
              if ackSent then Continue(reg1, [Send(from, ack)]) else Stop(AckSendFailed)
            else Continue(reg1, [])
  }

  // ---------------------------------------------------------------- step lemmas

  /** A Stun frame of kind Unknown or Stun changes nothing and sends nothing. */
  lemma IgnoredKinds(reg: Registry, data: seq<Byte>, from: SocketAddr, now: nat, order: seq<SocketAddr>, ackSent: bool)
    requires StunDecode(data).Success?
    requires StunDecode(data).value.kind == Unknown || StunDecode(data).value.kind == Stun
    ensures StepDefined(reg, Datagram(data, from), now, order)
    ensures BrokerStep(reg, Datagram(data, from), now, order, ackSent) == Continue(reg, [])
  {
  }

  /** Every Backend registration, new or repeated, is recorded with time
      `now` and acknowledged to its sender with a Stun frame of kind Stun for
      the same name; if that send fails, `run` ends. */
  lemma BackendRegistrationAcked(reg: Registry, data: seq<Byte>, from: SocketAddr, now: nat, order: seq<SocketAddr>, ackSent: bool)
    requires StunDecode(data).Success? && StunDecode(data).value.kind == Backend
    ensures StepDefined(reg, Datagram(data, from), now, order)
    ensures var fqdn := StunDecode(data).value.fqdn;
      var r := BrokerStep(reg, Datagram(data, from), now, order, ackSent);
      && (ackSent ==> r.Continue? && r.reg == AddBackend(reg, fqdn, from, now).0)
      && (ackSent ==> |r.sends| == 1 && r.sends[0].dest == from
                      && Decode(r.sends[0].frame) == StunMsg(StunMessage(Stun, fqdn)))
      && (!ackSent ==> r == Stop(AckSendFailed))
  {
    var fqdn := StunDecode(data).value.fqdn;
    DecodeStunFrame(StunMessage(Stun, fqdn));
  }

  /** A Frontend registration with no live backend for its name sends
      nothing. Otherwise the taken backend `b` was live, is consumed, and
      exactly two Conn frames of kind Backend go out: `b`'s address to the
      frontend and the frontend's address to `b`. */
  lemma FrontendIntroduced(reg: Registry, data: seq<Byte>, from: SocketAddr, now: nat, order: seq<SocketAddr>, ackSent: bool)
    requires IsFrontendRequest(Datagram(data, from))
    requires StepDefined(reg, Datagram(data, from), now, order)
    ensures var fqdn := StunDecode(data).value.fqdn;
      var (reg1, found) := GetBackend(reg, fqdn, order, now);
      var r := BrokerStep(reg, Datagram(data, from), now, order, ackSent);
      && r.Continue? && r.reg == reg1
      && (found.None? ==> r.sends == [])
      && (found.Some? ==>
            && fqdn in reg && found.value in reg[fqdn] && !Expired(reg[fqdn][found.value], now)
            && found.value !in r.reg[fqdn]
            && |r.sends| == 2
            && r.sends[0].dest == from
            && Decode(r.sends[0].frame) == ConnMsg(ConnMessage(Backend, fqdn, Carried(found.value)))
            && r.sends[1].dest == found.value
            && Decode(r.sends[1].frame) == ConnMsg(ConnMessage(Backend, fqdn, Carried(from))))
  {
    var fqdn := StunDecode(data).value.fqdn;
    var found := GetBackend(reg, fqdn, order, now).1;
    if found.Some? {
      DecodeConnFrame(ConnMessage(Backend, fqdn, found.value));
      DecodeConnFrame(ConnMessage(Backend, fqdn, from));
    }
  }

  /** Under a clock that does not go back, every step is defined for any
      iteration order of the looked-up bucket. */
  lemma StepDefinedUnderClock(reg: Registry, recv: Recv, now: nat, order: seq<SocketAddr>)
    requires ClockMonotone(reg, now)
    requires IsFrontendRequest(recv) ==> IsEnumeration(order, BucketOf(reg, StunDecode(recv.data).value.fqdn).Keys)
    ensures StepDefined(reg, recv, now, order)
  {
    if IsFrontendRequest(recv) {
      ClockMonotoneScanSafe(reg, StunDecode(recv.data).value.fqdn, order, now);
    }
  }

  /** A step keeps every stored time at or before its `now`, so the registry
      stays well-clocked for any later step. */
  lemma StepKeepsClock(reg: Registry, recv: Recv, now: nat, order: seq<SocketAddr>, ackSent: bool, later: nat)
    requires ClockMonotone(reg, now) && now <= later
    requires StepDefined(reg, recv, now, order)
    requires BrokerStep(reg, recv, now, order, ackSent).Continue?
    ensures ClockMonotone(BrokerStep(reg, recv, now, order, ackSent).reg, later)
  {
    var reg' := BrokerStep(reg, recv, now, order, ackSent).reg;
    forall f, a | f in reg' && a in reg'[f]
      ensures reg'[f][a] <= later
    {
      if recv.Datagram? && StunDecode(recv.data).Success? {
        var msg := StunDecode(recv.data).value;
        if msg.kind == Backend {
          if f == msg.fqdn && a != recv.from {
            assert f in reg && a in reg[f];
          }
        } else if msg.kind == Frontend {
          assert f in reg && a in reg[f];
        }
      }
    }
  }

  /** The introduction scenario: a backend registers a name from `a` at `t0`
      into an empty registry and is acknowledged; a frontend asks for that
      name from `b` at `t1`, at most 120 s later; the broker sends
      Conn{Backend, name, a} to `b` and Conn{Backend, name, b} to `a`. */
  lemma IntroductionScenario(fqdn: Fqdn, a: SocketAddr, b: SocketAddr, t0: nat, t1: nat, ackSent: bool)
    requires |fqdn| > 0
    requires t0 <= t1 <= t0 + LivenessWindow
    ensures StunEncode(StunMessage(Backend, fqdn)).Success? && StunEncode(StunMessage(Frontend, fqdn)).Success?
    ensures var register := Datagram(StunEncode(StunMessage(Backend, fqdn)).value, a);
      && StepDefined(map[], register, t0, [])
      && BrokerStep(map[], register, t0, [], true)
         == Continue(map[fqdn := map[a := t0]], [Send(a, StunEncode(StunMessage(Stun, fqdn)).value)])
    ensures var request := Datagram(StunEncode(StunMessage(Frontend, fqdn)).value, b);
      && StepDefined(map[fqdn := map[a := t0]], request, t1, [a])
      && BrokerStep(map[fqdn := map[a := t0]], request, t1, [a], ackSent)
         == Continue(map[fqdn := map[]], [Send(b, ConnEncode(ConnMessage(Backend, fqdn, a))),
                                          Send(a, ConnEncode(ConnMessage(Backend, fqdn, b)))])
  {
    StunRoundTrip(StunMessage(Backend, fqdn));
    StunRoundTrip(StunMessage(Frontend, fqdn));
    var reg: Registry := map[fqdn := map[a := t0]];
    assert AddBackend(map[], fqdn, a, t0).0 == reg;
    assert FirstLive(reg[fqdn], [a], t1) == 0;
    assert GetBackend(reg, fqdn, [a], t1).0 == map[fqdn := map[]];
  }

  /** Two frontends asking for the same name one after the other never get
      the same backend address. */
  lemma DistinctBackendsForSuccessiveFrontends(reg: Registry, r1: Recv, now1: nat, o1: seq<SocketAddr>,
                                               r2: Recv, now2: nat, o2: seq<SocketAddr>, ack1: bool, ack2: bool)
    requires IsFrontendRequest(r1) && IsFrontendRequest(r2)
    requires StunDecode(r1.data).value.fqdn == StunDecode(r2.data).value.fqdn
    requires StepDefined(reg, r1, now1, o1)
    requires BrokerStep(reg, r1, now1, o1, ack1).Continue?
    requires StepDefined(BrokerStep(reg, r1, now1, o1, ack1).reg, r2, now2, o2)
    requires BrokerStep(BrokerStep(reg, r1, now1, o1, ack1).reg, r2, now2, o2, ack2).Continue?
    ensures var s1 := BrokerStep(reg, r1, now1, o1, ack1);
      var s2 := BrokerStep(s1.reg, r2, now2, o2, ack2);
      |s1.sends| == 2 && |s2.sends| == 2 ==> s1.sends[1].dest != s2.sends[1].dest
  {
    var s1 := BrokerStep(reg, r1, now1, o1, ack1);
    var s2 := BrokerStep(s1.reg, r2, now2, o2, ack2);
    FrontendIntroduced(reg, r1.data, r1.from, now1, o1, ack1);
    FrontendIntroduced(s1.reg, r2.data, r2.from, now2, o2, ack2);
  }
}
