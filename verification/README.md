# nnat: the rendezvous core, modelled in Dafny

nnat lets a backend behind a NAT be reached by frontends through a rendezvous
broker ("stun server"). A backend registers its name with the broker over
UDP. A frontend asks the broker for that name. The broker introduces each party
to the other's public address. Both sides then punch UDP packets at each other,
and the punched socket is handed to a QUIC layer.

This project models the part of that system that decides what is sent and
when:

- `bytes.dfy` (`Bytes`): `u8`, `u16` and `u32`, and the big-endian split of
  a `u16`.
- `wrappers.dfy` (`Wrappers`): `Option` and `Result`.
- `endpoint.dfy` (`Endpoint`): the role enum `Kind`, its discriminants,
  `Kind::from` and `to_string`.
- `net.dfy` (`Net`): `SocketAddr` for IPv4 and IPv6 (segments, port, flow
  label, scope id). It also holds the octet view of an address and the
  abstract outcome of socket I/O:
  - `Recv`: a datagram, WouldBlock, or another error;
  - `Tick`: one send-then-poll loop iteration.
- `message.rs` → `message.dfy` (`Codec`): the wire codec for the two frames:
  - Stun (registration): `[1][kind][fqdn…]`;
  - Conn (introduction): `[2][kind][4|16][ip octets][port BE][fqdn…]`;
  - the top-level `decode`, which dispatches on byte 0.
- `server.rs` → `server.dfy` (`Broker`): the presence registry
  `fqdn → (address → time)`. It covers `add_backend` (upsert),
  `get_backend` (scan in HashMap order, evict expired entries, take the first
  live one) and one iteration of `run`'s receive loop as a pure step function.
- `frontend.rs` → `frontend.dfy` (`FrontendHandshake`): register, take exactly
  one introduction, punch until a Conn frame of kind Backend arrives, hand off.
- `backend.rs` → `backend.dfy` (`BackendHandshake`): the `fetch` registration
  loop, which answers the first Conn frame once and returns. Also the `run`
  loop that repeats `fetch` on a fresh socket until a fetch fails.
- `protocol.dfy` (`Protocol`): how the roles' frames drive each other's loops,
  up to a complete handshake.

Modelling choices:
- Time is a `nat` count of nanoseconds since the Unix epoch, as `Duration`
  gives it. The liveness window is `Duration::from_secs(120)`.
- The `HashMap` iteration order of a registry bucket is a parameter. It must
  list each key of the bucket exactly once.
- Sockets, sleeps and spawned tasks are replaced by sequences of `Tick`s (and,
  for the broker, one `Recv` per step). The outcome of a send that the Rust code
  checks is an input.
- Host names are byte sequences. `from_utf8_lossy` is taken to be the identity,
  i.e. names are valid UTF-8.

## Behaviour worth knowing

- `add_backend` always returns `true` (src/server.rs:33-36), so `run`
  acknowledges every Backend registration, repeats included, with a Stun
  frame of kind Stun (src/server.rs:101-105).
- The broker's `run` returns `Err` through `msg.decode(&buf[..n])?` on any
  non-empty datagram that is not a valid Stun frame (src/server.rs:70-72).
  This includes a Conn frame, and a registration with an empty name, which
  encodes to two bytes and is rejected as too short (src/message.rs:75-77).
- The frontend reads exactly one reply from the broker and returns `Err` if
  it is not a Conn frame (src/frontend.rs:56-58); it does not wait for
  another one.
- The backend ignores every `try_recv_from` error, WouldBlock or not
  (src/backend.rs:55), and answers a Conn frame of any kind
  (src/backend.rs:61-68).
- A frontend with no live backend for its name gets no reply at all
  (src/server.rs:81-84).
- The broker's receive loop and the frontend's wait for its one reply use
  blocking `recv_from` calls (src/server.rs:69, src/frontend.rs:56), which never
  report WouldBlock. A WouldBlock event there means nothing has arrived yet:
  the broker's step changes nothing and the frontend is still awaiting its
  reply.

## Model

| member | source | states |
|---|---|---|
| `Bytes.ToBeBytes` | src/message.rs:136 | the two bytes of a port, high byte first, recombine to the port |
| `Bytes.FromBeBytes` | src/message.rs:198-202 | reading two bytes as a big-endian `u16` inverts `to_be_bytes` |
| `Bytes.BeBytesRoundTrip` | src/message.rs:198-202 | splitting a `u16` and reading it back gives the same value |
| `Endpoint.KindToByte` | src/endpoint.rs:4-9 | every kind's discriminant is one of 0..3 |
| `Endpoint.KindFrom` | src/endpoint.rs:18-24 | total on bytes; `Kind::from(b) as u8 == b` exactly when `b <= 3`, every larger byte collapses to 0; the result is `Unknown` exactly for 0 and bytes above 3 |
| `Endpoint.KindRoundTrip` | src/endpoint.rs:4-24 | `Kind::from(k as u8) == k` for every kind |
| `Endpoint.KindNameInjective` | src/endpoint.rs:26-33 | `to_string` gives different names to different kinds |
| `Net.OctetsRoundTrip` | src/message.rs:159-193 | regrouping bytes into big-endian 16-bit segments and writing them back out reproduces the bytes |
| `Net.SegmentsRoundTrip` | src/message.rs:159-193 | writing segments as bytes and regrouping them reproduces the segments |
| `Net.Ipv6FromOctets` | src/message.rs:159-194 | the IPv6 address built from sixteen octets has exactly those octets; each temporary pair is fully overwritten |
| `Net.Ipv6SegmentsRoundTrip` | src/message.rs:159-194 | an IPv6 address survives `octets()` followed by the decoder's regrouping |
| `Net.IpSize` | src/message.rs:117-122 | the `ip_size` byte is 4 or 16, and 16 exactly for IPv6 |
| `Net.IpOctets` | src/message.rs:128-135 | the address bytes written into a Conn frame number `ip_size` |
| `Net.SocketFromOctets` | src/message.rs:152-204 | the decoded address has the octets and port read off the wire, and flow label and scope id 0 |
| `Net.Carried` | src/message.rs:204 | what survives the wire: family, octets and port, with IPv6 flow label and scope id reset to 0 |
| `Net.SocketRoundTrip` | src/message.rs:128-204 | writing an address as octets and port and reading it back gives the address minus flow label and scope id |
| `Codec.MessageKindFrom` | src/message.rs:35-41 | byte 1 is Stun, byte 2 is Conn, every other byte Unknown |
| `Codec.StunEncode` | src/message.rs:64-73 | fails exactly for kind Unknown (with the kind error); otherwise `[1, kind] ++ fqdn` of length `2 + |fqdn|`, whose role byte decodes back to the kind |
| `Codec.StunDecode` | src/message.rs:74-85 | size error for ≤ 2 bytes, wrong-kind error when byte 0 is not 1, success otherwise with a non-empty name; a decoded frame with role byte 1..3 re-encodes to the same bytes |
| `Codec.StunDecodeInto` | src/message.rs:74-85 | on error the receiver's kind and fqdn are unchanged; on success they are taken from bytes 1 and 2.. |
| `Codec.StunRoundTrip` | src/message.rs:64-85 | decode(encode(m)) == m for every kind but Unknown and every non-empty name |
| `Codec.EmptyFqdnRejected` | src/message.rs:64-77 | a registration with an empty name encodes to two bytes, which decode rejects as too short |
| `Codec.ConnEncode` | src/message.rs:116-139 | always succeeds, kind unchecked; `[2, kind as u8, 4/16] ++ octets ++ port BE ++ fqdn` of length `5 + ip_size + |fqdn|`, the role byte being the discriminant (0 for Unknown) |
| `Codec.ConnDecodeAsWritten` | src/message.rs:140-207 | within its reads: size error for ≤ 2 bytes, wrong-kind error when byte 0 is not 2, ip-format error when byte 2 is not 4 or 16, success otherwise; a success carries `Kind::from(byte 1)`, the address octets at 3.., the big-endian port after them and the name after that, whatever the role byte; one with role byte ≤ 3 re-encodes to the same bytes |
| `Codec.ConnDecode` | src/message.rs:140-207 | total; succeeds exactly for byte 0 = 2, byte 2 ∈ {4, 16} and at least `5 + ip_size` bytes; equal to the Rust decoder wherever it stays in bounds |
| `Codec.ConnRoundTrip` | src/message.rs:116-206 | decode(encode(m)) == m for IPv4 and IPv6 and any name, the empty one included, up to flow label and scope id |
| `Codec.TruncatedConnPassesGuards` | src/message.rs:141-150 | the 3-byte frame `[2, 2, 4]` passes every guard yet lies outside the reads the decoder makes |
| `Codec.DecodeAsWritten` | src/message.rs:227-250 | dispatches on byte 0 only; an inner failure becomes Unknown carrying the identical bytes; needs a non-empty buffer |
| `Codec.Decode` | src/message.rs:227-250 | total; equal to the Rust code on its domain; buffers under 3 bytes are Unknown; Stun and Conn results are exactly the inner decoders' successes |
| `Codec.EmptyBufferOutOfBounds` | src/message.rs:228 | an empty buffer is outside what the Rust code's `decode` can read |
| `Codec.DecodeConnFrame` | src/message.rs:227-236 | every encoded Conn frame decodes at the top level as that frame |
| `Codec.DecodeStunFrame` | src/message.rs:237-245 | every encoded Stun frame with a name decodes as that frame; one with an empty name is Unknown |
| `Broker.AddBackend` | src/server.rs:28-38 | always returns true; creates the bucket if missing and sets `backends[fqdn][raddr] = now`; every other entry and bucket is unchanged |
| `Broker.FirstLive` | src/server.rs:43-51 | the scan stops at the first entry not older than 120 s; every entry before it is older |
| `Broker.GetBackend` | src/server.rs:39-61 | no bucket: nothing changes and nothing is returned; a returned address was live, within 120 s inclusive, and is removed; exactly it and the expired entries before it are removed; with no live entry the bucket is emptied but kept |
| `Broker.ClockMonotoneScanSafe` | src/server.rs:44 | if no stored time exceeds `now`, `now.sub(*v)` cannot panic in any iteration order |
| `Broker.RegisterThenSelect` | src/server.rs:28-60 | a backend registered at `t` is handed out by a lookup up to 120 s later, and a second lookup returns nothing |
| `Broker.RegistrationExpires` | src/server.rs:39-60 | a lookup more than 120 s after registration returns nothing and purges the entry |
| `Broker.SelectedAddressConsumed` | src/server.rs:49-55 | single use: a later lookup of the same name, in any order, cannot return the address just handed out |
| `Broker.BrokerStep` | src/server.rs:68-108 | a failed receive ends `run`, while WouldBlock, which the blocking receive never reports, changes nothing; an empty datagram is ignored; any non-empty datagram that is not a Stun frame ends `run` with the decode error; for a Backend registration `run` ends exactly when the acknowledgement could not be sent |
| `Broker.IgnoredKinds` | src/server.rs:74-76 | registrations of kind Unknown or Stun change nothing and send nothing |
| `Broker.BackendRegistrationAcked` | src/server.rs:98-105 | every Backend registration is upserted and acknowledged to its sender with a Stun frame of kind Stun for the same name; a failed acknowledgement ends `run` |
| `Broker.FrontendIntroduced` | src/server.rs:77-97 | with no live backend nothing is sent; otherwise the taken backend B was live and is consumed, and exactly two Conn frames of kind Backend go out: B to the frontend, the frontend to B |
| `Broker.StepDefinedUnderClock` | src/server.rs:73-80 | under a clock that does not go back, every step is defined for any iteration order |
| `Broker.StepKeepsClock` | src/server.rs:73-105 | a step stores no time later than its `now`, so the registry stays well-clocked for later steps |
| `Broker.IntroductionScenario` | src/server.rs:77-105 | a backend registering from A and a frontend asking from B within 120 s lead to Conn{Backend, name, A} to B and Conn{Backend, name, B} to A |
| `Broker.DistinctBackendsForSuccessiveFrontends` | src/server.rs:80-97 | two frontends asking for the same name in turn never get the same backend |
| `FrontendHandshake.RegistrationFrame` | src/frontend.rs:50-52 | the registration sent to the broker decodes as Stun{Frontend, fqdn} |
| `FrontendHandshake.PunchFrame` | src/frontend.rs:64-66 | the punch frame decodes as Conn{Frontend, fqdn, local address} |
| `FrontendHandshake.PunchEnd` | src/frontend.rs:68-97 | the first iteration that leaves the punch loop: no earlier iteration does |
| `FrontendHandshake.Punch` | src/frontend.rs:68-97 | every iteration sends the punch frame to the target first; handoff exactly when the first leaving iteration polled a Conn of kind Backend; a send error or a receive error other than WouldBlock fails; otherwise it keeps punching |
| `FrontendHandshake.Run` | src/frontend.rs:48-98 | one registration to the broker, then exactly one reply, awaited through WouldBlock, which must decode as Conn or the run fails with no retry; after a Conn reply the trace is exactly the registration followed by the punch loop toward the reply's address; handoff exactly when the punch loop ends on a Conn of kind Backend, with the reply's address as target |
| `FrontendHandshake.NonRepliesKeepPunching` | src/frontend.rs:72-92 | WouldBlock, a Conn of another kind, a Stun frame and garbage, the empty datagram included, leave the loop punching |
| `BackendHandshake.RegistrationFrame` | src/backend.rs:46-47 | the registration decodes as Stun{Backend, fqdn} |
| `BackendHandshake.Reply` | src/backend.rs:64-67 | the answer goes to the introduced address and decodes as Conn{Backend, received fqdn, local address} |
| `BackendHandshake.RegisterEnd` | src/backend.rs:49-75 | the first iteration that leaves the registration loop: no earlier iteration does |
| `BackendHandshake.Register` | src/backend.rs:49-75 | every iteration resends the registration first; the first Conn of any kind gets exactly one answer, then the loop returns the socket without waiting; a failed send is fatal; everything else keeps registering |
| `BackendHandshake.Fetch` | src/backend.rs:41-76 | a failed bind is an error with nothing sent; otherwise the trace is the registration loop on the bound socket with the Stun{Backend, fqdn} frame; a returned socket is the one bound in this call |
| `BackendHandshake.FetchReadyOnlyAfterIntroduction` | src/backend.rs:49-75 | fetch returns a socket only after polling a Conn frame; without Conn frames or send failures it keeps registering |
| `BackendHandshake.RunLoop` | src/backend.rs:32-36 | the i-th handoff is the socket of the i-th fetch result; the loop stops exactly at the first failed fetch and hands off nothing after it; its traffic is every performed fetch's sends in order, up to and including the one that failed or is still registering |
| `BackendHandshake.Run` | src/backend.rs:28-39 | each handoff comes from the fetch of its own cycle, in order; `run` returns `Ok(())` only at the first failed fetch, and stays inside a fetch still registering; everything it sends is the sends of those fetches, in order |
| `BackendHandshake.HandoffsAreFreshSockets` | src/backend.rs:32-36 | the i-th socket handed to a handler is the one freshly bound by the i-th fetch |
| `BackendHandshake.AnyConnKindIsAnswered` | src/backend.rs:61-68 | a Conn frame of any kind is answered once, at the address it carries, and fetch returns |
| `BackendHandshake.NonIntroductionsKeepRegistering` | src/backend.rs:55-72 | every receive failure, WouldBlock or not, and every Stun or Unknown datagram leave the backend registering |
| `Protocol.BackendReplyConfirmsPunch` | src/frontend.rs:73-77 | the backend's answer, polled by a punching frontend, ends the punch loop with a handoff |
| `Protocol.PunchFrameAsymmetry` | src/backend.rs:61-68 | a frontend's punch frame counts as an introduction for a registering backend, but a frontend ignores it |
| `Protocol.HandshakeCompletes` | src/frontend.rs:57-77 | after the broker's two introductions the backend answers the frontend once and is ready, and the frontend punches the backend and hands off with the backend as target |

## Left out

- QUIC and TLS: `Frontend::listen`, the client setup in `Frontend::run` after
  the handoff, `Backend::handle`, the tunnel and layer modules, and the
  certificate code. These are session setup and byte relaying inside foreign
  libraries.
- Process bootstrap in `src/main.rs`, and `src/pool.rs`, which is entirely
  commented out.
- Formatting: `Display`, `println!` and the boxing of `FmtError`. The numeric
  `Display` of `Kind` is not modelled.
- Real clocks, the two-second sleeps and `tokio::spawn`. Time is an input, I/O
  is a sequence of ticks, and spawned handlers appear only as the list of
  handed-off sockets.
- Receive truncation: datagrams longer than the 1500-byte buffer would be cut
  by the socket. Events carry `buf[..n]` as received.
- Frontend bind and `local_addr` failures. The frontend's bound local address
  is a parameter. The backend's bind outcome is modelled; its `local_addr`
  failure is not.
- `SocketAddr` to string and back: the registry is keyed by
  `raddr.to_string()` and the broker re-parses the key with
  `SocketAddr::from_str` (src/server.rs:34, 85). The `Display` of an IPv6
  socket address omits the flow label, so the Rust code merges two backend
  addresses that differ only in flow label into one registry entry, and sends
  the second introduction to the re-parsed address with flow label 0
  (src/server.rs:94). The model keys buckets by the full `SocketAddr` and
  sends to the stored address itself.
- `from_utf8_lossy`: names are bytes and assumed to be valid UTF-8, so two
  distinct invalid names never collapse to one registry key.
- The unreachable branches: `return false` in `add_backend` and
  ConnMessage::encode's "ip type error". The first is modelled and proved
  unreachable. The second is not modelled, since a `SocketAddr` is always
  IPv4 or IPv6.
- `Endpoint.KindName`: its contract is the injectivity lemma
  `Endpoint.KindNameInjective`, not a per-variant restatement of the strings.
- `Broker.GetBackend`: the panic in `now.sub(*v)` is a precondition
  (`ScanSafe`), not an outcome. `Broker.BrokerStep` requires it only for
  Frontend registrations, the one place the scan runs.
- The loops use the corrected decoders of the findings below. On a truncated
  Conn frame, the Rust code's task panics in `ConnMessage::decode`, wherever it
  is called. On an empty datagram, the top-level `decode` panics, which is
  reached from the backend's and the frontend's punch loops; the frontend's
  first reply goes through `ConnMessage::decode`, whose `len <= 2` guard
  already answers "size error" (src/message.rs:141-143). The model reads
  both kinds of datagram as Unknown in the loops, and as a decode error for
  the frontend's first reply.
- A first frontend tick that reports WouldBlock ends the observed trace
  with the frontend still inside its blocking receive; the ticks after it
  are not consumed.

## Findings

| source | as written | input that shows it | evidently intended | confidence | as-written member | corrected member |
|---|---|---|---|---|---|---|
| src/message.rs:140-205 | `ConnMessage::decode` checks only `len > 2` before reading up to byte `4 + ip_size` and slicing from `5 + ip_size` | the 3-byte frame `[2, 2, 4]` (`Codec.TruncatedConnPassesGuards`) | a frame shorter than `5 + ip_size` bytes is a size error: `ConnMessage::decode` returns `Result` and already answers short buffers with "size error" (src/message.rs:141-143) | high, not executed | `Codec.ConnDecodeAsWritten` | `Codec.ConnDecode` |
| src/message.rs:227-228 | `decode` reads `buf[0]` without a length check; both handshakes pass it `&buf[..n]` for any received `n`, including 0 | the empty datagram (`Codec.EmptyBufferOutOfBounds`) | an empty buffer decodes as Unknown: `decode` returns a `Message`, not a `Result`, and answers every other undecodable buffer with `Message::Unknown` (src/message.rs:233, 241, 247) | high, not executed | `Codec.DecodeAsWritten` | `Codec.Decode` |
