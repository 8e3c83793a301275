/** How the three roles fit together: the frames one role sends are the
    frames another role's loop reacts to. */
module Protocol {
  import opened Bytes
  import opened Wrappers
  import opened Endpoint
  import opened Net
  import opened Codec
  import FrontendHandshake
  import BackendHandshake

  /** The backend's reply, polled by a punching frontend, confirms the path
      and ends the punch loop with a handoff. */
  lemma BackendReplyConfirmsPunch(intro: ConnMessage, local: SocketAddr, from: SocketAddr)
    ensures FrontendHandshake.IsBackendReply(Datagram(BackendHandshake.Reply(intro, local).frame, from))
  {
  }

  /** The asymmetry: a frontend's punch frame reaching a backend that is
      still registering counts as an introduction and is answered, while a
      frontend ignores a punch frame from another frontend. */
  lemma PunchFrameAsymmetry(local: SocketAddr, fqdn: Fqdn, from: SocketAddr)
    ensures BackendHandshake.IsIntroduction(Datagram(FrontendHandshake.PunchFrame(local, fqdn), from))
    ensures !FrontendHandshake.EndsPunching(Sent(Datagram(FrontendHandshake.PunchFrame(local, fqdn), from)))
  {
  }

  /** End to end, from the broker's two introductions (see
      `IntroductionScenario` in the broker): the backend at `a`, registering, polls
      Conn{Backend, name, b} and answers `b` from its socket `local`; the
      frontend at `b` receives Conn{Backend, name, a}, punches `a`, polls the
      backend's answer and hands off its socket with target `a`. */
  lemma HandshakeCompletes(fqdn: Fqdn, broker: SocketAddr, a: SocketAddr, b: SocketAddr,
                           local: SocketAddr, from: SocketAddr)
    requires |fqdn| > 0
    ensures var introToBackend := ConnEncode(ConnMessage(Backend, fqdn, b));
      var bt := BackendHandshake.Fetch(broker, fqdn, Some(local), [Sent(Datagram(introToBackend, broker))], true);
      && bt.outcome == BackendHandshake.Ready(local)
      && bt.sends == [Send(broker, BackendHandshake.RegistrationFrame(fqdn)),
                      Send(Carried(b), ConnEncode(ConnMessage(Backend, fqdn, local)))]
    ensures var introToFrontend := ConnEncode(ConnMessage(Backend, fqdn, a));
      var answer := ConnEncode(ConnMessage(Backend, fqdn, local));
      var ft := FrontendHandshake.Run(fqdn, broker, b,
                  [Sent(Datagram(introToFrontend, broker)), Sent(Datagram(answer, from))]);
      && ft.outcome == FrontendHandshake.Handoff(Carried(a))
      && ft.sends == [Send(broker, FrontendHandshake.RegistrationFrame(fqdn)),
                      Send(Carried(a), FrontendHandshake.PunchFrame(b, fqdn))]
  {
    BackendHandshake.AnyConnKindIsAnswered(broker, BackendHandshake.RegistrationFrame(fqdn), local,
                                           ConnMessage(Backend, fqdn, b), broker, true);
    var introToFrontend := ConnEncode(ConnMessage(Backend, fqdn, a));
    var answer := ConnEncode(ConnMessage(Backend, fqdn, local));
    ConnRoundTrip(ConnMessage(Backend, fqdn, a));
    DecodeConnFrame(ConnMessage(Backend, fqdn, local));
    var ticks := [Sent(Datagram(introToFrontend, broker)), Sent(Datagram(answer, from))];
    assert ticks[1..] == [Sent(Datagram(answer, from))];
    assert FrontendHandshake.PunchEnd(ticks[1..]) == 0;
  }
}
