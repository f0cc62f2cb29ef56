/** How a pinger and a listener of the same group interact: the port
    wiring, one ping/echo exchange, and the scenarios the protocol promises. */
module Discovery {
  import opened Wrappers
  import opened Wire
  import opened ListenerModel
  import opened ListenerLoop
  import opened PingerModel
  import opened PingerLoops

  /** Created with the same group address and port, a pinger sends its pings
      to the port the listener listens on, and the listener sends its echoes
      to the port the pinger receives on. */
  lemma CreatedPeersAreWired(groupAddress: string, groupPort: int, listenerDomain: string, pingerDomain: string)
    ensures CreateListener(groupAddress, groupPort, listenerDomain, {}).Success?
    ensures CreatePinger(groupAddress, groupPort, pingerDomain, {}).Success?
    ensures var l := CreateListener(groupAddress, groupPort, listenerDomain, {}).value;
            var p := CreatePinger(groupAddress, groupPort, pingerDomain, {}).value;
            && p.remoteAddress == l.listenAddress
            && l.pingerAddress == p.listenAddress
            && l.listenAddress.port == groupPort
            && p.listenAddress.port == groupPort - 1
  {
  }

  /** The ping a pinger sends in round `roll`. */
  function PingOf(p: Pinger, roll: Roll): Message
  {
    SendPingMessage(p, roll, Delivered).ping.msg
  }

  /** One exchange between peers of the same domain: the listener answers
      the pinger's ping, and that echo is the match the pinger's loop takes,
      carrying the sender's address and the listener's services. */
  lemma EchoAnswersPing(l: Listener, p: Pinger, roll: Roll, source: string, echoSource: string, rest: seq<Round>)
    requires l.domain == p.domain && p.receiverOpen
    ensures HandlePingRequest(l, PingOf(p, roll), source, Delivered).reply.Some?
    ensures var echo := HandlePingRequest(l, PingOf(p, roll), source, Delivered).reply.value.msg;
            var rounds := [Round(roll, Delivered, Decoded(echo, echoSource))] + rest;
            && QueryLoop(p, rounds).signal == Matched(Echo(source, l.services))
            && AsyncLoop(p, rounds).signal == Matched(Echo(source, l.services))
            && Query(p, rounds, false).result == Success(Echo(source, l.services))
  {
    var ping := PingOf(p, roll);
    var echo := HandlePingRequest(l, ping, source, Delivered).reply.value.msg;
    assert echo == EchoFor(l, ping, source);
    var rounds := [Round(roll, Delivered, Decoded(echo, echoSource))] + rest;
    MatchIgnoresTypeAndDomain(p, rounds, 0, echo, echoSource);
  }

  /** Peers of different domains never interact: the listener rejects the
      ping for its domain and sends nothing, whatever would happen to an
      echo. */
  lemma ForeignDomainNeverAnswered(l: Listener, p: Pinger, roll: Roll, source: string, fate: SendFate)
    requires l.domain != p.domain
    ensures HandlePingRequest(l, PingOf(p, roll), source, fate).reply.None?
    ensures HandlePingRequest(l, PingOf(p, roll), source, fate).err == Some(InvalidDomain(p.domain))
  {
  }

  /** Services added before the listener starts appear in its echo in the
      order they were added, after any added earlier. */
  lemma {:induction false} AdvertisedInOrder(l: Listener, records: seq<Service>, ping: Message, source: string)
    requires Accepts(l, ping)
    ensures HandlePingRequest(AddServices(l, records), ping, source, Delivered).reply.Some?
    ensures HandlePingRequest(AddServices(l, records), ping, source, Delivered).reply.value.msg.services
            == l.services + records
  {
    AddServicesAppends(l, records);
  }

  /** A listener of domain "nano" advertising one gRPC service answers a
      "nano" pinger, whose query returns that service together with the
      pinger's own address as the listener saw it ("10.0.0.9"). The address
      the echo arrives from plays no part in the result. */
  lemma NanoScenario(roll: Roll, echoSource: string)
    ensures var created := CreateListener(DefaultMulticastAddress, DefaultMulticastPort, DefaultDomain, {});
            var l := AddService(created.value, "grpc", "tcp", "10.0.0.5", 50051).0;
            var p := CreatePinger(DefaultMulticastAddress, DefaultMulticastPort, DefaultDomain, {}).value;
            var heard := Routine(l, [Event(Decoded(PingOf(p, roll), "10.0.0.9"), Delivered)]);
            && |heard.echoes| == 1
            && heard.echoes[0].dest == p.listenAddress
            && Query(p, [Round(roll, Delivered, Decoded(heard.echoes[0].msg, echoSource))], false).result
               == Success(Echo("10.0.0.9", [Service("grpc", "tcp", "10.0.0.5", 50051)]))
  {
    var l := AddService(CreateListener(DefaultMulticastAddress, DefaultMulticastPort, DefaultDomain, {}).value,
                        "grpc", "tcp", "10.0.0.5", 50051).0;
    var p := CreatePinger(DefaultMulticastAddress, DefaultMulticastPort, DefaultDomain, {}).value;
    EchoAnswersPing(l, p, roll, "10.0.0.9", echoSource, []);
  }

  /** A pinger of domain "other" gets no echo from a "nano" listener, so the
      receive after its ping stays blocked. Its query times out with that
      ping sent and its ID recorded, and the receiver is closed. */
  lemma OtherDomainScenario(roll: Roll, source: string, timerFirst: bool)
    ensures var l := CreateListener(DefaultMulticastAddress, DefaultMulticastPort, DefaultDomain, {}).value;
            var p := CreatePinger(DefaultMulticastAddress, DefaultMulticastPort, "other", {}).value;
            var q := Query(p, [Waiting(roll, Delivered)], timerFirst);
            && Routine(l, [Event(Decoded(PingOf(p, roll), source), Delivered)]).echoes == []
            && q.result == Failure(QueryTimeout)
            && q.pings == [PingDatagram(p, roll)]
            && q.pinger.lastPingID == roll
            && !q.pinger.receiverOpen
  {
  }

  /** Malformed bytes are dropped and the listener still answers the next
      ping. */
  lemma MalformedThenPingScenario(l: Listener, ping: Message, source: string, fate: SendFate)
    requires Accepts(l, ping)
    ensures Routine(l, [Event(Undecodable, fate), Event(Decoded(ping, source), Delivered)]).echoes
            == [Datagram(l.pingerAddress, EchoFor(l, ping, source))]
  {
  }
}
