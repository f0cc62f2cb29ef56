/** The wire data model shared by listeners and pingers (define.go): the
    service record, the message envelope, the type tags and defaults, the
    port convention, and the abstract values that stand in for the socket
    layer and the JSON codec. */
module Wire {
  import opened Wrappers

  /** One advertised endpoint. The source validates none of the fields. */
  datatype Service = Service(serviceType: string, protocol: string, address: string, port: int)

  /** The single envelope used in both directions. `domain`, `requestor` and
      `services` are optional on the wire; an absent field decodes to its zero
      value, which is "" or [] here. `msgType` is a plain integer because a
      decoded datagram may carry any number in that field. */
  datatype Message = Message(msgType: int, id: int, domain: string, requestor: string, services: seq<Service>)

  const SonarPing: int := 0
  const SonarEcho: int := 1

  const DefaultDomain: string := "nano"
  const DefaultMulticastAddress: string := "224.0.0.226"
  const DefaultMulticastPort: int := 5599
  /** `8 << 10`, written with the shift the source uses. */
  const DefaultBufferSize: int := ((8 as bv32) << 10) as int

  /** The JSON keys present once a message is marshalled: `type` and `id`
      always, each omitempty field only when it is not its zero value. */
  function WireFields(m: Message): (r: set<string>)
    ensures {"type", "id"} <= r <= {"type", "id", "domain", "requestor", "services"}
    ensures "domain" in r <==> m.domain != ""
    ensures "requestor" in r <==> m.requestor != ""
    ensures "services" in r <==> m.services != []
  {
    {"type", "id"}
    + (if m.domain != "" then {"domain"} else {})
    + (if m.requestor != "" then {"requestor"} else {})
    + (if |m.services| > 0 then {"services"} else {})
  }

  /** A UDP address, host text and port. */
  datatype Endpoint = Endpoint(host: string, port: int)

  /** Where pings travel: the group port itself. */
  function PingEndpoint(groupAddress: string, groupPort: int): Endpoint
  {
    Endpoint(groupAddress, groupPort)
  }

  /** Where echoes travel: the port just below the group port. */
  function EchoEndpoint(groupAddress: string, groupPort: int): Endpoint
  {
    Endpoint(groupAddress, groupPort - 1)
  }

  /** One outbound datagram: destination and the message it carries. */
  datatype Datagram = Datagram(dest: Endpoint, msg: Message)

  /** Why an outbound message did not reach the wire. */
  datatype SendError = MarshalFailed | WriteFailed

  /** What the codec and the socket do with one outbound message. */
  datatype SendFate = Delivered | Fails(reason: SendError)

  /** What one blocking receive followed by a decode yields: a socket error
      (a closed socket included), bytes that do not decode, or a message with
      the textual IP of its sender. */
  datatype Inbound = RecvError | Undecodable | Decoded(msg: Message, source: string)

  /** The socket-layer steps a constructor performs, each of which may fail. */
  datatype SetupStep = ResolveGroupPort | ResolveEchoPort | JoinGroup | SetReadBuffer | OpenSender

  /** The first step of `order` that fails, if any: constructors stop at the
      first failing step and report it. */
  function FirstFailing(order: seq<SetupStep>, failing: set<SetupStep>): (r: Option<SetupStep>)
    ensures r.None? <==> forall i | 0 <= i < |order| :: order[i] !in failing
    ensures r.Some? ==> exists i | 0 <= i < |order| ::
      order[i] == r.value && r.value in failing && forall j | 0 <= j < i :: order[j] !in failing
  {
    if order == [] then None
    else if order[0] in failing then Some(order[0])
    else
      var rest := FirstFailing(order[1..], failing);
      assert forall i | 1 <= i < |order| :: order[i] == order[1..][i - 1];
      rest
  }

  /** The protocol constants as the source defines them. */
  lemma Defaults()
    ensures SonarPing == 0 && SonarEcho == 1 && SonarPing != SonarEcho
    ensures DefaultDomain == "nano" && DefaultMulticastAddress == "224.0.0.226"
    ensures DefaultMulticastPort == 5599 && DefaultBufferSize == 8192
    ensures EchoEndpoint(DefaultMulticastAddress, DefaultMulticastPort).port == 5598
  {
  }

  /** Pings and echoes of one group never share a port. */
  lemma PortsDistinct(groupAddress: string, groupPort: int)
    ensures PingEndpoint(groupAddress, groupPort) != EchoEndpoint(groupAddress, groupPort)
    ensures EchoEndpoint(groupAddress, groupPort).port + 1 == PingEndpoint(groupAddress, groupPort).port
  {
  }
}
