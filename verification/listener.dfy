/** The responder side (listener.go): construction, the advertised service
    list, the accept/reject rule for one ping, and the receive loop as a fold
    over the inbound events it observes. */
module ListenerModel {
  import opened Wrappers
  import opened Wire

  /** The state the receive loop reads. The sockets are represented by the
      endpoints they are bound or addressed to. */
  datatype Listener = Listener(
    domain: string,
    services: seq<Service>,
    listenAddress: Endpoint,
    pingerAddress: Endpoint,
    readBuffer: int)

  /** The order in which the constructor performs its socket-layer steps. */
  const ListenerSetup: seq<SetupStep> := [ResolveGroupPort, ResolveEchoPort, JoinGroup, SetReadBuffer, OpenSender]

  /** Construction: listen on the group port, send echoes to the port below
      it, with an empty service list. `failing` names the steps the socket
      layer would refuse; the first one in setup order is reported. */
  function CreateListener(groupAddress: string, groupPort: int, domain: string, failing: set<SetupStep>): (r: Result<Listener, SetupStep>)
    ensures r.Success? <==> forall s | s in ListenerSetup :: s !in failing
    ensures r.Failure? ==> r.error in failing
    ensures r.Failure? && ResolveGroupPort in failing ==> r.error == ResolveGroupPort
    ensures r.Failure? ==> exists i | 0 <= i < |ListenerSetup| ::
      ListenerSetup[i] == r.error && forall j | 0 <= j < i :: ListenerSetup[j] !in failing
    ensures r.Success? ==> && r.value.domain == domain
                           && r.value.services == []
                           && r.value.listenAddress == PingEndpoint(groupAddress, groupPort)
                           && r.value.pingerAddress == EchoEndpoint(groupAddress, groupPort)
                           && r.value.readBuffer == DefaultBufferSize
  {
    match FirstFailing(ListenerSetup, failing)
    case Some(step) => Failure(step)
    case None =>
      Success(Listener(domain, [], Endpoint(groupAddress, groupPort), Endpoint(groupAddress, groupPort - 1), DefaultBufferSize))
  }

  /** Errors the source's AddService could report; it never reports one. */
  datatype ConfigError = ConfigError

  /** Appends one service record; the error result is always nil. */
  function AddService(l: Listener, serviceType: string, protocol: string, address: string, port: int): (r: (Listener, Option<ConfigError>))
    ensures r.1.None?
    ensures |r.0.services| == |l.services| + 1
    ensures r.0.services[..|l.services|] == l.services
    ensures r.0.services[|l.services|] == Service(serviceType, protocol, address, port)
    ensures r.0.(services := l.services) == l
  {
    (l.(services := l.services + [Service(serviceType, protocol, address, port)]), None)
  }

  /** A configuration phase: AddService called once per record, in order. */
  function AddServices(l: Listener, records: seq<Service>): Listener
    decreases |records|
  {
    if records == [] then l
    else
      var s := records[0];
      AddServices(AddService(l, s.serviceType, s.protocol, s.address, s.port).0, records[1..])
  }

  /** After any configuration phase the list is the earlier list followed by
      the added records, in the order they were added. */
  lemma {:induction false} AddServicesAppends(l: Listener, records: seq<Service>)
    ensures AddServices(l, records).services == l.services + records
    ensures AddServices(l, records).(services := l.services) == l
    decreases |records|
  {
    if records != [] {
      var s := records[0];
      var l1 := AddService(l, s.serviceType, s.protocol, s.address, s.port).0;
      AddServicesAppends(l1, records[1..]);
      assert l1.services == l.services + [records[0]];
      assert [records[0]] + records[1..] == records;
      assert (l.services + [records[0]]) + records[1..] == l.services + records;
    }
  }

  /** Why a ping got no echo. */
  datatype HandleError = InvalidType(msgType: int) | InvalidDomain(domain: string) | EchoNotSent(reason: SendError)

  /** Outcome of handling one decoded message: the error returned, and the
      echo datagram that reached the wire, if any. */
  datatype Handled = Handled(err: Option<HandleError>, reply: Option<Datagram>)

  /** The echo the listener builds for a ping from `source`. */
  function EchoFor(l: Listener, ping: Message, source: string): Message
  {
    Message(SonarEcho, ping.id, "", source, l.services)
  }

  /** The accept rule: a ping of the listener's own domain. */
  predicate Accepts(l: Listener, m: Message)
  {
    m.msgType == SonarPing && m.domain == l.domain
  }

  /** Handles one decoded message: type check, then domain check, then one
      echo sent to the pinger address. `fate` is what the codec and the send
      socket do with that echo. */
  function HandlePingRequest(l: Listener, ping: Message, source: string, fate: SendFate): (r: Handled)
    ensures r.reply.Some? <==> Accepts(l, ping) && fate == Delivered
    ensures r.err.None? <==> r.reply.Some?
    ensures ping.msgType != SonarPing ==> r.err == Some(InvalidType(ping.msgType))
    ensures ping.msgType == SonarPing && ping.domain != l.domain ==> r.err == Some(InvalidDomain(ping.domain))
    ensures Accepts(l, ping) && fate.Fails? ==> r.err == Some(EchoNotSent(fate.reason))
    ensures r.reply.Some? ==> && r.reply.value.dest == l.pingerAddress
                              && r.reply.value.msg.msgType == SonarEcho
                              && r.reply.value.msg.id == ping.id
                              && r.reply.value.msg.requestor == source
                              && r.reply.value.msg.services == l.services
                              && "domain" !in WireFields(r.reply.value.msg)
  {
    if ping.msgType != SonarPing then Handled(Some(InvalidType(ping.msgType)), None)
    else if ping.domain != l.domain then Handled(Some(InvalidDomain(ping.domain)), None)
    else match fate
      case Fails(reason) => Handled(Some(EchoNotSent(reason)), None)
      case Delivered => Handled(None, Some(Datagram(l.pingerAddress, EchoFor(l, ping, source))))
  }

  /** One iteration's input: the receive result and, should an echo be
      built, what happens to it. */
  datatype Event = Event(inbound: Inbound, replyFate: SendFate)

  /** What the receive loop produced: echoes sent, in order, and how many
      times it signalled its exit channel. */
  datatype RoutineResult = RoutineResult(echoes: seq<Datagram>, exitSignals: nat)

  /** An event whose ping gets an echo on the wire. */
  predicate Answered(l: Listener, e: Event)
  {
    e.inbound.Decoded? && Accepts(l, e.inbound.msg) && e.replyFate == Delivered
  }

  /** `d` is the echo that answers event `e`. */
  predicate Answers(l: Listener, e: Event, d: Datagram)
  {
    Answered(l, e) && d == Datagram(l.pingerAddress, EchoFor(l, e.inbound.msg, e.inbound.source))
  }

  /** Every echo answers some event that came before the first receive
      error. */
  predicate EachAnswersSomeEvent(l: Listener, events: seq<Event>, echoes: seq<Datagram>)
  {
    forall j | 0 <= j < |echoes| ::
      exists i | 0 <= i < ExitIndex(events) :: Answers(l, events[i], echoes[j])
  }

  /** Index of the first receive error, or |events| when there is none. */
  function ExitIndex(events: seq<Event>): (k: nat)
    ensures k <= |events|
    ensures forall i | 0 <= i < k :: !events[i].inbound.RecvError?
    ensures k < |events| ==> events[k].inbound.RecvError?
  {
    if events == [] || events[0].inbound.RecvError? then 0
    else
      var k := ExitIndex(events[1..]);
      assert forall i | 1 <= i < k + 1 :: events[i] == events[1..][i - 1];
      k + 1
  }

  /** The echoes one iteration sends: none for a receive error or
      undecodable bytes, otherwise whatever handling the message sends. */
  function EchoesOf(l: Listener, e: Event): (s: seq<Datagram>)
    ensures |s| <= 1
    ensures |s| == 1 <==> Answered(l, e)
    ensures forall d | d in s :: Answers(l, e, d)
  {
    match e.inbound
    case Decoded(msg, source) => ToSeq(HandlePingRequest(l, msg, source, e.replyFate).reply)
    case _ => []
  }

  /** The receive loop over the events it observes: a receive error ends it
      and signals exit; undecodable bytes and failed handling are skipped. */
  function Routine(l: Listener, events: seq<Event>): (r: RoutineResult)
    ensures r.exitSignals <= 1
    ensures |r.echoes| <= |events|
    ensures forall d | d in r.echoes ::
      d.dest == l.pingerAddress && d.msg.msgType == SonarEcho && d.msg.services == l.services
    decreases |events|
  {
    if events == [] then RoutineResult([], 0)
    else if events[0].inbound.RecvError? then RoutineResult([], 1)
    else
      var rest := Routine(l, events[1..]);
      RoutineResult(EchoesOf(l, events[0]) + rest.echoes, rest.exitSignals)
  }
}

/** Properties of the receive loop that relate several runs of it. */
module ListenerLoop {
  import opened Wrappers
  import opened Wire
  import opened ListenerModel

  /** The loop keeps no state between iterations: running it on `a + b` is
      running it on `a`, and then, unless `a` already ended the loop, on `b`
      with the echoes appended in order. */
  lemma {:induction false} RoutineAppend(l: Listener, a: seq<Event>, b: seq<Event>)
    ensures Routine(l, a).exitSignals == 1 ==> Routine(l, a + b) == Routine(l, a)
    ensures Routine(l, a).exitSignals == 0 ==>
      Routine(l, a + b) == RoutineResult(Routine(l, a).echoes + Routine(l, b).echoes, Routine(l, b).exitSignals)
    decreases |a|
  {
    if a == [] {
      assert a + b == b;
    } else {
      var ab := a + b;
      assert ab[0] == a[0];
      assert ab[1..] == a[1..] + b;
      if !a[0].inbound.RecvError? {
        RoutineAppend(l, a[1..], b);
        if Routine(l, a[1..]).exitSignals == 0 {
          var first, ra, rb := EchoesOf(l, a[0]), Routine(l, a[1..]).echoes, Routine(l, b).echoes;
          assert first + (ra + rb) == (first + ra) + rb;
        }
      }
    }
  }

  /** Undecodable bytes produce no echo and the loop goes on. */
  lemma UndecodableSkipped(l: Listener, fate: SendFate, rest: seq<Event>)
    ensures Routine(l, [Event(Undecodable, fate)] + rest) == Routine(l, rest)
  {
  }

  /** A message that is rejected, or whose echo cannot be sent, produces no
      echo and never ends the loop. */
  lemma UnansweredSkipped(l: Listener, e: Event, rest: seq<Event>)
    requires e.inbound.Decoded? && !Answered(l, e)
    ensures Routine(l, [e] + rest) == Routine(l, rest)
  {
  }

  /** An accepted ping whose echo reaches the wire adds exactly that echo in
      front of the rest of the loop's output. */
  lemma AnsweredEchoed(l: Listener, e: Event, rest: seq<Event>)
    requires Answered(l, e)
    ensures Routine(l, [e] + rest).echoes ==
      [Datagram(l.pingerAddress, EchoFor(l, e.inbound.msg, e.inbound.source))] + Routine(l, rest).echoes
    ensures Routine(l, [e] + rest).exitSignals == Routine(l, rest).exitSignals
  {
  }

  /** Nothing after the first receive error is processed. */
  lemma {:induction false} RoutineStopsAtFirstError(l: Listener, events: seq<Event>)
    requires ExitIndex(events) < |events|
    ensures Routine(l, events) == Routine(l, events[..ExitIndex(events) + 1])
    ensures Routine(l, events).exitSignals == 1
    decreases |events|
  {
    var k := ExitIndex(events);
    if k > 0 {
      assert events[1..][..k] == events[..k + 1][1..];
      RoutineStopsAtFirstError(l, events[1..]);
    }
  }

  /** The number of echoes is the number of decodable, accepted pings whose
      echo was delivered before the first receive error. */
  lemma {:induction false} RoutineEchoCount(l: Listener, events: seq<Event>)
    ensures |Routine(l, events).echoes| == CountIf(events[..ExitIndex(events)], e => Answered(l, e))
    decreases |events|
  {
    var k := ExitIndex(events);
    if events != [] && !events[0].inbound.RecvError? {
      RoutineEchoCount(l, events[1..]);
      assert events[..k][0] == events[0];
      assert events[..k][1..] == events[1..][..k - 1];
    }
  }

  /** Echo correlation over a whole run: the j-th echo sent answers some
      accepted ping received before the first receive error, carrying that
      ping's ID and sender address. */
  lemma {:induction false} RoutineEchoesAnswerPings(l: Listener, events: seq<Event>)
    ensures EachAnswersSomeEvent(l, events, Routine(l, events).echoes)
    decreases |events|
  {
    if events != [] && !events[0].inbound.RecvError? {
      RoutineEchoesAnswerPings(l, events[1..]);
      AnswersShift(l, events, EchoesOf(l, events[0]), Routine(l, events[1..]).echoes);
    }
  }

  /** Prepending the first event's own echoes keeps every echo answering an
      event before the first receive error. */
  lemma AnswersShift(l: Listener, events: seq<Event>, first: seq<Datagram>, rest: seq<Datagram>)
    requires events != [] && !events[0].inbound.RecvError?
    requires forall d | d in first :: Answers(l, events[0], d)
    requires EachAnswersSomeEvent(l, events[1..], rest)
    ensures EachAnswersSomeEvent(l, events, first + rest)
  {
  }

  /** A receive error is the only way out of the loop: exit is signalled
      iff some receive failed. */
  lemma {:induction false} RoutineExitsIffReceiveFails(l: Listener, events: seq<Event>)
    ensures Routine(l, events).exitSignals == 1 <==> exists i | 0 <= i < |events| :: events[i].inbound.RecvError?
    decreases |events|
  {
    if events != [] && !events[0].inbound.RecvError? {
      RoutineExitsIffReceiveFails(l, events[1..]);
      if exists i | 0 <= i < |events| :: events[i].inbound.RecvError? {
        var i :| 0 <= i < |events| && events[i].inbound.RecvError?;
        assert events[1..][i - 1].inbound.RecvError?;
      }
      if exists i | 0 <= i < |events[1..]| :: events[1..][i].inbound.RecvError? {
        var i :| 0 <= i < |events[1..]| && events[1..][i].inbound.RecvError?;
        assert events[i + 1].inbound.RecvError?;
      }
    }
  }

  /** Stopping a listener closes its receive socket: whatever the loop saw
      before, it has then signalled its exit exactly once. */
  lemma StopSignalsExit(l: Listener, events: seq<Event>, fate: SendFate)
    ensures Routine(l, events + [Event(RecvError, fate)]).exitSignals == 1
  {
    var s := events + [Event(RecvError, fate)];
    RoutineExitsIffReceiveFails(l, s);
    assert s[|events|].inbound.RecvError?;
  }
}
