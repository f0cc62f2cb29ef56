/** The requester side (pinger.go): construction, building and sending one
    ping, the two matching loops (the synchronous one inside Query and the
    asynchronous one started by TryQuery) and the mapping of their signal to
    the caller's result. */
module PingerModel {
  import opened Wrappers
  import opened Wire

  /** Exclusive upper bound of generated ping IDs: `Intn(MaxID)`. */
  const MaxID: int := 0xffff

  /** One output of the random generator, `Intn(0xffff)`, which lies in
      [0, 0xffff). */
  type Roll = x: int | 0 <= x < 0xffff

  /** The state the matching loops read and write. `receiverOpen` turns false
      for good once Query's timeout path closes the echo receiver. */
  datatype Pinger = Pinger(
    domain: string,
    lastPingID: int,
    remoteAddress: Endpoint,
    listenAddress: Endpoint,
    receiverOpen: bool)

  /** The result a successful query hands back. */
  datatype Echo = Echo(localAddress: string, services: seq<Service>)

  /** The order in which the constructor performs its socket-layer steps. */
  const PingerSetup: seq<SetupStep> := [ResolveEchoPort, ResolveGroupPort, JoinGroup, OpenSender]

  /** Construction: receive echoes on the port below the group port, send
      pings to the group port. `failing` names the steps the socket layer
      would refuse; the first one in setup order is reported. */
  function CreatePinger(groupAddress: string, groupPort: int, domain: string, failing: set<SetupStep>): (r: Result<Pinger, SetupStep>)
    ensures r.Success? <==> forall s | s in PingerSetup :: s !in failing
    ensures r.Failure? ==> r.error in failing
    ensures r.Failure? && ResolveEchoPort in failing ==> r.error == ResolveEchoPort
    ensures r.Failure? ==> exists i | 0 <= i < |PingerSetup| ::
      PingerSetup[i] == r.error && forall j | 0 <= j < i :: PingerSetup[j] !in failing
    ensures r.Success? ==> && r.value.domain == domain
                           && r.value.lastPingID == 0
                           && r.value.remoteAddress == PingEndpoint(groupAddress, groupPort)
                           && r.value.listenAddress == EchoEndpoint(groupAddress, groupPort)
                           && r.value.receiverOpen
  {
    match FirstFailing(PingerSetup, failing)
    case Some(step) => Failure(step)
    case None =>
      Success(Pinger(domain, 0, Endpoint(groupAddress, groupPort), Endpoint(groupAddress, groupPort - 1), true))
  }

  /** The ping a pinger of `domain` sends with `id`. */
  function PingMessage(domain: string, id: int): Message
  {
    Message(SonarPing, id, domain, "", [])
  }

  /** The ping datagram, addressed to the group port. */
  function PingDatagram(p: Pinger, id: int): Datagram
  {
    Datagram(p.remoteAddress, PingMessage(p.domain, id))
  }

  /** One call of sendPingMessage: the pinger afterwards, the datagram it
      built, and the error it returned. */
  datatype PingSend = PingSend(pinger: Pinger, ping: Datagram, err: Option<SendError>)

  /** Builds a ping with the fresh ID `roll` and sends it. The ID is recorded
      as the last one even when the write fails, but not when marshalling
      fails, because marshalling comes first. */
  function SendPingMessage(p: Pinger, roll: Roll, fate: SendFate): (r: PingSend)
    ensures r.err.None? <==> fate == Delivered
    ensures fate.Fails? ==> r.err == Some(fate.reason)
    ensures 0 <= r.ping.msg.id < MaxID && r.ping.msg.id == roll
    ensures r.ping.msg.msgType == SonarPing && r.ping.msg.domain == p.domain
    ensures r.ping.dest == p.remoteAddress
    ensures WireFields(r.ping.msg) <= {"type", "id", "domain"}
    ensures fate == Fails(MarshalFailed) ==> r.pinger == p
    ensures fate != Fails(MarshalFailed) ==> r.pinger == p.(lastPingID := roll)
  {
    var ping := PingDatagram(p, roll);
    match fate
    case Fails(MarshalFailed) => PingSend(p, ping, Some(MarshalFailed))
    case Fails(WriteFailed) => PingSend(p.(lastPingID := roll), ping, Some(WriteFailed))
    case Delivered => PingSend(p.(lastPingID := roll), ping, None)
  }

  /** One loop iteration's inputs: the generator's output, what happens to
      the ping, and what the following receive yields. A `Waiting` round is
      one whose receive has not returned when the caller stops waiting: its
      ping is out, and the loop goes no further. */
  datatype Round = Round(roll: Roll, fate: SendFate, inbound: Inbound) | Waiting(roll: Roll, fate: SendFate)

  /** What a matching loop leaves in the result channel: a value, a close, or
      nothing at all. */
  datatype Signal = Matched(echo: Echo) | ChannelClosed | NoSignal

  /** A loop run: the pinger afterwards, the pings that reached the wire in
      order, the number of receives started, and the signal. */
  datatype LoopResult = LoopResult(pinger: Pinger, pings: seq<Datagram>, receives: nat, signal: Signal)

  /** The round's receive is still blocked. Only an open receiver blocks; a
      closed one fails at once. */
  predicate Blocked(receiverOpen: bool, rd: Round)
  {
    receiverOpen && rd.Waiting?
  }

  /** What a receive that has returned yields, once the receiver may have
      been closed. */
  function Received(receiverOpen: bool, rd: Round): Inbound
    requires !Blocked(receiverOpen, rd)
  {
    if receiverOpen then rd.inbound else RecvError
  }

  /** The match rule: only the ID counts, compared with the last ping's ID;
      type and domain of the message are not looked at. */
  predicate Matches(p: Pinger, m: Message)
  {
    m.id == p.lastPingID
  }

  /** The echo a matching message yields. */
  function EchoOf(m: Message): Echo
  {
    Echo(m.requestor, m.services)
  }

  /** Round `i` received a decodable message that matched its own ping. */
  predicate MatchedAt(receiverOpen: bool, rounds: seq<Round>, i: int)
    requires 0 <= i < |rounds|
  {
    && !Blocked(receiverOpen, rounds[i])
    && var got := Received(receiverOpen, rounds[i]);
       got.Decoded? && got.msg.id == rounds[i].roll
  }

  /** Round `i` received a decodable message that did not match. */
  predicate NoiseAt(receiverOpen: bool, rounds: seq<Round>, i: int)
    requires 0 <= i < |rounds|
  {
    && !Blocked(receiverOpen, rounds[i])
    && var got := Received(receiverOpen, rounds[i]);
       got.Decoded? && got.msg.id != rounds[i].roll
  }

  /** Round `i` received something the asynchronous loop passes over:
      undecodable bytes or a message that did not match. */
  predicate SkippedAt(receiverOpen: bool, rounds: seq<Round>, i: int)
    requires 0 <= i < |rounds|
  {
    || NoiseAt(receiverOpen, rounds, i)
    || (!Blocked(receiverOpen, rounds[i]) && Received(receiverOpen, rounds[i]).Undecodable?)
  }

  /** What every run of either loop keeps: one ping before every receive,
      ping `i` carrying round `i`'s ID and reaching the wire, and nothing in
      the pinger changed but the last ping ID. */
  predicate PingsPrecedeReceives(p: Pinger, rounds: seq<Round>, r: LoopResult)
  {
    && r.receives <= |rounds| && |r.pings| == r.receives
    && (forall i | 0 <= i < r.receives ::
          rounds[i].fate == Delivered && r.pings[i] == PingDatagram(p, rounds[i].roll))
    && r.pinger.(lastPingID := p.lastPingID) == p
  }

  /** The run ended on a match: the last round started decoded a message
      carrying that round's own ping ID, the echo is built from it, and that
      ID is the last one recorded. */
  predicate EndsMatched(p: Pinger, rounds: seq<Round>, r: LoopResult)
    requires r.receives <= |rounds|
  {
    && 0 < r.receives
    && MatchedAt(p.receiverOpen, rounds, r.receives - 1)
    && r.signal == Matched(EchoOf(Received(p.receiverOpen, rounds[r.receives - 1]).msg))
    && r.pinger.lastPingID == rounds[r.receives - 1].roll
  }

  /** The run ended waiting: the last round's receive is still blocked, its
      ping is out and its ID is the last one recorded. */
  predicate EndsBlocked(p: Pinger, rounds: seq<Round>, r: LoopResult)
    requires r.receives <= |rounds|
  {
    && 0 < r.receives
    && Blocked(p.receiverOpen, rounds[r.receives - 1])
    && r.pinger.lastPingID == rounds[r.receives - 1].roll
  }

  /** The outcome of Query's loop. Every round before the last one started
      received a non-matching message. A match is `EndsMatched`. A closed
      channel means the last receive failed or did not decode. No signal
      means the loop is waiting on a receive, or, after noise only, a send
      failed or the rounds ran out. */
  predicate QueryOutcome(p: Pinger, rounds: seq<Round>, r: LoopResult)
  {
    && PingsPrecedeReceives(p, rounds, r)
    && (forall i | 0 <= i < r.receives - 1 :: NoiseAt(p.receiverOpen, rounds, i))
    && (r.signal.Matched? ==> EndsMatched(p, rounds, r))
    && (r.signal.ChannelClosed? ==>
          && 0 < r.receives
          && !Blocked(p.receiverOpen, rounds[r.receives - 1])
          && !Received(p.receiverOpen, rounds[r.receives - 1]).Decoded?)
    && (r.signal.NoSignal? ==>
          || EndsBlocked(p, rounds, r)
          || (&& (r.receives == |rounds| || rounds[r.receives].fate.Fails?)
              && (r.receives == 0 || NoiseAt(p.receiverOpen, rounds, r.receives - 1))))
  }

  /** The outcome of the asynchronous loop. Every round before the last one
      started was passed over. A match is `EndsMatched`. A closed channel
      means the last receive failed, or, after rounds passed over only, a
      send failed. No signal means the loop is waiting on a receive, or the
      rounds ran out with every one passed over. */
  predicate AsyncOutcome(p: Pinger, rounds: seq<Round>, r: LoopResult)
  {
    && PingsPrecedeReceives(p, rounds, r)
    && (forall i | 0 <= i < r.receives - 1 :: SkippedAt(p.receiverOpen, rounds, i))
    && (r.signal.Matched? ==> EndsMatched(p, rounds, r))
    && (r.signal.ChannelClosed? ==>
          || (&& 0 < r.receives && !Blocked(p.receiverOpen, rounds[r.receives - 1])
              && Received(p.receiverOpen, rounds[r.receives - 1]).RecvError?)
          || (&& r.receives < |rounds| && rounds[r.receives].fate.Fails?
              && (r.receives == 0 || SkippedAt(p.receiverOpen, rounds, r.receives - 1))))
    && (r.signal.NoSignal? ==>
          || EndsBlocked(p, rounds, r)
          || (&& r.receives == |rounds|
              && (r.receives == 0 || SkippedAt(p.receiverOpen, rounds, r.receives - 1))))
  }

  /** A delivered ping whose receive brought noise, followed by a run of the
      remaining rounds, is a run of all the rounds. */
  lemma QueryStep(p: Pinger, rounds: seq<Round>, rest: LoopResult)
    requires rounds != [] && rounds[0].fate == Delivered && NoiseAt(p.receiverOpen, rounds, 0)
    requires QueryOutcome(p.(lastPingID := rounds[0].roll), rounds[1..], rest)
    ensures QueryOutcome(p, rounds, LoopResult(rest.pinger, [PingDatagram(p, rounds[0].roll)] + rest.pings, rest.receives + 1, rest.signal))
  {
    var tail := rounds[1..];
    forall i | 1 <= i <= rest.receives
      ensures rounds[i] == tail[i - 1]
    {
    }
    forall i | 1 <= i < rest.receives
      ensures NoiseAt(p.receiverOpen, rounds, i)
    {
      assert NoiseAt(p.receiverOpen, tail, i - 1);
    }
  }

  /** The same step for the asynchronous loop and a round it passed over. */
  lemma AsyncStep(p: Pinger, rounds: seq<Round>, rest: LoopResult)
    requires rounds != [] && rounds[0].fate == Delivered && SkippedAt(p.receiverOpen, rounds, 0)
    requires AsyncOutcome(p.(lastPingID := rounds[0].roll), rounds[1..], rest)
    ensures AsyncOutcome(p, rounds, LoopResult(rest.pinger, [PingDatagram(p, rounds[0].roll)] + rest.pings, rest.receives + 1, rest.signal))
  {
    var tail := rounds[1..];
    forall i | 1 <= i <= rest.receives
      ensures rounds[i] == tail[i - 1]
    {
    }
    forall i | 1 <= i < rest.receives
      ensures SkippedAt(p.receiverOpen, rounds, i)
    {
      assert SkippedAt(p.receiverOpen, tail, i - 1);
    }
  }

  /** The loop inside Query: ping, receive, decode, compare. A send error
      ends it without touching the channel; a receive or decode error closes
      the channel; a match delivers the echo; a receive still blocked leaves
      the channel untouched. */
  function QueryLoop(p: Pinger, rounds: seq<Round>): (r: LoopResult)
    ensures QueryOutcome(p, rounds, r)
    decreases |rounds|
  {
    if rounds == [] then LoopResult(p, [], 0, NoSignal)
    else
      var s := SendPingMessage(p, rounds[0].roll, rounds[0].fate);
      if s.err.Some? then LoopResult(s.pinger, [], 0, NoSignal)
      else if Blocked(p.receiverOpen, rounds[0]) then LoopResult(s.pinger, [s.ping], 1, NoSignal)
      else match Received(p.receiverOpen, rounds[0])
        case RecvError => LoopResult(s.pinger, [s.ping], 1, ChannelClosed)
        case Undecodable => LoopResult(s.pinger, [s.ping], 1, ChannelClosed)
        case Decoded(msg, _) =>
          if Matches(s.pinger, msg) then LoopResult(s.pinger, [s.ping], 1, Matched(EchoOf(msg)))
          else
            var rest := QueryLoop(s.pinger, rounds[1..]);
            QueryStep(p, rounds, rest);
            LoopResult(rest.pinger, [s.ping] + rest.pings, rest.receives + 1, rest.signal)
  }

  /** The loop started by TryQuery: ping, receive, decode, compare. A send or
      receive error closes the channel; undecodable bytes are skipped; a match
      delivers the echo and then closes the channel; a receive still blocked
      leaves the channel untouched. */
  function AsyncLoop(p: Pinger, rounds: seq<Round>): (r: LoopResult)
    ensures AsyncOutcome(p, rounds, r)
    decreases |rounds|
  {
    if rounds == [] then LoopResult(p, [], 0, NoSignal)
    else
      var s := SendPingMessage(p, rounds[0].roll, rounds[0].fate);
      if s.err.Some? then LoopResult(s.pinger, [], 0, ChannelClosed)
      else if Blocked(p.receiverOpen, rounds[0]) then LoopResult(s.pinger, [s.ping], 1, NoSignal)
      else
        var got := Received(p.receiverOpen, rounds[0]);
        if got.RecvError? then LoopResult(s.pinger, [s.ping], 1, ChannelClosed)
        else if got.Decoded? && Matches(s.pinger, got.msg) then LoopResult(s.pinger, [s.ping], 1, Matched(EchoOf(got.msg)))
        else
          var rest := AsyncLoop(s.pinger, rounds[1..]);
          AsyncStep(p, rounds, rest);
          LoopResult(rest.pinger, [s.ping] + rest.pings, rest.receives + 1, rest.signal)
  }

  /** The errors the caller of Query or GetResult sees. */
  datatype QueryError = QueryTimeout | GetEchoFail | GetEchoTimeout

  /** The select in Query. A loop that never signals loses to the timer;
      otherwise `timerFirst` says which of the two ready cases was taken. */
  function SelectQuery(signal: Signal, timerFirst: bool): (r: Result<Echo, QueryError>)
    ensures r.Success? <==> signal.Matched? && !timerFirst
    ensures r.Success? ==> r.value == signal.echo
    ensures r == Failure(GetEchoFail) <==> signal.ChannelClosed? && !timerFirst
    ensures r == Failure(QueryTimeout) <==> signal.NoSignal? || timerFirst
    ensures r != Failure(GetEchoTimeout)
  {
    if timerFirst || signal.NoSignal? then Failure(QueryTimeout)
    else if signal.ChannelClosed? then Failure(GetEchoFail)
    else Success(signal.echo)
  }

  /** The select in GetResult: the same race, but a timeout is reported as
      "get echo timeout" and leaves the receiver open. */
  function GetResult(signal: Signal, timerFirst: bool): (r: Result<Echo, QueryError>)
    ensures r.Success? <==> signal.Matched? && !timerFirst
    ensures r.Success? ==> r.value == signal.echo
    ensures r == Failure(GetEchoFail) <==> signal.ChannelClosed? && !timerFirst
    ensures r == Failure(GetEchoTimeout) <==> signal.NoSignal? || timerFirst
    ensures r != Failure(QueryTimeout)
  {
    if timerFirst || signal.NoSignal? then Failure(GetEchoTimeout)
    else if signal.ChannelClosed? then Failure(GetEchoFail)
    else Success(signal.echo)
  }

  /** A Query call: the caller's result, the pinger afterwards, and the pings
      that reached the wire before the select resolved. */
  datatype QueryResult = QueryResult(result: Result<Echo, QueryError>, pinger: Pinger, pings: seq<Datagram>)

  /** Synchronous query: run the loop over the rounds it starts before the
      select resolves, then race its signal against the timer. The timeout
      path closes the echo receiver. */
  function Query(p: Pinger, rounds: seq<Round>, timerFirst: bool): (r: QueryResult)
    ensures r.result.Success? ==> && 0 < |r.pings| <= |rounds|
                                  && MatchedAt(p.receiverOpen, rounds, |r.pings| - 1)
                                  && r.result.value == EchoOf(Received(p.receiverOpen, rounds[|r.pings| - 1]).msg)
                                  && r.pinger.lastPingID == rounds[|r.pings| - 1].roll
    ensures r.result.Failure? ==> r.result.error != GetEchoTimeout
    ensures r.result == Failure(QueryTimeout) ==> !r.pinger.receiverOpen
    ensures r.result != Failure(QueryTimeout) ==> r.pinger.receiverOpen == p.receiverOpen
    ensures |r.pings| <= |rounds|
    ensures forall i | 0 <= i < |r.pings| :: r.pings[i] == PingDatagram(p, rounds[i].roll)
    ensures 0 < |r.pings| && Blocked(p.receiverOpen, rounds[|r.pings| - 1]) ==>
      r.result == Failure(QueryTimeout) && r.pinger.lastPingID == rounds[|r.pings| - 1].roll
  {
    var loop := QueryLoop(p, rounds);
    var result := SelectQuery(loop.signal, timerFirst);
    var after := if result == Failure(QueryTimeout) then loop.pinger.(receiverOpen := false) else loop.pinger;
    QueryResult(result, after, loop.pings)
  }

  /** A TryQuery call: the error it returns, the pinger afterwards, the pings
      that reached the wire, and what the started loop signals. */
  datatype TryResult = TryResult(err: Option<SendError>, pinger: Pinger, pings: seq<Datagram>, signal: Signal)

  /** Asynchronous query: one ping sent at once, its failure returned to the
      caller; otherwise the asynchronous loop is started and runs over
      `rounds`. A failed first ping leaves a fresh channel that nothing will
      ever write or close. */
  function TryQuery(p: Pinger, firstRoll: Roll, firstFate: SendFate, rounds: seq<Round>): (r: TryResult)
    ensures r.err.Some? <==> firstFate.Fails?
    ensures firstFate.Fails? ==> r.err == Some(firstFate.reason) && r.pings == [] && r.signal.NoSignal?
    ensures firstFate == Delivered ==> && 1 <= |r.pings| <= |rounds| + 1
                                       && r.pings[0] == PingDatagram(p, firstRoll)
                                       && forall i | 1 <= i < |r.pings| :: r.pings[i] == PingDatagram(p, rounds[i - 1].roll)
    ensures r.signal.Matched? ==> && firstFate == Delivered
                                  && 1 < |r.pings|
                                  && MatchedAt(p.receiverOpen, rounds, |r.pings| - 2)
                                  && r.signal.echo == EchoOf(Received(p.receiverOpen, rounds[|r.pings| - 2]).msg)
                                  && r.pinger.lastPingID == rounds[|r.pings| - 2].roll
  {
    var s := SendPingMessage(p, firstRoll, firstFate);
    if s.err.Some? then TryResult(s.err, s.pinger, [], NoSignal)
    else
      var loop := AsyncLoop(s.pinger, rounds);
      TryResult(None, loop.pinger, [s.ping] + loop.pings, loop.signal)
  }
}

/** Properties relating the two matching loops and successive queries. */
module PingerLoops {
  import opened Wrappers
  import opened Wire
  import opened PingerModel

  /** Where every ping is delivered and every receive decodes, the two loops
      behave identically: the asymmetries lie only in send errors and
      undecodable bytes. */
  lemma {:induction false} LoopsAgreeWithoutNoise(p: Pinger, rounds: seq<Round>)
    requires forall i | 0 <= i < |rounds| :: rounds[i].fate == Delivered
    requires forall i | 0 <= i < |rounds| ::
      Blocked(p.receiverOpen, rounds[i]) || !Received(p.receiverOpen, rounds[i]).Undecodable?
    ensures QueryLoop(p, rounds) == AsyncLoop(p, rounds)
    decreases |rounds|
  {
    if rounds != [] {
      var s := SendPingMessage(p, rounds[0].roll, rounds[0].fate);
      assert forall i | 0 <= i < |rounds[1..]| :: rounds[1..][i] == rounds[i + 1];
      LoopsAgreeWithoutNoise(s.pinger, rounds[1..]);
    }
  }

  /** Undecodable bytes: the synchronous loop closes the channel at once,
      the asynchronous loop records the ping and carries on with the next
      round. */
  lemma UndecodableAsymmetry(p: Pinger, roll: Roll, rest: seq<Round>)
    requires p.receiverOpen
    ensures QueryLoop(p, [Round(roll, Delivered, Undecodable)] + rest).signal == ChannelClosed
    ensures var r := AsyncLoop(p, [Round(roll, Delivered, Undecodable)] + rest);
            var next := AsyncLoop(p.(lastPingID := roll), rest);
            r == LoopResult(next.pinger, [PingDatagram(p, roll)] + next.pings, next.receives + 1, next.signal)
  {
    var rounds := [Round(roll, Delivered, Undecodable)] + rest;
    assert rounds[0] == Round(roll, Delivered, Undecodable);
    assert rounds[1..] == rest;
  }

  /** A ping that fails after `k` rounds of noise: Query's loop returns
      without closing the channel, so the caller can only time out; the
      asynchronous loop closes the channel, so GetResult reports a failure
      unless its timer was first. */
  lemma {:induction false} SendErrorAsymmetry(p: Pinger, rounds: seq<Round>, k: nat, timerFirst: bool)
    requires k < |rounds| && rounds[k].fate.Fails?
    requires forall i | 0 <= i < k :: rounds[i].fate == Delivered && NoiseAt(p.receiverOpen, rounds, i)
    ensures QueryLoop(p, rounds).signal == NoSignal && QueryLoop(p, rounds).receives == k
    ensures AsyncLoop(p, rounds).signal == ChannelClosed && AsyncLoop(p, rounds).receives == k
    ensures Query(p, rounds, timerFirst).result == Failure(QueryTimeout)
    ensures GetResult(AsyncLoop(p, rounds).signal, false) == Failure(GetEchoFail)
    decreases k
  {
    if k > 0 {
      var s := SendPingMessage(p, rounds[0].roll, rounds[0].fate);
      forall i | 0 <= i < k - 1
        ensures rounds[1..][i].fate == Delivered && NoiseAt(p.receiverOpen, rounds[1..], i)
      {
        assert rounds[1..][i] == rounds[i + 1];
      }
      SendErrorAsymmetry(s.pinger, rounds[1..], k - 1, timerFirst);
    }
  }

  /** The ping TryQuery sends itself never decides the outcome: the loop
      sends a fresh ping before its first receive, so the result does not
      depend on the first ID. */
  lemma FirstPingSuperseded(p: Pinger, a: Roll, b: Roll, rounds: seq<Round>)
    ensures TryQuery(p, a, Delivered, rounds).signal == TryQuery(p, b, Delivered, rounds).signal
    ensures rounds != [] && rounds[0].fate != Fails(MarshalFailed) ==>
      TryQuery(p, a, Delivered, rounds).pinger == TryQuery(p, b, Delivered, rounds).pinger
  {
  }

  /** An echo that answers the first ping of TryQuery is taken only when the
      loop's own first ping happened to draw the same ID. */
  lemma StaleFirstEchoIgnored(p: Pinger, a: Roll, roll: Roll, msg: Message, source: string, rest: seq<Round>)
    requires p.receiverOpen && msg.id == a && roll != a
    ensures var r := TryQuery(p, a, Delivered, [Round(roll, Delivered, Decoded(msg, source))] + rest);
            r.signal == AsyncLoop(p.(lastPingID := roll), rest).signal
  {
  }

  /** A match ends Query's loop: after `k` rounds of noise, a round whose
      receive decodes to a message carrying that round's ping ID delivers
      that message's echo. */
  lemma {:induction false} MatchEndsQueryLoop(p: Pinger, rounds: seq<Round>, k: nat)
    requires k < |rounds| && rounds[k].fate == Delivered && MatchedAt(p.receiverOpen, rounds, k)
    requires forall i | 0 <= i < k :: rounds[i].fate == Delivered && NoiseAt(p.receiverOpen, rounds, i)
    ensures QueryLoop(p, rounds).receives == k + 1
    ensures QueryLoop(p, rounds).signal == Matched(EchoOf(Received(p.receiverOpen, rounds[k]).msg))
    decreases k
  {
    if k > 0 {
      var s := SendPingMessage(p, rounds[0].roll, rounds[0].fate);
      forall i | 0 <= i < k - 1
        ensures rounds[1..][i].fate == Delivered && NoiseAt(p.receiverOpen, rounds[1..], i)
      {
        assert rounds[1..][i] == rounds[i + 1];
      }
      assert rounds[1..][k - 1] == rounds[k];
      MatchEndsQueryLoop(s.pinger, rounds[1..], k - 1);
    }
  }

  /** A match ends the asynchronous loop too, after any number of rounds it
      passed over, undecodable ones included. */
  lemma {:induction false} MatchEndsAsyncLoop(p: Pinger, rounds: seq<Round>, k: nat)
    requires k < |rounds| && rounds[k].fate == Delivered && MatchedAt(p.receiverOpen, rounds, k)
    requires forall i | 0 <= i < k :: rounds[i].fate == Delivered && SkippedAt(p.receiverOpen, rounds, i)
    ensures AsyncLoop(p, rounds).receives == k + 1
    ensures AsyncLoop(p, rounds).signal == Matched(EchoOf(Received(p.receiverOpen, rounds[k]).msg))
    decreases k
  {
    if k > 0 {
      var s := SendPingMessage(p, rounds[0].roll, rounds[0].fate);
      forall i | 0 <= i < k - 1
        ensures rounds[1..][i].fate == Delivered && SkippedAt(p.receiverOpen, rounds[1..], i)
      {
        assert rounds[1..][i] == rounds[i + 1];
      }
      assert rounds[1..][k - 1] == rounds[k];
      MatchEndsAsyncLoop(s.pinger, rounds[1..], k - 1);
    }
  }

  /** The match looks at the ID alone: after any number of rounds of noise,
      a decodable message carrying the last ping's ID is taken as the echo by
      both loops, whatever its type and domain. */
  lemma MatchIgnoresTypeAndDomain(p: Pinger, rounds: seq<Round>, k: nat, msg: Message, source: string)
    requires p.receiverOpen && k < |rounds|
    requires rounds[k] == Round(rounds[k].roll, Delivered, Decoded(msg, source)) && msg.id == rounds[k].roll
    requires forall i | 0 <= i < k :: rounds[i].fate == Delivered && NoiseAt(p.receiverOpen, rounds, i)
    ensures QueryLoop(p, rounds).signal == Matched(Echo(msg.requestor, msg.services))
    ensures AsyncLoop(p, rounds).signal == Matched(Echo(msg.requestor, msg.services))
  {
    MatchEndsQueryLoop(p, rounds, k);
    MatchEndsAsyncLoop(p, rounds, k);
  }

  /** Once the receiver is closed every receive fails, so no query on that
      pinger can succeed again, synchronous or asynchronous. */
  lemma ClosedReceiverNeverSucceeds(p: Pinger, rounds: seq<Round>, firstRoll: Roll, firstFate: SendFate, timerFirst: bool)
    requires !p.receiverOpen
    ensures Query(p, rounds, timerFirst).result.Failure?
    ensures GetResult(TryQuery(p, firstRoll, firstFate, rounds).signal, timerFirst).Failure?
  {
  }

  /** Query's timeout closes the echo receiver for good: every later query
      on the same pinger fails. */
  lemma TimeoutIsPermanent(p: Pinger, rounds: seq<Round>, timerFirst: bool, later: seq<Round>, laterTimer: bool)
    requires Query(p, rounds, timerFirst).result == Failure(QueryTimeout)
    ensures Query(Query(p, rounds, timerFirst).pinger, later, laterTimer).result.Failure?
  {
  }
}
