# sonar: multicast service discovery, modelled in Dafny

This project models the decision logic of the sonar discovery protocol.
A **listener** advertises a list of services. It answers each **ping** of its
own domain with an **echo** that carries the ping's ID, the pinger's IP
address and the service list. A **pinger** multicasts pings and waits for the
echo whose ID equals the ID of its most recent ping. It waits either
synchronously (`Query`) or asynchronously (`TryQuery`, then `GetResult`).

Sockets, the JSON codec, goroutines, timers and the random generator are not
modelled as code. They become inputs of pure functions:

- a constructor step that fails is an element of a `set<SetupStep>`;
- what happens to each outbound message is a `SendFate`: `Delivered`, or
  `Fails(MarshalFailed | WriteFailed)`;
- what each blocking receive plus decode yields is an `Inbound`:
  `RecvError`, `Undecodable`, or `Decoded(msg, source)`. A pinger round can
  instead be `Waiting`: its ping went out, and its receive had not returned
  when the caller stopped waiting;
- each output of `Intn(0xffff)` is a `Roll`, an integer in [0, 0xffff);
- the race between the result channel and the timer is a `timerFirst`
  flag. A loop that never signals always loses to the timer.

The receive loops are recursive folds over finite sequences of these inputs.
The listener's loop consumes `Event`s. The pinger's loops consume `Round`s,
where one round is one ping followed by one receive. Each fold returns the
datagrams it sent and the signal it left: the listener's exit signal, or the
pinger's `Matched(echo) | ChannelClosed | NoSignal`.

Modules:

- `Wrappers`: `Option`, `Result`, and two small sequence helpers.
- `Wire` (define.go): `Service`, `Message`, the type tags and defaults, the
  port convention, and the abstract I/O values listed above.
- `ListenerModel` and `ListenerLoop` (listener.go).
- `PingerModel` and `PingerLoops` (pinger.go).
- `Discovery`: lemmas that involve both sides.

One consequence of the code is modelled explicitly. On the timeout path,
`Query` closes the pinger's echo receiver, and nothing reopens it. After that,
every receive on that pinger fails, so no later query on it can succeed
(`PingerLoops.TimeoutIsPermanent`).

Details of the Go code that are easy to misread:

- Generated ping IDs lie in [0, 65534], because `Intn(0xffff)` excludes
  0xffff. A decoded message may carry any integer ID.
- `Echo.LocalAddress` is the pinger's own address as the responding listener
  saw it: the listener copies the ping's source IP into `requestor`, and the
  pinger copies `requestor` into `LocalAddress`. The address the echo arrives
  from is ignored.
- In `Query`'s loop, a datagram that does not decode closes the channel; it
  does not trigger another ping. Only a decoded message with a different ID
  leads to another ping. In the asynchronous loop, a datagram that does not
  decode is skipped, and the next iteration sends another ping.

## Model

| member | source | states |
|---|---|---|
| Wire.Defaults | define.go:18-27 | The ping tag is 0 and the echo tag is 1, and the two differ. The default domain is "nano", the group is 224.0.0.226, the ping port is 5599 and the echo port is 5598. The buffer size `8 << 10` is 8192. |
| Wire.PortsDistinct | listener.go:21-25 | For any group, pings go to the group port and echoes to the port one below it, so the two never share a port. |
| Wire.FirstFailing | listener.go:21-40 | A constructor stops at the first socket-layer step that fails and reports that step. It succeeds exactly when no step in its order fails. |
| Wire.WireFields | define.go:10-16 | A marshalled message always has `type` and `id`, and has nothing else besides `domain`, `requestor` and `services`. Each of those three is present iff its value is not empty. |
| ListenerModel.CreateListener | listener.go:20-43 | Succeeds iff none of its five setup steps fails. Otherwise it reports the earliest failing step, and group-port resolution is checked first. A new listener listens on the group port, sends echoes to group port minus 1, has an empty service list, and uses an 8192-byte read buffer. |
| ListenerModel.AddService | listener.go:45-48 | Appends exactly one record with the given four fields at the end. Earlier services and all other state are unchanged, and the returned error is always nil. |
| ListenerModel.AddServicesAppends | listener.go:45-48 | After any sequence of AddService calls, the service list is the old list followed by the added records in call order. Nothing else changes. |
| ListenerModel.HandlePingRequest | listener.go:92-109 | An echo goes out iff the message is a ping of the listener's domain and its echo is delivered. A wrong type is reported as a type error even when the domain is also wrong, so the type check comes first. A ping of another domain is reported as a domain error. The echo goes to the pinger address and carries the echo tag, the ping's ID, the source IP as requestor, the current service list, and no domain field. |
| ListenerModel.EchoesOf | listener.go:73-87 | One loop iteration sends at most one echo, and sends one exactly when the datagram decodes to an accepted ping whose echo is delivered. That echo answers the iteration's own message. |
| ListenerModel.Routine | listener.go:61-90 | The exit channel is signalled at most once. There are never more echoes than events. Every echo goes to the pinger address with the echo tag and the listener's services. |
| ListenerLoop.RoutineExitsIffReceiveFails | listener.go:66-73 | A receive error is the only exit: the exit channel is signalled iff some receive failed. |
| ListenerLoop.RoutineAppend | listener.go:66-88 | The loop keeps no state between iterations. Once a receive has failed, later events change nothing. Before that, the echoes of consecutive stretches of events are concatenated in order. |
| ListenerLoop.UndecodableSkipped | listener.go:75-80 | A datagram that does not decode produces no echo, and the loop continues with the next event. |
| ListenerLoop.UnansweredSkipped | listener.go:81-87 | A rejected message, or an echo that fails to marshal or send, produces no echo and never ends the loop. |
| ListenerLoop.AnsweredEchoed | listener.go:81-87 | An accepted ping whose echo is delivered adds exactly that echo, ahead of everything later, and does not affect the exit signal. |
| ListenerLoop.RoutineStopsAtFirstError | listener.go:66-73 | With a receive error present, the result depends only on the events up to and including the first one, and exit is signalled. |
| ListenerLoop.RoutineEchoCount | listener.go:66-89 | The number of echoes equals the number of events before the first receive error that decode, are accepted, and have their echo delivered. |
| ListenerLoop.RoutineEchoesAnswerPings | listener.go:92-105 | Each echo answers an accepted ping received before the first receive error. It carries that ping's ID and that ping's source as requestor. |
| ListenerLoop.StopSignalsExit | listener.go:55-59 | Closing the receive socket makes the next receive fail, so the exit signal that Stop waits for is sent, whatever came before. |
| PingerModel.CreatePinger | pinger.go:27-47 | Succeeds iff none of its four setup steps fails. Otherwise it reports the earliest failing step, and echo-port resolution is checked first. A new pinger sends pings to the group port, receives on group port minus 1, starts with last ID 0, and has its receiver open. |
| PingerModel.SendPingMessage | pinger.go:141-153 | The ping carries the ping tag, the pinger's domain and the fresh ID, which lies in [0, 0xffff). It goes to the group port, and its wire form has at most type, id and domain. The error is nil iff the message is delivered. After a write failure the last ping ID is still the new ID. After a marshal failure the pinger is unchanged. |
| PingerModel.QueryLoop | pinger.go:51-74 | One delivered ping goes out before every receive, so pings sent equal receives started, and ping i carries round i's ID. Every round before the last one started received a decoded message with a different ID. A match means the last round decoded a message whose ID equals that round's ping ID; the echo then holds the message's requestor and services, and the last ping ID is that ID. A closed channel means the last receive failed or did not decode. No signal means the last receive is still blocked, with its ping's ID recorded, or, after noise only, the next send failed or the rounds ran out. |
| PingerModel.AsyncLoop | pinger.go:100-122 | Same delivered-ping-before-receive and ID-matching guarantees as the synchronous loop. Earlier rounds may also have been undecodable, because those are skipped. The channel is closed after a receive error, or after a send failure that follows skipped rounds only. No signal means the last receive is still blocked, or every round was skipped and the rounds ran out. |
| PingerModel.SelectQuery | pinger.go:75-87 | Query has exactly three outcomes. A value received before the timer gives success with that echo. A closed channel before the timer gives "get echo fail". Otherwise, including when the loop never signals, the result is "query timeout". |
| PingerModel.GetResult | pinger.go:125-139 | The same three outcomes, except that the timer gives "get echo timeout" and never "query timeout". |
| PingerModel.Query | pinger.go:49-88 | A success is the echo of the round that matched its own ping, and that round's ID becomes the last ping ID. Query never reports "get echo timeout". A timeout leaves the receiver closed; any other outcome leaves it as it was. Pings go out in round order. A receive still blocked when the select resolves means a timeout, with that round's ping sent and its ID recorded. |
| PingerModel.TryQuery | pinger.go:91-98 | A failed first ping is returned to the caller, no loop starts, and the channel never gets a value. Otherwise the first ping is followed by the loop's pings. A match always comes from a later round's own ping, never from the first ping. |
| PingerLoops.LoopsAgreeWithoutNoise | pinger.go:53-121 | When every ping is delivered and every receive decodes, the synchronous and asynchronous loops give identical results. |
| PingerLoops.UndecodableAsymmetry | pinger.go:63-114 | A datagram that does not decode closes the synchronous loop's channel. The asynchronous loop skips it and continues, having sent one more ping. |
| PingerLoops.SendErrorAsymmetry | pinger.go:54-106 | When a send fails after any number of rounds of noise, Query can only report "query timeout", because its loop returns without closing the channel. The asynchronous loop closes the channel, so GetResult reports "get echo fail". Both loops stop at that round. |
| PingerLoops.FirstPingSuperseded | pinger.go:91-106 | The ID of TryQuery's own ping never affects the outcome, because the loop sends a fresh ping before its first receive. |
| PingerLoops.StaleFirstEchoIgnored | pinger.go:91-117 | An echo carrying the ID of TryQuery's first ping is treated as noise when the loop's newer ping has a different ID. |
| PingerLoops.MatchEndsQueryLoop | pinger.go:53-72 | After any number of delivered rounds of noise, a delivered round whose receive decodes to a message with that round's ping ID ends Query's loop there, with that message's echo. |
| PingerLoops.MatchEndsAsyncLoop | pinger.go:102-120 | After any number of delivered rounds that the asynchronous loop passes over, undecodable ones included, a matching round ends it there with that message's echo. |
| PingerLoops.MatchIgnoresTypeAndDomain | pinger.go:67-70 | After any number of rounds of noise, any decoded message whose ID equals the last ping ID matches in both loops, whatever its type and domain. The echo then carries its requestor and services. |
| PingerLoops.ClosedReceiverNeverSucceeds | pinger.go:77-80 | With the receiver closed, neither Query nor TryQuery followed by GetResult can succeed. |
| PingerLoops.TimeoutIsPermanent | pinger.go:77-80 | After one Query times out, every later Query on the same pinger fails. |
| Discovery.CreatedPeersAreWired | pinger.go:27-33 | For the same group, a pinger sends to the port the listener listens on, and the listener sends echoes to the port the pinger receives on. |
| Discovery.EchoAnswersPing | listener.go:92-109 | A same-domain listener answers the pinger's ping. That echo matches in both pinger loops, and Query returns the sender's IP and the listener's services. |
| Discovery.ForeignDomainNeverAnswered | listener.go:96-98 | A listener never answers a pinger of another domain, and reports a domain error. |
| Discovery.AdvertisedInOrder | listener.go:45-47 | Services added before the listener starts appear in its echo in the order they were added, after any added earlier. |
| Discovery.NanoScenario | listener.go:99-105 | A "nano" listener with one gRPC service answers a "nano" pinger. The pinger's Query returns that service and the pinger's own IP as the listener saw it; the echo's source address plays no part. |
| Discovery.OtherDomainScenario | listener.go:96-98 | A "nano" listener sends nothing to an "other" pinger, so that pinger's receive stays blocked. Its Query times out with the ping sent, its ID recorded and the receiver closed. |
| Discovery.MalformedThenPingScenario | listener.go:75-87 | Malformed bytes are dropped, and the next valid ping is still answered. |

## Left out

- Socket I/O is not modelled: address resolution, multicast join, `SetReadBuffer`, `WriteToUDP` and `ReadFromUDP`. Its outcomes appear only as `SetupStep`, `SendFate` and `Inbound` values. Which addresses or ports the operating system refuses is therefore an input, not computed.
- JSON encoding and decoding belong to a foreign library. A decode is its result (`Undecodable` or `Decoded`). A marshal failure is a `SendFate`, even though the fixed schema never makes `json.Marshal` fail. No encode/decode round trip is stated.
- Goroutines, channel blocking and timers are not modelled, and neither are real durations. Each query is given the rounds its loop starts before the select resolves, the last of which may be `Waiting`, plus the `timerFirst` flag. Whatever the background loop does after the caller has returned is not modelled, including the goroutine that stays blocked on an unread result.
- `Start` only launches the receive loop; the loop is `Routine`. `Stop` is modelled as a final receive error (`StopSignalsExit`).
- The listener's `listenInterface` argument only chooses the network interface for the multicast join, so it is not modelled.
- The data race on the `err` variable that Query's goroutine captures is not modelled.
- PingerModel.Query: the goroutine fills Query's named result `echo` before it sends on the channel. The timeout path returns that same variable, so a match that loses the race to the timer comes back filled in, next to "query timeout". `Result<Echo, QueryError>` keeps either the echo or the error, so that echo is dropped.
- `math/rand` and its time-based seed are replaced by the `Roll` inputs.
- Logging gated by `OutputLog` is diagnostics only and is not modelled.
- Integer widths: `Message.id` and ports are unbounded integers. Generated IDs are below 0xffff, and IDs are only compared, so no wrap-around can occur.
