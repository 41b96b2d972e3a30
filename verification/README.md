# A verified model of the iroh endpoint component

The component runs a QUIC endpoint over wires that come and go: a pool of relays, a UDP socket and
WebRTC data channels. One shared `State` object is changed by a pump task, by signaling sessions and
by the exported resource methods, all interleaved on one cooperative thread. This project models that
state machine, the relay client under it, and the poll virtualization with its host shim from the
wake-up experiment, and proves what holds in every run.

## How it is modelled

- `Types`, `RoutingTables`, `Connections`, `Signals`, `Endpoint`: the shared state as a value and what
  each operation does to it.
- `SharedState`: `State` as a class whose methods update its fields, each proved to do what the
  operation on values says; `drain` is its nest of polling loops.
- `System`: a bound endpoint as a transition system. Every stretch between two awaits is one step, so
  a run is any interleaving of resource calls, sessions, the pump's turn, its `select` arms and its
  teardown. `drain` is one stretch in the source; here each of its polls is a step, which only adds
  interleavings. `Invariants` states what holds, `RoutingProof`, `OutboundProof`, `InboundProof`,
  `WireProof`, `SlotProof`, `ConnProof` and `RelayProof` prove each part kept by each kind of step,
  `Safety` puts them together, and `Theorems`, `Fates` and `Draining` say what
  follows for whole runs. `ConnEffects` and `WireEffects` pin down, field by field, what single steps do.
- `TwoParty`, `Dances`, `Glare`, `GlareRuns`, `CleanDance`, `LaterDances`: two endpoints signaling to
  each other through a reliable first-in-first-out relay. `SessionViews` proves that a bound endpoint,
  seen through its slot for one peer, is such a party.
- `RelayFrames`, `RelayClient`: the relay wire format, the receive loop and the handshake.
- `StreamWrites`: writing through flow control.
- `VirtPoll`, `ShimWake`: the poll multiplexer and the arrival promises it ultimately waits on.

History that the program does not keep (what was queued, delivered, fed, granted, accepted) is
carried in the model's states so that theorems can speak about whole runs. It decides nothing.

The QUIC core is a finite tree of reactions per connection: what it will emit, and how its later
emissions depend on what is handed back to it. Every reaction is possible subject to the assumptions
below. WebRTC and websocket calls are nondeterministic outcomes.

### Assumptions

- The QUIC core gives a new connection a handle not in use, announces `Connected` at most once per
  connection, and emits finitely much between inputs.
- The `u32` counters (hosts, channel ids, relay keys) do not wrap. The wrap is written out in
  `NextU32`; every step of a run requires room for one more.
- A UDP address dialed or received from is not a stand-in. Stand-ins lie in the documentation prefix
  of RFC 3849, as `endpoint/src/endpoint_impl.rs:915-929` argues.
- QUIC packets on the relay do not begin with 0x00. Sections 17.2 and 17.3.1 of RFC 9000 set the
  fixed bit; RFC 9287 allows clearing it. The model routes by that byte as the code does, and logs as
  QUIC input what the code feeds.
- Tasks are not cancelled in the middle of an await.
- The two-party results assume both endpoints stay open with WebRTC enabled and that the relay loses
  and reorders nothing. Each session may fail at any time unless a theorem says otherwise.

### Where the code is weaker than its comments

- An offerer releases its slot before it registers its channel, so the fallback of that channel is
  the home relay and not the relay it signaled through (`SuccessMovesTheRoute` states both cases).
- A dead foreign relay leaves the pool but keeps its key, so a key returned for a URL need not be in
  the pool; datagrams queued for it are dropped. The home relay stays in the pool after it fails.
- The pump may exit by `LINGER` with connections neither drained nor failed. Waits are proved to
  resolve after the endpoint is dead, not after it is merely closed.
- A relay open that completes after the pump has exited is registered and never armed.
- Signals carry no session number. A session can conclude on the tail of an earlier session's script
  (`StaleTailMisleads`). `RegistersOnWholeScriptIff` says exactly when it heard one whole script.
- A glare does not always fail both dances. Signals of an earlier session still to come can decide
  one: its tail concludes an offerer (`StaleTailRegisters`), or its offer forces an offerer out, whose
  side then answers the live offer (`StaleOfferRegisters`); an offer can also be lost behind 64 unread
  signals. `GlareFailsIff` gives the exact condition. A session that gives up unforced, before the
  other's offer has come, may also go on to answer it (`EarlyExitRegisters`).
- `receive(max)` on 32-bit targets takes `max` modulo 2^32, so it may return fewer datagrams than
  asked for; `VirtPoll.Virt.Receive` says exactly when.

## Model

| member | source | states |
|---|---|---|
| Types.StandinDecodes | endpoint/src/endpoint_impl.rs:915-929 | Stand-in addresses determine the host number they were made from, so distinct numbers give distinct addresses. |
| RoutingTables.MentionKeeps | endpoint/src/endpoint_impl.rs:230-240 | A first mention keeps the peer/address bijection and every earlier assignment. |
| RoutingTables.MentionRoutes | endpoint/src/endpoint_impl.rs:230-240 | A peer mentioned for the first time is routed to the relay it was seen through; a known peer's route and every other route stay. |
| RoutingTables.RegisterInOrder | endpoint/src/endpoint_impl.rs:306-321 | Inserting the channel before assigning the address gives the same tables as the other order. |
| RoutingTables.RetireRestores | endpoint/src/endpoint_impl.rs:325-336 | Retiring a channel gives exactly the routes that named it to its own fallback relay and leaves all others. |
| RoutingTables.ChannelRouteLeaves | endpoint/src/endpoint_impl.rs:297-336 | No table operation takes a route off a channel but a younger channel of the same peer or that channel's retirement. |
| Connections.TakeEventCounts | endpoint/src/endpoint_impl.rs:523-597 | Handling an application event accounts for every event, handshake and transmit still to come, including those of the close it may cause. |
| Signals.PublishKeepsScript | endpoint/src/webrtc.rs:170-199 | Publishing in the order of the code never leaves (Offer or Answer) Candidate* EndOfCandidates Done. |
| Endpoint.NormalizeIsTheBase | endpoint/src/endpoint_impl.rs:932-934 | The normal form of a relay URL is the one string without a trailing slash that the URL extends by slashes only. |
| SharedState.RecordEvent | endpoint/src/endpoint_impl.rs:523-597 | `on_event` in place: a connection surfaces only as an identity it may have, a mismatch fails it, opened streams queue by direction, a loss is recorded as closed or as an error. |
| SharedState.State.AddrForPeer | endpoint/src/endpoint_impl.rs:230-240 | The peer's stand-in, assigned on first mention and then routed to `via`; the tables stay a bijection and no other route changes. |
| SharedState.State.RegisterRelay | endpoint/src/endpoint_impl.rs:244-251 | The relay gets the next key, enters the pool and waits to be armed. |
| SharedState.State.BeginSignaling | endpoint/src/endpoint_impl.rs:261-269 | The slot is claimed exactly if it was free; a refusal changes nothing. |
| SharedState.State.EndSignaling | endpoint/src/endpoint_impl.rs:272-275 | The slot and its unread signals go, nothing else. |
| SharedState.State.PopSignalInbox | endpoint/src/endpoint_impl.rs:289-291 | The oldest unread signal of that peer, if any. |
| SharedState.State.RegisterChannel | endpoint/src/endpoint_impl.rs:297-321 | A live endpoint registers the channel and moves the peer's route onto it; a closing one refuses, changes nothing and closes the wire. |
| SharedState.State.RetireChannel | endpoint/src/endpoint_impl.rs:325-336 | The channel goes and its route falls back; an unknown id changes nothing. |
| SharedState.State.MarkDead | endpoint/src/endpoint_impl.rs:338-345 | Every connection without an error gets one; earlier errors stay. |
| SharedState.State.PushResponse | endpoint/src/endpoint_impl.rs:485-496 | The response is queued on the one queue its address and source select. |
| SharedState.State.HandleDatagram | endpoint/src/endpoint_impl.rs:443-480 | Each verdict of the QUIC core feeds one connection, opens one that expects the sender's key, or queues one response, and nothing once closed where the code says so. |
| SharedState.State.HandleRelayDatagram | endpoint/src/endpoint_impl.rs:418-421 | A relayed datagram enters under its sender's stand-in. |
| SharedState.State.HandleChannelDatagram | endpoint/src/endpoint_impl.rs:431-441 | A channel's datagram enters under the same stand-in; one of a retired channel is dropped. |
| SharedState.State.HandleSignal | endpoint/src/endpoint_impl.rs:870-894 | Exactly an open endpoint with WebRTC enabled files the signal, up to 64, and calls for an answerer exactly when the slot was free; any other changes nothing. |
| SharedState.State.FeedEach | endpoint/src/endpoint_impl.rs:498-509 | Every connection with a due timeout is fed its reaction, each once. |
| SharedState.State.Close | endpoint/src/endpoint_impl.rs:1283-1290 | Closing closes every connection neither failed nor drained, once. |
| SharedState.State.PollAccept | endpoint/src/endpoint_impl.rs:1266-1276 | The oldest surfaced handle, also of a closing endpoint; with none, a refusal if closed or dead and else a wait. |
| SharedState.State.ClaimRelay | endpoint/src/endpoint_impl.rs:997-1008 | A known URL gives its key, a closing endpoint refuses, and otherwise exactly the first caller opens while others wait. |
| SharedState.State.FinishRelay | endpoint/src/endpoint_impl.rs:1010-1016 | The claim ends either way; success puts the relay into the pool under the next key, waiting to be armed. |
| SharedState.State.Dial | endpoint/src/endpoint_impl.rs:1216-1246 | The synchronous block of `connect`: address, route, entry and upgrade request. |
| SharedState.State.PointRoute | endpoint/src/endpoint_impl.rs:1224-1231 | A dial moves a relay route and never demotes a channel route. |
| SharedState.State.Drain | endpoint/src/endpoint_impl.rs:349-416 | For any iteration order, the loops end with every connection quiescent, by a sequence of polls whose effect is the new state. |
| OutboundProof.ResponseIsEnqueue | endpoint/src/endpoint_impl.rs:485-496 | A response takes the wire and the peer that a transmit to the same address would take. |
| InboundProof.MentionNumbers | endpoint/src/endpoint_impl.rs:230-240 | A mention gives a peer the address that a reference numbering peers by first mention gives it. |
| Safety.StepIsSafe | endpoint/src/endpoint_impl.rs:606-806 | Every step of the pump, the sessions and the resource methods keeps the whole invariant. |
| Safety.RunIsSafe | endpoint/src/endpoint_impl.rs:606-806 | Hence every run does. |
| Theorems.RoutingHolds | endpoint/src/endpoint_impl.rs:230-336 | In every reachable state peers and stand-ins are in bijection, exactly the stand-ins are routed, and a channel route names a live channel of that peer; so the map index in `drain` never fails. |
| Theorems.KeysWereHandedOut | endpoint/src/endpoint_impl.rs:244-251 | Every relay key in a route, channel entry, slot, session, upgrade or grant is below the next key. |
| Theorems.DeliveriesReachTheirPeer | endpoint/src/endpoint_impl.rs:614-662 | Every datagram handed to a relay or channel is one that was queued, unaltered, over the wire then chosen, to the peer whose stand-in was addressed; none twice, and in queue order per kind of wire. |
| Fates.NothingVanishes | endpoint/src/endpoint_impl.rs:614-662 | Every datagram queued for a relay or a channel waits in its queue, was delivered, or its wire has left the pool or registry for good. |
| Theorems.StandinsAreForever | endpoint/src/endpoint_impl.rs:230-240 | Over any run a stand-in stays its peer's. |
| Theorems.WireChangesAreInvisible | endpoint/src/endpoint_impl.rs:418-441 | The QUIC core's inputs (address, attributed source, payload) are those of a reference endpoint that knows no wires and numbers peers by first mention. |
| Theorems.InputsAreTheDatagrams | endpoint/src/endpoint_impl.rs:709-715 | Over any run the QUIC core is fed exactly the datagrams received, once each and in order, but for relayed ones that begin with 0x00 and those of retired channels. |
| Theorems.StepOnChannelRoute | endpoint/src/endpoint_impl.rs:297-336 | A step keeps a channel route, moves it to a younger channel, or is that channel's failure. |
| Theorems.RelayAgainMeansChannelDeath | endpoint/src/endpoint_impl.rs:1366-1383 | Over any run a path goes from webrtc to relay only if in between a channel failed while carrying that very address. |
| Theorems.FailureRestoresFallback | endpoint/src/endpoint_impl.rs:759-763 | A failing channel gives its route to its own fallback and disturbs no other route. |
| Theorems.SuccessMovesTheRoute | endpoint/src/webrtc.rs:245-260 | A concluded session puts its peer on a new channel whose fallback is the session's relay for an answerer and the home relay for an offerer. |
| Theorems.DialPointsTheRoute | endpoint/src/endpoint_impl.rs:1221-1233 | Dialing over a relay points the peer's stand-in at that relay, except that a channel route stays; no other route changes. |
| Theorems.OneReceivePerWire | endpoint/src/endpoint_impl.rs:664-679 | While the endpoint lives and its receives are not yet being reaped, every registered relay and channel has exactly one pending receive and nothing else has any. |
| Theorems.ReapingCanGoOn | endpoint/src/endpoint_impl.rs:778-802 | Once the wires are closed, every receive still armed is on a closed wire and can resolve; with none left the pump can stop. |
| Theorems.TeardownEnds | endpoint/src/endpoint_impl.rs:794-802 | In every interleaving each round of the draining loops takes one pending receive, nothing adds one, and the pump stops after exactly as many rounds as there were receives. |
| Theorems.OneKeyPerRelay | endpoint/src/endpoint_impl.rs:997-1037 | Two callers got the same key exactly when they named the same normalized URL; keys are dense from zero. |
| Theorems.OpensAreSingleFlight | endpoint/src/endpoint_impl.rs:997-1017 | At most one open per normalized URL is in progress, and none for a URL that has a key. |
| Theorems.OneSessionPerSlot | endpoint/src/webrtc.rs:109-118 | A peer has exactly one live session if its slot is claimed and none otherwise. |
| Theorems.SessionsKeepToThemselves | endpoint/src/webrtc.rs:136-166 | A live session has read, in order, exactly what was filed since its slot was claimed but for at most 64 unread signals, and published a prefix of its script, an answerer only after an offer. |
| Theorems.ConnectedMeansAuthenticated | endpoint/src/endpoint_impl.rs:534-576 | A connected entry has a peer, the expected one if one was expected. |
| Theorems.AcceptedOnceEach | endpoint/src/endpoint_impl.rs:1266-1281 | The handles accepted so far followed by those queued are distinct and exactly the connected accepted-side ones. |
| Theorems.AcceptsInOrder | endpoint/src/endpoint_impl.rs:1266-1281 | Over any run both the accepted handles and all surfaced ones are a prefix of their later values: first surfaced, first accepted. |
| Theorems.StatesOnlyAdvance | endpoint/src/endpoint_impl.rs:1354-1364 | Over any run an entry stays and its reported state only moves Connecting, Open, Closed. |
| Theorems.StepDies | endpoint/src/endpoint_impl.rs:622-628 | A step makes the endpoint dead exactly when it is the home relay's send or receive failing; none revives it. |
| Theorems.DeadAddsNone | endpoint/src/endpoint_impl.rs:1216-1220 | A dead endpoint gets no new connection. |
| Theorems.DeathResolvesEveryWait | endpoint/src/endpoint_impl.rs:939-946 | Once the endpoint is dead every parked connect, accept, open, accept-stream, read, write, recv-datagram, wait-closed and relay-open resolves at its next poll, in every later state. |
| Theorems.DrainIsARun | endpoint/src/endpoint_impl.rs:612-613 | Any schedule of polls is a run of the pump, so the theorems on runs cover `drain`. |
| Draining.PollsConserve | endpoint/src/endpoint_impl.rs:366-410 | For any schedule of polls, transmits given plus transmits left is what each connection had, per datagram. |
| Draining.DrainGivesEverything | endpoint/src/endpoint_impl.rs:349-416 | A drain to quiescence takes out exactly what each connection was going to give. |
| Draining.DrainKeepsOrder | endpoint/src/endpoint_impl.rs:391-402 | The queues grow by exactly what was produced; each address's share goes to one queue in the order produced. |
| WireEffects.SenderIsRoutedBack | endpoint/src/endpoint_impl.rs:712-715 | In every reachable state a relayed datagram routes a sender never seen back over that relay and changes no other route. |
| WireEffects.SuccessMovesOneRoute | endpoint/src/endpoint_impl.rs:297-321 | A concluding session moves its own peer's route only, and none on a closing endpoint. |
| WireEffects.SignalIsFiled | endpoint/src/endpoint_impl.rs:870-890 | A relayed datagram that begins with 0x00 is filed behind fewer than 64 unread ones, under a claimed slot, exactly if the endpoint is open with WebRTC enabled; otherwise slots and sessions stay. |
| WireEffects.SignalStartsAnswerer | endpoint/src/endpoint_impl.rs:881-893 | A signal that finds the slot free starts a live answerer for its sender on the relay it came by. |
| WireEffects.PublishQueuesASignal | endpoint/src/webrtc.rs:122-132 | What a session publishes is queued, behind everything before it, for its peer on its own relay with 0x00 in front. |
| WireEffects.OpenedRelayIsPooled | endpoint/src/endpoint_impl.rs:1010-1016 | A relay opened is in the pool under the key its caller gets, waits to be armed, and stays in the pool over any run exactly until it fails. |
| WireEffects.HomeRelayStays | endpoint/src/endpoint_impl.rs:717-724 | The home relay is in the pool under key 0 in every run. |
| WireEffects.OpensBeginExactlyWhen | endpoint/src/endpoint_impl.rs:997-1008 | An open begins exactly for a URL with neither key nor open on an endpoint that is not closing; a known URL gives its key. |
| WireEffects.DialAsksForUpgrade | endpoint/src/endpoint_impl.rs:1240-1244 | A dial that got its connection asks for exactly the upgrade it was given. |
| WireEffects.SpawnsEachOnce | endpoint/src/endpoint_impl.rs:675-678 | Each requested upgrade becomes one offerer for its peer on its relay, in order, and nothing else is spawned. |
| WireEffects.UpgradesAreSpawned | endpoint/src/endpoint_impl.rs:675-678 | The pump's turn spawns every upgrade requested and leaves none. |
| WireEffects.ExitsExactlyWhen | endpoint/src/endpoint_impl.rs:681-696 | The pump leaves its loop exactly when dead, or closed with every connection drained or failed or the linger time passed. |
| WireEffects.FlushesRelayInOrder | endpoint/src/endpoint_impl.rs:614-632 | Flushing takes the oldest relay datagram and hands it to its relay and peer exactly if that relay is in the pool. |
| WireEffects.FlushesChannelsInOrder | endpoint/src/endpoint_impl.rs:644-662 | Flushing takes the oldest channel datagram and hands it to that channel exactly if it is still registered. |
| WireEffects.FlushesToTheEnd | endpoint/src/endpoint_impl.rs:614-662 | UDP datagrams leave oldest first, and each flush ends only with its queue empty. |
| WireEffects.ArmsEverything | endpoint/src/endpoint_impl.rs:664-679 | When a living pump goes to wait, every pool relay and every channel has exactly its one receive armed. |
| ConnEffects.NewConnectionExpects | endpoint/src/endpoint_impl.rs:454-470 | A new connection expects the key of the peer dialed or of the relay- or channel-authenticated sender, and nobody's over UDP; it starts from nothing. |
| ConnEffects.ConnectsOnlyAsExpected | endpoint/src/endpoint_impl.rs:550-573 | Over any run a connection opened for a peer connects only as that peer. |
| ConnEffects.DialOpens | endpoint/src/endpoint_impl.rs:1234-1239 | A dial that got its connection adds that one entry with the core's reaction; any other dial adds none. |
| ConnEffects.DriveReaches | endpoint/src/endpoint_impl.rs:1293-1298 | What a call makes a connection do is queued on that connection alone. |
| ConnEffects.AcceptTakesOldest | endpoint/src/endpoint_impl.rs:1266-1270 | An acceptor gets the handle that has waited longest, if any waits. |
| ConnEffects.VerdictTouchesOne | endpoint/src/endpoint_impl.rs:443-480 | A datagram's input is queued on the one connection it is for, or opens one, and touches no other. |
| ConnEffects.ResponseGoesBack | endpoint/src/endpoint_impl.rs:482-496 | The QUIC core's response to a datagram is queued for the address it came in under and for no other; a closed endpoint refuses silently. |
| ConnEffects.ClosingReaches | endpoint/src/endpoint_impl.rs:511-520 | Closing reaches each connection neither failed nor drained, once, and no other. |
| ConnEffects.TickReaches | endpoint/src/endpoint_impl.rs:498-509 | A tick reaches exactly the connections whose timers are due. |
| ConnEffects.DeathFailsWithClosed | endpoint/src/endpoint_impl.rs:338-345 | Death fails each connection not yet failed with the closed error and leaves earlier errors. |
| ConnEffects.StreamsAreConserved | endpoint/src/endpoint_impl.rs:1312-1326 | Over any run, in each direction, streams given to acceptors and those queued are those the core opened, in order. |
| ConnEffects.StateTells | endpoint/src/endpoint_impl.rs:1354-1364 | The reported state is closed exactly once failed or drained, and open exactly when connected and neither. |
| ConnEffects.WaitsExactlyWhile | endpoint/src/endpoint_impl.rs:939-946 | Each parked call waits exactly as long as it has neither a result nor a reason to give up. |
| ConnEffects.SucceedsExactlyWhen | endpoint/src/endpoint_impl.rs:1248-1281 | Each parked call succeeds exactly when its result is at hand and no error takes precedence. |
| ConnEffects.FailsAsItsConnection | endpoint/src/endpoint_impl.rs:1519-1527 | A call on a failed connection fails with its error; a read on a cleanly closed one ends. |
| TwoParty.StepKeepsPair | endpoint/src/webrtc.rs:136-166 | Published logs are rows of scripts, and a session that lost nothing was given a contiguous stretch of its peer's log. |
| SessionViews.EndpointIsADancer | endpoint/src/endpoint_impl.rs:870-894 | Every step of a bound endpoint is, for each peer's slot, nothing or one step of the two-party dance. |
| SessionViews.ChannelsComeFromConclusions | endpoint/src/webrtc.rs:245-250 | A channel appears only for a peer whose session concludes in that very step. |
| Dances.RegistersOnWholeScriptIff | endpoint/src/webrtc.rs:203-238 | In every two-party run a session that registers without loss heard a contiguous stretch up to a Done, and it is one complete script of the peer exactly when it begins with the opening owed and holds no other opening. |
| Dances.RegistersOnPickedSignals | endpoint/src/endpoint_impl.rs:885-888 | In every two-party run a session that registers, whatever its full inbox lost, heard some of what its peer published since it came in, in order, with a Done last. |
| Dances.AnswererRegistersAfterOfferAndDone | endpoint/src/webrtc.rs:322-345 | An answerer that registers heard an Offer first, no second Offer, and Done last. |
| Dances.StaleTailMisleads | endpoint/src/webrtc.rs:276-276 | A reachable state in which an offerer may conclude without having heard an answer. |
| Glare.DoomedNeverRegister | endpoint/src/webrtc.rs:218-220 | Two sides whose offerers hear an offer before any Done, or never a Done, and are to get one offer at most, register nothing in any run without a new dial in which exits ahead of the other's offers are only those the code forces. |
| GlareRuns.GlareFailsIff | endpoint/src/webrtc.rs:203-238 | From every reachable state with two offerers that have heard nothing: no such run registers a channel, exactly when for each side at most one Offer is still to come and the first Offer or Done still to come is that Offer, with fewer than 64 signals ahead of it, or neither comes. |
| GlareRuns.EarlyExitRegisters | endpoint/src/endpoint_impl.rs:881-884 | From every reachable state, a session that gives up, forced or not, while an offer of an offering peer is still to come frees its slot, and a run leads to a registration. |
| GlareRuns.StaleTailRegisters | endpoint/src/endpoint_impl.rs:885-888 | A reachable collision, with the tail of an earlier script still to come, in which one side registers. |
| GlareRuns.StaleOfferRegisters | endpoint/src/webrtc.rs:218-220 | A reachable collision, with an earlier session's Offer ahead of the live one's, in which the first forces a session out and the second is answered. |
| GlareRuns.CleanGlareHappens | endpoint/src/webrtc.rs:254-259 | A reachable collision with nothing stale on its way, in which neither side can. |
| CleanDance.ConcludesOnWholeScript | endpoint/src/webrtc.rs:203-238 | In an undisturbed dance a session concludes having heard all its peer published, with nothing of it left behind. |
| LaterDances.CleanDanceLosesNothing | endpoint/src/endpoint_impl.rs:885-888 | Whatever went before, once both sides are at rest and one dials: in every undisturbed run within the 64-signal cap, what is published is heard, unread and in flight, in that order; a side that registered consumed through the peer's Done. |
| LaterDances.CleanDanceCanFinish | endpoint/src/webrtc.rs:254-276 | From every state of such a run with room within the cap, both sides can still register. |
| RelayFrames.SplitTag | core/src/relay_frames.rs:42-53 | The frame type and the rest; the accumulating shift never overflows 64 bits, and at most eight bytes are consumed. |
| RelayFrames.SplitInvertsEncode | core/src/relay_frames.rs:42-53 | Splitting inverts the varint encoding of section 16 of RFC 9000 for every value at every admissible length. |
| RelayFrames.EncodeInvertsSplit | core/src/relay_frames.rs:42-53 | Every frame that splits is its type encoded at its own length followed by its payload. |
| RelayFrames.EncodeClientDatagram | core/src/relay_frames.rs:63-70 | The frame splits into the client datagram type and destination, ECN 0 and payload. |
| RelayFrames.EncodePong | core/src/relay_frames.rs:98-103 | The frame splits into the pong type and the eight bytes echoed. |
| RelayFrames.ChunksAreCuts | core/src/relay_frames.rs:115-123 | A batch's segments concatenate to its contents; all have the segment size but possibly a shorter, non-empty last one. |
| RelayFrames.CutsAreChunks | core/src/relay_frames.rs:115-123 | No other cutting fits: well-cut segments come back as they were. |
| RelayFrames.RelayRoundTrip | core/src/relay_frames.rs:107-132 | A client datagram forwarded by an ideal relay decodes to its sender and its payload. |
| RelayFrames.BatchRoundTrip | core/src/relay_frames.rs:107-124 | A batch of well-cut segments decodes to those segments, each from the batch's source. |
| RelayFrames.DecodeRefuses | core/src/relay_frames.rs:107-132 | Exactly payloads too short for their header, or with segment size zero, do not decode. |
| RelayClient.RelayConn.RecvDatagram | core/src/relay.rs:89-123 | Delivered and pending are always the datagrams of the frames received, in order; an error surfaces only when all of them were delivered. |
| RelayClient.RelayConn.DeliveredIsPrefix | core/src/relay.rs:89-123 | What was delivered is at all times a prefix of the stream the socket carries. |
| RelayClient.ReadEvent | core/src/relay.rs:94-121 | One frame gives its datagrams, or the pong for an eight-byte ping, or an error when receiving or the pong fails. |
| RelayClient.SingleFrameMeans | core/src/relay.rs:99-109 | A frame of type 6 is one datagram of its sender with all the rest as payload. |
| RelayClient.BatchFrameMeans | core/src/relay.rs:103-109 | A frame of type 7 is one datagram per segment, in order, all of its sender. |
| RelayClient.OtherFramesMean | core/src/relay.rs:110-121 | No other type carries a datagram, and only type 9 with eight bytes is a ping. |
| RelayClient.PingIsAnswered | core/src/relay.rs:110-117 | A ping is answered with a pong of type 10 and the same bytes, and ends the stream if that cannot be sent. |
| RelayClient.NothingElseIsAnswered | core/src/relay.rs:110-121 | No other frame is answered or ends the stream; a failing socket does. |
| RelayClient.StreamIsWhatWasSent | core/src/relay.rs:79-123 | End to end through an ideal relay, the stream received is the datagrams sent, each from its sender, in order. |
| RelayClient.AuthFrameMeans | core/src/relay_frames.rs:84-95 | The authentication frame is of type 1 with key, length and signature in that order. |
| RelayClient.HandshakeFramesMean | core/src/relay.rs:44-69 | A challenge is type 0 with sixteen bytes, a confirmation type 2, and nothing else lets the handshake go on. |
| RelayClient.Handshake | core/src/relay.rs:36-70 | Authentication succeeds exactly when a confirmation comes after only text messages and answered challenges; one reply per challenge. |
| StreamWrites.WritePoll | endpoint/src/endpoint_impl.rs:1485-1508 | One poll hands on the bytes from where the last one stopped, without gap or repeat, until the stream stalls, fails or has it all; the result says which, and the loop ends for any answers. |
| StreamWrites.WriteAll | endpoint/src/endpoint_impl.rs:1478-1510 | Over any polls the stream got exactly a prefix of the input, all of it on success; and the call succeeds whenever the core comes to take it all within those polls. |
| StreamWrites.WriteViaStream | endpoint/src/endpoint_impl.rs:1576-1588 | The stream is finished only after the concatenation of the chunks went out, otherwise a prefix of it did; with a stream that keeps taking, it is finished. |
| VirtPoll.Virt.Drain | experiments/udp-wake/virt/src/lib.rs:67-72 | The source's datagrams move to the end of one socket's queue, in order, and nothing is lost. |
| VirtPoll.Virt.HasData | experiments/udp-wake/virt/src/lib.rs:73-78 | True exactly if the socket or the source held something; a false answer means the source is empty. |
| VirtPoll.Virt.Receive | experiments/udp-wake/virt/src/lib.rs:408-421 | A prefix of what waited, never more than asked for; as many as possible exactly if `max` is below 2^32 or what waited fits its remainder. |
| VirtPoll.OneSocketInOrder | experiments/udp-wake/virt/src/lib.rs:55-79 | With one socket, all that arrived was received, is queued or waits in the source, in that order. |
| VirtPoll.Virt.LocalPass | experiments/udp-wake/virt/src/lib.rs:141-150 | The first pass lists exactly the locally ready entries. |
| VirtPoll.HostRefs | experiments/udp-wake/virt/src/lib.rs:154-169 | The host list and its back map cover exactly the entries that have a host counterpart; the always-ready arm is dead. |
| VirtPoll.FiredPass | experiments/udp-wake/virt/src/lib.rs:176-188 | Of the entries that fired exactly the ready ones are returned, over a level-triggered source at least one; the unreachable arm is dead. |
| VirtPoll.Poll | experiments/udp-wake/virt/src/lib.rs:138-194 | A panic exactly on lists that can never be ready; otherwise non-empty, in-range, ready indices, or suspension only after asking the host; over a level-triggered source at most one wait on it. |
| ShimWake.Arrivals.Inject | experiments/udp-wake/host/shim.mjs:41-53 | An arrival is queued, resolves the promise every waiter holds, and arms a new one; without a bound socket it is refused and nothing changes. |
| ShimWake.Arrivals.Take | experiments/udp-wake/host/shim.mjs:253-256 | Up to so many from the front, in order; nothing is lost. |
| ShimWake.Arrivals.WaitPromise | experiments/udp-wake/host/shim.mjs:257-263 | A waiter gets the pending promise; no promise handed out stays pending while the queue holds something. |
| ShimWake.ReadyIndices | experiments/udp-wake/host/shim.mjs:91-95 | All ready indices, only those, in order. |
| ShimWake.NoLostWakeup | experiments/udp-wake/host/shim.mjs:88-99 | In every interleaving a parked poll with a non-empty queue waits on a resolved promise and, resumed, returns that entry. |
| ShimWake.ParkedPollsSleep | experiments/udp-wake/host/shim.mjs:88-99 | A poll with something ready returns exactly that; any other parks on no resolved promise, so only a later arrival or timer resumes it. |
| ShimWake.TimersAreOnTime | experiments/udp-wake/host/shim.mjs:106-115 | In every run a poll that returned named exactly the timers whose deadline had come. |
| ShimWake.DueTimerResumes | experiments/udp-wake/host/shim.mjs:106-115 | A parked poll whose due timer fires resumes and returns that entry. |
| ShimWake.StepKeepsQueue | experiments/udp-wake/host/shim.mjs:411-442 | Arrivals go to the back of their queue and what is taken comes from the front; nothing else moves. |

## Left out

- QUIC, TLS and cryptography inside noq, rustls, blake3 and Ed25519: outcomes only.
- JSON and postcard encodings, SDP and ICE contents: opaque values; a signal either decodes or does not.
- UDP socket I/O, the self-wake datagram, and the UDP and tick futures of the teardown.
- The async runtime: tasks are steps of `System`, not coroutines; wake-up times and deadlines are nondeterministic choices.
- Wires as objects: a relay connection is identified with its key and a channel with its id, so closing a wire is a set of closed ids.
- Real-time liveness: `LINGER`, signaling deadlines and sleeping quanta; redials to a dead foreign relay.
- Binding a socket in the shim: whether it is bound is a flag.
- `read_some`, `send_datagram`, `finish`, `reset`, `stop`, ALPN and option parsing: thin wrappers over the core.
- `relay_url` and the denial reason of the handshake: string formatting.
- `VPollable::ready` and `block`, stdio, clocks and TCP stubs of the virtualization layer: thin wrappers.
- The guests, demo components and host drivers: they use the core without adding to it.
- VirtPoll.Poll: does not model the `u32` cast of indices, because a list on a 32-bit target is shorter than that.
- VirtPoll.Virt.HostPoll: a host that would return something not ready is taken not to return.
- StreamWrites.WriteAll: models the polls a call gets as a finite list; a call that is polled forever is covered by every prefix of it.
- ShimWake.ReadyIndices: sleeping and racing in `pollList` are steps of the transition system, because a method cannot suspend.
