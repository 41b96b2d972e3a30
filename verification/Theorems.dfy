/** What the invariant means, stated over whole runs of a bound endpoint. */
module Theorems {
  import opened Types
  import opened RoutingTables
  import opened Connections
  import opened Signals
  import opened Endpoint
  import opened System
  import opened Invariants
  import opened RoutingProof
  import opened WireProof
  import opened ConnProof
  import opened Safety
  import opened Draining

  /** A state some run of a freshly bound endpoint leads to. */
  ghost predicate Reachable(s: Sys) {
    exists homeUrl: string, webrtcEnabled: bool, steps: seq<Step> ::
      ValidRun(Init(homeUrl, webrtcEnabled), steps) && After(Init(homeUrl, webrtcEnabled), steps) == s
  }

  lemma ReachableIsSafe(s: Sys)
    requires Reachable(s)
    ensures Inv(s)
  {
    var homeUrl, webrtcEnabled, steps :|
      ValidRun(Init(homeUrl, webrtcEnabled), steps) && After(Init(homeUrl, webrtcEnabled), steps) == s;
    InitIsSafe(homeUrl, webrtcEnabled);
    RunIsSafe(Init(homeUrl, webrtcEnabled), steps);
  }

  /** Stand-ins and peers are in bijection, exactly the stand-ins are routed, and channel routes are live. */
  lemma RoutingHolds(s: Sys)
    requires Reachable(s)
    ensures RoutingInv(s.ep.routing)
  {
    ReachableIsSafe(s);
  }

  /** Every relay key in a route, a channel entry, a slot, an upgrade or a grant was handed out. */
  lemma KeysWereHandedOut(s: Sys)
    requires Reachable(s)
    ensures RouteKeysBelow(s.ep.routing, s.ep.relays.nextKey) && TaskKeysBelow(s, s.ep.relays.nextKey)
  {
    ReachableIsSafe(s);
  }

  lemma ConnsHold(s: Sys)
    requires Reachable(s)
    ensures Surfacing(s)
  {
    ReachableIsSafe(s);
  }

  lemma DeathHolds(s: Sys)
    requires Reachable(s)
    ensures DeathInv(s.ep, s.pump.phase)
  {
    ReachableIsSafe(s);
  }

  lemma ReceivesHold(s: Sys)
    requires Reachable(s)
    ensures RelayArmInv(s.pump, s.ep.relays, s.ep.dead) && ChannelArmInv(s.pump, s.ep.routing)
  {
    ReachableIsSafe(s);
  }

  lemma SlotsHold(s: Sys)
    requires Reachable(s)
    ensures SlotInv(s.ep.slots, s.dance) && InboxInv(s.ep.slots, s.dance) && ScriptInv(s.dance)
  {
    ReachableIsSafe(s);
  }

  lemma {:induction false} RunAppends(s: Sys, steps: seq<Step>, step: Step)
    requires ValidRun(s, steps) && Enabled(After(s, steps), step)
    ensures ValidRun(s, steps + [step]) && After(s, steps + [step]) == Apply(After(s, steps), step)
    decreases |steps|
  {
    if steps != [] {
      assert (steps + [step])[1..] == steps[1..] + [step];
      RunAppends(Apply(s, steps[0]), steps[1..], step);
    } else {
      assert steps + [step] == [step] && [step][1..] == [];
    }
  }

  lemma ReachableStep(s: Sys, step: Step)
    requires Reachable(s) && Enabled(s, step)
    ensures Reachable(Apply(s, step))
  {
    var homeUrl, webrtcEnabled, steps :|
      ValidRun(Init(homeUrl, webrtcEnabled), steps) && After(Init(homeUrl, webrtcEnabled), steps) == s;
    RunAppends(Init(homeUrl, webrtcEnabled), steps, step);
  }

  lemma {:induction false} ReachableRun(s: Sys, steps: seq<Step>)
    requires Reachable(s) && ValidRun(s, steps)
    ensures Reachable(After(s, steps))
    decreases |steps|
  {
    if steps != [] {
      ReachableStep(s, steps[0]);
      ReachableRun(Apply(s, steps[0]), steps[1..]);
    }
  }

  // --- right-peer delivery ------------------------------------------------------------------------

  /**
   * Every datagram the pump handed to a relay or a channel went, unaltered, over the wire chosen
   * when it was queued, to the very peer whose stand-in the QUIC core addressed (or the session's
   * peer, for a signal); no datagram went out twice, and each kind of wire kept the queue order.
   */
  lemma DeliveriesReachTheirPeer(s: Sys)
    requires Reachable(s)
    ensures forall d :: d in s.sends.relayDelivered + s.sends.channelDelivered ==>
              Faithful(s.ep.routing, s.sends.queued, d)
    ensures forall i, j :: 0 <= i < j < |s.sends.relayDelivered| ==>
              s.sends.relayDelivered[i].index < s.sends.relayDelivered[j].index
    ensures forall i, j :: 0 <= i < j < |s.sends.channelDelivered| ==>
              s.sends.channelDelivered[i].index < s.sends.channelDelivered[j].index
    ensures forall c, d :: c in s.sends.relayDelivered && d in s.sends.channelDelivered ==> c.index != d.index
  {
    ReachableIsSafe(s);
    forall c, d | c in s.sends.relayDelivered && d in s.sends.channelDelivered ensures c.index != d.index {
      assert Faithful(s.ep.routing, s.sends.queued, c) && Faithful(s.ep.routing, s.sends.queued, d);
    }
  }

  lemma StepKeepsStandins(s: Sys, step: Step)
    requires Reachable(s) && Enabled(s, step)
    ensures AddressesKept(s.ep.routing, Apply(s, step).ep.routing)
  {
    RoutingHolds(s);
    EffectIsExact(s, step);
    OpKeepsAddresses(s.ep.routing, Effect(s, step));
  }

  /** A stand-in once assigned is the same peer's in every later state. */
  lemma {:induction false} StandinsAreForever(s: Sys, steps: seq<Step>)
    requires Reachable(s) && ValidRun(s, steps)
    ensures AddressesKept(s.ep.routing, After(s, steps).ep.routing)
    decreases |steps|
  {
    if steps != [] {
      StepKeepsStandins(s, steps[0]);
      ReachableStep(s, steps[0]);
      StandinsAreForever(Apply(s, steps[0]), steps[1..]);
    }
  }

  // --- wire changes are invisible -------------------------------------------------------------------

  /** The QUIC core's inputs are those of a reference endpoint that has never heard of wires. */
  lemma WireChangesAreInvisible(s: Sys)
    requires Reachable(s)
    ensures s.feed.inputs == ReferenceRun(s.feed.ops).inputs
    ensures forall i :: 0 <= i < |ReferenceRun(s.feed.ops).peers| ==>
              var p := ReferenceRun(s.feed.ops).peers[i];
              p in s.ep.routing.peerToAddr && s.ep.routing.peerToAddr[p] == Standin(i + 1)
  {
    ReachableIsSafe(s);
  }

  function Payloads(inputs: seq<Input>): seq<Bytes> {
    if inputs == [] then [] else Payloads(inputs[..|inputs| - 1]) + [inputs[|inputs| - 1].data]
  }

  /** The datagram a step hands to the QUIC core: no signal, and nothing of a retired channel. */
  function FedBy(s: Sys, step: Step): seq<Bytes> {
    match step
    case Select(RelayDatagram(_, _, data, _, _)) => if data != [] && data[0] == SIGNAL_PREFIX then [] else [data]
    case Select(UdpDatagram(_, data, _)) => [data]
    case Select(ChannelMessage(id, Some(data), _)) => if id in s.ep.routing.channels then [data] else []
    case _ => []
  }

  function FedByAll(s: Sys, steps: seq<Step>): seq<Bytes>
    requires ValidRun(s, steps)
    decreases |steps|
  {
    if steps == [] then [] else FedBy(s, steps[0]) + FedByAll(Apply(s, steps[0]), steps[1..])
  }

  lemma SelectFeeds(s: Sys, step: SelectStep)
    requires SelectEnabled(s, step)
    ensures var inputs, inputs' := s.feed.inputs, ApplySelect(s, step).feed.inputs; var fed := FedBy(s, Select(step));
            if fed == [] then inputs' == inputs
            else inputs' != [] && inputs'[..|inputs'| - 1] == inputs && fed == [inputs'[|inputs'| - 1].data]
  {
  }

  lemma OthersFeedNothing(s: Sys, step: Step)
    requires Enabled(s, step) && !step.Select?
    ensures Apply(s, step).feed.inputs == s.feed.inputs
  {
  }

  lemma StepFeeds(s: Sys, step: Step)
    requires Enabled(s, step)
    ensures Payloads(Apply(s, step).feed.inputs) == Payloads(s.feed.inputs) + FedBy(s, step)
  {
    if step.Select? {
      SelectFeeds(s, step.select);
    } else {
      OthersFeedNothing(s, step);
    }
  }

  /**
   * Over any run the QUIC core is fed exactly the datagrams received, each once and in order, but
   * for relayed ones that begin with 0x00 and those of channels already retired.
   */
  lemma {:induction false} InputsAreTheDatagrams(s: Sys, steps: seq<Step>)
    requires ValidRun(s, steps)
    ensures Payloads(After(s, steps).feed.inputs) == Payloads(s.feed.inputs) + FedByAll(s, steps)
    decreases |steps|
  {
    if steps != [] {
      var s1, rest := Apply(s, steps[0]), steps[1..];
      StepFeeds(s, steps[0]);
      InputsAreTheDatagrams(s1, rest);
      Associates(Payloads(s.feed.inputs), FedBy(s, steps[0]), FedByAll(s1, rest));
      assert After(s, steps) == After(s1, rest);
    }
  }

  // --- routes ---------------------------------------------------------------------------------------

  /** One step: a channel route is kept, moved to a younger channel, or given up by its own failure. */
  lemma StepOnChannelRoute(s: Sys, step: Step, a: SocketAddr)
    requires Reachable(s) && Enabled(s, step)
    requires a in s.ep.routing.routes && s.ep.routing.routes[a].Channel?
    ensures var i := s.ep.routing.routes[a].id; var r' := Apply(s, step).ep.routing;
            && a in r'.routes
            && ((r'.routes[a].Channel? && r'.routes[a].id >= i) || step == Select(ChannelFailed(i)))
  {
    RoutingHolds(s);
    EffectIsExact(s, step);
    ChannelRouteLeaves(s.ep.routing, Effect(s, step), a);
  }

  /** Somewhere in the run, the channel that then carries `a` fails. */
  ghost predicate OwnChannelDies(s: Sys, steps: seq<Step>, a: SocketAddr)
    requires ValidRun(s, steps)
    decreases |steps|
  {
    && steps != []
    && (|| (exists j :: RouteOf(s.ep.routing, a) == Some(Channel(j)) && steps[0] == Select(ChannelFailed(j)))
        || OwnChannelDies(Apply(s, steps[0]), steps[1..], a))
  }

  /**
   * An address routed over channel `i` is, after any run, still on `i` or a younger channel, unless
   * in that run a channel failed that was carrying this very address: a connection's path goes from
   * webrtc back to relay only by the death of its own channel.
   */
  lemma {:induction false} RelayAgainMeansChannelDeath(s: Sys, steps: seq<Step>, a: SocketAddr)
    requires Reachable(s) && ValidRun(s, steps)
    requires a in s.ep.routing.routes && s.ep.routing.routes[a].Channel?
    ensures var i := s.ep.routing.routes[a].id; var r := After(s, steps).ep.routing;
            OwnChannelDies(s, steps, a) || (a in r.routes && r.routes[a].Channel? && r.routes[a].id >= i)
    decreases |steps|
  {
    if steps != [] {
      var i, r' := s.ep.routing.routes[a].id, Apply(s, steps[0]).ep.routing;
      StepOnChannelRoute(s, steps[0], a);
      if r'.routes[a].Channel? && r'.routes[a].id >= i {
        ReachableStep(s, steps[0]);
        RelayAgainMeansChannelDeath(Apply(s, steps[0]), steps[1..], a);
      } else {
        assert RouteOf(s.ep.routing, a) == Some(Channel(i));
      }
    }
  }

  /** A failing channel hands its route to the relay it was registered with, and only its own route. */
  lemma FailureRestoresFallback(s: Sys, id: nat, a: SocketAddr)
    requires Reachable(s) && SelectEnabled(s, ChannelFailed(id)) && a in s.ep.routing.routes
    ensures var r, r' := s.ep.routing, ApplySelect(s, ChannelFailed(id)).ep.routing;
            && id in r.channels && id !in r'.channels && a in r'.routes
            && r'.routes[a] == if r.routes[a] == Channel(id) then Relay(r.channels[id].fallbackRelay) else r.routes[a]
  {
    RoutingHolds(s);
    ReceivesHold(s);
    SelectEffectIsExact(s, ChannelFailed(id));
    ArmedIsRegistered(s.pump.armedChannels, s.ep.routing.newChannels, s.ep.routing.channels.Keys);
    RetireRestores(s.ep.routing, id, a);
  }

  /**
   * A concluded session moves its peer's route to a new channel. If that fails, the route falls
   * back to the session's relay for an answerer, but to the home relay for an offerer.
   */
  lemma SuccessMovesTheRoute(s: Sys, i: nat)
    requires Reachable(s) && CountersInRange(s) && SessionEnabled(s, Succeed(i)) && !ClosedOrDead(s.ep)
    ensures var t := s.dance.sessions[i]; var r := ApplySession(s, Succeed(i)).ep.routing;
            var id := r.nextChannelId;
            && id == s.ep.routing.nextChannelId + 1
            && t.peer in r.peerToAddr && r.peerToAddr[t.peer] in r.routes
            && r.routes[r.peerToAddr[t.peer]] == Channel(id)
            && id in r.channels
            && r.channels[id] == ChannelEntry(t.peer, if t.role.Offerer? then HOME_RELAY else t.via)
  {
    RoutingHolds(s);
    SlotsHold(s);
    var t := s.dance.sessions[i];
    assert Owns(s.ep.slots, s.dance, i);
    SessionEffectIsExact(s, Succeed(i));
    RegisterMoves(s.ep.routing, t.peer, ChannelFallback(s, i));
  }

  /**
   * A relay dial points the peer's stand-in at the relay dialed, except that a channel route stays;
   * no other peer's route changes.
   */
  lemma DialPointsTheRoute(s: Sys, step: ApiStep, b: SocketAddr)
    requires Reachable(s) && CountersInRange(s) && ApiEnabled(s, step) && !ClosedOrDead(s.ep)
    requires step.Connect? && step.direct.None?
    ensures Pointed(s.ep.routing, ApplyApi(s, step).ep.routing, step.peer, step.dialKey, b)
  {
    RoutingHolds(s);
    ApiEffectIsExact(s, step);
    RedialPoints(s.ep.routing, step.peer, step.dialKey, b);
  }

  // --- receives -----------------------------------------------------------------------------------

  /** Until teardown, every wire has exactly one pending receive and nothing else has any. */
  lemma OneReceivePerWire(s: Sys, w: nat)
    requires Reachable(s) && !s.ep.dead && !Reaps(s.pump.phase)
    ensures s.pump.armedRelays[w] + multiset(s.ep.relays.newRelays)[w] == if w in s.ep.relays.pool then 1 else 0
    ensures s.pump.armedChannels[w] + multiset(s.ep.routing.newChannels)[w]
            == if w in s.ep.routing.channels then 1 else 0
  {
    ReceivesHold(s);
    assert (s.pump.armedRelays + multiset(s.ep.relays.newRelays))[w] == multiset(s.ep.relays.pool)[w];
    assert (s.pump.armedChannels + multiset(s.ep.routing.newChannels))[w] == multiset(s.ep.routing.channels.Keys)[w];
  }

  /** The receives the teardown still waits for. */
  function Left(p: Pump): nat {
    |p.armedRelays| + |p.armedChannels|
  }

  /** Once the wires are closed every pending receive can resolve, and with none left the pump stops. */
  lemma ReapingCanGoOn(s: Sys)
    requires Reachable(s) && CountersInRange(s) && s.pump.phase.Reaping?
    ensures forall k :: k in s.pump.armedRelays ==> Enabled(s, Teardown(ReapRelay(k)))
    ensures forall id :: id in s.pump.armedChannels ==> Enabled(s, Teardown(ReapChannel(id)))
    ensures Left(s.pump) == 0 ==> Enabled(s, Teardown(Finish))
  {
    ReceivesHold(s);
  }

  /** Past its loop, only the teardown moves the pump. */
  lemma PumpIsDone(s: Sys, step: Step)
    requires Reaps(s.pump.phase) && Enabled(s, step) && !step.Teardown?
    ensures Apply(s, step).pump == s.pump
  {
    match step
    case Api(a) => ApiKeepsPump(s, a);
    case InSession(t) => SessionKeepsRelays(s, t);
    case _ =>
  }

  lemma ApiKeepsPump(s: Sys, step: ApiStep)
    requires ApiEnabled(s, step)
    ensures ApplyApi(s, step).pump == s.pump
  {
  }

  /** Each round of the teardown takes one receive. */
  lemma OneRound(s: Sys, step: TeardownStep)
    requires s.pump.phase.Reaping? && TeardownEnabled(s, step)
    ensures var p' := ApplyTeardown(s, step).pump;
            if step.Finish? then p'.phase.Stopped? && Left(p') == Left(s.pump) == 0
            else p'.phase.Reaping? && Left(p') + 1 == Left(s.pump)
  {
  }

  /** The teardown steps of a run. */
  function Rounds(steps: seq<Step>): nat {
    if steps == [] then 0 else (if steps[0].Teardown? then 1 else 0) + Rounds(steps[1..])
  }

  lemma {:induction false} StoppedForGood(s: Sys, steps: seq<Step>)
    requires s.pump.phase.Stopped? && ValidRun(s, steps)
    ensures After(s, steps).pump == s.pump && Rounds(steps) == 0
    decreases |steps|
  {
    if steps != [] {
      assert !steps[0].Teardown?;
      PumpIsDone(s, steps[0]);
      StoppedForGood(Apply(s, steps[0]), steps[1..]);
    }
  }

  /**
   * The teardown's draining loops end in every interleaving: each round takes one pending receive,
   * nothing adds one, and the pump stops after exactly as many rounds as there were receives.
   */
  lemma {:induction false} TeardownEnds(s: Sys, steps: seq<Step>)
    requires s.pump.phase.Reaping? && ValidRun(s, steps)
    ensures var p' := After(s, steps).pump;
            || (p'.phase.Reaping? && Rounds(steps) + Left(p') == Left(s.pump))
            || (p'.phase.Stopped? && Rounds(steps) == Left(s.pump) + 1 && Left(p') == 0)
    decreases |steps|
  {
    if steps != [] {
      if steps[0].Teardown? {
        OneRound(s, steps[0].teardown);
      } else {
        PumpIsDone(s, steps[0]);
      }
      if steps[0] == Teardown(Finish) {
        StoppedForGood(Apply(s, steps[0]), steps[1..]);
      } else {
        TeardownEnds(Apply(s, steps[0]), steps[1..]);
      }
    }
  }

  // --- relay opening --------------------------------------------------------------------------------

  /** Callers of `ensure_relay` got the same key exactly when they named the same relay. */
  lemma OneKeyPerRelay(s: Sys, g: Grant, h: Grant)
    requires Reachable(s) && g in s.opens.grants && h in s.opens.grants
    ensures g.key == h.key <==> Normalize(g.url) == Normalize(h.url)
    ensures g.key < s.ep.relays.nextKey == |s.ep.relays.keys|
  {
    ReachableIsSafe(s);
  }

  /** At most one open per relay is in progress, and none for a relay that has its key. */
  lemma OpensAreSingleFlight(s: Sys, i: nat, j: nat)
    requires Reachable(s) && i in s.opens.openers && j in s.opens.openers
    ensures Normalize(s.opens.openers[i]) == Normalize(s.opens.openers[j]) <==> i == j
    ensures Normalize(s.opens.openers[i]) !in s.ep.relays.keys
  {
    ReachableIsSafe(s);
  }

  // --- sessions ---------------------------------------------------------------------------------------

  /** The sessions that hold `p`'s slot. */
  function LiveSessions(s: Sys, p: Peer): set<nat> {
    set i | i in s.dance.sessions && s.dance.sessions[i].live && s.dance.sessions[i].peer == p
  }

  /** A peer has one live session if its slot is claimed, and none otherwise. */
  lemma OneSessionPerSlot(s: Sys, p: Peer)
    requires Reachable(s)
    ensures |LiveSessions(s, p)| == if p in s.ep.slots.signaling then 1 else 0
  {
    SlotsHold(s);
    if p in s.ep.slots.signaling {
      assert Owned(s.dance, p);
      forall i | i in LiveSessions(s, p) ensures i == s.dance.owner[p] {
        assert Owns(s.ep.slots, s.dance, i);
      }
      assert LiveSessions(s, p) == {s.dance.owner[p]};
    } else {
      forall i | i in s.dance.sessions && s.dance.sessions[i].live ensures s.dance.sessions[i].peer != p {
        assert Owns(s.ep.slots, s.dance, i);
      }
      assert LiveSessions(s, p) == {};
    }
  }

  /**
   * A live session has read exactly the signals filed since its slot was claimed, but for those
   * still unread; it published a prefix of its script, always inside its slot.
   */
  lemma SessionsKeepToThemselves(s: Sys, i: nat)
    requires Reachable(s) && i in s.dance.sessions && s.dance.sessions[i].live
    ensures var t := s.dance.sessions[i];
            && t.filed == t.got + InboxOf(s.ep.slots, t.peer) && |InboxOf(s.ep.slots, t.peer)| <= INBOX_CAP
            && Script(t.role, t.sent)
            && t.peer in s.ep.slots.signaling && s.ep.slots.signaling[t.peer] == t.via
            && (t.role.Answerer? && t.sent != [] ==> Heard(t.got) != [] && Heard(t.got)[0].Offer?)
  {
    SlotsHold(s);
    assert Owns(s.ep.slots, s.dance, i);
    assert ReadsItsOwn(s.dance.sessions[i], InboxOf(s.ep.slots, s.dance.sessions[i].peer));
    assert InStep(s.dance.sessions[i]);
  }

  // --- connections ------------------------------------------------------------------------------------

  /** A connected entry is authenticated, as the expected identity if one was expected. */
  lemma ConnectedMeansAuthenticated(s: Sys, h: Handle)
    requires Reachable(s) && h in s.ep.conns && s.ep.conns[h].connected
    ensures s.ep.conns[h].peer.Some?
    ensures s.ep.conns[h].expectedPeer.Some? ==> s.ep.conns[h].peer == s.ep.conns[h].expectedPeer
  {
    ConnsHold(s);
  }

  /** Each surfaced handle goes to one acceptor: exactly the connected accepted-side ones surface. */
  lemma AcceptedOnceEach(s: Sys)
    requires Reachable(s)
    ensures Distinct(Surfaced(s))
    ensures forall h :: h in Surfaced(s) <==> h in s.ep.conns && s.ep.conns[h].acceptedSide && s.ep.conns[h].connected
  {
    ConnsHold(s);
  }

  function Surfaced(s: Sys): seq<Handle> {
    s.feed.accepted + s.ep.acceptQueue
  }

  lemma StepSurfacesInOrder(s: Sys, step: Step)
    requires Enabled(s, step)
    ensures s.feed.accepted <= Apply(s, step).feed.accepted && Surfaced(s) <= Surfaced(Apply(s, step))
  {
    match step
    case Api(a) => ApiKeepsSurfaced(s, a);
    case InSession(t) => SessionFrames(s, t);
    case Turn(t) => TurnSurfaces(s, t);
    case Select(e) => SelectKeepsSurfaced(s, e);
    case Teardown(_) =>
  }

  lemma TurnSurfaces(s: Sys, step: TurnStep)
    requires TurnEnabled(s, step)
    ensures ApplyTurn(s, step).feed == s.feed && s.ep.acceptQueue <= ApplyTurn(s, step).ep.acceptQueue
  {
  }

  /** Handles keep the order they surfaced in, and acceptors get them in that order. */
  lemma {:induction false} AcceptsInOrder(s: Sys, steps: seq<Step>)
    requires ValidRun(s, steps)
    ensures s.feed.accepted <= After(s, steps).feed.accepted && Surfaced(s) <= Surfaced(After(s, steps))
    decreases |steps|
  {
    if steps != [] {
      StepSurfacesInOrder(s, steps[0]);
      AcceptsInOrder(Apply(s, steps[0]), steps[1..]);
    }
  }

  lemma StepGrowsConns(s: Sys, step: Step)
    requires Reachable(s) && Enabled(s, step)
    ensures AllGrow(s.ep.conns, Apply(s, step).ep.conns)
  {
    ConnsHold(s);
    match step
    case Api(a) => ApiKeepsConns(s, a);
    case InSession(t) => SessionFrames(s, t);
    case Turn(t) => TurnKeepsConns(s, t);
    case Select(e) => SelectKeepsConns(s, e);
    case Teardown(_) =>
  }

  lemma {:induction false} ConnsOnlyGrow(s: Sys, steps: seq<Step>)
    requires Reachable(s) && ValidRun(s, steps)
    ensures AllGrow(s.ep.conns, After(s, steps).ep.conns)
    decreases |steps|
  {
    if steps != [] {
      StepGrowsConns(s, steps[0]);
      ReachableStep(s, steps[0]);
      ConnsOnlyGrow(Apply(s, steps[0]), steps[1..]);
    }
  }

  /** Entries stay, and a connection's reported state only moves Connecting, Open, Closed. */
  lemma StatesOnlyAdvance(s: Sys, steps: seq<Step>, h: Handle)
    requires Reachable(s) && ValidRun(s, steps) && h in s.ep.conns
    ensures var conns := After(s, steps).ep.conns;
            h in conns && StateRank(StateOf(s.ep.conns[h])) <= StateRank(StateOf(conns[h]))
  {
    ConnsOnlyGrow(s, steps);
    GrowingOnlyAdvances(s.ep.conns[h], After(s, steps).ep.conns[h]);
  }

  // --- death ------------------------------------------------------------------------------------------

  /** A step makes the endpoint dead exactly when it is the home relay failing, and none revives it. */
  lemma StepDies(s: Sys, step: Step)
    requires Reachable(s) && Enabled(s, step)
    ensures Apply(s, step).ep.dead <==> s.ep.dead || Dies(s, step)
  {
    DeathHolds(s);
    match step
    case Api(a) => ApiKeepsDeath(s, a);
    case InSession(t) => SessionKeepsDeath(s, t);
    case Turn(t) => TurnKeepsDeath(s, t);
    case Select(e) => SelectKeepsDeath(s, e);
    case Teardown(_) =>
  }

  /** A dead endpoint's pump is past its loop, so nothing adds a connection any more. */
  lemma DeadAddsNone(s: Sys, step: Step)
    requires Reachable(s) && Enabled(s, step) && s.ep.dead
    ensures Apply(s, step).ep.conns.Keys == s.ep.conns.Keys
  {
    DeathHolds(s);
    match step
    case Api(a) => ConnProof.ApiFrames(s, a);
    case InSession(t) => SessionFrames(s, t);
    case _ =>
  }

  /** A call parked in `wait_until`. */
  datatype Wait =
    | ConnectWait(h: Handle)
    | AcceptWait
    | OpenStreamWait(h: Handle)
    | AcceptStreamWait(h: Handle, bi: bool)
    | ReadWait(h: Handle)
    | WriteWait(h: Handle)
    | DatagramWait(h: Handle)
    | ClosedWait(h: Handle)
    | RelayWait(url: string)

  datatype Outcome = Pending | Value | EndOfStream | Fails(error: Error)

  function EntryOutcome(e: ConnEntry): Outcome {
    if e.error.Some? then Fails(e.error.value) else Pending
  }

  /** One poll of a parked call; `offered` says the QUIC core has what the call asks it for. */
  function PollWait(ep: Ep, w: Wait, offered: bool): Outcome
    requires !w.AcceptWait? && !w.RelayWait? ==> w.h in ep.conns
  {
    match w
    case ConnectWait(h) =>
      if ep.conns[h].error.Some? then Fails(ep.conns[h].error.value)
      else if ep.conns[h].connected then Value else Pending
    case AcceptWait =>
      if ep.acceptQueue != [] then Value else if ClosedOrDead(ep) then Fails(Closed) else Pending
    case OpenStreamWait(h) => if ep.conns[h].error.None? && offered then Value else EntryOutcome(ep.conns[h])
    case AcceptStreamWait(h, bi) =>
      if (if bi then ep.conns[h].biQueue else ep.conns[h].uniQueue) != [] then Value else EntryOutcome(ep.conns[h])
    case ReadWait(h) =>
      if ep.conns[h].error == Some(Closed) then EndOfStream
      else if ep.conns[h].error.None? && offered then Value else EntryOutcome(ep.conns[h])
    case WriteWait(h) => if ep.conns[h].error.None? && offered then Value else EntryOutcome(ep.conns[h])
    case DatagramWait(h) => if offered then Value else EntryOutcome(ep.conns[h])
    case ClosedWait(h) => if ep.conns[h].drained || ep.conns[h].error.Some? then Value else Pending
    case RelayWait(url) =>
      if Normalize(url) in ep.relays.keys then Value
      else if Normalize(url) !in ep.relays.opening then Fails(ConnectFailed)
      else if ClosedOrDead(ep) then Fails(Closed)
      else if offered then Fails(ConnectFailed) // the deadline passed
      else Pending
  }

  /** Once the endpoint is dead, every parked call resolves at its next poll, now and ever after. */
  lemma {:induction false} DeathResolvesEveryWait(s: Sys, steps: seq<Step>, w: Wait, offered: bool)
    requires Reachable(s) && s.ep.dead && ValidRun(s, steps)
    requires !w.AcceptWait? && !w.RelayWait? ==> w.h in s.ep.conns
    ensures var s' := After(s, steps);
            && s'.ep.dead && s'.ep.conns.Keys == s.ep.conns.Keys
            && PollWait(s'.ep, w, offered) != Pending
    decreases |steps|
  {
    if steps != [] {
      StepDies(s, steps[0]);
      DeadAddsNone(s, steps[0]);
      ReachableStep(s, steps[0]);
      DeathResolvesEveryWait(Apply(s, steps[0]), steps[1..], w, offered);
    } else {
      DeathHolds(s);
    }
  }

  // --- draining ---------------------------------------------------------------------------------------

  function PollSteps(ps: seq<Poll>): seq<Step> {
    if ps == [] then [] else [Turn(PollConn(ps[0]))] + PollSteps(ps[1..])
  }

  /** Any schedule of polls is a run of the draining pump, so what is proved of runs holds of `drain`. */
  lemma {:induction false} DrainIsARun(s: Sys, ps: seq<Poll>)
    requires CountersInRange(s) && s.pump.phase.Draining? && CanPollAll(s.ep, ps)
    ensures ValidRun(s, PollSteps(ps)) && After(s, PollSteps(ps)).ep == DoPolls(s.ep, ps)
    decreases |ps|
  {
    if ps != [] {
      var steps := PollSteps(ps);
      assert steps[1..] == PollSteps(ps[1..]);
      DrainIsARun(Apply(s, steps[0]), ps[1..]);
    }
  }
}
