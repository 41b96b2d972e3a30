/** What becomes of a queued datagram: delivered, still waiting, or lost with its wire. */
module Fates {
  import opened Types
  import opened RoutingTables
  import opened Endpoint
  import opened System
  import opened Invariants
  import opened RoutingProof
  import opened WireProof
  import opened Safety
  import opened Theorems

  /** The wire exists or once existed; either way its number is never given to another. */
  predicate Issued(ep: Ep, wire: Option<RouteWire>) {
    match wire
    case Some(Relay(key)) => key < ep.relays.nextKey
    case Some(Channel(id)) => id <= ep.routing.nextChannelId
    case None => true
  }

  /** The wire has left the pool or the registry. */
  predicate Gone(ep: Ep, wire: RouteWire) {
    match wire
    case Relay(key) => key !in ep.relays.pool
    case Channel(id) => id !in ep.routing.channels
  }

  predicate DeliveredIn(done: seq<Delivery>, n: nat) {
    exists d :: d in done && d.index == n
  }

  /** Datagram `n` of the log, if it was for a relay or a channel, waits, went out, or lost its wire. */
  predicate Accounted(ep: Ep, l: SendLog, n: nat)
    requires n < |l.queued|
  {
    match l.queued[n].wire
    case None => true
    case Some(wire) =>
      || n in l.relayTags || n in l.channelTags
      || DeliveredIn(l.relayDelivered, n) || DeliveredIn(l.channelDelivered, n)
      || Gone(ep, wire)
  }

  predicate Fated(ep: Ep, l: SendLog, n: nat)
    requires n < |l.queued|
  {
    Issued(ep, l.queued[n].wire) && Accounted(ep, l, n)
  }

  ghost predicate AllFated(ep: Ep, l: SendLog) {
    forall n :: 0 <= n < |l.queued| ==> Fated(ep, l, n)
  }

  /** What of the invariant is needed here. */
  ghost predicate Sound(s: Sys) {
    && RoutingInv(s.ep.routing)
    && RouteKeysBelow(s.ep.routing, s.ep.relays.nextKey)
    && (forall p :: p in s.ep.slots.signaling ==> s.ep.slots.signaling[p] < s.ep.relays.nextKey)
    && QueueInv(s.ep.routing, s.ep.out, s.sends)
  }

  lemma InvIsSound(s: Sys)
    requires Inv(s)
    ensures Sound(s)
  {
  }

  // --- wires that are gone stay gone ------------------------------------------------------------

  /** Numbers issued stay issued, and a wire that is gone does not come back. */
  ghost predicate WiresOnlyAge(ep: Ep, ep': Ep) {
    forall wire: RouteWire :: Issued(ep, Some(wire)) ==> Issued(ep', Some(wire)) && (Gone(ep, wire) ==> Gone(ep', wire))
  }

  lemma PoolOnlyAges(s: Sys, step: Step, key: nat)
    requires Enabled(s, step) && key < s.ep.relays.nextKey
    ensures var r' := Apply(s, step).ep.relays;
            key < r'.nextKey && (key !in s.ep.relays.pool ==> key !in r'.pool)
  {
    match step
    case Api(a) => RelayProof.ApiFrames(s, a);
    case InSession(t) => SessionKeepsRelays(s, t);
    case Turn(t) => TurnFrames(s, t);
    case Select(e) => EventFrames(s, e);
    case Teardown(_) =>
  }

  lemma ChannelsOnlyAge(s: Sys, step: Step, id: nat)
    requires RoutingInv(s.ep.routing) && Enabled(s, step) && id <= s.ep.routing.nextChannelId
    ensures var r' := Apply(s, step).ep.routing;
            id <= r'.nextChannelId && (id !in s.ep.routing.channels ==> id !in r'.channels)
  {
    EffectIsExact(s, step);
    OpKeepsChannels(s.ep.routing, Effect(s, step), id);
  }

  lemma StepAgesWires(s: Sys, step: Step)
    requires RoutingInv(s.ep.routing) && Enabled(s, step)
    ensures WiresOnlyAge(s.ep, Apply(s, step).ep)
  {
    forall wire: RouteWire | Issued(s.ep, Some(wire))
      ensures Issued(Apply(s, step).ep, Some(wire)) && (Gone(s.ep, wire) ==> Gone(Apply(s, step).ep, wire))
    {
      match wire
      case Relay(key) => PoolOnlyAges(s, step, key);
      case Channel(id) => ChannelsOnlyAge(s, step, id);
    }
  }

  // --- what a step does to the log --------------------------------------------------------------

  lemma AgeingKeepsFates(ep: Ep, ep': Ep, l: SendLog)
    requires AllFated(ep, l) && WiresOnlyAge(ep, ep')
    ensures AllFated(ep', l)
  {
    forall n | 0 <= n < |l.queued| ensures Fated(ep', l, n) {
      assert Fated(ep, l, n);
    }
  }

  lemma PutKeepsFates(ep: Ep, l: SendLog, wire: Option<RouteWire>, goal: Goal, data: Bytes)
    requires AllFated(ep, l) && Issued(ep, wire)
    ensures AllFated(ep, LogPut(l, wire, goal, data))
  {
    var l' := LogPut(l, wire, goal, data);
    forall n | 0 <= n < |l'.queued| ensures Fated(ep, l', n) {
      assert n < |l.queued| ==> Fated(ep, l, n) && l'.queued[n] == l.queued[n];
    }
  }

  lemma RelayPopKeepsFates(ep: Ep, l: SendLog, item: RelayItem, handed: bool)
    requires AllFated(ep, l) && l.relayTags != [] && l.relayTags[0] < |l.queued|
    requires l.queued[l.relayTags[0]].wire == Some(Relay(item.key)) && handed == (item.key in ep.relays.pool)
    ensures AllFated(ep, LogRelayPop(l, item, handed))
  {
    var l' := LogRelayPop(l, item, handed);
    forall n | 0 <= n < |l'.queued| ensures Fated(ep, l', n) {
      assert Fated(ep, l, n);
      PopKeeps(l.relayTags, n);
      GrowKeeps(l.relayDelivered, l'.relayDelivered[|l.relayDelivered|..], n);
      if n == l.relayTags[0] && handed {
        assert l'.relayDelivered[|l.relayDelivered|].index == n;
      }
    }
  }

  lemma ChannelPopKeepsFates(ep: Ep, l: SendLog, item: ChannelItem)
    requires AllFated(ep, l) && l.channelTags != [] && l.channelTags[0] < |l.queued|
    requires l.queued[l.channelTags[0]].wire == Some(Channel(item.id))
    ensures AllFated(ep, LogChannelPop(l, item, ChannelPeer(ep.routing, item.id)))
  {
    var l' := LogChannelPop(l, item, ChannelPeer(ep.routing, item.id));
    forall n | 0 <= n < |l'.queued| ensures Fated(ep, l', n) {
      assert Fated(ep, l, n);
      PopKeeps(l.channelTags, n);
      GrowKeeps(l.channelDelivered, l'.channelDelivered[|l.channelDelivered|..], n);
      if n == l.channelTags[0] && item.id in ep.routing.channels {
        assert l'.channelDelivered[|l.channelDelivered|].index == n;
      }
    }
  }

  lemma PopKeeps(tags: seq<nat>, n: nat)
    requires tags != []
    ensures n in tags ==> n == tags[0] || n in tags[1..]
  {
  }

  lemma GrowKeeps(done: seq<Delivery>, more: seq<Delivery>, n: nat)
    ensures DeliveredIn(done, n) ==> DeliveredIn(done + more, n)
  {
    if DeliveredIn(done, n) {
      var d :| d in done && d.index == n;
      assert d in done + more;
    }
  }

  // --- every step ---------------------------------------------------------------------------------

  lemma RouteIsIssued(s: Sys, a: SocketAddr)
    requires RoutingInv(s.ep.routing) && RouteKeysBelow(s.ep.routing, s.ep.relays.nextKey)
    ensures Issued(s.ep, RouteOf(s.ep.routing, a))
  {
  }

  lemma SessionKeepsFates(s: Sys, step: SessionStep)
    requires Sound(s) && SessionEnabled(s, step) && AllFated(s.ep, s.sends)
    ensures AllFated(s.ep, ApplySession(s, step).sends)
  {
    var t := s.dance.sessions[step.i];
    if step.Publish? && t.peer in s.ep.slots.signaling {
      var wire := Some(Relay(s.ep.slots.signaling[t.peer]));
      PutKeepsFates(s.ep, s.sends, wire, ToPeer(t.peer), [SIGNAL_PREFIX] + step.json);
    }
  }

  lemma TurnKeepsFates(s: Sys, step: TurnStep)
    requires Sound(s) && TurnEnabled(s, step) && AllFated(s.ep, s.sends)
    ensures AllFated(s.ep, ApplyTurn(s, step).sends)
  {
    if step.PollConn? && step.poll.Transmits? {
      var t := s.ep.conns[step.poll.h].conn.txs[0];
      RouteIsIssued(s, t.dest);
      PutKeepsFates(s.ep, s.sends, RouteOf(s.ep.routing, t.dest), ToAddress(t.dest), t.data);
    } else if step.FlushRelay? && s.ep.out.relay != [] {
      assert RelayItemOk(s.ep.routing, s.ep.out.relay[0], s.sends.queued[s.sends.relayTags[0]]);
      RelayPopKeepsFates(s.ep, s.sends, s.ep.out.relay[0], s.ep.out.relay[0].key in s.ep.relays.pool);
    } else if step.FlushChannel? && s.ep.out.channel != [] {
      assert ChannelItemOk(s.ep.routing, s.ep.out.channel[0], s.sends.queued[s.sends.channelTags[0]]);
      ChannelPopKeepsFates(s.ep, s.sends, s.ep.out.channel[0]);
    }
  }

  /** An event queues at most a response, by a route of the state it leads to. */
  lemma EventQueues(s: Sys, step: SelectStep)
    requires SelectEnabled(s, step)
    ensures var s' := ApplySelect(s, step);
            || s'.sends == s.sends
            || exists addr, source: Option<Peer>, data ::
                 s'.sends == LogPut(s.sends, ResponseWire(s'.ep.routing, addr, source), ToAddress(addr), data)
  {
  }

  lemma SelectKeepsFates(s: Sys, s': Sys, step: SelectStep)
    requires SelectEnabled(s, step) && s' == ApplySelect(s, step) && Sound(s') && AllFated(s'.ep, s.sends)
    ensures AllFated(s'.ep, s'.sends)
  {
    EventQueues(s, step);
    if s'.sends != s.sends {
      var addr, source: Option<Peer>, data :|
        s'.sends == LogPut(s.sends, ResponseWire(s'.ep.routing, addr, source), ToAddress(addr), data);
      RouteIsIssued(s', addr);
      PutKeepsFates(s'.ep, s.sends, ResponseWire(s'.ep.routing, addr, source), ToAddress(addr), data);
    }
  }

  lemma StepKeepsFates(s: Sys, step: Step)
    requires Sound(s) && Enabled(s, step) && Sound(Apply(s, step)) && AllFated(s.ep, s.sends)
    ensures AllFated(Apply(s, step).ep, Apply(s, step).sends)
  {
    var s' := Apply(s, step);
    StepAgesWires(s, step);
    match step {
      case InSession(t) =>
        SessionKeepsFates(s, t);
        AgeingKeepsFates(s.ep, s'.ep, s'.sends);
      case Turn(t) =>
        TurnKeepsFates(s, t);
        AgeingKeepsFates(s.ep, s'.ep, s'.sends);
      case Select(e) =>
        AgeingKeepsFates(s.ep, s'.ep, s.sends);
        SelectKeepsFates(s, s', e);
      case _ =>
        assert s'.sends == s.sends;
        AgeingKeepsFates(s.ep, s'.ep, s.sends);
    }
  }

  lemma {:induction false} RunKeepsFates(s: Sys, steps: seq<Step>)
    requires Inv(s) && ValidRun(s, steps) && AllFated(s.ep, s.sends)
    ensures AllFated(After(s, steps).ep, After(s, steps).sends)
    decreases |steps|
  {
    if steps != [] {
      StepIsSafe(s, steps[0]);
      InvIsSound(s);
      InvIsSound(Apply(s, steps[0]));
      StepKeepsFates(s, steps[0]);
      RunKeepsFates(Apply(s, steps[0]), steps[1..]);
    }
  }

  /**
   * No queued datagram vanishes: each one meant for a relay or a channel is waiting in its queue,
   * was delivered, or its wire has left the pool or the registry, for good.
   */
  lemma NothingVanishes(s: Sys, n: nat)
    requires Reachable(s) && n < |s.sends.queued|
    ensures Accounted(s.ep, s.sends, n)
  {
    var homeUrl, webrtcEnabled, steps :|
      ValidRun(Init(homeUrl, webrtcEnabled), steps) && After(Init(homeUrl, webrtcEnabled), steps) == s;
    InitIsSafe(homeUrl, webrtcEnabled);
    RunKeepsFates(Init(homeUrl, webrtcEnabled), steps);
    assert Fated(s.ep, s.sends, n);
  }
}
