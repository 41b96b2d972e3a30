/** Queued datagrams reach whom they were meant for, whatever the routes do meanwhile. */
module OutboundProof {
  import opened Types
  import opened RoutingTables
  import opened Connections
  import opened Endpoint
  import opened System
  import opened Invariants
  import opened RoutingProof

  /** No stand-in changes hands and no channel id changes its meaning from `r` to `r'`. */
  ghost predicate Stable(r: Routing, r': Routing) {
    && AddressesKept(r, r')
    && r.nextChannelId <= r'.nextChannelId
    && (forall id :: id in r'.channels && id <= r.nextChannelId ==>
          id in r.channels && r'.channels[id].peer == r.channels[id].peer)
  }

  lemma OpIsStable(r: Routing, op: RoutingOp)
    requires RoutingInv(r) && InRange(r)
    ensures Stable(r, ApplyOp(r, op))
  {
    OpKeepsAddresses(r, op);
    forall id | id in ApplyOp(r, op).channels && id <= r.nextChannelId
      ensures id in r.channels && ApplyOp(r, op).channels[id].peer == r.channels[id].peer
    {
      OpKeepsChannels(r, op, id);
    }
    OpKeepsChannels(r, op, 0);
  }

  lemma StableKeepsSends(r: Routing, r': Routing, out: Outbound, l: SendLog)
    requires SendInv(r, out, l) && Stable(r, r')
    ensures SendInv(r', out, l)
  {
    forall i | 0 <= i < |out.relay|
      ensures RelayItemOk(r', out.relay[i], l.queued[l.relayTags[i]])
    {
      assert RelayItemOk(r, out.relay[i], l.queued[l.relayTags[i]]);
    }
    forall i | 0 <= i < |out.channel|
      ensures ChannelItemOk(r', out.channel[i], l.queued[l.channelTags[i]])
    {
      assert ChannelItemOk(r, out.channel[i], l.queued[l.channelTags[i]]);
    }
  }

  /** Queueing on any wire whose meaning fits the goal keeps the outbound side in order. */
  lemma PutKeepsSends(r: Routing, out: Outbound, l: SendLog, wire: Option<RouteWire>, peer: Peer,
                      dest: SocketAddr, goal: Goal, data: Bytes)
    requires SendInv(r, out, l)
    requires wire.Some? && wire.value.Relay? ==> Means(r, goal, peer)
    requires wire.Some? && wire.value.Channel? ==>
               goal.ToAddress? && goal.dest in r.addrToPeer && ChannelMeans(r, wire.value.id, r.addrToPeer[goal.dest])
    ensures SendInv(r, Put(out, wire, peer, dest, data), LogPut(l, wire, goal, data))
  {
  }

  /** A response leaves by the wire, and for the peer, a transmit to that address would. */
  lemma ResponseIsEnqueue(r: Routing, out: Outbound, addr: SocketAddr, source: Option<Peer>, data: Bytes)
    requires RoutingInv(r)
    requires if source.Some? then addr in r.addrToPeer && r.addrToPeer[addr] == source.value else !IsStandin(addr)
    ensures ResponseWire(r, addr, source) == RouteOf(r, addr)
    ensures PushResponse(r, out, addr, source, data) == Enqueue(r, out, Transmit(addr, data))
  {
  }

  lemma EnqueueKeepsSends(r: Routing, out: Outbound, l: SendLog, t: Transmit)
    requires RoutingInv(r) && SendInv(r, out, l)
    ensures SendInv(r, Enqueue(r, out, t), LogPut(l, RouteOf(r, t.dest), ToAddress(t.dest), t.data))
  {
    PutKeepsSends(r, out, l, RouteOf(r, t.dest), PeerAt(r, t.dest), t.dest, ToAddress(t.dest), t.data);
  }

  lemma RelayPopKeepsSends(r: Routing, out: Outbound, l: SendLog, handed: bool)
    requires SendInv(r, out, l) && out.relay != []
    ensures SendInv(r, out.(relay := out.relay[1..]), LogRelayPop(l, out.relay[0], handed))
  {
    assert RelayItemOk(r, out.relay[0], l.queued[l.relayTags[0]]);
  }

  lemma ChannelPopKeepsSends(r: Routing, out: Outbound, l: SendLog)
    requires SendInv(r, out, l) && out.channel != []
    ensures SendInv(r, out.(channel := out.channel[1..]),
                    LogChannelPop(l, out.channel[0], ChannelPeer(r, out.channel[0].id)))
  {
    assert ChannelItemOk(r, out.channel[0], l.queued[l.channelTags[0]]);
  }

  // --- step by step ---------------------------------------------------------------------------

  ghost predicate Sending(s: Sys) {
    RoutingInv(s.ep.routing) && InRange(s.ep.routing) && SendInv(s.ep.routing, s.ep.out, s.sends)
  }

  lemma ApiKeepsSends(s: Sys, step: ApiStep)
    requires Sending(s) && ApiEnabled(s, step)
    ensures var s' := ApplyApi(s, step); SendInv(s'.ep.routing, s'.ep.out, s'.sends)
  {
    var s' := ApplyApi(s, step);
    ApiEffectIsExact(s, step);
    OpIsStable(s.ep.routing, ApiEffect(s, step));
    assert s'.ep.out == s.ep.out && s'.sends == s.sends;
    StableKeepsSends(s.ep.routing, s'.ep.routing, s.ep.out, s.sends);
  }

  lemma SessionKeepsSends(s: Sys, step: SessionStep)
    requires Sending(s) && SessionEnabled(s, step)
    ensures var s' := ApplySession(s, step); SendInv(s'.ep.routing, s'.ep.out, s'.sends)
  {
    var s' := ApplySession(s, step);
    SessionEffectIsExact(s, step);
    OpIsStable(s.ep.routing, SessionEffect(s, step));
    var t := s.dance.sessions[step.i];
    if step.Publish? && t.peer in s.ep.slots.signaling {
      PutKeepsSends(s.ep.routing, s.ep.out, s.sends, Some(Relay(s.ep.slots.signaling[t.peer])), t.peer,
                    Standin(0), ToPeer(t.peer), [SIGNAL_PREFIX] + step.json);
    } else {
      assert s'.ep.out == s.ep.out && s'.sends == s.sends;
      StableKeepsSends(s.ep.routing, s'.ep.routing, s.ep.out, s.sends);
    }
  }

  lemma TurnKeepsSends(s: Sys, step: TurnStep)
    requires Sending(s) && TurnEnabled(s, step)
    ensures var s' := ApplyTurn(s, step); SendInv(s'.ep.routing, s'.ep.out, s'.sends)
  {
    match step
    case PollConn(poll) =>
      if poll.Transmits? {
        EnqueueKeepsSends(s.ep.routing, s.ep.out, s.sends, s.ep.conns[poll.h].conn.txs[0]);
      }
    case FlushRelay =>
      if s.ep.out.relay != [] {
        RelayPopKeepsSends(s.ep.routing, s.ep.out, s.sends, s.ep.out.relay[0].key in s.ep.relays.pool);
      }
    case FlushChannel =>
      if s.ep.out.channel != [] {
        ChannelPopKeepsSends(s.ep.routing, s.ep.out, s.sends);
      }
    case Arm(_) =>
      OpIsStable(s.ep.routing, Taken);
      StableKeepsSends(s.ep.routing, TakeNew(s.ep.routing), s.ep.out, s.sends);
    case _ =>
  }

  /** A datagram entering the QUIC core may be answered; the answer goes back to its sender. */
  lemma ResponseKeepsSends(ep: Ep, r: Routing, l: SendLog, addr: SocketAddr, source: Option<Peer>, v: Verdict)
    requires RoutingInv(r) && SendInv(r, ep.out, l)
    requires if source.Some? then addr in r.addrToPeer && r.addrToPeer[addr] == source.value else !IsStandin(addr)
    ensures SendInv(r, HandleDatagram(ep.(routing := r), addr, source, v).out, LogResponse(l, ep, r, addr, source, v))
  {
    match ResponseTo(ep, v)
    case Some(data) =>
      ResponseIsEnqueue(r, ep.out, addr, source, data);
      EnqueueKeepsSends(r, ep.out, l, Transmit(addr, data));
    case None =>
  }

  lemma EnterKeepsSends(s: Sys, pump: Pump, peer: Peer, via: nat, data: Bytes, v: Verdict)
    requires Sending(s)
    ensures var s' := EnterFromPeer(s, pump, peer, via, data, v); SendInv(s'.ep.routing, s'.ep.out, s'.sends)
  {
    var r := Mention(s.ep.routing, peer, via);
    MentionKeeps(s.ep.routing, peer, via);
    OpIsStable(s.ep.routing, Mentioned(peer, via));
    StableKeepsSends(s.ep.routing, r, s.ep.out, s.sends);
    ResponseKeepsSends(s.ep, r, s.sends, r.peerToAddr[peer], Some(peer), v);
  }

  lemma PeerDatagramKeepsSends(s: Sys, step: SelectStep)
    requires Sending(s) && SelectEnabled(s, step) && (step.RelayDatagram? || step.ChannelMessage?)
    ensures var s' := ApplySelect(s, step); SendInv(s'.ep.routing, s'.ep.out, s'.sends)
  {
    var pump := PumpAfterEvent(s, step);
    if step.RelayDatagram? {
      if step.data == [] || step.data[0] != SIGNAL_PREFIX {
        EnterKeepsSends(s, pump, step.source, step.key, step.data, step.verdict);
      }
    } else if step.message.Some? && step.id in s.ep.routing.channels {
      var c := s.ep.routing.channels[step.id];
      EnterKeepsSends(s, pump, c.peer, c.fallbackRelay, step.message.value, step.verdict);
    }
  }

  lemma UdpKeepsSends(s: Sys, step: SelectStep)
    requires Sending(s) && SelectEnabled(s, step) && step.UdpDatagram?
    ensures var s' := ApplySelect(s, step); SendInv(s'.ep.routing, s'.ep.out, s'.sends)
  {
    ResponseKeepsSends(s.ep, s.ep.routing, s.sends, step.remote, None, step.verdict);
  }

  /** Failures and ticks queue nothing. */
  lemma OtherwiseSendsStay(s: Sys, step: SelectStep)
    requires SelectEnabled(s, step) && !step.RelayDatagram? && !step.ChannelMessage? && !step.UdpDatagram?
    ensures var s' := ApplySelect(s, step); s'.ep.out == s.ep.out && s'.sends == s.sends
  {
  }

  lemma SelectKeepsSends(s: Sys, step: SelectStep)
    requires Sending(s) && SelectEnabled(s, step)
    ensures var s' := ApplySelect(s, step); SendInv(s'.ep.routing, s'.ep.out, s'.sends)
  {
    if step.RelayDatagram? || step.ChannelMessage? {
      PeerDatagramKeepsSends(s, step);
    } else if step.UdpDatagram? {
      UdpKeepsSends(s, step);
    } else {
      OtherwiseSendsStay(s, step);
      SelectEffectIsExact(s, step);
      OpIsStable(s.ep.routing, SelectEffect(s, step));
      StableKeepsSends(s.ep.routing, ApplySelect(s, step).ep.routing, s.ep.out, s.sends);
    }
  }
}
