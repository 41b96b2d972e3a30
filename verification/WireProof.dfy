/** One pending receive per wire, the teardown that resolves them all, and what death means. */
module WireProof {
  import opened Types
  import opened RoutingTables
  import opened Endpoint
  import opened System
  import opened Invariants
  import opened RoutingProof

  /** A completed receive was its wire's only one: re-arming restores it, retiring drops both. */
  lemma ReceiveCompletes(armed: multiset<nat>, waiting: seq<nat>, wires: set<nat>, w: nat)
    requires armed + multiset(waiting) == multiset(wires) && w in armed
    ensures w in wires
    ensures Rearm(armed, w, true) + multiset(waiting) == multiset(wires)
    ensures armed - multiset{w} + multiset(waiting) == multiset(wires - {w})
    ensures armed - multiset{w} + multiset(waiting) <= multiset(wires)
  {
    assert w in multiset(wires);
    assert multiset(wires - {w}) == multiset(wires) - multiset{w};
  }

  /** A registered wire waits for its one receive. */
  lemma WireRegisters(armed: multiset<nat>, waiting: seq<nat>, wires: set<nat>, w: nat)
    requires armed + multiset(waiting) <= multiset(wires) && w !in wires
    ensures armed + multiset(waiting + [w]) <= multiset(wires + {w})
    ensures armed + multiset(waiting) == multiset(wires) ==> armed + multiset(waiting + [w]) == multiset(wires + {w})
  {
    assert multiset(wires + {w}) == multiset(wires) + multiset{w};
  }

  lemma ArmedIsRegistered(armed: multiset<nat>, waiting: seq<nat>, wires: set<nat>)
    requires armed + multiset(waiting) <= multiset(wires)
    ensures forall k :: k in armed ==> k in wires
  {
    forall k | k in armed ensures k in wires {
      assert k in multiset(wires);
    }
  }

  // --- relays -----------------------------------------------------------------------------------

  lemma ApiKeepsRelayReceives(s: Sys, step: ApiStep)
    requires RelayArmInv(s.pump, s.ep.relays, s.ep.dead) && ApiEnabled(s, step) && s.ep.relays.nextKey < U32_MAX
    requires forall k :: k in s.ep.relays.pool ==> k < s.ep.relays.nextKey
    ensures var s' := ApplyApi(s, step); RelayArmInv(s'.pump, s'.ep.relays, s'.ep.dead)
  {
    var r := s.ep.relays;
    if step.RelayOpened? && step.ok && !Reaps(s.pump.phase) {
      WireRegisters(s.pump.armedRelays, r.newRelays, r.pool, r.nextKey);
    }
  }

  lemma SessionKeepsRelays(s: Sys, step: SessionStep)
    requires SessionEnabled(s, step)
    ensures var s' := ApplySession(s, step);
            s'.pump == s.pump && s'.ep.relays == s.ep.relays && s'.opens == s.opens
  {
  }

  /** Up to its `select` the pump moves no receive but to arm, and closes nothing. */
  lemma TurnFrames(s: Sys, step: TurnStep)
    requires TurnEnabled(s, step)
    ensures var p, p' := s.pump, ApplyTurn(s, step).pump;
            && !Reaps(p.phase) && !p.phase.ClosingChannels? && !Reaps(p'.phase) && !p'.phase.ClosingChannels?
            && (!step.Arm? ==>
                  && p'.armedRelays == p.armedRelays && p'.armedChannels == p.armedChannels
                  && ApplyTurn(s, step).ep.relays == s.ep.relays)
    ensures var s' := ApplyTurn(s, step);
            && s'.ep.relays == s.ep.relays.(newRelays := s'.ep.relays.newRelays) && s'.opens == s.opens
            && (s.ep.dead ==> s'.ep.dead)
  {
  }

  lemma TurnKeepsRelayReceives(s: Sys, step: TurnStep)
    requires RelayArmInv(s.pump, s.ep.relays, s.ep.dead) && TurnEnabled(s, step)
    ensures var s' := ApplyTurn(s, step); RelayArmInv(s'.pump, s'.ep.relays, s'.ep.dead)
  {
    TurnFrames(s, step);
  }

  lemma EnterFrames(s: Sys, pump: Pump, peer: Peer, via: nat, data: Bytes, v: Verdict)
    ensures var s' := EnterFromPeer(s, pump, peer, via, data, v);
            && s'.pump == pump && s'.ep.relays == s.ep.relays && s'.opens == s.opens
            && s'.ep.closed == s.ep.closed && s'.ep.dead == s.ep.dead
  {
  }

  /** What an event does to the pump, the pool and the flags, whatever it carries. */
  ghost predicate EventFrame(s: Sys, step: SelectStep, s': Sys) {
    && s'.pump == PumpAfterEvent(s, step) && s'.opens == s.opens
    && s'.ep.closed == s.ep.closed
    && s'.ep.dead == (s.ep.dead || step == RelayFailed(HOME_RELAY))
    && s'.ep.relays == if step.RelayFailed? && step.key != HOME_RELAY
                       then s.ep.relays.(pool := s.ep.relays.pool - {step.key}) else s.ep.relays
  }

  lemma PeerDatagramFrames(s: Sys, step: SelectStep)
    requires SelectEnabled(s, step) && (step.RelayDatagram? || step.ChannelMessage?)
    ensures EventFrame(s, step, ApplySelect(s, step))
  {
    var pump := PumpAfterEvent(s, step);
    if step.RelayDatagram? {
      EnterFrames(s, pump, step.source, step.key, step.data, step.verdict);
    } else if step.message.Some? && step.id in s.ep.routing.channels {
      var c := s.ep.routing.channels[step.id];
      EnterFrames(s, pump, c.peer, c.fallbackRelay, step.message.value, step.verdict);
    }
  }

  lemma EventFrames(s: Sys, step: SelectStep)
    requires SelectEnabled(s, step)
    ensures EventFrame(s, step, ApplySelect(s, step))
  {
    if step.RelayDatagram? || step.ChannelMessage? {
      PeerDatagramFrames(s, step);
    }
  }

  /** An event on a relay: its one receive is armed again, or gone with the relay. */
  lemma RelayEventKeepsReceives(p: Pump, r: Relays, key: nat, failed: bool)
    requires p.phase.Selecting? && RelayArmInv(p, r, false) && key in p.armedRelays
    ensures var armed, news, closed := p.armedRelays, r.newRelays, p.closedRelays;
            && key in r.pool
            && (!failed ==> OneReceiveEach(false, false, false, Rearm(armed, key, true), news, r.pool, closed))
            && (failed ==> OneReceiveEach(false, false, false, armed - multiset{key}, news, r.pool - {key}, closed))
            && (failed ==> OneReceiveEach(true, false, false, armed - multiset{key}, news, r.pool, closed))
  {
    ReceiveCompletes(p.armedRelays, r.newRelays, r.pool, key);
  }

  lemma SelectKeepsRelayReceives(s: Sys, step: SelectStep)
    requires RelayArmInv(s.pump, s.ep.relays, s.ep.dead) && SelectEnabled(s, step)
    requires DeathInv(s.ep, s.pump.phase)
    ensures var s' := ApplySelect(s, step); RelayArmInv(s'.pump, s'.ep.relays, s'.ep.dead)
  {
    EventFrames(s, step);
    assert !s.ep.dead;
    EventPumpKeepsReceives(s, step);
  }

  lemma EventPumpKeepsReceives(s: Sys, step: SelectStep)
    requires RelayArmInv(s.pump, s.ep.relays, false) && SelectEnabled(s, step)
    ensures var r := s.ep.relays; var home := step == RelayFailed(HOME_RELAY);
            RelayArmInv(PumpAfterEvent(s, step),
                        if step.RelayFailed? && !home then r.(pool := r.pool - {step.key}) else r, home)
  {
    if step.RelayDatagram? || step.RelayFailed? {
      RelayEventKeepsReceives(s.pump, s.ep.relays, step.key, step.RelayFailed?);
    }
  }

  lemma TeardownKeepsRelayReceives(s: Sys, step: TeardownStep)
    requires RelayArmInv(s.pump, s.ep.relays, s.ep.dead) && TeardownEnabled(s, step)
    ensures var s' := ApplyTeardown(s, step); RelayArmInv(s'.pump, s'.ep.relays, s'.ep.dead)
  {
    if step.CloseRelays? {
      ArmedIsRegistered(s.pump.armedRelays, s.ep.relays.newRelays, s.ep.relays.pool);
    }
  }

  // --- channels ---------------------------------------------------------------------------------

  /** Only a registration adds a channel, and it waits to be armed; only a retirement removes one. */
  lemma OpKeepsWaiting(r: Routing, op: RoutingOp)
    requires RoutingInv(r) && InRange(r)
    ensures var r' := ApplyOp(r, op);
            match op
            case Registered(_, _) =>
              var id := NextU32(r.nextChannelId);
              id !in r.channels && r'.channels.Keys == r.channels.Keys + {id} && r'.newChannels == r.newChannels + [id]
            case Retired(id) => r'.channels.Keys == r.channels.Keys - {id} && r'.newChannels == r.newChannels
            case Taken => r'.channels == r.channels && r'.newChannels == []
            case _ => r'.channels == r.channels && r'.newChannels == r.newChannels
  {
  }

  ghost predicate Arming(s: Sys) {
    RoutingInv(s.ep.routing) && InRange(s.ep.routing) && ChannelArmInv(s.pump, s.ep.routing)
  }

  lemma ApiKeepsChannelReceives(s: Sys, step: ApiStep)
    requires Arming(s) && ApiEnabled(s, step)
    ensures var s' := ApplyApi(s, step); ChannelArmInv(s'.pump, s'.ep.routing)
  {
    ApiEffectIsExact(s, step);
    OpKeepsWaiting(s.ep.routing, ApiEffect(s, step));
    assert ApplyApi(s, step).pump == s.pump;
  }

  lemma SessionKeepsChannelReceives(s: Sys, step: SessionStep)
    requires Arming(s) && SessionEnabled(s, step) && DeathInv(s.ep, s.pump.phase)
    ensures var s' := ApplySession(s, step); ChannelArmInv(s'.pump, s'.ep.routing)
  {
    var r := s.ep.routing;
    SessionEffectIsExact(s, step);
    OpKeepsWaiting(r, SessionEffect(s, step));
    SessionKeepsRelays(s, step);
    if step.Succeed? && !ClosedOrDead(s.ep) {
      WireRegisters(s.pump.armedChannels, r.newChannels, r.channels.Keys, NextU32(r.nextChannelId));
    }
  }

  lemma TurnKeepsChannelReceives(s: Sys, step: TurnStep)
    requires Arming(s) && TurnEnabled(s, step)
    ensures var s' := ApplyTurn(s, step); ChannelArmInv(s'.pump, s'.ep.routing)
  {
    TurnFrames(s, step);
    TurnEffectIsExact(s, step);
    OpKeepsWaiting(s.ep.routing, if step.Arm? then Taken else Keep);
  }

  /** An event registers no channel, and removes one only when that channel failed. */
  lemma EventKeepsWaiting(s: Sys, step: SelectStep)
    requires RoutingInv(s.ep.routing) && InRange(s.ep.routing) && SelectEnabled(s, step)
    ensures var r, r' := s.ep.routing, ApplySelect(s, step).ep.routing;
            && r'.newChannels == r.newChannels
            && r'.channels.Keys == if step.ChannelFailed? then r.channels.Keys - {step.id} else r.channels.Keys
  {
    SelectEffectIsExact(s, step);
    OpKeepsWaiting(s.ep.routing, SelectEffect(s, step));
  }

  lemma SelectKeepsChannelReceives(s: Sys, step: SelectStep)
    requires Arming(s) && SelectEnabled(s, step)
    ensures var s' := ApplySelect(s, step); ChannelArmInv(s'.pump, s'.ep.routing)
  {
    var r := s.ep.routing;
    EventFrames(s, step);
    EventKeepsWaiting(s, step);
    if step.ChannelMessage? || step.ChannelFailed? {
      ReceiveCompletes(s.pump.armedChannels, r.newChannels, r.channels.Keys, step.id);
    }
  }

  lemma TeardownKeepsChannelReceives(s: Sys, step: TeardownStep)
    requires Arming(s) && TeardownEnabled(s, step)
    ensures var s' := ApplyTeardown(s, step); ChannelArmInv(s'.pump, s'.ep.routing)
  {
    if step.CloseChannels? {
      ArmedIsRegistered(s.pump.armedChannels, s.ep.routing.newChannels, s.ep.routing.channels.Keys);
    }
  }

  // --- death ------------------------------------------------------------------------------------

  ghost predicate Dies(s: Sys, step: Step) {
    || (step == Turn(RelaySent(false)) && s.pump.phase == SendingRelay(HOME_RELAY))
    || step == Select(RelayFailed(HOME_RELAY))
  }

  lemma ApiKeepsDeath(s: Sys, step: ApiStep)
    requires DeathInv(s.ep, s.pump.phase) && ApiEnabled(s, step)
    ensures var s' := ApplyApi(s, step); DeathInv(s'.ep, s'.pump.phase) && s'.ep.dead == s.ep.dead
  {
  }

  lemma SessionKeepsDeath(s: Sys, step: SessionStep)
    requires DeathInv(s.ep, s.pump.phase) && SessionEnabled(s, step)
    ensures var s' := ApplySession(s, step); DeathInv(s'.ep, s'.pump.phase) && s'.ep.dead == s.ep.dead
  {
  }

  lemma TurnKeepsDeath(s: Sys, step: TurnStep)
    requires DeathInv(s.ep, s.pump.phase) && TurnEnabled(s, step)
    ensures var s' := ApplyTurn(s, step);
            DeathInv(s'.ep, s'.pump.phase) && s'.ep.dead == (s.ep.dead || Dies(s, Turn(step)))
  {
  }

  lemma HomeFailureFailsAll(s: Sys)
    requires SelectEnabled(s, RelayFailed(HOME_RELAY))
    ensures var conns := ApplySelect(s, RelayFailed(HOME_RELAY)).ep.conns;
            forall h :: h in conns ==> conns[h].error.Some?
  {
  }

  lemma SelectKeepsDeath(s: Sys, step: SelectStep)
    requires DeathInv(s.ep, s.pump.phase) && SelectEnabled(s, step)
    ensures var s' := ApplySelect(s, step);
            DeathInv(s'.ep, s'.pump.phase) && s'.ep.dead == (s.ep.dead || Dies(s, Select(step)))
  {
    EventFrames(s, step);
    assert !s.ep.dead;
    if step == RelayFailed(HOME_RELAY) {
      HomeFailureFailsAll(s);
    }
  }
}
