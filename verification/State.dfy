/** `State` itself: fields updated in place, each method proved to do what `Endpoint` says it does. */
module SharedState {
  import opened Types
  import opened RoutingTables
  import opened Connections
  import opened Signals
  import opened Endpoint
  import opened Draining

  /**
   * `on_event`: record an event in its connection's entry; `surfaces` says whether the handle goes
   * to the accept queue. A connection is surfaced only under an identity its expectation allows.
   */
  method RecordEvent(e: ConnEntry, event: AppEvent) returns (e': ConnEntry, surfaces: bool)
    ensures e' == OnEvent(e, event) && (surfaces <==> Surfaces(e, event))
    ensures surfaces ==> e'.connected && e'.peer.Some? && (e.expectedPeer.Some? ==> e'.peer == e.expectedPeer)
    ensures event.Connected? && (event.tlsPeer.None? || (e.expectedPeer.Some? && e.expectedPeer != event.tlsPeer)) ==>
              e'.error == Some(ConnectFailed) && e'.connected == e.connected && !surfaces
    ensures event.Connected? ==> e'.alpn == if event.alpn.Some? then event.alpn.value else e.alpn
    ensures event.StreamsOpened? ==>
              e'.biQueue == e.biQueue + event.bi && e'.uniQueue == e.uniQueue + event.uni && e'.error == e.error
    ensures event.ConnectionLost? ==> e'.error == Some(if event.byApplication then Closed else Other)
  {
    e', surfaces := e, false;
    match event
    case Connected(alpn, tlsPeer, onClose) =>
      if alpn.Some? {
        e' := e'.(alpn := alpn.value);
      }
      if tlsPeer.Some? && (e.expectedPeer.None? || e.expectedPeer == tlsPeer) {
        e' := e'.(peer := tlsPeer, connected := true);
        surfaces := e.acceptedSide;
      } else {
        e' := e'.(error := Some(ConnectFailed), conn := Merge(e.conn, onClose));
      }
    case StreamsOpened(bi, uni) => e' := e.(biQueue := e.biQueue + bi, uniQueue := e.uniQueue + uni);
    case ConnectionLost(byApplication) => e' := e.(error := Some(if byApplication then Closed else Other));
    case Unrecorded =>
  }

  /** Nothing left to poll, and the core's word that it is drained recorded. */
  predicate Settled(e: ConnEntry, isDrained: bool) {
    Quiescent(e) && (isDrained ==> e.drained)
  }

  ghost predicate AllSettled(conns: map<Handle, ConnEntry>, todo: set<Handle>, drainedNow: set<Handle>) {
    forall h :: h in conns && h !in todo ==> Settled(conns[h], h in drainedNow)
  }

  /** The answers of one poll of `accept`. */
  datatype AcceptPoll = Surfaced(h: Handle) | Refused | Waits

  /** The answers of `ensure_relay` before it waits: a key, a refusal, this call's open, another's. */
  datatype RelayClaim = Known(key: nat) | Closing | Opens | Awaits

  class ChannelWire {
    var closed: bool

    constructor ()
      ensures !closed
    {
      closed := false;
    }
  }

  class State {
    var conns: map<Handle, ConnEntry>
    var peerToAddr: map<Peer, SocketAddr>
    var addrToPeer: map<SocketAddr, Peer>
    var nextHost: nat
    var acceptQueue: seq<Handle>
    var relayOutbound: seq<RelayItem>
    var udpOutbound: seq<UdpItem>
    var channelOutbound: seq<ChannelItem>
    var routes: map<SocketAddr, RouteWire>
    var relayPool: set<nat>
    var relayKeys: map<string, nat>
    var relayOpening: set<string>
    var newRelays: seq<nat>
    var nextRelayKey: nat
    var pendingUpgrades: seq<(Peer, nat)>
    const webrtcEnabled: bool
    var signaling: map<Peer, nat>
    var signalInboxes: map<Peer, seq<Payload>>
    var channels: map<nat, ChannelEntry>
    var newChannels: seq<nat>
    var nextChannelId: nat
    var closed: bool
    var dead: bool

    ghost function Tables(): Routing
      reads this
    {
      Routing(peerToAddr, addrToPeer, nextHost, routes, channels, newChannels, nextChannelId)
    }

    ghost function Pool(): Relays
      reads this
    {
      Relays(relayPool, relayKeys, relayOpening, newRelays, nextRelayKey)
    }

    ghost function Queues(): Outbound
      reads this
    {
      Outbound(relayOutbound, udpOutbound, channelOutbound)
    }

    /** The state as the value the specification speaks about. */
    ghost function Contents(): Ep
      reads this
    {
      Ep(Tables(), Pool(), Slots(signaling, signalInboxes), conns, acceptQueue, Queues(), pendingUpgrades,
         webrtcEnabled, closed, dead)
    }

    /** The tables are a bijection with live channel targets. */
    ghost predicate Valid()
      reads this
    {
      RoutingInv(Tables())
    }

    constructor (webrtcEnabled: bool)
      ensures Valid()
      ensures Contents() == Ep(EmptyRouting, Relays({}, map[], {}, [], 0), Slots(map[], map[]), map[], [],
                               Outbound([], [], []), [], webrtcEnabled, false, false)
    {
      conns, peerToAddr, addrToPeer, nextHost, acceptQueue := map[], map[], map[], 0, [];
      relayOutbound, udpOutbound, channelOutbound, routes := [], [], [], map[];
      relayPool, relayKeys, relayOpening, newRelays, nextRelayKey := {}, map[], {}, [], 0;
      pendingUpgrades, signaling, signalInboxes := [], map[], map[];
      channels, newChannels, nextChannelId := map[], [], 0;
      closed, dead := false, false;
      this.webrtcEnabled := webrtcEnabled;
    }

    method AddrForPeer(peer: Peer, via: nat) returns (addr: SocketAddr)
      requires Valid() && nextHost < U32_MAX
      modifies this`nextHost, this`peerToAddr, this`addrToPeer, this`routes
      ensures Valid() && Tables() == Mention(old(Tables()), peer, via)
      ensures peer in peerToAddr && addr == peerToAddr[peer] && addr in addrToPeer && addrToPeer[addr] == peer
      ensures peer !in old(peerToAddr) ==> addr !in old(routes) && addr in routes && routes[addr] == Relay(via)
      ensures forall b :: b in old(routes) ==> b in routes && routes[b] == old(routes)[b]
    {
      MentionKeeps(Tables(), peer, via);
      StandinDecodes(NextU32(nextHost));
      if peer in peerToAddr {
        return peerToAddr[peer];
      }
      nextHost := NextU32(nextHost);
      addr := DocPrefixAddr(0x77, nextHost);
      peerToAddr := peerToAddr[peer := addr];
      addrToPeer := addrToPeer[addr := peer];
      routes := routes[addr := Relay(via)];
    }

    method RegisterRelay(url: string) returns (key: nat)
      modifies this`nextRelayKey, this`relayPool, this`relayKeys, this`newRelays
      ensures key == old(nextRelayKey) && Pool() == Endpoint.RegisterRelay(old(Pool()), url)
      ensures relayPool == old(relayPool) + {key} && newRelays == old(newRelays) + [key]
      ensures Normalize(url) in relayKeys && relayKeys[Normalize(url)] == key
    {
      key := nextRelayKey;
      nextRelayKey := NextU32(nextRelayKey);
      relayPool := relayPool + {key};
      relayKeys := relayKeys[Normalize(url) := key];
      newRelays := newRelays + [key];
    }

    /** Claim the slot for `peer`; a failed claim changes nothing. */
    method BeginSignaling(peer: Peer, relay: nat) returns (ok: bool)
      modifies this`signaling
      ensures ok <==> peer !in old(signaling)
      ensures signaling == if ok then old(signaling)[peer := relay] else old(signaling)
    {
      if peer in signaling {
        return false;
      }
      signaling := signaling[peer := relay];
      return true;
    }

    method EndSignaling(peer: Peer)
      modifies this`signaling, this`signalInboxes
      ensures Contents() == ReleaseSlot(old(Contents()), peer)
    {
      signaling := signaling - {peer};
      signalInboxes := signalInboxes - {peer};
    }

    method PopSignalInbox(peer: Peer) returns (payload: Option<Payload>)
      modifies this`signalInboxes
      ensures Contents().slots == PopInbox(old(Contents().slots), peer)
      ensures var inbox := InboxOf(old(Contents().slots), peer); payload == if inbox == [] then None else Some(inbox[0])
    {
      if peer !in signalInboxes || signalInboxes[peer] == [] {
        return None;
      }
      payload := Some(signalInboxes[peer][0]);
      signalInboxes := signalInboxes[peer := signalInboxes[peer][1..]];
    }

    /** The registry half of `register_channel`. */
    method AddChannel(peer: Peer, fallbackRelay: nat) returns (id: nat)
      modifies this`channels, this`newChannels, this`nextChannelId
      ensures Tables() == WithChannel(old(Tables()), peer, fallbackRelay) && id == nextChannelId
    {
      nextChannelId := NextU32(nextChannelId);
      id := nextChannelId;
      channels := channels[id := ChannelEntry(peer, fallbackRelay)];
      newChannels := newChannels + [id];
    }

    /** Register an open channel and move the peer's route onto it; a closing endpoint closes the wire. */
    method RegisterChannel(peer: Peer, wire: ChannelWire) returns (ok: bool)
      requires Valid() && InRange(Tables())
      modifies this`channels, this`newChannels, this`nextChannelId
      modifies this`nextHost, this`peerToAddr, this`addrToPeer, this`routes, wire
      ensures Valid() && Tables() == Endpoint.RegisterChannel(old(Contents()), peer).routing
      ensures ok <==> !closed && !dead
      ensures wire.closed == (old(wire.closed) || !ok)
    {
      if closed || dead {
        wire.closed := true;
        return false;
      }
      var fallbackRelay := if peer in signaling then signaling[peer] else HOME_RELAY;
      MoveOntoChannel(peer, fallbackRelay);
      return true;
    }

    method MoveOntoChannel(peer: Peer, fallbackRelay: nat)
      requires Valid() && InRange(Tables())
      modifies this`channels, this`newChannels, this`nextChannelId
      modifies this`nextHost, this`peerToAddr, this`addrToPeer, this`routes
      ensures Valid() && Tables() == Register(old(Tables()), peer, fallbackRelay)
    {
      ghost var r := Tables();
      RegisterInOrder(r, peer, fallbackRelay);
      var id := AddChannel(peer, fallbackRelay);
      var synthetic := AddrForPeer(peer, fallbackRelay);
      routes := routes[synthetic := Channel(id)];
      assert Tables() == Register(r, peer, fallbackRelay);
    }

    method RetireChannel(id: nat)
      requires Valid()
      modifies this`channels, this`routes
      ensures Valid() && Tables() == Retire(old(Tables()), id)
    {
      RetireKeeps(Tables(), id);
      if id !in channels {
        return;
      }
      var entry := channels[id];
      channels := channels - {id};
      if entry.peer in peerToAddr {
        var synthetic := peerToAddr[entry.peer];
        if synthetic in routes && routes[synthetic] == Channel(id) {
          routes := routes[synthetic := Relay(entry.fallbackRelay)];
        }
      }
    }

    /** Every connection without an error gets one. */
    method MarkDead()
      modifies this`dead, this`conns
      ensures dead && conns == Endpoint.MarkDead(old(Contents())).conns
      ensures forall h :: h in conns ==>
                conns[h].error == if old(conns)[h].error.None? then Some(Closed) else old(conns)[h].error
    {
      dead := true;
      var todo := conns.Keys;
      while todo != {}
        invariant dead && conns.Keys == old(conns).Keys && todo <= conns.Keys
        invariant forall h :: h in todo ==> conns[h] == old(conns)[h]
        invariant forall h :: h in conns.Keys - todo ==>
                    conns[h] == if old(conns)[h].error.None? then old(conns)[h].(error := Some(Closed))
                                else old(conns)[h]
        decreases todo
      {
        var h :| h in todo;
        if conns[h].error.None? {
          conns := conns[h := conns[h].(error := Some(Closed))];
        }
        todo := todo - {h};
      }
      assert conns == map h | h in old(conns) ::
        if old(conns)[h].error.None? then old(conns)[h].(error := Some(Closed)) else old(conns)[h];
    }

    /** Send an endpoint-level response back by the stand-in's current route. */
    method PushResponse(addr: SocketAddr, source: Option<Peer>, payload: Bytes)
      modifies this`relayOutbound, this`udpOutbound, this`channelOutbound
      ensures Queues() == Endpoint.PushResponse(Tables(), old(Queues()), addr, source, payload)
      ensures addr !in routes ==> udpOutbound == old(udpOutbound) + [UdpItem(addr, payload)]
      ensures addr in routes && routes[addr].Relay? && source.Some? ==>
                relayOutbound == old(relayOutbound) + [RelayItem(routes[addr].key, source.value, payload)]
      ensures addr in routes && routes[addr].Channel? ==>
                channelOutbound == old(channelOutbound) + [ChannelItem(routes[addr].id, payload)]
    {
      if addr in routes && routes[addr].Relay? && source.Some? {
        relayOutbound := relayOutbound + [RelayItem(routes[addr].key, source.value, payload)];
      } else if addr in routes && routes[addr].Channel? {
        channelOutbound := channelOutbound + [ChannelItem(routes[addr].id, payload)];
      } else {
        udpOutbound := udpOutbound + [UdpItem(addr, payload)];
      }
    }

    /** One datagram, on which the QUIC core gave verdict `v`. */
    method HandleDatagram(addr: SocketAddr, source: Option<Peer>, v: Verdict)
      modifies this`conns, this`relayOutbound, this`udpOutbound, this`channelOutbound
      ensures conns == ConnsAfter(old(Contents()), source, v)
      ensures Queues() == Endpoint.HandleDatagram(old(Contents()), addr, source, v).out
      ensures v.Accepted? && !closed ==>
                && v.h in conns && conns[v.h].conn == v.reaction && conns[v.h].expectedPeer == source
                && conns[v.h].acceptedSide && !conns[v.h].connected && conns[v.h].error == None
      ensures forall h :: h in old(conns) && (v.ToConnection? || v.Accepted? ==> h != v.h) ==>
                h in conns && conns[h] == old(conns)[h]
      ensures v.ToConnection? && v.h in old(conns) ==>
                && v.h in conns && conns[v.h] == old(conns)[v.h].(conn := conns[v.h].conn)
                && conns[v.h].conn.apps == old(conns)[v.h].conn.apps + v.reaction.apps
                && conns[v.h].conn.txs == old(conns)[v.h].conn.txs + v.reaction.txs
    {
      match v
      case ToConnection(h, reaction) =>
        if h in conns {
          conns := conns[h := Feed(conns[h], reaction)];
        }
      case Accepted(h, reaction) =>
        if !closed {
          conns := conns[h := NewEntry(reaction, source, true)];
        }
      case Refused(response) =>
        if !closed && response.Some? {
          PushResponse(addr, source, response.value);
        }
      case Response(data) => PushResponse(addr, source, data);
      case Ignored =>
    }

    method HandleRelayDatagram(via: nat, source: Peer, v: Verdict)
      requires Valid() && nextHost < U32_MAX
      modifies this`nextHost, this`peerToAddr, this`addrToPeer, this`routes, this`conns
      modifies this`relayOutbound, this`udpOutbound, this`channelOutbound
      ensures Valid() && Tables() == Mention(old(Tables()), source, via)
      ensures conns == ConnsAfter(old(Contents()), Some(source), v)
      ensures Queues() == HandlePeerDatagram(old(Contents()), source, via, v).out
    {
      ghost var was := Contents();
      var addr := NameSender(source, via);
      EnteredAsPeer(was, Contents(), source, via, v);
      EnterCore(addr, Some(source), v);
    }

    /** `AddrForPeer`, as far as an arriving datagram is concerned. */
    method NameSender(peer: Peer, via: nat) returns (addr: SocketAddr)
      requires Valid() && nextHost < U32_MAX
      modifies this`nextHost, this`peerToAddr, this`addrToPeer, this`routes
      ensures Valid() && Tables() == Mention(old(Tables()), peer, via)
      ensures Contents() == old(Contents()).(routing := Tables()) && addr == Tables().peerToAddr[peer]
    {
      addr := AddrForPeer(peer, via);
    }

    lemma EnteredAsPeer(was: Ep, at: Ep, peer: Peer, via: nat, v: Verdict)
      requires at == was.(routing := Mention(was.routing, peer, via))
      ensures ConnsAfter(at, Some(peer), v) == ConnsAfter(was, Some(peer), v)
      ensures Endpoint.HandleDatagram(at, at.routing.peerToAddr[peer], Some(peer), v).out
              == HandlePeerDatagram(was, peer, via, v).out
    {
    }

    method EnterCore(addr: SocketAddr, source: Option<Peer>, v: Verdict)
      modifies this`conns, this`relayOutbound, this`udpOutbound, this`channelOutbound
      ensures conns == ConnsAfter(old(Contents()), source, v)
      ensures Queues() == Endpoint.HandleDatagram(old(Contents()), addr, source, v).out
    {
      HandleDatagram(addr, source, v);
    }

    /** A datagram of a channel already retired is dropped; any other enters as its peer's. */
    method HandleChannelDatagram(id: nat, v: Verdict)
      requires Valid() && nextHost < U32_MAX
      modifies this`nextHost, this`peerToAddr, this`addrToPeer, this`routes, this`conns
      modifies this`relayOutbound, this`udpOutbound, this`channelOutbound
      ensures Valid()
      ensures id !in old(channels) ==> Contents() == old(Contents())
      ensures id in old(channels) ==>
                var entry := old(channels)[id];
                && Tables() == Mention(old(Tables()), entry.peer, entry.fallbackRelay)
                && conns == ConnsAfter(old(Contents()), Some(entry.peer), v)
                && Queues() == HandlePeerDatagram(old(Contents()), entry.peer, entry.fallbackRelay, v).out
    {
      if id in channels {
        HandleRelayDatagram(channels[id].fallbackRelay, channels[id].peer, v);
      }
    }

    /** File a signal in the peer's inbox, claiming the slot for an answerer if it is free. */
    method HandleSignal(via: nat, source: Peer, payload: Payload) returns (spawnAnswerer: bool)
      modifies this`signaling, this`signalInboxes
      ensures spawnAnswerer <==> webrtcEnabled && !closed && !dead && source !in old(signaling)
      ensures !webrtcEnabled || closed || dead ==> signaling == old(signaling) && signalInboxes == old(signalInboxes)
      ensures webrtcEnabled && !closed && !dead ==>
                && signaling == (if spawnAnswerer then old(signaling)[source := via] else old(signaling))
                && source in signalInboxes
                && var inbox := if source in old(signalInboxes) then old(signalInboxes)[source] else [];
                   signalInboxes[source] == if |inbox| < 64 then inbox + [payload] else inbox
      ensures Contents() == if TakesSignals(old(Contents()))
                            then old(Contents()).(slots := FileSignal(old(Contents()).slots, via, source, payload))
                            else old(Contents())
    {
      if !webrtcEnabled || closed || dead {
        return false;
      }
      spawnAnswerer := source !in signaling;
      if spawnAnswerer {
        signaling := signaling[source := via];
      }
      var inbox := if source in signalInboxes then signalInboxes[source] else [];
      if |inbox| < INBOX_CAP {
        inbox := inbox + [payload];
      }
      signalInboxes := signalInboxes[source := inbox];
    }

    /** Due timers and local closes: each connection that has a reaction takes it. */
    method FeedEach(reactions: map<Handle, Reaction>)
      modifies this`conns
      ensures conns == FeedAll(old(conns), reactions)
      ensures forall h :: h in conns && h in reactions ==>
                && conns[h].conn.apps == old(conns)[h].conn.apps + reactions[h].apps
                && conns[h].conn.txs == old(conns)[h].conn.txs + reactions[h].txs
    {
      var todo := conns.Keys;
      while todo != {}
        invariant conns.Keys == old(conns).Keys && todo <= conns.Keys
        invariant forall h :: h in todo ==> conns[h] == old(conns)[h]
        invariant forall h :: h in conns.Keys - todo ==>
                    conns[h] == if h in reactions then Feed(old(conns)[h], reactions[h]) else old(conns)[h]
        decreases todo
      {
        var h :| h in todo;
        if h in reactions {
          conns := conns[h := Feed(conns[h], reactions[h])];
        }
        todo := todo - {h};
      }
      assert conns == FeedAll(old(conns), reactions);
    }

    /** Close the endpoint, once; `reactions` are the core's to closing each connection. */
    method Close(reactions: map<Handle, Reaction>)
      modifies this`closed, this`conns
      ensures closed && conns == Endpoint.Close(old(Contents()), reactions).conns
      ensures old(closed) ==> conns == old(conns)
      ensures forall h :: h in conns && h in reactions && !old(closed) ==>
                old(conns)[h].error.None? && !old(conns)[h].drained ==>
                conns[h].conn.txs == old(conns)[h].conn.txs + reactions[h].txs
    {
      if !closed {
        closed := true;
        FeedEach(map h | h in reactions && h in Closable(conns) :: reactions[h]);
      }
    }

    /** One poll of `accept`: the oldest surfaced handle, also of an endpoint that is closing. */
    method PollAccept() returns (r: AcceptPoll)
      modifies this`acceptQueue
      ensures match r
              case Surfaced(h) => old(acceptQueue) == [h] + acceptQueue
              case Refused => old(acceptQueue) == acceptQueue == [] && (closed || dead)
              case Waits => old(acceptQueue) == acceptQueue == [] && !closed && !dead
    {
      if acceptQueue != [] {
        r := Surfaced(acceptQueue[0]);
        acceptQueue := acceptQueue[1..];
      } else if closed || dead {
        r := AcceptPoll.Refused;
      } else {
        r := Waits;
      }
    }

    /** `ensure_relay` up to its first await. */
    method ClaimRelay(url: string) returns (r: RelayClaim)
      modifies this`relayOpening
      ensures match r
              case Known(key) => Normalize(url) in relayKeys && key == relayKeys[Normalize(url)]
              case Closing => Normalize(url) !in relayKeys && (closed || dead)
              case Opens => Normalize(url) !in relayKeys && Normalize(url) !in old(relayOpening) && !closed && !dead
              case Awaits => Normalize(url) !in relayKeys && Normalize(url) in old(relayOpening) && !closed && !dead
      ensures relayOpening == if r == RelayClaim.Opens then old(relayOpening) + {Normalize(url)} else old(relayOpening)
    {
      var normalized := Normalize(url);
      if normalized in relayKeys {
        return Known(relayKeys[normalized]);
      }
      if closed || dead {
        return Closing;
      }
      r := if normalized in relayOpening then Awaits else RelayClaim.Opens;
      relayOpening := relayOpening + {normalized};
    }

    /** The end of a claimed open. */
    method FinishRelay(url: string, ok: bool) returns (key: Option<nat>)
      modifies this`relayOpening, this`nextRelayKey, this`relayPool, this`relayKeys, this`newRelays
      ensures Pool() == RelayOpenEnds(old(Pool()), url, ok)
      ensures key == if ok then Some(old(nextRelayKey)) else None
      ensures ok ==> key.value in relayPool && key.value in newRelays
      ensures Normalize(url) !in relayOpening && (!ok ==> relayPool == old(relayPool))
    {
      relayOpening := relayOpening - {Normalize(url)};
      if !ok {
        return None;
      }
      var k := RegisterRelay(url);
      return Some(k);
    }

    /** The block of `connect` that names the peer, points its route and starts the connection. */
    method Dial(peer: Peer, direct: Option<SocketAddr>, dialKey: nat, upgradeKey: Option<nat>,
                made: Option<(Handle, Reaction)>)
      returns (remote: Option<SocketAddr>)
      requires Valid() && nextHost < U32_MAX
      modifies this`nextHost, this`peerToAddr, this`addrToPeer, this`routes, this`conns, this`pendingUpgrades
      ensures Valid()
      ensures closed || dead ==> remote == None && Contents() == old(Contents())
      ensures !closed && !dead ==>
                && remote == Some(if direct.Some? then direct.value
                                  else Mention(old(Tables()), peer, dialKey).peerToAddr[peer])
                && Tables() == (if direct.Some? then old(Tables()) else Redial(old(Tables()), peer, dialKey))
                && conns == Endpoint.Dial(old(Contents()), peer, direct, dialKey, upgradeKey, made).conns
                && pendingUpgrades
                   == Endpoint.Dial(old(Contents()), peer, direct, dialKey, upgradeKey, made).pendingUpgrades
    {
      if closed || dead {
        return None;
      }
      match direct {
        case Some(addr) => remote := Some(addr);
        case None =>
          var standin := PointRoute(peer, dialKey);
          remote := Some(standin);
      }
      if made.Some? {
        AddDialed(peer, upgradeKey, made.value.0, made.value.1);
      }
    }

    /** The new connection, and its upgrade if one was asked for. */
    method AddDialed(peer: Peer, upgradeKey: Option<nat>, h: Handle, reaction: Reaction)
      modifies this`conns, this`pendingUpgrades
      ensures conns == old(conns)[h := NewEntry(reaction, Some(peer), false)]
      ensures pendingUpgrades == old(pendingUpgrades) + if upgradeKey.Some? then [(peer, upgradeKey.value)] else []
    {
      conns := conns[h := NewEntry(reaction, Some(peer), false)];
      if upgradeKey.Some? {
        pendingUpgrades := pendingUpgrades + [(peer, upgradeKey.value)];
      }
    }

    /** A stand-in still routed to some relay follows the dial; a channel route stays. */
    method PointRoute(peer: Peer, dialKey: nat) returns (standin: SocketAddr)
      requires Valid() && nextHost < U32_MAX
      modifies this`nextHost, this`peerToAddr, this`addrToPeer, this`routes
      ensures Valid() && Tables() == Redial(old(Tables()), peer, dialKey)
      ensures standin == Mention(old(Tables()), peer, dialKey).peerToAddr[peer]
    {
      RedialKeeps(Tables(), peer, dialKey);
      standin := AddrForPeer(peer, dialKey);
      if standin in routes && routes[standin].Relay? {
        routes := routes[standin := Relay(dialKey)];
      }
      assert Tables() == Redial(old(Tables()), peer, dialKey);
    }

    // --- drain -------------------------------------------------------------------------------

    /** Events left on connection `h`. */
    ghost function Left(h: Handle): nat
      requires h in conns
      reads this
    {
      Count(Measure.Events, conns[h].conn)
    }

    /** One `poll_endpoint_events`, and the core's answer handed back to the connection. */
    method TakeOneEndpointEvent(h: Handle)
      requires CanPoll(Contents(), EndpointEvents(h))
      modifies this`conns
      ensures conns == old(conns)[h := TakeEndpointEvent(old(conns)[h])] && Left(h) < old(Left(h))
    {
      TakeEndpointEventCounts(conns[h], Measure.Events);
      var e := conns[h];
      var event := e.conn.eps[0];
      conns := conns[h := e.(conn := e.conn.(eps := e.conn.eps[1..]))];
      if event.Answered? {
        conns := conns[h := Feed(conns[h], event.back)];
      }
    }

    /** One `poll`, recorded by `on_event`. */
    method TakeOneEvent(h: Handle)
      requires CanPoll(Contents(), Poll.Events(h))
      modifies this`conns, this`acceptQueue
      ensures conns == old(conns)[h := TakeEvent(old(conns)[h])] && Left(h) < old(Left(h))
      ensures acceptQueue == old(acceptQueue)
                             + if Surfaces(old(conns)[h], old(conns)[h].conn.apps[0]) then [h] else []
    {
      TakeEventCounts(conns[h], Measure.Events);
      var e, event := conns[h], conns[h].conn.apps[0];
      var e', surfaces := RecordEvent(e.(conn := e.conn.(apps := e.conn.apps[1..])), event);
      conns := conns[h := e'];
      if surfaces {
        acceptQueue := acceptQueue + [h];
      }
    }

    /** One `poll_transmit`, queued by its destination's wire; the table lookup never misses. */
    method TakeOneTransmit(h: Handle)
      requires routes.Keys <= addrToPeer.Keys && CanPoll(Contents(), Transmits(h))
      modifies this`conns, this`relayOutbound, this`udpOutbound, this`channelOutbound
      ensures conns == old(conns)[h := TakeTransmit(old(conns)[h])] && Left(h) < old(Left(h))
      ensures Queues() == Enqueue(Tables(), old(Queues()), old(conns)[h].conn.txs[0])
    {
      TakeTransmitCounts(conns[h], Measure.Events);
      var t := conns[h].conn.txs[0];
      conns := conns[h := TakeTransmit(conns[h])];
      if t.dest in routes {
        match routes[t.dest]
        case Relay(key) =>
          var peer := addrToPeer[t.dest];
          relayOutbound := relayOutbound + [RelayItem(key, peer, t.data)];
        case Channel(id) => channelOutbound := channelOutbound + [ChannelItem(id, t.data)];
      } else {
        udpOutbound := udpOutbound + [UdpItem(t.dest, t.data)];
      }
    }

    /** The polls `ps` lead from `before` to the present state. */
    ghost predicate Polled(before: Ep, ps: seq<Poll>)
      reads this
    {
      CanPollAll(before, ps) && Contents() == DoPolls(before, ps)
    }

    /** What is kept while connection `h` is polled. */
    ghost predicate Others(before: map<Handle, ConnEntry>, h: Handle)
      reads this
    {
      h in before && conns.Keys == before.Keys && forall k :: k in conns && k != h ==> conns[k] == before[k]
    }

    lemma PollAppends(before: Ep, ps: seq<Poll>, at: Ep, p: Poll)
      requires CanPollAll(before, ps) && at == DoPolls(before, ps)
      requires CanPoll(at, p) && Contents() == DoPoll(at, p)
      ensures Polled(before, ps + [p])
    {
      OnePoll(at, p);
      PollsConcat(before, ps, [p]);
    }

    method PollEndpointEvents(h: Handle, ghost before: Ep, ghost done: seq<Poll>)
      returns (progressed: bool, ghost ps: seq<Poll>)
      requires h in conns && Polled(before, done)
      modifies this`conns
      ensures Polled(before, ps) && Others(old(conns), h) && conns[h].conn.eps == []
      ensures if progressed then Left(h) < old(Left(h)) else conns == old(conns)
    {
      progressed, ps := false, done;
      while conns[h].conn.eps != []
        invariant Polled(before, ps) && Others(old(conns), h)
        invariant if progressed then Left(h) < old(Left(h)) else conns == old(conns)
        decreases Left(h)
      {
        ghost var at := Contents();
        TakeOneEndpointEvent(h);
        PollAppends(before, ps, at, EndpointEvents(h));
        progressed, ps := true, ps + [EndpointEvents(h)];
      }
    }

    /** `TakeOneEvent`, with the poll recorded. */
    method EventPolled(h: Handle, ghost before: Ep, ghost done: seq<Poll>) returns (ghost ps: seq<Poll>)
      requires CanPoll(Contents(), Poll.Events(h)) && Polled(before, done)
      modifies this`conns, this`acceptQueue
      ensures Polled(before, ps) && Others(old(conns), h) && Left(h) < old(Left(h))
    {
      ghost var at := Contents();
      TakeOneEvent(h);
      PollAppends(before, done, at, Poll.Events(h));
      ps := done + [Poll.Events(h)];
    }

    method PollEvents(h: Handle, ghost before: Ep, ghost done: seq<Poll>)
      returns (progressed: bool, ghost ps: seq<Poll>)
      requires h in conns && Polled(before, done)
      modifies this`conns, this`acceptQueue
      ensures Polled(before, ps) && Others(old(conns), h) && conns[h].conn.apps == []
      ensures if progressed then Left(h) < old(Left(h)) else conns == old(conns)
    {
      progressed, ps := false, done;
      while conns[h].conn.apps != []
        invariant Polled(before, ps) && Others(old(conns), h)
        invariant if progressed then Left(h) < old(Left(h)) else conns == old(conns)
        decreases Left(h)
      {
        ps := EventPolled(h, before, ps);
        progressed := true;
      }
    }

    /** `TakeOneTransmit`, with the poll recorded. */
    method TransmitPolled(h: Handle, ghost before: Ep, ghost done: seq<Poll>) returns (ghost ps: seq<Poll>)
      requires routes.Keys <= addrToPeer.Keys && CanPoll(Contents(), Transmits(h)) && Polled(before, done)
      modifies this`conns, this`relayOutbound, this`udpOutbound, this`channelOutbound
      ensures Polled(before, ps) && Others(old(conns), h) && Left(h) < old(Left(h))
    {
      ghost var at := Contents();
      TakeOneTransmit(h);
      PollAppends(before, done, at, Transmits(h));
      ps := done + [Transmits(h)];
    }

    method PollTransmits(h: Handle, ghost before: Ep, ghost done: seq<Poll>)
      returns (progressed: bool, ghost ps: seq<Poll>)
      requires routes.Keys <= addrToPeer.Keys && h in conns && Polled(before, done)
      modifies this`conns, this`relayOutbound, this`udpOutbound, this`channelOutbound
      ensures Polled(before, ps) && Others(old(conns), h) && conns[h].conn.txs == []
      ensures if progressed then Left(h) < old(Left(h)) else conns == old(conns)
    {
      progressed, ps := false, done;
      while conns[h].conn.txs != []
        invariant Polled(before, ps) && Others(old(conns), h)
        invariant if progressed then Left(h) < old(Left(h)) else conns == old(conns)
        decreases Left(h)
      {
        ps := TransmitPolled(h, before, ps);
        progressed := true;
      }
    }

    /** One connection polled until a whole round finds nothing. */
    method DrainConnection(h: Handle, ghost before: Ep, ghost done: seq<Poll>) returns (ghost ps: seq<Poll>)
      requires routes.Keys <= addrToPeer.Keys && h in conns && Polled(before, done)
      modifies this`conns, this`acceptQueue, this`relayOutbound, this`udpOutbound, this`channelOutbound
      ensures Polled(before, ps) && Others(old(conns), h) && Quiescent(conns[h])
    {
      ps := done;
      var progressed := true;
      while progressed
        invariant Polled(before, ps) && Others(old(conns), h)
        invariant !progressed ==> Quiescent(conns[h])
        decreases Left(h), progressed
      {
        var p1, p2, p3;
        p1, ps := PollEndpointEvents(h, before, ps);
        p2, ps := PollEvents(h, before, ps);
        p3, ps := PollTransmits(h, before, ps);
        progressed := p1 || p2 || p3;
      }
    }

    /**
     * Poll every connection, in whatever order the map yields them, until all are quiescent;
     * `drainedNow` are those the core then reports drained.
     */
    method Drain(drainedNow: set<Handle>) returns (ghost ps: seq<Poll>)
      requires Valid()
      modifies this`conns, this`acceptQueue, this`relayOutbound, this`udpOutbound, this`channelOutbound
      ensures Valid() && Polled(old(Contents()), ps)
      ensures conns.Keys == old(conns).Keys
      ensures forall h :: h in conns ==> Settled(conns[h], h in drainedNow)
    {
      ps := DrainEach(drainedNow, Contents());
    }

    method DrainEach(drainedNow: set<Handle>, ghost before: Ep) returns (ghost ps: seq<Poll>)
      requires routes.Keys <= addrToPeer.Keys && Contents() == before
      modifies this`conns, this`acceptQueue, this`relayOutbound, this`udpOutbound, this`channelOutbound
      ensures Polled(before, ps) && conns.Keys == old(conns).Keys
      ensures forall h :: h in conns ==> Settled(conns[h], h in drainedNow)
    {
      ps := [];
      var todo := conns.Keys;
      while todo != {}
        invariant Polled(before, ps)
        invariant conns.Keys == old(conns).Keys && todo <= conns.Keys
        invariant AllSettled(conns, todo, drainedNow)
        decreases todo
      {
        var h :| h in todo;
        ghost var was := conns;
        ps := FinishConnection(h, h in drainedNow, before, ps);
        SettlesOneMore(was, h, todo, drainedNow);
        todo := todo - {h};
      }
    }

    lemma SettlesOneMore(was: map<Handle, ConnEntry>, h: Handle, todo: set<Handle>, drainedNow: set<Handle>)
      requires AllSettled(was, todo, drainedNow) && Others(was, h) && Settled(conns[h], h in drainedNow)
      ensures AllSettled(conns, todo - {h}, drainedNow)
    {
    }

    method FinishConnection(h: Handle, isDrained: bool, ghost before: Ep, ghost done: seq<Poll>)
      returns (ghost ps: seq<Poll>)
      requires routes.Keys <= addrToPeer.Keys && h in conns && Polled(before, done)
      modifies this`conns, this`acceptQueue, this`relayOutbound, this`udpOutbound, this`channelOutbound
      ensures Polled(before, ps) && Others(old(conns), h)
      ensures Settled(conns[h], isDrained)
    {
      ps := DrainConnection(h, before, done);
      ps := RecordDrained(h, isDrained, before, ps);
    }

    /** `drained` is latched once the core reports the connection drained. */
    method RecordDrained(h: Handle, isDrained: bool, ghost before: Ep, ghost done: seq<Poll>)
      returns (ghost ps: seq<Poll>)
      requires h in conns && Polled(before, done)
      modifies this`conns
      ensures Polled(before, ps) && Others(old(conns), h)
      ensures conns[h] == if isDrained then old(conns)[h].(drained := true) else old(conns)[h]
    {
      ps := done;
      if !conns[h].drained && isDrained {
        ghost var at := Contents();
        conns := conns[h := conns[h].(drained := true)];
        PollAppends(before, ps, at, IsDrained(h));
        ps := ps + [IsDrained(h)];
      }
    }
  }
}
