/** The peer/stand-in tables, the route table and the channel registry of `State`. */
module RoutingTables {
  import opened Types

  /** The wire behind one stand-in address. */
  datatype RouteWire = Relay(key: nat) | Channel(id: nat)

  /** A registered channel. Its wire is identified with its id. */
  datatype ChannelEntry = ChannelEntry(peer: Peer, fallbackRelay: nat)

  datatype Routing = Routing(
    peerToAddr: map<Peer, SocketAddr>,
    addrToPeer: map<SocketAddr, Peer>,
    nextHost: nat,
    routes: map<SocketAddr, RouteWire>,
    channels: map<nat, ChannelEntry>,
    newChannels: seq<nat>,
    nextChannelId: nat)

  const EmptyRouting := Routing(map[], map[], 0, map[], map[], [], 0)

  /** The effect of `addr_for_peer`; the address it returns is `peerToAddr[peer]` afterwards. */
  function Mention(r: Routing, peer: Peer, via: nat): (r': Routing)
    ensures peer in r'.peerToAddr
  {
    if peer in r.peerToAddr then r
    else
      var host := NextU32(r.nextHost);
      var addr := Standin(host);
      r.(nextHost := host,
         peerToAddr := r.peerToAddr[peer := addr],
         addrToPeer := r.addrToPeer[addr := peer],
         routes := r.routes[addr := Relay(via)])
  }

  /** The routing half of `connect`: an explicit dial moves a relay route, never a channel route. */
  function Redial(r: Routing, peer: Peer, key: nat): Routing {
    var r' := Mention(r, peer, key);
    var standin := r'.peerToAddr[peer];
    if standin in r'.routes && r'.routes[standin].Relay?
    then r'.(routes := r'.routes[standin := Relay(key)])
    else r'
  }

  /** The accepting half of `register_channel`. */
  function Register(r: Routing, peer: Peer, fallback: nat): Routing {
    var id := NextU32(r.nextChannelId);
    var r' := Mention(r, peer, fallback);
    r'.(nextChannelId := id,
        channels := r'.channels[id := ChannelEntry(peer, fallback)],
        newChannels := r'.newChannels + [id],
        routes := r'.routes[r'.peerToAddr[peer] := Channel(id)])
  }

  /** `retire_channel`: only a route still on this channel falls back. */
  function Retire(r: Routing, id: nat): Routing {
    if id !in r.channels then r
    else
      var entry := r.channels[id];
      var r1 := r.(channels := r.channels - {id});
      if entry.peer in r.peerToAddr
         && r.peerToAddr[entry.peer] in r.routes
         && r.routes[r.peerToAddr[entry.peer]] == Channel(id)
      then r1.(routes := r1.routes[r.peerToAddr[entry.peer] := Relay(entry.fallbackRelay)])
      else r1
  }

  /** The pump's `mem::take` of the channels to arm. */
  function TakeNew(r: Routing): Routing {
    r.(newChannels := [])
  }

  function RouteOf(r: Routing, dest: SocketAddr): Option<RouteWire> {
    if dest in r.routes then Some(r.routes[dest]) else None
  }

  /** Everything a step may do to the tables. */
  datatype RoutingOp =
    | Keep
    | Mentioned(peer: Peer, via: nat)
    | Redialed(peer: Peer, via: nat)
    | Registered(peer: Peer, via: nat)
    | Retired(id: nat)
    | Taken

  function ApplyOp(r: Routing, op: RoutingOp): Routing {
    match op
    case Keep => r
    case Mentioned(peer, via) => Mention(r, peer, via)
    case Redialed(peer, via) => Redial(r, peer, via)
    case Registered(peer, via) => Register(r, peer, via)
    case Retired(id) => Retire(r, id)
    case Taken => TakeNew(r)
  }

  /** The assumption that the `u32` counters do not wrap. */
  predicate InRange(r: Routing) {
    r.nextHost < U32_MAX && r.nextChannelId < U32_MAX
  }

  ghost predicate RoutingInv(r: Routing) {
    && (forall p :: p in r.peerToAddr ==>
          r.peerToAddr[p] in r.addrToPeer && r.addrToPeer[r.peerToAddr[p]] == p)
    && (forall a :: a in r.addrToPeer ==>
          r.addrToPeer[a] in r.peerToAddr && r.peerToAddr[r.addrToPeer[a]] == a)
    && r.routes.Keys == r.addrToPeer.Keys
    && (forall a :: a in r.addrToPeer ==> IsStandin(a) && 1 <= HostOf(a) <= r.nextHost)
    && (forall a :: a in r.routes && r.routes[a].Channel? ==>
          r.routes[a].id in r.channels && r.channels[r.routes[a].id].peer == r.addrToPeer[a])
    && (forall id :: id in r.channels ==> 1 <= id <= r.nextChannelId)
  }

  /** No stand-in changes hands from `r` to `r'`. */
  ghost predicate AddressesKept(r: Routing, r': Routing) {
    && (forall p :: p in r.peerToAddr ==> p in r'.peerToAddr && r'.peerToAddr[p] == r.peerToAddr[p])
    && (forall a :: a in r.addrToPeer ==> a in r'.addrToPeer && r'.addrToPeer[a] == r.addrToPeer[a])
  }

  /** A first mention takes an address no peer has and disturbs nothing else. */
  lemma MentionKeeps(r: Routing, peer: Peer, via: nat)
    requires RoutingInv(r) && r.nextHost < U32_MAX
    ensures RoutingInv(Mention(r, peer, via))
    ensures AddressesKept(r, Mention(r, peer, via))
  {
    StandinDecodes(NextU32(r.nextHost));
  }

  /** Moving the route of an assigned stand-in keeps the tables, if the target is live. */
  lemma SetRouteKeeps(r: Routing, a: SocketAddr, wire: RouteWire)
    requires RoutingInv(r) && a in r.addrToPeer
    requires wire.Channel? ==> wire.id in r.channels && r.channels[wire.id].peer == r.addrToPeer[a]
    ensures RoutingInv(r.(routes := r.routes[a := wire]))
  {
  }

  lemma RegisterKeeps(r: Routing, peer: Peer, fallback: nat)
    requires RoutingInv(r) && InRange(r)
    ensures RoutingInv(Register(r, peer, fallback))
  {
    MentionKeeps(r, peer, fallback);
    var id := NextU32(r.nextChannelId);
    var r1 := Mention(r, peer, fallback);
    var r2 := r1.(nextChannelId := id,
                  channels := r1.channels[id := ChannelEntry(peer, fallback)],
                  newChannels := r1.newChannels + [id]);
    assert RoutingInv(r2) by {
      assert r1.nextChannelId == r.nextChannelId;
    }
    SetRouteKeeps(r2, r2.peerToAddr[peer], Channel(id));
  }

  /** The tables with one more channel, before its peer's route moves. */
  function WithChannel(r: Routing, peer: Peer, fallback: nat): Routing {
    var id := NextU32(r.nextChannelId);
    r.(nextChannelId := id,
       channels := r.channels[id := ChannelEntry(peer, fallback)],
       newChannels := r.newChannels + [id])
  }

  /** `register_channel` adds the channel, then mentions the peer, then moves the route. */
  lemma RegisterInOrder(r: Routing, peer: Peer, fallback: nat)
    requires RoutingInv(r) && InRange(r)
    ensures var r1 := WithChannel(r, peer, fallback); var r2 := Mention(r1, peer, fallback);
            && RoutingInv(r1) && r1.nextHost < U32_MAX
            && Register(r, peer, fallback) == r2.(routes := r2.routes[r2.peerToAddr[peer] := Channel(r1.nextChannelId)])
            && RoutingInv(Register(r, peer, fallback))
  {
    RegisterKeeps(r, peer, fallback);
  }

  lemma RetireKeeps(r: Routing, id: nat)
    requires RoutingInv(r)
    ensures RoutingInv(Retire(r, id))
  {
  }

  lemma RedialKeeps(r: Routing, peer: Peer, key: nat)
    requires RoutingInv(r) && r.nextHost < U32_MAX
    ensures RoutingInv(Redial(r, peer, key))
  {
    MentionKeeps(r, peer, key);
    var r' := Mention(r, peer, key);
    SetRouteKeeps(r', r'.peerToAddr[peer], Relay(key));
  }

  /** Every operation keeps the tables a bijection with live channel targets. */
  lemma OpKeeps(r: Routing, op: RoutingOp)
    requires RoutingInv(r) && InRange(r)
    ensures RoutingInv(ApplyOp(r, op))
  {
    match op
    case Keep =>
    case Mentioned(peer, via) => MentionKeeps(r, peer, via);
    case Redialed(peer, via) => RedialKeeps(r, peer, via);
    case Registered(peer, via) => RegisterKeeps(r, peer, via);
    case Retired(id) => RetireKeeps(r, id);
    case Taken =>
  }

  /** A stand-in, once assigned, stays with its peer. */
  lemma OpKeepsAddresses(r: Routing, op: RoutingOp)
    requires RoutingInv(r) && InRange(r)
    ensures AddressesKept(r, ApplyOp(r, op))
  {
    match op
    case Mentioned(peer, via) => MentionKeeps(r, peer, via);
    case Redialed(peer, via) => MentionKeeps(r, peer, via);
    case Registered(peer, via) => MentionKeeps(r, peer, via);
    case _ =>
  }

  /** A channel keeps its entry until it is retired, and ids are never handed out twice. */
  lemma OpKeepsChannels(r: Routing, op: RoutingOp, id: nat)
    requires RoutingInv(r) && InRange(r)
    ensures var r' := ApplyOp(r, op);
            && r.nextChannelId <= r'.nextChannelId
            && (id in r.channels && op != Retired(id) ==> id in r'.channels && r'.channels[id] == r.channels[id])
            && (id in r'.channels && id !in r.channels ==>
                  op.Registered? && id == r'.nextChannelId > r.nextChannelId && r'.channels[id].peer == op.peer)
  {
  }

  /** A route leaves `Channel(i)` only for a younger channel, or when `i` itself is retired. */
  lemma ChannelRouteLeaves(r: Routing, op: RoutingOp, a: SocketAddr)
    requires RoutingInv(r) && InRange(r)
    requires a in r.routes && r.routes[a].Channel?
    ensures var i := r.routes[a].id; var r' := ApplyOp(r, op);
            && a in r'.routes
            && (r'.routes[a] == Channel(i)
                || (&& op.Registered? && op.peer == r.addrToPeer[a]
                    && r'.routes[a] == Channel(r'.nextChannelId) && i < r'.nextChannelId)
                || (op == Retired(i) && r'.routes[a] == Relay(r.channels[i].fallbackRelay)))
  {
    StandinDecodes(NextU32(r.nextHost));
  }

  /** A retired channel hands its route to its own fallback; every other route stays. */
  lemma RetireRestores(r: Routing, id: nat, a: SocketAddr)
    requires RoutingInv(r) && a in r.routes
    ensures var r' := Retire(r, id);
            && id !in r'.channels && a in r'.routes
            && (r.routes[a] == Channel(id) ==> r'.routes[a] == Relay(r.channels[id].fallbackRelay))
            && (r.routes[a] != Channel(id) ==> r'.routes[a] == r.routes[a])
  {
  }

  /** A registration moves the peer's route onto a channel with a new id and that fallback. */
  lemma RegisterMoves(r: Routing, peer: Peer, fallback: nat)
    requires RoutingInv(r) && InRange(r)
    ensures var r' := Register(r, peer, fallback); var id := r'.nextChannelId;
            && id == r.nextChannelId + 1 && id !in r.channels
            && peer in r'.peerToAddr && r'.peerToAddr[peer] in r'.routes
            && r'.routes[r'.peerToAddr[peer]] == Channel(id)
            && id in r'.channels && r'.channels[id] == ChannelEntry(peer, fallback)
  {
  }

  /** A registration leaves the routes of all other peers alone. */
  lemma RegisterLeavesOthers(r: Routing, peer: Peer, fallback: nat, b: SocketAddr)
    requires RoutingInv(r) && InRange(r)
    ensures var r' := Register(r, peer, fallback); b != r'.peerToAddr[peer] ==> RouteOf(r', b) == RouteOf(r, b)
  {
  }

  /** A peer mentioned for the first time is routed back over `via`; no other route changes. */
  lemma MentionRoutes(r: Routing, peer: Peer, via: nat, b: SocketAddr)
    requires RoutingInv(r) && r.nextHost < U32_MAX
    ensures RoutedBack(r, Mention(r, peer, via), peer, via, b)
  {
    StandinDecodes(NextU32(r.nextHost));
  }

  predicate RoutedBack(r: Routing, r': Routing, peer: Peer, via: nat, b: SocketAddr) {
    && peer in r'.peerToAddr
    && var a := r'.peerToAddr[peer];
       && (peer in r.peerToAddr ==> r.peerToAddr[peer] == a && RouteOf(r', a) == RouteOf(r, a))
       && (peer !in r.peerToAddr ==> RouteOf(r, a) == None && RouteOf(r', a) == Some(Relay(via)))
       && (b != a ==> RouteOf(r', b) == RouteOf(r, b))
  }

  /** A dial points a relay route at the relay dialed, leaves a channel route, and touches no other. */
  lemma RedialPoints(r: Routing, peer: Peer, key: nat, b: SocketAddr)
    requires RoutingInv(r) && r.nextHost < U32_MAX
    ensures Pointed(r, Redial(r, peer, key), peer, key, b)
  {
    StandinDecodes(NextU32(r.nextHost));
  }

  predicate Pointed(r: Routing, r': Routing, peer: Peer, key: nat, b: SocketAddr) {
    && peer in r'.peerToAddr
    && var a := r'.peerToAddr[peer];
       && RouteOf(r', a) == Some(if a in r.routes && r.routes[a].Channel? then r.routes[a] else Relay(key))
       && (b != a ==> RouteOf(r', b) == RouteOf(r, b))
  }
}
