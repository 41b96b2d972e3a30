/** What holds at every reachable state. */
module Invariants {
  import opened Types
  import opened RoutingTables
  import opened Connections
  import opened Signals
  import opened Endpoint
  import opened System

  // --- relay keys -----------------------------------------------------------------------------

  /** Every relay key in the tables is one that was handed out. */
  ghost predicate RouteKeysBelow(r: Routing, n: nat) {
    && (forall a :: a in r.routes && r.routes[a].Relay? ==> r.routes[a].key < n)
    && (forall id :: id in r.channels ==> r.channels[id].fallbackRelay < n)
  }

  ghost predicate TaskKeysBelow(s: Sys, n: nat) {
    && (forall p :: p in s.ep.slots.signaling ==> s.ep.slots.signaling[p] < n)
    && (forall u :: u in s.ep.pendingUpgrades ==> u.1 < n)
    && (forall i :: i in s.dance.sessions ==> s.dance.sessions[i].via < n)
    && (forall g :: g in s.opens.grants ==> g.key < n)
  }

  // --- relay opening ----------------------------------------------------------------------------

  /** Keys are dense from the home relay on, one per URL, and every grant names the URL's key. */
  ghost predicate PoolInv(r: Relays, o: Opens) {
    && 0 < r.nextKey && |r.keys| == r.nextKey
    && (forall k :: k in r.pool ==> k < r.nextKey)
    && (forall n :: n in r.keys ==> r.keys[n] < r.nextKey)
    && (forall m, n :: m in r.keys && n in r.keys && r.keys[m] == r.keys[n] ==> m == n)
    && (forall g :: g in o.grants ==> Normalize(g.url) in r.keys && r.keys[Normalize(g.url)] == g.key)
  }

  /** Some task is opening the relay with normalized URL `n`. */
  ghost predicate BeingOpened(o: Opens, n: string) {
    exists i :: i in o.openers && Normalize(o.openers[i]) == n
  }

  ghost predicate OneOpenerEach(openers: map<nat, string>) {
    forall i, j :: i in openers && j in openers && Normalize(openers[i]) == Normalize(openers[j]) ==> i == j
  }

  /** Opens are single-flight: one task per URL being opened, none for a URL that has a key. */
  ghost predicate OpenInv(r: Relays, o: Opens) {
    && (forall i :: i in o.openers ==> i < o.nextOpener && Normalize(o.openers[i]) in r.opening)
    && OneOpenerEach(o.openers)
    && (forall n :: n in r.opening ==> n !in r.keys && BeingOpened(o, n))
  }

  // --- receives -----------------------------------------------------------------------------------

  /**
   * One kind of wire. Until the teardown reaps them, the pending receives (armed, or registered and
   * waiting to be armed) are at most one per registered wire, and exactly one while the endpoint
   * lives; once the teardown has closed the wires, every receive still armed is on a closed one.
   */
  ghost predicate OneReceiveEach(dead: bool, reaping: bool, closing: bool, armed: multiset<nat>, waiting: seq<nat>,
                                 wires: set<nat>, closed: set<nat>)
  {
    && (!reaping ==> armed + multiset(waiting) <= multiset(wires))
    && (!reaping && !dead ==> armed + multiset(waiting) == multiset(wires))
    && (closing ==> forall k :: k in armed ==> k in closed)
  }

  predicate Reaps(p: Phase) {
    p.Reaping? || p.Stopped?
  }

  ghost predicate RelayArmInv(p: Pump, r: Relays, dead: bool) {
    OneReceiveEach(dead, Reaps(p.phase), p.phase.ClosingChannels? || Reaps(p.phase),
                   p.armedRelays, r.newRelays, r.pool, p.closedRelays)
  }

  ghost predicate ChannelArmInv(p: Pump, r: Routing) {
    OneReceiveEach(false, Reaps(p.phase), Reaps(p.phase),
                   p.armedChannels, r.newChannels, r.channels.Keys, p.closedChannels)
  }

  // --- death --------------------------------------------------------------------------------------

  /** The pump leaves its loop only closed or dead; a dead endpoint's connections have all failed. */
  ghost predicate DeathInv(ep: Ep, phase: Phase) {
    && (TornDown(phase) ==> ClosedOrDead(ep))
    && (ep.dead ==> TornDown(phase) && forall h :: h in ep.conns ==> ep.conns[h].error.Some?)
  }

  // --- signaling slots ----------------------------------------------------------------------------

  /** A claimed slot belongs to a live session of its peer. */
  ghost predicate Owned(d: Dance, p: Peer) {
    p in d.owner && d.owner[p] in d.sessions && d.sessions[d.owner[p]].live && d.sessions[d.owner[p]].peer == p
  }

  /** A live session owns its peer's slot, which records its relay. */
  ghost predicate Owns(slots: Slots, d: Dance, i: nat)
    requires i in d.sessions
  {
    var t := d.sessions[i];
    t.peer in d.owner && d.owner[t.peer] == i && t.peer in slots.signaling && slots.signaling[t.peer] == t.via
  }

  /** Sessions and slots: each slot has one owner, the one live session of its peer. */
  ghost predicate SlotInv(slots: Slots, d: Dance) {
    && d.owner.Keys == slots.signaling.Keys
    && (forall i :: i in d.sessions ==> i < d.nextSession)
    && (forall p :: p in d.owner ==> Owned(d, p))
    && (forall i :: i in d.sessions && d.sessions[i].live ==> Owns(slots, d, i))
  }

  /** A session has read what was filed for it, in order, but for what its inbox still holds. */
  ghost predicate ReadsItsOwn(t: Session, inbox: seq<Payload>) {
    if t.live then t.filed == t.got + inbox else t.filed == [] && t.got == []
  }

  /** Inboxes exist only for claimed slots, are bounded, and hold what was filed and not yet read. */
  ghost predicate InboxInv(slots: Slots, d: Dance) {
    && slots.inboxes.Keys <= slots.signaling.Keys
    && (forall p :: p in slots.inboxes ==> |slots.inboxes[p]| <= INBOX_CAP)
    && (forall i :: i in d.sessions ==> ReadsItsOwn(d.sessions[i], InboxOf(slots, d.sessions[i].peer)))
  }

  /** A session has published a prefix of the dance; an answerer only after reading an offer first. */
  ghost predicate InStep(t: Session) {
    && Script(t.role, t.sent)
    && (!t.live ==> t.role.Offerer? && t.sent == [])
    && (t.role.Answerer? && t.sent != [] ==> Heard(t.got) != [] && Heard(t.got)[0].Offer?)
  }

  ghost predicate ScriptInv(d: Dance) {
    forall i :: i in d.sessions ==> InStep(d.sessions[i])
  }

  // --- connections ----------------------------------------------------------------------------------

  ghost predicate EntryInv(e: ConnEntry) {
    && (e.connected ==> e.peer.Some? && (e.expectedPeer.Some? ==> e.peer == e.expectedPeer))
    && Count(Connects, e.conn) <= 1
    && (e.connected ==> Count(Connects, e.conn) == 0)
  }

  ghost predicate ConnInv(conns: map<Handle, ConnEntry>) {
    forall h :: h in conns ==> EntryInv(conns[h])
  }

  ghost predicate Distinct<T>(xs: seq<T>) {
    forall i, j :: 0 <= i < j < |xs| ==> xs[i] != xs[j]
  }

  /** Surfaced handles, delivered or waiting: exactly the connected accepted-side ones, once each. */
  ghost predicate AcceptInv(conns: map<Handle, ConnEntry>, surfaced: seq<Handle>) {
    && Distinct(surfaced)
    && (forall h :: h in surfaced ==> h in conns && conns[h].acceptedSide && conns[h].connected)
    && (forall h :: h in conns && conns[h].acceptedSide && conns[h].connected ==> h in surfaced)
  }

  // --- outbound -----------------------------------------------------------------------------------

  /** The peer a goal means: the holder of the stand-in, or the session's peer. */
  ghost predicate Means(r: Routing, goal: Goal, peer: Peer) {
    match goal
    case ToAddress(a) => a in r.addrToPeer && r.addrToPeer[a] == peer
    case ToPeer(p) => p == peer
  }

  /** A channel id that was handed out names no peer but `peer`, now or later. */
  ghost predicate ChannelMeans(r: Routing, id: nat, peer: Peer) {
    id <= r.nextChannelId && (id in r.channels ==> r.channels[id].peer == peer)
  }

  ghost predicate RelayItemOk(r: Routing, item: RelayItem, sent: Sent) {
    sent.wire == Some(Relay(item.key)) && sent.data == item.data && Means(r, sent.goal, item.peer)
  }

  ghost predicate ChannelItemOk(r: Routing, item: ChannelItem, sent: Sent) {
    && sent.wire == Some(Channel(item.id)) && sent.data == item.data
    && sent.goal.ToAddress? && sent.goal.dest in r.addrToPeer
    && ChannelMeans(r, item.id, r.addrToPeer[sent.goal.dest])
  }

  /** The queues hold what the log says is waiting, addressed to whom it was meant for. */
  ghost predicate QueueInv(r: Routing, out: Outbound, l: SendLog) {
    && |out.relay| == |l.relayTags| && |out.channel| == |l.channelTags|
    && (forall i :: 0 <= i < |out.relay| ==>
          l.relayTags[i] < |l.queued| && RelayItemOk(r, out.relay[i], l.queued[l.relayTags[i]]))
    && (forall i :: 0 <= i < |out.channel| ==>
          l.channelTags[i] < |l.queued| && ChannelItemOk(r, out.channel[i], l.queued[l.channelTags[i]]))
  }

  /** A delivery took one queued datagram, unaltered, over the wire chosen for it to its peer. */
  ghost predicate Faithful(r: Routing, queued: seq<Sent>, d: Delivery) {
    && d.index < |queued|
    && queued[d.index].wire == Some(d.wire)
    && queued[d.index].data == d.data
    && Means(r, queued[d.index].goal, d.peer)
  }

  ghost predicate DeliveredInv(r: Routing, l: SendLog) {
    && (forall d :: d in l.relayDelivered ==> d.wire.Relay? && Faithful(r, l.queued, d))
    && (forall d :: d in l.channelDelivered ==> d.wire.Channel? && Faithful(r, l.queued, d))
  }

  /** One kind of wire takes datagrams in the order they were queued, none twice. */
  ghost predicate Line(done: seq<Delivery>, waiting: seq<nat>, bound: nat) {
    && (forall i, j :: 0 <= i < j < |waiting| ==> waiting[i] < waiting[j])
    && (forall i, j :: 0 <= i < j < |done| ==> done[i].index < done[j].index)
    && (forall i, j :: 0 <= i < |done| && 0 <= j < |waiting| ==> done[i].index < waiting[j])
    && (forall j :: 0 <= j < |waiting| ==> waiting[j] < bound)
    && (forall i :: 0 <= i < |done| ==> done[i].index < bound)
  }

  ghost predicate SendInv(r: Routing, out: Outbound, l: SendLog) {
    && QueueInv(r, out, l)
    && DeliveredInv(r, l)
    && Line(l.relayDelivered, l.relayTags, |l.queued|)
    && Line(l.channelDelivered, l.channelTags, |l.queued|)
  }

  // --- inbound ------------------------------------------------------------------------------------

  /** A reference endpoint with one wire per peer: it numbers peers in order of first mention. */
  datatype Reference = Reference(peers: seq<Peer>, inputs: seq<Input>)

  function NumberOf(peers: seq<Peer>, p: Peer): nat
    requires p in peers
    ensures NumberOf(peers, p) < |peers| && peers[NumberOf(peers, p)] == p
  {
    if peers[0] == p then 0 else 1 + NumberOf(peers[1..], p)
  }

  function AddPeer(peers: seq<Peer>, p: Peer): seq<Peer> {
    if p in peers then peers else peers + [p]
  }

  function ReferenceStep(q: Reference, op: WireOp): Reference {
    match op
    case Named(p) => q.(peers := AddPeer(q.peers, p))
    case FromPeer(p, data) =>
      var peers := AddPeer(q.peers, p);
      Reference(peers, q.inputs + [Input(Standin(NumberOf(peers, p) + 1), Some(p), data)])
    case FromUdp(remote, data) => q.(inputs := q.inputs + [Input(remote, None, data)])
  }

  function ReferenceRun(ops: seq<WireOp>): Reference
    decreases |ops|
  {
    if ops == [] then Reference([], [])
    else ReferenceStep(ReferenceRun(ops[..|ops| - 1]), ops[|ops| - 1])
  }

  /** The tables number peers as the reference does. */
  ghost predicate Numbered(r: Routing, peers: seq<Peer>) {
    && Distinct(peers)
    && |peers| == r.nextHost
    && r.peerToAddr.Keys == (set p | p in peers)
    && (forall i :: 0 <= i < |peers| ==> peers[i] in r.peerToAddr && r.peerToAddr[peers[i]] == Standin(i + 1))
  }

  ghost predicate FeedInv(r: Routing, f: FeedLog) {
    var q := ReferenceRun(f.ops);
    Numbered(r, q.peers) && q.inputs == f.inputs
  }

  // --- all of it ------------------------------------------------------------------------------------

  ghost predicate Inv(s: Sys) {
    && RoutingInv(s.ep.routing)
    && RouteKeysBelow(s.ep.routing, s.ep.relays.nextKey)
    && TaskKeysBelow(s, s.ep.relays.nextKey)
    && PoolInv(s.ep.relays, s.opens)
    && OpenInv(s.ep.relays, s.opens)
    && RelayArmInv(s.pump, s.ep.relays, s.ep.dead)
    && ChannelArmInv(s.pump, s.ep.routing)
    && DeathInv(s.ep, s.pump.phase)
    && SlotInv(s.ep.slots, s.dance)
    && InboxInv(s.ep.slots, s.dance)
    && ScriptInv(s.dance)
    && ConnInv(s.ep.conns)
    && AcceptInv(s.ep.conns, s.feed.accepted + s.ep.acceptQueue)
    && SendInv(s.ep.routing, s.ep.out, s.sends)
    && FeedInv(s.ep.routing, s.feed)
  }
}
