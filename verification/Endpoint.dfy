/** The endpoint's shared state as a value, and what each of `State`'s methods does to it. */
module Endpoint {
  import opened Types
  import opened RoutingTables
  import opened Connections
  import opened Signals

  const HOME_RELAY: nat := 0
  const SIGNAL_PREFIX: byte := 0
  const INBOX_CAP: nat := 64

  /** The relay pool. A relay connection is identified with its pool key. */
  datatype Relays = Relays(
    pool: set<nat>,
    keys: map<string, nat>,
    opening: set<string>,
    newRelays: seq<nat>,
    nextKey: nat)

  /** Signaling slots and the unread signals of their sessions. */
  datatype Slots = Slots(signaling: map<Peer, nat>, inboxes: map<Peer, seq<Payload>>)

  datatype RelayItem = RelayItem(key: nat, peer: Peer, data: Bytes)
  datatype UdpItem = UdpItem(dest: SocketAddr, data: Bytes)
  datatype ChannelItem = ChannelItem(id: nat, data: Bytes)

  datatype Outbound = Outbound(relay: seq<RelayItem>, udp: seq<UdpItem>, channel: seq<ChannelItem>)

  datatype Ep = Ep(
    routing: Routing,
    relays: Relays,
    slots: Slots,
    conns: map<Handle, ConnEntry>,
    acceptQueue: seq<Handle>,
    out: Outbound,
    pendingUpgrades: seq<(Peer, nat)>,
    webrtcEnabled: bool,
    closed: bool,
    dead: bool)

  predicate ClosedOrDead(ep: Ep) {
    ep.closed || ep.dead
  }

  // --- relay pool ---------------------------------------------------------------------------

  /** `normalize_relay_url`: trailing slashes do not distinguish relays. */
  function Normalize(url: string): string {
    if url != [] && url[|url| - 1] == '/' then Normalize(url[..|url| - 1]) else url
  }

  predicate NoTrailingSlash(url: string) {
    url == [] || url[|url| - 1] != '/'
  }

  /** `url` is `base` followed by slashes only. */
  predicate SlashesAfter(base: string, url: string) {
    base <= url && forall i :: |base| <= i < |url| ==> url[i] == '/'
  }

  /** The normal form is the one string without a trailing slash that `url` extends by slashes. */
  lemma {:induction false} NormalizeIsTheBase(url: string, base: string)
    ensures Normalize(url) == base <==> NoTrailingSlash(base) && SlashesAfter(base, url)
  {
    if !NoTrailingSlash(url) {
      var front := url[..|url| - 1];
      NormalizeIsTheBase(front, base);
      if NoTrailingSlash(base) && SlashesAfter(base, url) {
        assert base <= front by {
          assert base != url;
        }
      }
      assert SlashesAfter(base, front) ==> SlashesAfter(base, url);
    } else if NoTrailingSlash(base) && SlashesAfter(base, url) {
      assert |base| == |url|;
    }
  }

  function RegisterRelay(r: Relays, url: string): Relays {
    var key := r.nextKey;
    r.(nextKey := NextU32(key),
       pool := r.pool + {key},
       keys := r.keys[Normalize(url) := key],
       newRelays := r.newRelays + [key])
  }

  /** The end of a claimed open: the URL is no longer being opened, and registered if that worked. */
  function RelayOpenEnds(r: Relays, url: string, ok: bool): Relays {
    var key := r.nextKey;
    var opening := r.opening - {Normalize(url)};
    if ok
    then Relays(r.pool + {key}, r.keys[Normalize(url) := key], opening, r.newRelays + [key], NextU32(key))
    else r.(opening := opening)
  }

  // --- signaling slots ----------------------------------------------------------------------

  function ClaimSlot(s: Slots, peer: Peer, relay: nat): Slots {
    s.(signaling := s.signaling[peer := relay])
  }

  function EndSignaling(s: Slots, peer: Peer): Slots {
    Slots(s.signaling - {peer}, s.inboxes - {peer})
  }

  function InboxOf(s: Slots, peer: Peer): seq<Payload> {
    if peer in s.inboxes then s.inboxes[peer] else []
  }

  function PopInbox(s: Slots, peer: Peer): Slots {
    if InboxOf(s, peer) == [] then s
    else s.(inboxes := s.inboxes[peer := s.inboxes[peer][1..]])
  }

  /** Whether `handle_signal` takes the datagram at all. */
  predicate TakesSignals(ep: Ep) {
    ep.webrtcEnabled && !ClosedOrDead(ep)
  }

  /** `handle_signal` on an endpoint that takes signals: claim the slot if free, then file. */
  function FileSignal(s: Slots, via: nat, source: Peer, payload: Payload): Slots {
    var s1 := if source in s.signaling then s else ClaimSlot(s, source, via);
    var inbox := InboxOf(s1, source);
    s1.(inboxes := s1.inboxes[source := if |inbox| < INBOX_CAP then inbox + [payload] else inbox])
  }

  // --- channels -----------------------------------------------------------------------------

  function FallbackRelay(ep: Ep, peer: Peer): nat {
    if peer in ep.slots.signaling then ep.slots.signaling[peer] else HOME_RELAY
  }

  /** `register_channel`; a closing endpoint refuses, and its caller's wire is closed. */
  function RegisterChannel(ep: Ep, peer: Peer): Ep {
    if ClosedOrDead(ep) then ep
    else ep.(routing := Register(ep.routing, peer, FallbackRelay(ep, peer)))
  }

  function ReleaseSlot(ep: Ep, peer: Peer): Ep {
    ep.(slots := EndSignaling(ep.slots, peer))
  }

  /**
   * The end of a successful dance. `dial` drops its guard before `upgrade` registers the channel;
   * `answer` still holds its guard while it registers.
   */
  function ConcludeSession(ep: Ep, role: Role, peer: Peer): Ep {
    match role
    case Offerer => RegisterChannel(ReleaseSlot(ep, peer), peer)
    case Answerer => ReleaseSlot(RegisterChannel(ep, peer), peer)
  }

  function ChannelPeer(r: Routing, id: nat): Option<Peer> {
    if id in r.channels then Some(r.channels[id].peer) else None
  }

  /** `publish` with the session's relay at hand. */
  function PushSignal(ep: Ep, relay: nat, peer: Peer, json: Bytes): Ep {
    ep.(out := ep.out.(relay := ep.out.relay + [RelayItem(relay, peer, [SIGNAL_PREFIX] + json)]))
  }

  // --- outbound queues ----------------------------------------------------------------------

  function Put(out: Outbound, wire: Option<RouteWire>, peer: Peer, dest: SocketAddr, data: Bytes): Outbound {
    match wire
    case Some(Relay(key)) => out.(relay := out.relay + [RelayItem(key, peer, data)])
    case Some(Channel(id)) => out.(channel := out.channel + [ChannelItem(id, data)])
    case None => out.(udp := out.udp + [UdpItem(dest, data)])
  }

  /** The peer a stand-in belongs to; the map index in `drain` is this, and never misses. */
  function PeerAt(r: Routing, a: SocketAddr): Peer {
    if a in r.addrToPeer then r.addrToPeer[a] else []
  }

  /** How `drain` queues one transmit. */
  function Enqueue(r: Routing, out: Outbound, t: Transmit): Outbound {
    Put(out, RouteOf(r, t.dest), PeerAt(r, t.dest), t.dest, t.data)
  }

  /** The wire `push_response` answers on. */
  function ResponseWire(r: Routing, addr: SocketAddr, source: Option<Peer>): Option<RouteWire> {
    match RouteOf(r, addr)
    case Some(Relay(key)) => if source.Some? then Some(Relay(key)) else None
    case wire => wire
  }

  function PushResponse(r: Routing, out: Outbound, addr: SocketAddr, source: Option<Peer>, data: Bytes): Outbound {
    Put(out, ResponseWire(r, addr, source), if source.Some? then source.value else [], addr, data)
  }

  // --- the QUIC core --------------------------------------------------------------------------

  /** What the QUIC core makes of one datagram. */
  datatype Verdict =
    | ToConnection(h: Handle, reaction: Reaction)
    | Accepted(h: Handle, reaction: Reaction)
    | Refused(response: Option<Bytes>)
    | Response(data: Bytes)
    | Ignored

  /** The endpoint-level response a verdict causes, if any. */
  function ResponseTo(ep: Ep, v: Verdict): Option<Bytes> {
    match v
    case Refused(response) => if ep.closed then None else response
    case Response(data) => Some(data)
    case _ => None
  }

  function ConnsAfter(ep: Ep, source: Option<Peer>, v: Verdict): map<Handle, ConnEntry> {
    match v
    case ToConnection(h, reaction) =>
      if h in ep.conns then ep.conns[h := Feed(ep.conns[h], reaction)] else ep.conns
    case Accepted(h, reaction) =>
      if ep.closed then ep.conns else ep.conns[h := NewEntry(reaction, source, true)]
    case _ => ep.conns
  }

  /** `handle_datagram`. */
  function HandleDatagram(ep: Ep, addr: SocketAddr, source: Option<Peer>, v: Verdict): Ep {
    var response := ResponseTo(ep, v);
    ep.(conns := ConnsAfter(ep, source, v),
        out := if response.Some? then PushResponse(ep.routing, ep.out, addr, source, response.value) else ep.out)
  }

  /** `handle_relay_datagram`, and `handle_channel_datagram` once the channel is found. */
  function HandlePeerDatagram(ep: Ep, peer: Peer, via: nat, v: Verdict): Ep {
    var r := Mention(ep.routing, peer, via);
    HandleDatagram(ep.(routing := r), r.peerToAddr[peer], Some(peer), v)
  }

  // --- connections --------------------------------------------------------------------------

  function MarkDead(ep: Ep): Ep {
    ep.(dead := true,
        conns := map h | h in ep.conns ::
          if ep.conns[h].error.None? then ep.conns[h].(error := Some(Closed)) else ep.conns[h])
  }

  /** Feed each connection its reaction to a timeout or a close; handles without one are untouched. */
  function FeedAll(conns: map<Handle, ConnEntry>, reactions: map<Handle, Reaction>): map<Handle, ConnEntry> {
    map h | h in conns :: if h in reactions then Feed(conns[h], reactions[h]) else conns[h]
  }

  /** The connections `close_all` closes. */
  function Closable(conns: map<Handle, ConnEntry>): set<Handle> {
    set h | h in conns && conns[h].error.None? && !conns[h].drained
  }

  /** `close`, and dropping the endpoint. */
  function Close(ep: Ep, reactions: map<Handle, Reaction>): Ep {
    if ep.closed then ep
    else ep.(closed := true,
             conns := FeedAll(ep.conns, map h | h in reactions && h in Closable(ep.conns) :: reactions[h]))
  }

  /** One poll inside `drain`. */
  datatype Poll =
    | EndpointEvents(h: Handle)
    | Events(h: Handle)
    | Transmits(h: Handle)
    | IsDrained(h: Handle)

  predicate CanPoll(ep: Ep, p: Poll) {
    && p.h in ep.conns
    && match p
       case EndpointEvents(h) => ep.conns[h].conn.eps != []
       case Events(h) => ep.conns[h].conn.apps != []
       case Transmits(h) => ep.conns[h].conn.txs != []
       case IsDrained(h) => true
  }

  function DoPoll(ep: Ep, p: Poll): Ep
    requires CanPoll(ep, p)
  {
    match p
    case EndpointEvents(h) => ep.(conns := ep.conns[h := TakeEndpointEvent(ep.conns[h])])
    case Events(h) =>
      ep.(conns := ep.conns[h := TakeEvent(ep.conns[h])],
          acceptQueue := ep.acceptQueue + if Surfaces(ep.conns[h], ep.conns[h].conn.apps[0]) then [h] else [])
    case Transmits(h) =>
      ep.(conns := ep.conns[h := TakeTransmit(ep.conns[h])],
          out := Enqueue(ep.routing, ep.out, ep.conns[h].conn.txs[0]))
    case IsDrained(h) => ep.(conns := ep.conns[h := ep.conns[h].(drained := true)])
  }

  /** The synchronous block of `connect`, on an endpoint that is neither closed nor dead. */
  function Dial(ep: Ep, peer: Peer, direct: Option<SocketAddr>, dialKey: nat, upgradeKey: Option<nat>,
                made: Option<(Handle, Reaction)>): Ep
  {
    var ep1 := if direct.Some? then ep else ep.(routing := Redial(ep.routing, peer, dialKey));
    if made.None? then ep1
    else ep1.(conns := ep1.conns[made.value.0 := NewEntry(made.value.1, Some(peer), false)],
              pendingUpgrades := ep1.pendingUpgrades
                                 + if upgradeKey.Some? then [(peer, upgradeKey.value)] else [])
  }
}
