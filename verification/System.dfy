/**
 * The bound endpoint as a transition system. The shared state is touched by the pump, by signaling
 * sessions and by resource methods, all on one cooperative thread that never holds a borrow across
 * an await; so each stretch between two awaits is one step, and a run is any interleaving of steps.
 */
module System {
  import opened Types
  import opened RoutingTables
  import opened Connections
  import opened Signals
  import opened Endpoint

  /** Where the pump is. The last four are its teardown. */
  datatype Phase =
    | Draining
    | FlushingRelay
    | SendingRelay(key: nat)
    | FlushingUdp
    | FlushingChannel
    | Arming
    | Selecting
    | ClosingRelays
    | ClosingChannels
    | Reaping
    | Stopped

  predicate TornDown(p: Phase) {
    p.ClosingRelays? || p.ClosingChannels? || p.Reaping? || p.Stopped?
  }

  /**
   * A spawned `upgrade` or `answer` task. `live` says it owns its peer's slot; `sent` and `got` are
   * what it has published and popped, `filed` (history) what was filed for it.
   */
  datatype Session = Session(
    peer: Peer, via: nat, role: Role, live: bool,
    sent: seq<Signal>, got: seq<Payload>, filed: seq<Payload>)

  /** Whom a queued datagram is meant for: an address of the QUIC core's, or a session's peer. */
  datatype Goal = ToAddress(dest: SocketAddr) | ToPeer(peer: Peer)

  /** One datagram queued, with the wire chosen for it then. */
  datatype Sent = Sent(goal: Goal, data: Bytes, wire: Option<RouteWire>)

  /** Queued datagram number `index` given to `wire`, addressed to `peer`. */
  datatype Delivery = Delivery(index: nat, wire: RouteWire, peer: Peer, data: Bytes)

  /** One datagram as the QUIC core sees it. */
  datatype Input = Input(addr: SocketAddr, source: Option<Peer>, data: Bytes)

  /** What happened on the outside, in terms of authenticated peers and not of wires. */
  datatype WireOp =
    | Named(peer: Peer)
    | FromPeer(peer: Peer, data: Bytes)
    | FromUdp(remote: SocketAddr, data: Bytes)

  /** A key `ensure_relay` returned for a URL. */
  datatype Grant = Grant(url: string, key: nat)

  /** The pump's own state: its phase, its in-flight receives, and the wires its teardown closed. */
  datatype Pump = Pump(
    phase: Phase,
    armedRelays: multiset<nat>,
    armedChannels: multiset<nat>,
    closedRelays: set<nat>,
    closedChannels: set<nat>)

  /** The signaling tasks; `owner` (history) names the session that holds each claimed slot. */
  datatype Dance = Dance(sessions: map<nat, Session>, nextSession: nat, owner: map<Peer, nat>)

  /** The relay opens in progress, by task, and (history) the keys handed out so far. */
  datatype Opens = Opens(openers: map<nat, string>, nextOpener: nat, grants: seq<Grant>)

  /** History of the outbound side; the tags number the datagrams waiting in each queue. */
  datatype SendLog = SendLog(
    queued: seq<Sent>,
    relayTags: seq<nat>,
    channelTags: seq<nat>,
    relayDelivered: seq<Delivery>,
    channelDelivered: seq<Delivery>)

  /** History of the inbound side. */
  datatype FeedLog = FeedLog(ops: seq<WireOp>, inputs: seq<Input>, accepted: seq<Handle>)

  datatype Sys = Sys(ep: Ep, pump: Pump, dance: Dance, opens: Opens, sends: SendLog, feed: FeedLog)

  /** The synchronous stretches of the exported resource methods. */
  datatype ApiStep =
    | Connect(peer: Peer, direct: Option<SocketAddr>, dialKey: nat, upgradeKey: Option<nat>,
              made: Option<(Handle, Reaction)>)
    | EnsureRelay(url: string)
    | RelayOpened(opener: nat, ok: bool)
    | AwaitRelay(url: string)
    | Accept
    | CloseEndpoint(reactions: map<Handle, Reaction>)
    | Drive(h: Handle, reaction: Reaction)
    | TakeStream(h: Handle, bi: bool)

  /** The stretches of a signaling session. */
  datatype SessionStep =
    | Begin(i: nat)
    | Publish(i: nat, signal: Signal, json: Bytes)
    | Read(i: nat)
    | Abandon(i: nat)
    | Succeed(i: nat)

  /** The pump's turn up to its `select`. */
  datatype TurnStep =
    | PollConn(poll: Poll)
    | DrainEnds
    | FlushRelay
    | RelaySent(ok: bool)
    | FlushUdp
    | FlushChannel
    | Arm(lingered: bool)

  /** The arms of the pump's `select`. */
  datatype SelectStep =
    | RelayDatagram(key: nat, source: Peer, data: Bytes, parsed: Payload, verdict: Verdict)
    | RelayFailed(key: nat)
    | UdpDatagram(remote: SocketAddr, data: Bytes, verdict: Verdict)
    | UdpFailed
    | ChannelMessage(id: nat, message: Option<Bytes>, verdict: Verdict)
    | ChannelFailed(id: nat)
    | Tick(reactions: map<Handle, Reaction>)

  /** What the pump does after breaking out of its loop. */
  datatype TeardownStep =
    | CloseRelays
    | CloseChannels
    | ReapRelay(key: nat)
    | ReapChannel(id: nat)
    | Finish

  datatype Step =
    | Api(api: ApiStep)
    | InSession(session: SessionStep)
    | Turn(turn: TurnStep)
    | Select(select: SelectStep)
    | Teardown(teardown: TeardownStep)

  // --- assumptions about the QUIC core and the network ----------------------------------------

  /** A connection announces `Connected` at most once. */
  predicate FeedOk(e: ConnEntry, r: Reaction) {
    && Count(Connects, e.conn) + Count(Connects, r) <= 1
    && (e.connected ==> Count(Connects, r) == 0)
  }

  predicate FeedAllOk(conns: map<Handle, ConnEntry>, reactions: map<Handle, Reaction>) {
    forall h :: h in reactions && h in conns ==> FeedOk(conns[h], reactions[h])
  }

  /** New connections get handles not in use. */
  predicate VerdictOk(ep: Ep, v: Verdict) {
    match v
    case ToConnection(h, reaction) => h in ep.conns ==> FeedOk(ep.conns[h], reaction)
    case Accepted(h, reaction) => h !in ep.conns && Count(Connects, reaction) <= 1
    case _ => true
  }

  /** The `u32` counters do not wrap. */
  predicate CountersInRange(s: Sys) {
    InRange(s.ep.routing) && s.ep.relays.nextKey < U32_MAX
  }

  /** A key a dialer may hold: the home relay's, or one `ensure_relay` returned. */
  predicate Granted(s: Sys, key: nat) {
    key == HOME_RELAY || exists g :: g in s.opens.grants && g.key == key
  }

  // --- when a step can happen -------------------------------------------------------------------

  predicate ApiEnabled(s: Sys, step: ApiStep) {
    match step
    case Connect(_, direct, dialKey, upgradeKey, made) =>
      && (direct.Some? ==> !IsStandin(direct.value))
      && Granted(s, dialKey)
      && (upgradeKey.Some? ==> Granted(s, upgradeKey.value))
      && (made.Some? ==> made.value.0 !in s.ep.conns && Count(Connects, made.value.1) <= 1)
    case RelayOpened(opener, _) => opener in s.opens.openers
    case CloseEndpoint(reactions) => FeedAllOk(s.ep.conns, reactions)
    case Drive(h, reaction) => h in s.ep.conns && FeedOk(s.ep.conns[h], reaction)
    case TakeStream(h, _) => h in s.ep.conns
    case _ => true
  }

  predicate SessionEnabled(s: Sys, step: SessionStep) {
    && step.i in s.dance.sessions
    && var t := s.dance.sessions[step.i];
       match step
       case Begin(_) => !t.live
       case Publish(_, signal, _) => t.live && MayPublish(t.role, t.sent, t.got, signal)
       case Read(_) => t.live && MayRead(t.role, t.sent, t.got)
       case Abandon(_) => t.live
       case Succeed(_) => t.live && Concluded(t.role, t.sent, t.got)
  }

  predicate TurnEnabled(s: Sys, step: TurnStep) {
    match step
    case PollConn(poll) => s.pump.phase.Draining? && CanPoll(s.ep, poll)
    case DrainEnds => s.pump.phase.Draining? && forall h :: h in s.ep.conns ==> Quiescent(s.ep.conns[h])
    case FlushRelay => s.pump.phase.FlushingRelay?
    case RelaySent(_) => s.pump.phase.SendingRelay?
    case FlushUdp => s.pump.phase.FlushingUdp?
    case FlushChannel => s.pump.phase.FlushingChannel?
    case Arm(_) => s.pump.phase.Arming?
  }

  predicate SelectEnabled(s: Sys, step: SelectStep) {
    && s.pump.phase.Selecting?
    && match step
       case RelayDatagram(key, _, _, _, verdict) => key in s.pump.armedRelays && VerdictOk(s.ep, verdict)
       case RelayFailed(key) => key in s.pump.armedRelays
       case UdpDatagram(remote, _, verdict) => !IsStandin(remote) && VerdictOk(s.ep, verdict)
       case UdpFailed => true
       case ChannelMessage(id, _, verdict) => id in s.pump.armedChannels && VerdictOk(s.ep, verdict)
       case ChannelFailed(id) => id in s.pump.armedChannels
       case Tick(reactions) => FeedAllOk(s.ep.conns, reactions)
  }

  predicate TeardownEnabled(s: Sys, step: TeardownStep) {
    match step
    case CloseRelays => s.pump.phase.ClosingRelays?
    case CloseChannels => s.pump.phase.ClosingChannels?
    case ReapRelay(key) => s.pump.phase.Reaping? && key in s.pump.armedRelays && key in s.pump.closedRelays
    case ReapChannel(id) => s.pump.phase.Reaping? && id in s.pump.armedChannels && id in s.pump.closedChannels
    case Finish => s.pump.phase.Reaping? && s.pump.armedRelays == multiset{} && s.pump.armedChannels == multiset{}
  }

  predicate Enabled(s: Sys, step: Step) {
    && CountersInRange(s)
    && match step
       case Api(a) => ApiEnabled(s, a)
       case InSession(t) => SessionEnabled(s, t)
       case Turn(t) => TurnEnabled(s, t)
       case Select(e) => SelectEnabled(s, e)
       case Teardown(t) => TeardownEnabled(s, t)
  }

  // --- history ------------------------------------------------------------------------------------

  /** One datagram queued for `wire`. */
  function LogPut(l: SendLog, wire: Option<RouteWire>, goal: Goal, data: Bytes): SendLog {
    l.(queued := l.queued + [Sent(goal, data, wire)],
       relayTags := l.relayTags + if wire.Some? && wire.value.Relay? then [|l.queued|] else [],
       channelTags := l.channelTags + if wire.Some? && wire.value.Channel? then [|l.queued|] else [])
  }

  /** The head of the relay queue leaving it, handed to its relay or dropped. */
  function LogRelayPop(l: SendLog, item: RelayItem, handed: bool): SendLog {
    if l.relayTags == [] then l
    else l.(relayTags := l.relayTags[1..],
            relayDelivered := l.relayDelivered
              + if handed then [Delivery(l.relayTags[0], Relay(item.key), item.peer, item.data)] else [])
  }

  /** The head of the channel queue leaving it, handed to a channel of `peer` or dropped. */
  function LogChannelPop(l: SendLog, item: ChannelItem, peer: Option<Peer>): SendLog {
    if l.channelTags == [] then l
    else l.(channelTags := l.channelTags[1..],
            channelDelivered := l.channelDelivered
              + if peer.Some?
                then [Delivery(l.channelTags[0], Channel(item.id), peer.value, item.data)] else [])
  }

  function LogOp(f: FeedLog, op: WireOp): FeedLog {
    f.(ops := f.ops + [op])
  }

  function LogGrant(o: Opens, url: string, key: nat): Opens {
    o.(grants := o.grants + [Grant(url, key)])
  }

  // --- what a step does ---------------------------------------------------------------------------

  function ApplyApi(s: Sys, step: ApiStep): Sys
    requires ApiEnabled(s, step)
  {
    match step
    case Connect(peer, direct, dialKey, upgradeKey, made) =>
      if ClosedOrDead(s.ep) then s
      else s.(ep := Dial(s.ep, peer, direct, dialKey, upgradeKey, made),
              feed := if direct.Some? then s.feed else LogOp(s.feed, Named(peer)))
    case EnsureRelay(url) =>
      var n, r := Normalize(url), s.ep.relays;
      if n in r.keys then s.(opens := LogGrant(s.opens, url, r.keys[n]))
      else if ClosedOrDead(s.ep) || n in r.opening then s
      else s.(ep := s.ep.(relays := r.(opening := r.opening + {n})),
              opens := s.opens.(openers := s.opens.openers[s.opens.nextOpener := url],
                                nextOpener := s.opens.nextOpener + 1))
    case RelayOpened(opener, ok) =>
      var url := s.opens.openers[opener];
      s.(ep := s.ep.(relays := RelayOpenEnds(s.ep.relays, url, ok)),
         opens := s.opens.(openers := s.opens.openers - {opener},
                           grants := s.opens.grants + if ok then [Grant(url, s.ep.relays.nextKey)] else []))
    case AwaitRelay(url) =>
      var n := Normalize(url);
      if n in s.ep.relays.keys then s.(opens := LogGrant(s.opens, url, s.ep.relays.keys[n])) else s
    case Accept =>
      if s.ep.acceptQueue == [] then s
      else s.(ep := s.ep.(acceptQueue := s.ep.acceptQueue[1..]),
              feed := s.feed.(accepted := s.feed.accepted + [s.ep.acceptQueue[0]]))
    case CloseEndpoint(reactions) => s.(ep := Close(s.ep, reactions))
    case Drive(h, reaction) => s.(ep := s.ep.(conns := s.ep.conns[h := Feed(s.ep.conns[h], reaction)]))
    case TakeStream(h, bi) => s.(ep := s.ep.(conns := s.ep.conns[h := PopStream(s.ep.conns[h], bi)]))
  }

  /** The session `i` gone, and its slot with it. */
  function WithoutSession(d: Dance, i: nat): Dance
    requires i in d.sessions
  {
    d.(sessions := d.sessions - {i}, owner := d.owner - {d.sessions[i].peer})
  }

  /** A session's guard dropping: the slot and its unread signals go. */
  function EndSession(s: Sys, i: nat): Sys
    requires i in s.dance.sessions
  {
    s.(ep := ReleaseSlot(s.ep, s.dance.sessions[i].peer), dance := WithoutSession(s.dance, i))
  }

  function ApplySession(s: Sys, step: SessionStep): Sys
    requires SessionEnabled(s, step)
  {
    var t := s.dance.sessions[step.i];
    match step
    case Begin(i) =>
      if t.peer in s.ep.slots.signaling then s.(dance := s.dance.(sessions := s.dance.sessions - {i}))
      else s.(ep := s.ep.(slots := ClaimSlot(s.ep.slots, t.peer, t.via)),
              dance := s.dance.(sessions := s.dance.sessions[i := t.(live := true)],
                                owner := s.dance.owner[t.peer := i]))
    case Publish(i, signal, json) =>
      if t.peer !in s.ep.slots.signaling then EndSession(s, i)
      else
        s.(ep := PushSignal(s.ep, s.ep.slots.signaling[t.peer], t.peer, json),
           dance := s.dance.(sessions := s.dance.sessions[i := t.(sent := t.sent + [signal])]),
           sends := LogPut(s.sends, Some(Relay(s.ep.slots.signaling[t.peer])), ToPeer(t.peer), [SIGNAL_PREFIX] + json))
    case Read(i) =>
      if ClosedOrDead(s.ep) then EndSession(s, i)
      else if InboxOf(s.ep.slots, t.peer) == [] then s
      else s.(ep := s.ep.(slots := PopInbox(s.ep.slots, t.peer)),
              dance := s.dance.(sessions :=
                s.dance.sessions[i := t.(got := t.got + [InboxOf(s.ep.slots, t.peer)[0]])]))
    case Abandon(i) => EndSession(s, i)
    case Succeed(i) =>
      s.(ep := ConcludeSession(s.ep, t.role, t.peer),
         dance := WithoutSession(s.dance, i),
         feed := if ClosedOrDead(s.ep) then s.feed else LogOp(s.feed, Named(t.peer)))
  }

  /** One offerer task spawned per requested upgrade. */
  function Spawned(d: Dance, upgrades: seq<(Peer, nat)>): Dance
    decreases |upgrades|
  {
    if upgrades == [] then d
    else Spawned(d.(sessions := d.sessions[d.nextSession :=
                                  Session(upgrades[0].0, upgrades[0].1, Offerer, false, [], [], [])],
                    nextSession := d.nextSession + 1),
                 upgrades[1..])
  }

  predicate MayExit(ep: Ep, lingered: bool) {
    || ep.dead
    || (ep.closed && (lingered || forall h :: h in ep.conns ==> ep.conns[h].drained || ep.conns[h].error.Some?))
  }

  function ApplyTurn(s: Sys, step: TurnStep): Sys
    requires TurnEnabled(s, step)
  {
    match step
    case PollConn(poll) =>
      s.(ep := DoPoll(s.ep, poll),
         sends := if !poll.Transmits? then s.sends
                  else var t := s.ep.conns[poll.h].conn.txs[0];
                       LogPut(s.sends, RouteOf(s.ep.routing, t.dest), ToAddress(t.dest), t.data))
    case DrainEnds => s.(pump := s.pump.(phase := FlushingRelay))
    case FlushRelay =>
      if s.ep.out.relay == [] then s.(pump := s.pump.(phase := FlushingUdp))
      else
        var item := s.ep.out.relay[0];
        var pooled := item.key in s.ep.relays.pool;
        s.(ep := s.ep.(out := s.ep.out.(relay := s.ep.out.relay[1..])),
           pump := if pooled then s.pump.(phase := SendingRelay(item.key)) else s.pump,
           sends := LogRelayPop(s.sends, item, pooled))
    case RelaySent(ok) =>
      if !ok && s.pump.phase.key == HOME_RELAY
      then s.(ep := MarkDead(s.ep), pump := s.pump.(phase := ClosingRelays))
      else s.(pump := s.pump.(phase := FlushingRelay))
    case FlushUdp =>
      if s.ep.out.udp == [] then s.(pump := s.pump.(phase := FlushingChannel))
      else s.(ep := s.ep.(out := s.ep.out.(udp := s.ep.out.udp[1..])))
    case FlushChannel =>
      if s.ep.out.channel == [] then s.(pump := s.pump.(phase := Arming))
      else
        var item := s.ep.out.channel[0];
        s.(ep := s.ep.(out := s.ep.out.(channel := s.ep.out.channel[1..])),
           sends := LogChannelPop(s.sends, item, ChannelPeer(s.ep.routing, item.id)))
    case Arm(lingered) =>
      s.(ep := s.ep.(routing := TakeNew(s.ep.routing),
                     relays := s.ep.relays.(newRelays := []),
                     pendingUpgrades := []),
         pump := s.pump.(armedRelays := s.pump.armedRelays + multiset(s.ep.relays.newRelays),
                         armedChannels := s.pump.armedChannels + multiset(s.ep.routing.newChannels),
                         phase := if MayExit(s.ep, lingered) then ClosingRelays else Selecting),
         dance := Spawned(s.dance, s.ep.pendingUpgrades))
  }

  /** The sessions after a signal from `source` is filed, an answerer spawned if the slot was free. */
  function DanceAfterSignal(ep: Ep, d: Dance, via: nat, source: Peer, payload: Payload): Dance {
    if source !in ep.slots.signaling then
      Dance(d.sessions[d.nextSession := Session(source, via, Answerer, true, [], [], [payload])],
            d.nextSession + 1,
            d.owner[source := d.nextSession])
    else if source in d.owner && d.owner[source] in d.sessions && |InboxOf(ep.slots, source)| < INBOX_CAP then
      var i := d.owner[source];
      d.(sessions := d.sessions[i := d.sessions[i].(filed := d.sessions[i].filed + [payload])])
    else d
  }

  /** A datagram of `peer` entering the QUIC core under the peer's stand-in. */
  function EnterFromPeer(s: Sys, pump: Pump, peer: Peer, via: nat, data: Bytes, v: Verdict): Sys {
    var r := Mention(s.ep.routing, peer, via);
    var addr := r.peerToAddr[peer];
    s.(ep := HandlePeerDatagram(s.ep, peer, via, v),
       pump := pump,
       sends := LogResponse(s.sends, s.ep, r, addr, Some(peer), v),
       feed := FeedLog(s.feed.ops + [FromPeer(peer, data)], s.feed.inputs + [Input(addr, Some(peer), data)],
                       s.feed.accepted))
  }

  function LogResponse(l: SendLog, ep: Ep, r: Routing, addr: SocketAddr, source: Option<Peer>, v: Verdict): SendLog {
    match ResponseTo(ep, v)
    case Some(data) => LogPut(l, ResponseWire(r, addr, source), ToAddress(addr), data)
    case None => l
  }

  /** A receive completed: taken out of the set, and put back if its wire is still registered. */
  function Rearm(armed: multiset<nat>, wire: nat, registered: bool): multiset<nat> {
    if registered then armed - multiset{wire} + multiset{wire} else armed - multiset{wire}
  }

  /** The pump after an event: back to draining, or out of its loop if the home relay failed. */
  function PumpAfterEvent(s: Sys, step: SelectStep): Pump {
    match step
    case RelayDatagram(key, _, _, _, _) =>
      s.pump.(phase := Draining, armedRelays := Rearm(s.pump.armedRelays, key, key in s.ep.relays.pool))
    case RelayFailed(key) =>
      s.pump.(phase := if key == HOME_RELAY then ClosingRelays else Draining,
              armedRelays := s.pump.armedRelays - multiset{key})
    case ChannelMessage(id, _, _) =>
      s.pump.(phase := Draining, armedChannels := Rearm(s.pump.armedChannels, id, id in s.ep.routing.channels))
    case ChannelFailed(id) =>
      s.pump.(phase := Draining, armedChannels := s.pump.armedChannels - multiset{id})
    case _ => s.pump.(phase := Draining)
  }

  function ApplySelect(s: Sys, step: SelectStep): Sys
    requires SelectEnabled(s, step)
  {
    var pump := PumpAfterEvent(s, step);
    match step
    case RelayDatagram(key, source, data, parsed, verdict) =>
      if data == [] || data[0] != SIGNAL_PREFIX then EnterFromPeer(s, pump, source, key, data, verdict)
      else if !TakesSignals(s.ep) then s.(pump := pump)
      else s.(ep := s.ep.(slots := FileSignal(s.ep.slots, key, source, parsed)),
              pump := pump,
              dance := DanceAfterSignal(s.ep, s.dance, key, source, parsed))
    case RelayFailed(key) =>
      s.(ep := if key == HOME_RELAY then MarkDead(s.ep)
               else s.ep.(relays := s.ep.relays.(pool := s.ep.relays.pool - {key})),
         pump := pump)
    case UdpDatagram(remote, data, verdict) =>
      s.(ep := HandleDatagram(s.ep, remote, None, verdict),
         pump := pump,
         sends := LogResponse(s.sends, s.ep, s.ep.routing, remote, None, verdict),
         feed := FeedLog(s.feed.ops + [FromUdp(remote, data)], s.feed.inputs + [Input(remote, None, data)],
                         s.feed.accepted))
    case UdpFailed => s.(pump := pump)
    case ChannelMessage(id, message, verdict) =>
      if message.None? || id !in s.ep.routing.channels then s.(pump := pump)
      else EnterFromPeer(s, pump, s.ep.routing.channels[id].peer, s.ep.routing.channels[id].fallbackRelay,
                         message.value, verdict)
    case ChannelFailed(id) => s.(ep := s.ep.(routing := Retire(s.ep.routing, id)), pump := pump)
    case Tick(reactions) => s.(ep := s.ep.(conns := FeedAll(s.ep.conns, reactions)), pump := pump)
  }

  function ApplyTeardown(s: Sys, step: TeardownStep): Sys
    requires TeardownEnabled(s, step)
  {
    s.(pump :=
      match step
      case CloseRelays => s.pump.(closedRelays := s.ep.relays.pool, phase := ClosingChannels)
      case CloseChannels => s.pump.(closedChannels := s.ep.routing.channels.Keys, phase := Reaping)
      case ReapRelay(key) => s.pump.(armedRelays := s.pump.armedRelays - multiset{key})
      case ReapChannel(id) => s.pump.(armedChannels := s.pump.armedChannels - multiset{id})
      case Finish => s.pump.(phase := Stopped))
  }

  function Apply(s: Sys, step: Step): Sys
    requires Enabled(s, step)
  {
    match step
    case Api(a) => ApplyApi(s, a)
    case InSession(t) => ApplySession(s, t)
    case Turn(t) => ApplyTurn(s, t)
    case Select(e) => ApplySelect(s, e)
    case Teardown(t) => ApplyTeardown(s, t)
  }

  /** A freshly bound endpoint: the home relay is registered, the pump about to take its first turn. */
  function Init(homeUrl: string, webrtcEnabled: bool): Sys {
    Sys(Ep(EmptyRouting,
           RegisterRelay(Relays({}, map[], {}, [], 0), homeUrl),
           Slots(map[], map[]), map[], [], Outbound([], [], []), [], webrtcEnabled, false, false),
        Pump(Draining, multiset{}, multiset{}, {}, {}),
        Dance(map[], 0, map[]),
        Opens(map[], 0, []),
        SendLog([], [], [], [], []),
        FeedLog([], [], []))
  }

  /** `steps` can be taken one after the other from `s`. */
  predicate ValidRun(s: Sys, steps: seq<Step>)
    decreases |steps|
  {
    steps == [] || (Enabled(s, steps[0]) && ValidRun(Apply(s, steps[0]), steps[1..]))
  }

  function After(s: Sys, steps: seq<Step>): Sys
    requires ValidRun(s, steps)
    decreases |steps|
  {
    if steps == [] then s else After(Apply(s, steps[0]), steps[1..])
  }
}
