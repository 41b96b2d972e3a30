/** What steps do to routes, signals, relays and tasks, field by field, and over runs. */
module WireEffects {
  import opened Types
  import opened RoutingTables
  import opened Signals
  import opened Endpoint
  import opened System
  import opened Invariants
  import opened RoutingProof
  import opened WireProof
  import RelayProof
  import opened Theorems

  // --- routes ---------------------------------------------------------------------------------------

  /**
   * A relayed datagram routes a sender never heard of back over the relay it came by; the route of
   * one already known, and every other route, stays.
   */
  lemma SenderIsRoutedBack(s: Sys, step: SelectStep, b: SocketAddr)
    requires Reachable(s) && CountersInRange(s) && SelectEnabled(s, step)
    requires step.RelayDatagram? && (step.data == [] || step.data[0] != 0)
    ensures RoutedBack(s.ep.routing, ApplySelect(s, step).ep.routing, step.source, step.key, b)
  {
    RoutingHolds(s);
    SelectEffectIsExact(s, step);
    MentionRoutes(s.ep.routing, step.source, step.key, b);
  }

  /** A closing endpoint registers no channel, and a concluding session moves no route but its peer's. */
  lemma SuccessMovesOneRoute(s: Sys, i: nat, b: SocketAddr)
    requires Reachable(s) && CountersInRange(s) && SessionEnabled(s, Succeed(i))
    ensures var r, r' := s.ep.routing, ApplySession(s, Succeed(i)).ep.routing; var p := s.dance.sessions[i].peer;
            && (s.ep.closed || s.ep.dead ==> r' == r)
            && (p in r'.peerToAddr && b != r'.peerToAddr[p] ==> RouteOf(r', b) == RouteOf(r, b))
  {
    RoutingHolds(s);
    SessionEffectIsExact(s, Succeed(i));
    RegisterLeavesOthers(s.ep.routing, s.dance.sessions[i].peer, ChannelFallback(s, i), b);
  }

  // --- signals ----------------------------------------------------------------------------------------

  /**
   * A relayed datagram that begins with 0x00 is a signal. An open endpoint with WebRTC enabled files
   * it, under a claimed slot, behind the unread ones as long as those are fewer than 64; any other
   * endpoint ignores it.
   */
  lemma SignalIsFiled(s: Sys, step: SelectStep)
    requires SelectEnabled(s, step) && step.RelayDatagram? && step.data != [] && step.data[0] == 0
    ensures var s' := ApplySelect(s, step); var inbox := InboxOf(s.ep.slots, step.source);
            if s.ep.webrtcEnabled && !s.ep.closed && !s.ep.dead then
              && step.source in s'.ep.slots.signaling
              && (step.source !in s.ep.slots.signaling ==> s'.ep.slots.signaling[step.source] == step.key)
              && InboxOf(s'.ep.slots, step.source) == if |inbox| < 64 then inbox + [step.parsed] else inbox
            else s'.ep.slots == s.ep.slots && s'.dance == s.dance
  {
  }

  /** A signal that finds the slot free starts an answerer for its sender, on the relay it came by. */
  lemma SignalStartsAnswerer(s: Sys, step: SelectStep)
    requires SelectEnabled(s, step) && step.RelayDatagram? && step.data != [] && step.data[0] == 0
    requires s.ep.webrtcEnabled && !s.ep.closed && !s.ep.dead && step.source !in s.ep.slots.signaling
    ensures var d' := ApplySelect(s, step).dance; var i := s.dance.nextSession;
            && i in d'.sessions && step.source in d'.owner && d'.owner[step.source] == i
            && d'.sessions[i].peer == step.source && d'.sessions[i].via == step.key
            && d'.sessions[i].role == Answerer && d'.sessions[i].live
  {
  }

  /**
   * What a session publishes is queued for its peer on its own relay, behind everything queued
   * before, with 0x00 in front: at the other end it is a signal.
   */
  lemma PublishQueuesASignal(s: Sys, i: nat, signal: Signal, json: Bytes)
    requires Reachable(s) && SessionEnabled(s, Publish(i, signal, json))
    ensures var t, s' := s.dance.sessions[i], ApplySession(s, Publish(i, signal, json));
            s'.ep.out == s.ep.out.(relay := s.ep.out.relay + [RelayItem(t.via, t.peer, [0] + json)])
  {
    SlotsHold(s);
    assert Owns(s.ep.slots, s.dance, i);
  }

  // --- the relay pool -----------------------------------------------------------------------------------

  predicate RelayDies(step: Step, key: nat) {
    step == Select(RelayFailed(key)) && key != 0
  }

  /** A relay enters the pool when its key is handed out and leaves it only by its own failure. */
  lemma StepOnPool(s: Sys, step: Step, key: nat)
    requires Enabled(s, step)
    ensures var r, r' := s.ep.relays, Apply(s, step).ep.relays;
            && r.nextKey <= r'.nextKey <= r.nextKey + 1
            && (r'.nextKey == r.nextKey + 1 <==> step.Api? && step.api.RelayOpened? && step.api.ok)
            && (key in r'.pool <==> (key in r.pool || r.nextKey <= key < r'.nextKey) && !RelayDies(step, key))
  {
    match step
    case Api(a) => RelayProof.ApiFrames(s, a);
    case InSession(t) => SessionKeepsRelays(s, t);
    case Turn(t) => TurnFrames(s, t);
    case Select(e) => EventFrames(s, e);
    case Teardown(_) =>
  }

  ghost predicate Died(steps: seq<Step>, key: nat) {
    exists k :: 0 <= k < |steps| && RelayDies(steps[k], key)
  }

  /** Whatever happens, the pool holds exactly the relays it held or got, without those that failed. */
  lemma {:induction false} PoolOverRuns(s: Sys, steps: seq<Step>, key: nat)
    requires ValidRun(s, steps) && key < s.ep.relays.nextKey
    ensures key < After(s, steps).ep.relays.nextKey
    ensures key in After(s, steps).ep.relays.pool <==> key in s.ep.relays.pool && !Died(steps, key)
    decreases |steps|
  {
    if steps != [] {
      StepOnPool(s, steps[0], key);
      PoolOverRuns(Apply(s, steps[0]), steps[1..], key);
      assert Died(steps, key) <==> RelayDies(steps[0], key) || Died(steps[1..], key) by {
        DiedLater(steps, key);
      }
    }
  }

  lemma DiedLater(steps: seq<Step>, key: nat)
    requires steps != []
    ensures Died(steps, key) <==> RelayDies(steps[0], key) || Died(steps[1..], key)
  {
    if Died(steps[1..], key) {
      var k :| 0 <= k < |steps[1..]| && RelayDies(steps[1..][k], key);
      assert RelayDies(steps[k + 1], key);
    }
    if Died(steps, key) && !RelayDies(steps[0], key) {
      var k :| 0 <= k < |steps| && RelayDies(steps[k], key);
      assert RelayDies(steps[1..][k - 1], key);
    }
  }

  /**
   * A relay whose open succeeds is in the pool under the key its caller gets, waits to be armed, and
   * is from then on in the pool exactly until it fails.
   */
  lemma OpenedRelayIsPooled(s: Sys, opener: nat, steps: seq<Step>)
    requires Enabled(s, Api(RelayOpened(opener, true))) && ValidRun(Apply(s, Api(RelayOpened(opener, true))), steps)
    ensures var key, s' := s.ep.relays.nextKey, Apply(s, Api(RelayOpened(opener, true)));
            && s'.opens.grants == s.opens.grants + [Grant(s.opens.openers[opener], key)]
            && key in s'.ep.relays.pool && key in s'.ep.relays.newRelays
            && (key in After(s', steps).ep.relays.pool <==> !Died(steps, key))
  {
    PoolOverRuns(Apply(s, Api(RelayOpened(opener, true))), steps, s.ep.relays.nextKey);
  }

  /** The home relay is in the pool from the start, under key 0, and never leaves it. */
  lemma HomeRelayStays(homeUrl: string, webrtcEnabled: bool, steps: seq<Step>)
    requires ValidRun(Init(homeUrl, webrtcEnabled), steps)
    ensures 0 in After(Init(homeUrl, webrtcEnabled), steps).ep.relays.pool
  {
    PoolOverRuns(Init(homeUrl, webrtcEnabled), steps, 0);
  }

  /** A new open begins exactly for a URL with no key and no open, on an endpoint that is not closing. */
  lemma OpensBeginExactlyWhen(s: Sys, url: string)
    requires OpenInv(s.ep.relays, s.opens)
    ensures var o, o' := s.opens, ApplyApi(s, EnsureRelay(url)).opens; var n := Normalize(url);
            && (o'.openers != o.openers <==>
                  n !in s.ep.relays.keys && n !in s.ep.relays.opening && !s.ep.closed && !s.ep.dead)
            && (o'.openers != o.openers ==> o'.openers == o.openers[o.nextOpener := url])
            && o'.grants == o.grants + if n in s.ep.relays.keys then [Grant(url, s.ep.relays.keys[n])] else []
  {
    RelayProof.ApiFrames(s, EnsureRelay(url));
    var o := s.opens;
    assert o.nextOpener !in o.openers && o.nextOpener in o.openers[o.nextOpener := url];
  }

  // --- tasks and the pump's exit --------------------------------------------------------------------------

  /** A dial that got its connection asks for exactly the upgrade it was given. */
  lemma DialAsksForUpgrade(s: Sys, step: ApiStep)
    requires ApiEnabled(s, step) && step.Connect?
    ensures ApplyApi(s, step).ep.pendingUpgrades
            == s.ep.pendingUpgrades
               + if !s.ep.closed && !s.ep.dead && step.made.Some? && step.upgradeKey.Some?
                 then [(step.peer, step.upgradeKey.value)] else []
  {
  }

  /** Request `k` has become a task: an offerer for its peer, on its relay. */
  predicate SpawnedFor(d': Dance, base: nat, upgrades: seq<(Peer, nat)>, k: nat) {
    && k < |upgrades| && base + k in d'.sessions
    && d'.sessions[base + k] == Session(upgrades[k].0, upgrades[k].1, Offerer, false, [], [], [])
  }

  /** One offerer per request, in order, for its peer and on its relay, and no other task. */
  lemma {:induction false} SpawnsEachOnce(d: Dance, upgrades: seq<(Peer, nat)>)
    ensures var d' := Spawned(d, upgrades);
            && d'.nextSession == d.nextSession + |upgrades| && d'.owner == d.owner
            && (forall k :: 0 <= k < |upgrades| ==> SpawnedFor(d', d.nextSession, upgrades, k))
            && (forall i :: i in d'.sessions && !(d.nextSession <= i < d'.nextSession) ==>
                  i in d.sessions && d'.sessions[i] == d.sessions[i])
    decreases |upgrades|
  {
    if upgrades != [] {
      var first := Session(upgrades[0].0, upgrades[0].1, Offerer, false, [], [], []);
      var d1 := d.(sessions := d.sessions[d.nextSession := first], nextSession := d.nextSession + 1);
      var d', rest := Spawned(d, upgrades), upgrades[1..];
      SpawnsEachOnce(d1, rest);
      SpawningKeeps(d1, rest, d.nextSession);
      assert d' == Spawned(d1, rest);
      forall k | 0 <= k < |upgrades| ensures SpawnedFor(d', d.nextSession, upgrades, k) {
        assert k > 0 ==> SpawnedFor(d', d1.nextSession, rest, k - 1);
      }
    }
  }

  lemma {:induction false} SpawningKeeps(d: Dance, upgrades: seq<(Peer, nat)>, i: nat)
    requires i in d.sessions && i < d.nextSession
    ensures var d' := Spawned(d, upgrades); i in d'.sessions && d'.sessions[i] == d.sessions[i]
    decreases |upgrades|
  {
    if upgrades != [] {
      var first := Session(upgrades[0].0, upgrades[0].1, Offerer, false, [], [], []);
      SpawningKeeps(d.(sessions := d.sessions[d.nextSession := first], nextSession := d.nextSession + 1),
                    upgrades[1..], i);
    }
  }

  /** When the pump arms, every requested upgrade is spawned and none is left. */
  lemma UpgradesAreSpawned(s: Sys, lingered: bool)
    requires TurnEnabled(s, Arm(lingered))
    ensures var s' := ApplyTurn(s, Arm(lingered));
            s'.dance == Spawned(s.dance, s.ep.pendingUpgrades) && s'.ep.pendingUpgrades == []
  {
  }

  /**
   * The pump leaves its loop only dead, or closed with every connection drained or failed unless the
   * linger time has passed; and then it does.
   */
  lemma ExitsExactlyWhen(s: Sys, lingered: bool)
    requires TurnEnabled(s, Arm(lingered))
    ensures TornDown(ApplyTurn(s, Arm(lingered)).pump.phase) <==>
              || s.ep.dead
              || (s.ep.closed
                  && (lingered || forall h :: h in s.ep.conns ==> s.ep.conns[h].drained || s.ep.conns[h].error != None))
  {
  }

  // --- the pump's turn --------------------------------------------------------------------------------------

  lemma TagsMatch(s: Sys)
    requires Reachable(s)
    ensures |s.ep.out.relay| == |s.sends.relayTags| && |s.ep.out.channel| == |s.sends.channelTags|
  {
    ReachableIsSafe(s);
  }

  predicate Carries(d: Delivery, wire: RouteWire, peer: Peer, data: Bytes) {
    d.wire == wire && d.peer == peer && d.data == data
  }

  /** `done'` is `done` with one more delivery, of that kind. */
  predicate OneMore(done: seq<Delivery>, done': seq<Delivery>, wire: RouteWire, peer: Peer, data: Bytes) {
    |done'| == |done| + 1 && done'[..|done|] == done && Carries(done'[|done|], wire, peer, data)
  }

  lemma RelayHandover(s: Sys)
    requires TurnEnabled(s, FlushRelay) && s.ep.out.relay != [] && s.sends.relayTags != []
    ensures var item, s' := s.ep.out.relay[0], ApplyTurn(s, FlushRelay);
            && s.ep.out.relay == [item] + s'.ep.out.relay
            && if item.key in s.ep.relays.pool
               then OneMore(s.sends.relayDelivered, s'.sends.relayDelivered, Relay(item.key), item.peer, item.data)
               else s'.sends.relayDelivered == s.sends.relayDelivered
  {
  }

  /** Flushing hands the oldest relay datagram to its relay if that is in the pool, and drops it if not. */
  lemma FlushesRelayInOrder(s: Sys)
    requires Reachable(s) && TurnEnabled(s, FlushRelay) && s.ep.out.relay != []
    ensures var item, s' := s.ep.out.relay[0], ApplyTurn(s, FlushRelay);
            && s.ep.out.relay == [item] + s'.ep.out.relay
            && if item.key in s.ep.relays.pool
               then OneMore(s.sends.relayDelivered, s'.sends.relayDelivered, Relay(item.key), item.peer, item.data)
               else s'.sends.relayDelivered == s.sends.relayDelivered
  {
    TagsMatch(s);
    RelayHandover(s);
  }

  lemma ChannelHandover(s: Sys)
    requires TurnEnabled(s, FlushChannel) && s.ep.out.channel != [] && s.sends.channelTags != []
    ensures var item, s' := s.ep.out.channel[0], ApplyTurn(s, FlushChannel);
            && s.ep.out.channel == [item] + s'.ep.out.channel
            && if item.id in s.ep.routing.channels
               then OneMore(s.sends.channelDelivered, s'.sends.channelDelivered, Channel(item.id),
                            s.ep.routing.channels[item.id].peer, item.data)
               else s'.sends.channelDelivered == s.sends.channelDelivered
  {
  }

  /** So for channels: the oldest goes to its channel if that is still registered. */
  lemma FlushesChannelsInOrder(s: Sys)
    requires Reachable(s) && TurnEnabled(s, FlushChannel) && s.ep.out.channel != []
    ensures var item, s' := s.ep.out.channel[0], ApplyTurn(s, FlushChannel);
            && s.ep.out.channel == [item] + s'.ep.out.channel
            && if item.id in s.ep.routing.channels
               then OneMore(s.sends.channelDelivered, s'.sends.channelDelivered, Channel(item.id),
                            s.ep.routing.channels[item.id].peer, item.data)
               else s'.sends.channelDelivered == s.sends.channelDelivered
  {
    TagsMatch(s);
    ChannelHandover(s);
  }

  /** And UDP datagrams leave oldest first; a phase of flushing ends only with its queue empty. */
  lemma FlushesToTheEnd(s: Sys, step: TurnStep)
    requires TurnEnabled(s, step)
    ensures step == FlushUdp && s.ep.out.udp != [] ==>
              s.ep.out.udp == [s.ep.out.udp[0]] + ApplyTurn(s, step).ep.out.udp
    ensures ApplyTurn(s, step).pump.phase.FlushingUdp? && step == FlushRelay ==> s.ep.out.relay == []
    ensures ApplyTurn(s, step).pump.phase.FlushingChannel? && step == FlushUdp ==> s.ep.out.udp == []
    ensures ApplyTurn(s, step).pump.phase.Arming? && step == FlushChannel ==> s.ep.out.channel == []
  {
  }

  /** When a living pump goes to wait, each wire there is has its one receive armed. */
  lemma ArmsEverything(s: Sys, lingered: bool)
    requires Reachable(s) && CountersInRange(s) && TurnEnabled(s, Arm(lingered)) && !s.ep.dead
    ensures var s' := ApplyTurn(s, Arm(lingered));
            && s'.pump.armedRelays == multiset(s.ep.relays.pool)
            && s'.pump.armedChannels == multiset(s.ep.routing.channels.Keys)
  {
    ReceivesHold(s);
  }
}
