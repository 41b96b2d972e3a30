/** What steps do to connections, field by field, and what that comes to over runs. */
module ConnEffects {
  import opened Types
  import opened RoutingTables
  import opened Connections
  import opened Endpoint
  import opened System
  import OutboundProof
  import opened WireProof
  import opened ConnProof
  import opened Draining
  import opened Theorems

  // --- where connections come from ----------------------------------------------------------------

  /** A step that may open a connection, with the key it must authenticate as. */
  function ExpectedBy(s: Sys, step: Step): Option<Option<Peer>> {
    match step
    case Api(Connect(peer, _, _, _, _)) => Some(Some(peer))
    case Select(RelayDatagram(_, source, _, _, _)) => Some(Some(source))
    case Select(ChannelMessage(id, _, _)) =>
      if id in s.ep.routing.channels then Some(Some(s.ep.routing.channels[id].peer)) else None
    case Select(UdpDatagram(_, _, _)) => Some(None)
    case _ => None
  }

  /** An entry as it begins: nobody authenticated, nothing queued, nothing wrong. */
  predicate Fresh(e: ConnEntry) {
    e.peer == None && !e.connected && e.error == None && !e.drained && e.biQueue == [] && e.uniQueue == []
  }

  lemma NewOnEvent(s: Sys, step: SelectStep, h: Handle)
    requires SelectEnabled(s, step) && h !in s.ep.conns && h in ApplySelect(s, step).ep.conns
    ensures var e := ApplySelect(s, step).ep.conns[h];
            ExpectedBy(s, Select(step)) == Some(e.expectedPeer) && e.acceptedSide && Fresh(e)
  {
    if step.RelayDatagram? || step.ChannelMessage? {
      ConnProof.PeerDatagramFrames(s, step);
    } else {
      OtherEventFrames(s, step);
    }
  }

  lemma NewOnTurn(s: Sys, step: TurnStep)
    requires TurnEnabled(s, step)
    ensures ApplyTurn(s, step).ep.conns.Keys == s.ep.conns.Keys
  {
  }

  /**
   * A new connection expects the key of whoever it was opened for: the peer dialed, the relay- or
   * channel-authenticated sender, or nobody in particular over UDP; and it starts from nothing.
   */
  lemma NewConnectionExpects(s: Sys, step: Step, h: Handle)
    requires Enabled(s, step) && h !in s.ep.conns && h in Apply(s, step).ep.conns
    ensures var e := Apply(s, step).ep.conns[h];
            ExpectedBy(s, step) == Some(e.expectedPeer) && e.acceptedSide == !step.Api? && Fresh(e)
  {
    match step
    case Api(a) => ConnProof.ApiFrames(s, a);
    case InSession(t) => SessionFrames(s, t);
    case Turn(t) => NewOnTurn(s, t);
    case Select(e) => NewOnEvent(s, e, h);
    case Teardown(_) =>
  }

  /** Over any run, a connection opened for a peer connects only as that peer. */
  lemma ConnectsOnlyAsExpected(s: Sys, step: Step, steps: seq<Step>, h: Handle)
    requires Reachable(s) && Enabled(s, step) && h !in s.ep.conns && h in Apply(s, step).ep.conns
    requires ValidRun(Apply(s, step), steps)
    ensures var conns := After(Apply(s, step), steps).ep.conns;
            && h in conns
            && (conns[h].connected && ExpectedBy(s, step) != Some(None) ==>
                  ExpectedBy(s, step) == Some(conns[h].peer))
  {
    var s1 := Apply(s, step);
    NewConnectionExpects(s, step, h);
    ReachableStep(s, step);
    ReachableRun(s1, steps);
    ConnsOnlyGrow(s1, steps);
    if After(s1, steps).ep.conns[h].connected {
      ConnectedMeansAuthenticated(After(s1, steps), h);
    }
  }

  // --- what a datagram does -------------------------------------------------------------------------

  /** `b` queued behind `a`. */
  predicate Behind(a: Reaction, b: Reaction, r: Reaction) {
    r.eps == a.eps + b.eps && r.apps == a.apps + b.apps && r.txs == a.txs + b.txs
  }

  /** `e'` is `e` with one more input to its connection. */
  predicate Took(e: ConnEntry, reaction: Reaction, e': ConnEntry) {
    e' == e.(conn := e'.conn) && Behind(e.conn, reaction, e'.conn)
  }

  /** A datagram reaches the one connection it is for, opens one, or touches none. */
  lemma VerdictTouchesOne(ep: Ep, source: Option<Peer>, v: Verdict, h: Handle)
    ensures var conns, conns' := ep.conns, ConnsAfter(ep, source, v);
            && (h in conns ==> h in conns')
            && (h in conns' && (v.ToConnection? || v.Accepted? ==> h != v.h) ==> h in conns && conns'[h] == conns[h])
            && (v.ToConnection? && v.h in conns ==> Took(conns[v.h], v.reaction, conns'[v.h]))
            && (v.Accepted? && !ep.closed ==>
                  v.h in conns' && conns'[v.h].conn == v.reaction && conns'[v.h].expectedPeer == source)
            && (v.Accepted? && ep.closed ==> conns' == conns)
  {
  }

  /** The response a verdict calls for; a closed endpoint refuses silently. */
  predicate Answers(closed: bool, v: Verdict, data: Bytes) {
    (v.Response? && v.data == data) || (v.Refused? && !closed && v.response == Some(data))
  }

  /** A response is queued for the sender's own address and nothing for any other. */
  lemma ResponseIsQueued(ep: Ep, addr: SocketAddr, source: Option<Peer>, v: Verdict, a: SocketAddr, data: Bytes)
    requires RoutingInv(ep.routing)
    requires if source.Some? then addr in ep.routing.addrToPeer && ep.routing.addrToPeer[addr] == source.value
             else !IsStandin(addr)
    ensures var out, out' := ep.out, HandleDatagram(ep, addr, source, v).out;
            && (Answers(ep.closed, v, data) ==>
                  && QueuedTotal(out') == QueuedTotal(out) + 1
                  && QueuedFor(ep.routing, out', a) == QueuedFor(ep.routing, out, a) + if a == addr then [data] else [])
            && ((forall d :: !Answers(ep.closed, v, d)) ==> out' == out)
  {
    if Answers(ep.closed, v, data) {
      OutboundProof.ResponseIsEnqueue(ep.routing, ep.out, addr, source, data);
      EnqueueShows(ep.routing, ep.out, Transmit(addr, data), a);
    } else if ResponseTo(ep, v).Some? {
      assert Answers(ep.closed, v, ResponseTo(ep, v).value);
    }
  }

  /** The address a datagram enters under. */
  function EntersAs(s: Sys, step: SelectStep, r': Routing): Option<SocketAddr> {
    match step
    case UdpDatagram(remote, _, _) => Some(remote)
    case RelayDatagram(_, source, data, _, _) =>
      if (data == [] || data[0] != 0) && source in r'.peerToAddr then Some(r'.peerToAddr[source]) else None
    case ChannelMessage(id, Some(_), _) =>
      if id in s.ep.routing.channels && s.ep.routing.channels[id].peer in r'.peerToAddr
      then Some(r'.peerToAddr[s.ep.routing.channels[id].peer]) else None
    case _ => None
  }

  /** The QUIC core's response to a datagram goes back to the address it came in under. */
  lemma ResponseGoesBack(s: Sys, step: SelectStep, a: SocketAddr, data: Bytes)
    requires Reachable(s) && CountersInRange(s) && SelectEnabled(s, step)
    requires step.UdpDatagram? || step.RelayDatagram? || step.ChannelMessage?
    requires EntersAs(s, step, ApplySelect(s, step).ep.routing).Some? && Answers(s.ep.closed, step.verdict, data)
    ensures var s' := ApplySelect(s, step); var r' := s'.ep.routing;
            QueuedFor(r', s'.ep.out, a)
            == QueuedFor(r', s.ep.out, a) + if Some(a) == EntersAs(s, step, r') then [data] else []
  {
    RoutingHolds(s);
    if step.UdpDatagram? {
      ResponseIsQueued(s.ep, step.remote, None, step.verdict, a, data);
    } else {
      PeerResponseGoesBack(s, step, a, data);
    }
  }

  lemma PeerResponseGoesBack(s: Sys, step: SelectStep, a: SocketAddr, data: Bytes)
    requires RoutingInv(s.ep.routing) && CountersInRange(s) && SelectEnabled(s, step)
    requires step.RelayDatagram? || step.ChannelMessage?
    requires EntersAs(s, step, ApplySelect(s, step).ep.routing).Some? && Answers(s.ep.closed, step.verdict, data)
    ensures var s' := ApplySelect(s, step); var r' := s'.ep.routing;
            QueuedFor(r', s'.ep.out, a)
            == QueuedFor(r', s.ep.out, a) + if Some(a) == EntersAs(s, step, r') then [data] else []
  {
    var peer := if step.RelayDatagram? then step.source else s.ep.routing.channels[step.id].peer;
    var via := if step.RelayDatagram? then step.key else s.ep.routing.channels[step.id].fallbackRelay;
    var r := Mention(s.ep.routing, peer, via);
    MentionKeeps(s.ep.routing, peer, via);
    ResponseIsQueued(s.ep.(routing := r), r.peerToAddr[peer], Some(peer), step.verdict, a, data);
  }

  /** A dial that gets its connection starts it with the core's reaction; one that does not adds none. */
  lemma DialOpens(s: Sys, step: ApiStep)
    requires ApiEnabled(s, step) && step.Connect?
    ensures var conns' := ApplyApi(s, step).ep.conns;
            if step.made.Some? && !s.ep.closed && !s.ep.dead
            then && step.made.value.0 in conns' && conns'[step.made.value.0].conn == step.made.value.1
                 && conns' == s.ep.conns[step.made.value.0 := conns'[step.made.value.0]]
            else conns' == s.ep.conns
  {
  }

  /** What a call makes a connection do is queued on that connection alone. */
  lemma DriveReaches(s: Sys, h: Handle, reaction: Reaction, k: Handle)
    requires ApiEnabled(s, Drive(h, reaction)) && k in s.ep.conns
    ensures var conns' := ApplyApi(s, Drive(h, reaction)).ep.conns;
            && k in conns'
            && if k == h then Took(s.ep.conns[h], reaction, conns'[h]) else conns'[k] == s.ep.conns[k]
  {
  }

  /** An acceptor gets the handle that has waited longest, if any waits. */
  lemma AcceptTakesOldest(s: Sys)
    ensures var s' := ApplyApi(s, Accept);
            if s.ep.acceptQueue == [] then s' == s
            else && s'.feed.accepted == s.feed.accepted + [s.ep.acceptQueue[0]]
                 && s.ep.acceptQueue == [s.ep.acceptQueue[0]] + s'.ep.acceptQueue
  {
  }

  // --- closing, timers and death ----------------------------------------------------------------------

  /** Closing reaches each connection neither failed nor drained, once, and no other. */
  lemma ClosingReaches(ep: Ep, reactions: map<Handle, Reaction>, h: Handle)
    requires h in ep.conns
    ensures var ep' := Close(ep, reactions);
            && ep'.closed && h in ep'.conns
            && if !ep.closed && h in reactions && ep.conns[h].error == None && !ep.conns[h].drained
               then Took(ep.conns[h], reactions[h], ep'.conns[h])
               else ep'.conns[h] == ep.conns[h]
  {
  }

  /** A tick reaches each connection whose timer is due, and no other. */
  lemma TickReaches(s: Sys, reactions: map<Handle, Reaction>, h: Handle)
    requires SelectEnabled(s, Tick(reactions)) && h in s.ep.conns
    ensures var conns' := ApplySelect(s, Tick(reactions)).ep.conns;
            && h in conns'
            && if h in reactions then Took(s.ep.conns[h], reactions[h], conns'[h]) else conns'[h] == s.ep.conns[h]
  {
  }

  /** Death fails each connection that had not failed with `Closed`, and leaves earlier errors. */
  lemma DeathFailsWithClosed(s: Sys, step: Step, h: Handle)
    requires Enabled(s, step) && Dies(s, step) && h in s.ep.conns
    ensures var e, conns' := s.ep.conns[h], Apply(s, step).ep.conns;
            h in conns' && conns'[h] == e.(error := if e.error == None then Some(Closed) else e.error)
  {
  }

  // --- streams -----------------------------------------------------------------------------------------

  function StreamsOf(e: ConnEntry, bi: bool): seq<StreamId> {
    if bi then e.biQueue else e.uniQueue
  }

  function Streams(s: Sys, h: Handle, bi: bool): seq<StreamId> {
    if h in s.ep.conns then StreamsOf(s.ep.conns[h], bi) else []
  }

  /** The streams of one direction the core reports opened on `h` in this step. */
  function OpenedBy(s: Sys, step: Step, h: Handle, bi: bool): seq<StreamId>
    requires Enabled(s, step)
  {
    if step.Turn? && step.turn == PollConn(Poll.Events(h)) && s.ep.conns[h].conn.apps[0].StreamsOpened?
    then (if bi then s.ep.conns[h].conn.apps[0].bi else s.ep.conns[h].conn.apps[0].uni)
    else []
  }

  /** The stream of that direction an acceptor on `h` gets in this step. */
  function GivenBy(s: Sys, step: Step, h: Handle, bi: bool): seq<StreamId>
    requires Enabled(s, step)
  {
    if step == Api(TakeStream(h, bi)) && Streams(s, h, bi) != [] then [Streams(s, h, bi)[0]] else []
  }

  function OpenedByAll(s: Sys, steps: seq<Step>, h: Handle, bi: bool): seq<StreamId>
    requires ValidRun(s, steps)
    decreases |steps|
  {
    if steps == [] then []
    else OpenedBy(s, steps[0], h, bi) + OpenedByAll(Apply(s, steps[0]), steps[1..], h, bi)
  }

  function GivenByAll(s: Sys, steps: seq<Step>, h: Handle, bi: bool): seq<StreamId>
    requires ValidRun(s, steps)
    decreases |steps|
  {
    if steps == [] then []
    else GivenBy(s, steps[0], h, bi) + GivenByAll(Apply(s, steps[0]), steps[1..], h, bi)
  }

  /** An entry no stream of which came or went. */
  ghost predicate SameStreams(conns: map<Handle, ConnEntry>, conns': map<Handle, ConnEntry>, h: Handle) {
    && (h in conns ==> h in conns' && conns'[h].biQueue == conns[h].biQueue && conns'[h].uniQueue == conns[h].uniQueue)
    && (h !in conns && h in conns' ==> conns'[h].biQueue == [] && conns'[h].uniQueue == [])
  }

  /** Of all polls only an event opens streams, and only those it reports. */
  lemma EntryStreams(e: ConnEntry, bi: bool)
    ensures e.conn.eps != [] ==> StreamsOf(TakeEndpointEvent(e), bi) == StreamsOf(e, bi)
    ensures e.conn.txs != [] ==> StreamsOf(TakeTransmit(e), bi) == StreamsOf(e, bi)
    ensures e.conn.apps != [] ==>
              var event := e.conn.apps[0];
              StreamsOf(TakeEvent(e), bi)
              == StreamsOf(e, bi) + if !event.StreamsOpened? then [] else if bi then event.bi else event.uni
  {
    if e.conn.apps != [] {
      var event := e.conn.apps[0];
      assert event.StreamsOpened? ==> TakeEvent(e).biQueue == e.biQueue + event.bi;
      assert !event.StreamsOpened? ==> TakeEvent(e).biQueue == e.biQueue && TakeEvent(e).uniQueue == e.uniQueue;
    }
  }

  /** A poll of `h` leaves every other entry alone. */
  lemma PollTouchesOne(ep: Ep, poll: Poll, h: Handle)
    requires CanPoll(ep, poll) && h in ep.conns
    ensures var e, conns' := ep.conns[h], DoPoll(ep, poll).conns;
            && h in conns'
            && (poll.h != h ==> conns'[h] == e)
            && (poll == EndpointEvents(h) ==> conns'[h] == TakeEndpointEvent(e))
            && (poll == Poll.Events(h) ==> conns'[h] == TakeEvent(e))
            && (poll == Transmits(h) ==> conns'[h] == TakeTransmit(e))
            && (poll == IsDrained(h) ==> conns'[h] == e.(drained := true))
  {
  }

  lemma PollStreams(s: Sys, poll: Poll, h: Handle, bi: bool)
    requires CountersInRange(s) && TurnEnabled(s, PollConn(poll)) && h in s.ep.conns
    ensures var step := Turn(PollConn(poll)); var ep' := DoPoll(s.ep, poll);
            h in ep'.conns && StreamsOf(ep'.conns[h], bi) == StreamsOf(s.ep.conns[h], bi) + OpenedBy(s, step, h, bi)
  {
    PollTouchesOne(s.ep, poll, h);
    EntryStreams(s.ep.conns[h], bi);
  }

  /** Taking a stream takes the oldest of its direction and none of the other. */
  lemma PopTakesOldest(e: ConnEntry, taken: bool, bi: bool)
    ensures var e' := PopStream(e, taken);
            StreamsOf(e, bi) == (if taken == bi && StreamsOf(e, bi) != [] then [StreamsOf(e, bi)[0]] else [])
                                + StreamsOf(e', bi)
  {
  }

  lemma TakeStreamPops(s: Sys, h: Handle, bi: bool)
    requires h in s.ep.conns
    ensures ApplyApi(s, TakeStream(h, bi)).ep.conns == s.ep.conns[h := PopStream(s.ep.conns[h], bi)]
  {
  }

  lemma TakeStreamGives(s: Sys, t: Handle, taken: bool, h: Handle, bi: bool)
    requires t in s.ep.conns
    ensures var queue, s' := Streams(s, h, bi), ApplyApi(s, TakeStream(t, taken));
            queue == (if t == h && taken == bi && queue != [] then [queue[0]] else []) + Streams(s', h, bi)
  {
    TakeStreamPops(s, t, taken);
    if t == h {
      PopTakesOldest(s.ep.conns[h], taken, bi);
    }
  }

  lemma OtherApiStreams(s: Sys, step: ApiStep, h: Handle)
    requires ApiEnabled(s, step) && !step.TakeStream?
    ensures SameStreams(s.ep.conns, ApplyApi(s, step).ep.conns, h)
  {
    ConnProof.ApiFrames(s, step);
  }

  lemma ApiStreams(s: Sys, step: ApiStep, h: Handle, bi: bool)
    requires CountersInRange(s) && ApiEnabled(s, step)
    ensures GivenBy(s, Api(step), h, bi) + Streams(Apply(s, Api(step)), h, bi) == Streams(s, h, bi)
  {
    if step.TakeStream? {
      TakeStreamGives(s, step.h, step.bi, h, bi);
    } else {
      OtherApiStreams(s, step, h);
    }
  }

  lemma EventStreams(s: Sys, step: SelectStep, h: Handle)
    requires SelectEnabled(s, step)
    ensures SameStreams(s.ep.conns, ApplySelect(s, step).ep.conns, h)
  {
    if step.RelayDatagram? || step.ChannelMessage? {
      ConnProof.PeerDatagramFrames(s, step);
    } else {
      OtherEventFrames(s, step);
    }
  }

  lemma StepStreams(s: Sys, step: Step, h: Handle, bi: bool)
    requires Enabled(s, step)
    ensures GivenBy(s, step, h, bi) + Streams(Apply(s, step), h, bi) == Streams(s, h, bi) + OpenedBy(s, step, h, bi)
  {
    match step
    case Api(a) => ApiStreams(s, a, h, bi);
    case InSession(t) => SessionFrames(s, t);
    case Turn(t) => TurnStreams(s, t, h, bi);
    case Select(e) => EventStreams(s, e, h);
    case Teardown(_) =>
  }

  lemma TurnStreams(s: Sys, step: TurnStep, h: Handle, bi: bool)
    requires Enabled(s, Turn(step))
    ensures Streams(Apply(s, Turn(step)), h, bi) == Streams(s, h, bi) + OpenedBy(s, Turn(step), h, bi)
  {
    if step.PollConn? && h in s.ep.conns {
      PollStreams(s, step.poll, h, bi);
    }
  }

  lemma Rearranged(given: seq<StreamId>, later: seq<StreamId>, last: seq<StreamId>, mid: seq<StreamId>,
                   first: seq<StreamId>, news: seq<StreamId>, more: seq<StreamId>)
    requires given + mid == first + news && later + last == mid + more
    ensures given + later + last == first + (news + more)
  {
    assert given + later + last == given + (later + last);
    assert given + (mid + more) == (given + mid) + more;
    assert (first + news) + more == first + (news + more);
  }

  /**
   * Over any run, in each direction: the streams given to acceptors followed by those still queued
   * are those queued before followed by those the core opened, in that order.
   */
  lemma {:induction false} StreamsAreConserved(s: Sys, steps: seq<Step>, h: Handle, bi: bool)
    requires ValidRun(s, steps)
    ensures GivenByAll(s, steps, h, bi) + Streams(After(s, steps), h, bi)
            == Streams(s, h, bi) + OpenedByAll(s, steps, h, bi)
    decreases |steps|
  {
    if steps != [] {
      var s1, rest := Apply(s, steps[0]), steps[1..];
      StepStreams(s, steps[0], h, bi);
      StreamsAreConserved(s1, rest, h, bi);
      Rearranged(GivenBy(s, steps[0], h, bi), GivenByAll(s1, rest, h, bi), Streams(After(s1, rest), h, bi),
                 Streams(s1, h, bi), Streams(s, h, bi), OpenedBy(s, steps[0], h, bi), OpenedByAll(s1, rest, h, bi));
    }
  }

  // --- what callers are told --------------------------------------------------------------------------

  /** `state`: closed once failed or drained, and open exactly when connected and neither. */
  lemma StateTells(e: ConnEntry)
    ensures StateOf(e) == Finished <==> e.error != None || e.drained
    ensures StateOf(e) == Open <==> e.connected && e.error == None && !e.drained
    ensures StateRank(Connecting) < StateRank(Open) < StateRank(Finished)
  {
  }

  /** A parked call waits exactly as long as there is neither a result nor a reason to give up. */
  lemma WaitsExactlyWhile(ep: Ep, w: Wait, offered: bool)
    requires !w.AcceptWait? && !w.RelayWait? ==> w.h in ep.conns
    ensures PollWait(ep, w, offered) == Pending <==>
              match w
              case ConnectWait(h) => ep.conns[h].error == None && !ep.conns[h].connected
              case AcceptWait => ep.acceptQueue == [] && !ep.closed && !ep.dead
              case AcceptStreamWait(h, bi) => StreamsOf(ep.conns[h], bi) == [] && ep.conns[h].error == None
              case ClosedWait(h) => ep.conns[h].error == None && !ep.conns[h].drained
              case RelayWait(url) =>
                && Normalize(url) !in ep.relays.keys && Normalize(url) in ep.relays.opening
                && !ep.closed && !ep.dead && !offered
              case _ => !offered && ep.conns[w.h].error == None
  {
  }

  /** A parked call succeeds exactly with its result at hand, and a failed connection's error wins where it must. */
  lemma SucceedsExactlyWhen(ep: Ep, w: Wait, offered: bool)
    requires !w.AcceptWait? && !w.RelayWait? ==> w.h in ep.conns
    ensures PollWait(ep, w, offered) == Value <==>
              match w
              case ConnectWait(h) => ep.conns[h].error == None && ep.conns[h].connected
              case AcceptWait => ep.acceptQueue != []
              case AcceptStreamWait(h, bi) => StreamsOf(ep.conns[h], bi) != []
              case DatagramWait(h) => offered
              case ClosedWait(h) => ep.conns[h].error != None || ep.conns[h].drained
              case RelayWait(url) => Normalize(url) in ep.relays.keys
              case _ => offered && ep.conns[w.h].error == None
  {
  }

  /** A parked call on a failed connection that gets no result fails with that connection's error. */
  lemma FailsAsItsConnection(ep: Ep, w: Wait, offered: bool)
    requires !w.AcceptWait? && !w.RelayWait? && w.h in ep.conns && ep.conns[w.h].error != None
    ensures var r := PollWait(ep, w, offered);
            || r == Value
            || r == Fails(ep.conns[w.h].error.value)
            || (r == EndOfStream && w.ReadWait? && ep.conns[w.h].error == Some(Closed))
    ensures w.ReadWait? && ep.conns[w.h].error == Some(Closed) ==> PollWait(ep, w, offered) == EndOfStream
  {
  }
}
