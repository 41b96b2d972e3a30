/** Connection identities, the accept queue, and the one-way life of a connection. */
module ConnProof {
  import opened Types
  import opened Connections
  import opened Signals
  import opened Endpoint
  import opened System
  import opened Invariants

  lemma FeedKeepsEntry(e: ConnEntry, r: Reaction)
    requires EntryInv(e) && FeedOk(e, r)
    ensures EntryInv(Feed(e, r))
  {
    CountMerge(Connects, e.conn, r);
  }

  lemma PollKeepsEntry(e: ConnEntry)
    requires EntryInv(e)
    ensures e.conn.eps != [] ==> EntryInv(TakeEndpointEvent(e))
    ensures e.conn.apps != [] ==> EntryInv(TakeEvent(e))
    ensures e.conn.txs != [] ==> EntryInv(TakeTransmit(e))
  {
    if e.conn.eps != [] {
      TakeEndpointEventCounts(e, Connects);
    }
    if e.conn.apps != [] {
      TakeEventCounts(e, Connects);
    }
    if e.conn.txs != [] {
      TakeTransmitCounts(e, Connects);
    }
  }

  /** What one step may do to one connection: nothing here undoes an error, a drain or a handshake. */
  ghost predicate Grows(e: ConnEntry, e': ConnEntry) {
    && e'.expectedPeer == e.expectedPeer && e'.acceptedSide == e.acceptedSide
    && (e.connected ==> e'.connected && e'.peer == e.peer)
    && (e.error.Some? ==> e'.error.Some?)
    && (e.drained ==> e'.drained)
  }

  /** Entries are never removed, and each only grows. */
  ghost predicate AllGrow(conns: map<Handle, ConnEntry>, conns': map<Handle, ConnEntry>) {
    forall h :: h in conns ==> h in conns' && Grows(conns[h], conns'[h])
  }

  /** Steps other than a poll change no connection's standing: what surfaced stays surfaced. */
  ghost predicate SameStanding(conns: map<Handle, ConnEntry>, conns': map<Handle, ConnEntry>) {
    && (forall h :: h in conns ==> h in conns' && conns'[h].connected == conns[h].connected)
    && (forall h :: h in conns' && h !in conns ==> !conns'[h].connected)
  }

  ghost predicate Surfacing(s: Sys) {
    ConnInv(s.ep.conns) && AcceptInv(s.ep.conns, s.feed.accepted + s.ep.acceptQueue)
  }

  ghost predicate KeepsConns(s: Sys, s': Sys) {
    Surfacing(s') && AllGrow(s.ep.conns, s'.ep.conns)
  }

  lemma StandingKeepsConns(s: Sys, s': Sys)
    requires Surfacing(s) && ConnInv(s'.ep.conns)
    requires AllGrow(s.ep.conns, s'.ep.conns) && SameStanding(s.ep.conns, s'.ep.conns)
    requires s'.feed.accepted + s'.ep.acceptQueue == s.feed.accepted + s.ep.acceptQueue
    ensures KeepsConns(s, s')
  {
  }

  /** Feeding reactions, starting entries afresh and marking errors all keep every standing. */
  lemma FeedAllKeeps(conns: map<Handle, ConnEntry>, reactions: map<Handle, Reaction>)
    requires ConnInv(conns) && FeedAllOk(conns, reactions)
    ensures var conns' := FeedAll(conns, reactions);
            ConnInv(conns') && AllGrow(conns, conns') && SameStanding(conns, conns')
  {
    var conns' := FeedAll(conns, reactions);
    forall h | h in conns' ensures EntryInv(conns'[h]) {
      if h in reactions {
        FeedKeepsEntry(conns[h], reactions[h]);
      }
    }
  }

  lemma SetKeeps(conns: map<Handle, ConnEntry>, h: Handle, e: ConnEntry)
    requires ConnInv(conns) && EntryInv(e)
    requires if h in conns then Grows(conns[h], e) && e.connected == conns[h].connected else !e.connected
    ensures var conns' := conns[h := e];
            ConnInv(conns') && AllGrow(conns, conns') && SameStanding(conns, conns')
  {
  }

  lemma MarkDeadKeeps(ep: Ep)
    requires ConnInv(ep.conns)
    ensures var conns' := MarkDead(ep).conns;
            ConnInv(conns') && AllGrow(ep.conns, conns') && SameStanding(ep.conns, conns')
  {
  }

  lemma VerdictKeeps(ep: Ep, source: Option<Peer>, v: Verdict)
    requires ConnInv(ep.conns) && VerdictOk(ep, v)
    ensures var conns' := ConnsAfter(ep, source, v);
            ConnInv(conns') && AllGrow(ep.conns, conns') && SameStanding(ep.conns, conns')
  {
    match v
    case ToConnection(h, reaction) =>
      if h in ep.conns {
        FeedKeepsEntry(ep.conns[h], reaction);
        SetKeeps(ep.conns, h, Feed(ep.conns[h], reaction));
      }
    case Accepted(h, reaction) => SetKeeps(ep.conns, h, NewEntry(reaction, source, true));
    case _ =>
  }

  /** The handshake completing surfaces an accepted connection, for the first time. */
  lemma EntryKeepsAccepts(conns: map<Handle, ConnEntry>, surfaced: seq<Handle>, h: Handle, e: ConnEntry)
    requires AcceptInv(conns, surfaced) && h in conns && Grows(conns[h], e)
    ensures AcceptInv(conns[h := e], if e.acceptedSide && e.connected && !conns[h].connected
                                     then surfaced + [h] else surfaced)
  {
  }

  /** The handles surfaced once `e`'s next event is taken. */
  lemma EventSurfaces(s: Sys, h: Handle)
    requires Surfacing(s) && CanPoll(s.ep, Poll.Events(h))
    ensures var ep' := DoPoll(s.ep, Poll.Events(h)); AcceptInv(ep'.conns, s.feed.accepted + ep'.acceptQueue)
  {
    var e, all := s.ep.conns[h], s.feed.accepted + s.ep.acceptQueue;
    EventGrows(e);
    EntryKeepsAccepts(s.ep.conns, all, h, TakeEvent(e));
    assert s.feed.accepted + (s.ep.acceptQueue + [h]) == all + [h];
    assert s.feed.accepted + (s.ep.acceptQueue + []) == all;
  }

  lemma EventKeepsConns(s: Sys, h: Handle)
    requires Surfacing(s) && CanPoll(s.ep, Poll.Events(h))
    ensures KeepsConns(s, s.(ep := DoPoll(s.ep, Poll.Events(h))))
  {
    EventSurfaces(s, h);
    PollKeepsEntry(s.ep.conns[h]);
    EventGrows(s.ep.conns[h]);
    var ep' := DoPoll(s.ep, Poll.Events(h));
    assert ep'.conns == s.ep.conns[h := TakeEvent(s.ep.conns[h])];
  }

  /** An event pushes a handle exactly when it completes an accepted connection's handshake. */
  lemma EventGrows(e: ConnEntry)
    requires EntryInv(e) && e.conn.apps != []
    ensures var e' := TakeEvent(e);
            && Grows(e, e')
            && (Surfaces(e, e.conn.apps[0]) <==> e'.acceptedSide && e'.connected && !e.connected)
  {
    if e.conn.apps[0].Connected? {
      TakeEventCounts(e, Connects);
      assert !e.connected;
    }
  }

  lemma PollKeepsConns(s: Sys, p: Poll)
    requires Surfacing(s) && CanPoll(s.ep, p)
    ensures KeepsConns(s, s.(ep := DoPoll(s.ep, p)))
  {
    var e := s.ep.conns[p.h];
    PollKeepsEntry(e);
    match p
    case Events(h) => EventKeepsConns(s, h);
    case EndpointEvents(h) => SetKeeps(s.ep.conns, h, TakeEndpointEvent(e));
    case Transmits(h) => SetKeeps(s.ep.conns, h, TakeTransmit(e));
    case IsDrained(h) => SetKeeps(s.ep.conns, h, e.(drained := true));
  }

  /** What a resource method does to the connections. */
  lemma ApiFrames(s: Sys, step: ApiStep)
    requires ApiEnabled(s, step)
    ensures var conns' := ApplyApi(s, step).ep.conns;
            match step
            case Connect(peer, _, _, _, made) =>
              conns' == s.ep.conns
              || (made.Some? && conns' == s.ep.conns[made.value.0 := NewEntry(made.value.1, Some(peer), false)])
            case CloseEndpoint(reactions) =>
              conns' == s.ep.conns
              || conns' == FeedAll(s.ep.conns, map h | h in reactions && h in Closable(s.ep.conns) :: reactions[h])
            case Drive(h, reaction) => conns' == s.ep.conns[h := Feed(s.ep.conns[h], reaction)]
            case TakeStream(h, bi) => conns' == s.ep.conns[h := PopStream(s.ep.conns[h], bi)]
            case _ => conns' == s.ep.conns
  {
  }

  /** Accepting moves the head of the queue to the accepted handles; nothing else touches either. */
  lemma ApiKeepsSurfaced(s: Sys, step: ApiStep)
    requires ApiEnabled(s, step)
    ensures var s' := ApplyApi(s, step);
            s'.feed.accepted + s'.ep.acceptQueue == s.feed.accepted + s.ep.acceptQueue
  {
  }

  lemma ApiKeepsConns(s: Sys, step: ApiStep)
    requires Surfacing(s) && ApiEnabled(s, step)
    ensures KeepsConns(s, ApplyApi(s, step))
  {
    ApiFrames(s, step);
    ApiKeepsSurfaced(s, step);
    match step {
      case Connect(peer, _, _, _, made) =>
        if made.Some? {
          SetKeeps(s.ep.conns, made.value.0, NewEntry(made.value.1, Some(peer), false));
        }
      case CloseEndpoint(reactions) =>
        FeedAllKeeps(s.ep.conns, map h | h in reactions && h in Closable(s.ep.conns) :: reactions[h]);
      case Drive(h, reaction) =>
        FeedKeepsEntry(s.ep.conns[h], reaction);
        SetKeeps(s.ep.conns, h, Feed(s.ep.conns[h], reaction));
      case TakeStream(h, bi) => SetKeeps(s.ep.conns, h, PopStream(s.ep.conns[h], bi));
      case _ =>
    }
    StandingKeepsConns(s, ApplyApi(s, step));
  }

  lemma SessionFrames(s: Sys, step: SessionStep)
    requires SessionEnabled(s, step)
    ensures var s' := ApplySession(s, step);
            s'.ep.conns == s.ep.conns && s'.ep.acceptQueue == s.ep.acceptQueue && s'.feed.accepted == s.feed.accepted
  {
    if step.Succeed? {
      ConcludeFrames(s.ep, s.dance.sessions[step.i].role, s.dance.sessions[step.i].peer);
    }
  }

  lemma ConcludeFrames(ep: Ep, role: Role, peer: Peer)
    ensures var ep' := ConcludeSession(ep, role, peer); ep'.conns == ep.conns && ep'.acceptQueue == ep.acceptQueue
  {
  }

  lemma TurnKeepsConns(s: Sys, step: TurnStep)
    requires Surfacing(s) && TurnEnabled(s, step)
    ensures KeepsConns(s, ApplyTurn(s, step))
  {
    match step
    case PollConn(poll) => PollKeepsConns(s, poll);
    case RelaySent(_) => MarkDeadKeeps(s.ep);
    case _ =>
  }

  lemma EnterFrames(s: Sys, pump: Pump, peer: Peer, via: nat, data: Bytes, v: Verdict)
    ensures var s' := EnterFromPeer(s, pump, peer, via, data, v);
            && s'.ep.acceptQueue == s.ep.acceptQueue && s'.feed.accepted == s.feed.accepted
            && s'.ep.conns == ConnsAfter(s.ep, Some(peer), v)
  {
  }

  /** No event touches the handles that surfaced. */
  lemma SelectKeepsSurfaced(s: Sys, step: SelectStep)
    requires SelectEnabled(s, step)
    ensures var s' := ApplySelect(s, step);
            s'.ep.acceptQueue == s.ep.acceptQueue && s'.feed.accepted == s.feed.accepted
  {
  }

  /** What a datagram of a peer's does to the connections. */
  lemma PeerDatagramFrames(s: Sys, step: SelectStep)
    requires SelectEnabled(s, step) && (step.RelayDatagram? || step.ChannelMessage?)
    ensures var conns' := ApplySelect(s, step).ep.conns;
            || conns' == s.ep.conns
            || (step.RelayDatagram? && conns' == ConnsAfter(s.ep, Some(step.source), step.verdict))
            || (step.ChannelMessage? && step.id in s.ep.routing.channels
                && conns' == ConnsAfter(s.ep, Some(s.ep.routing.channels[step.id].peer), step.verdict))
  {
    var pump := PumpAfterEvent(s, step);
    if step.RelayDatagram? {
      EnterFrames(s, pump, step.source, step.key, step.data, step.verdict);
    } else if step.message.Some? && step.id in s.ep.routing.channels {
      var c := s.ep.routing.channels[step.id];
      EnterFrames(s, pump, c.peer, c.fallbackRelay, step.message.value, step.verdict);
    }
  }

  /** What any other event does to the connections. */
  lemma OtherEventFrames(s: Sys, step: SelectStep)
    requires SelectEnabled(s, step) && !step.RelayDatagram? && !step.ChannelMessage?
    ensures var conns' := ApplySelect(s, step).ep.conns;
            match step
            case RelayFailed(_) => conns' == s.ep.conns || conns' == MarkDead(s.ep).conns
            case UdpDatagram(_, _, verdict) => conns' == ConnsAfter(s.ep, None, verdict)
            case Tick(reactions) => conns' == FeedAll(s.ep.conns, reactions)
            case _ => conns' == s.ep.conns
  {
  }

  lemma SelectKeepsConns(s: Sys, step: SelectStep)
    requires Surfacing(s) && SelectEnabled(s, step)
    ensures KeepsConns(s, ApplySelect(s, step))
  {
    SelectKeepsSurfaced(s, step);
    if step.RelayDatagram? || step.ChannelMessage? {
      PeerDatagramFrames(s, step);
      if step.RelayDatagram? {
        VerdictKeeps(s.ep, Some(step.source), step.verdict);
      } else if step.id in s.ep.routing.channels {
        VerdictKeeps(s.ep, Some(s.ep.routing.channels[step.id].peer), step.verdict);
      }
    } else {
      OtherEventFrames(s, step);
      if step.RelayFailed? {
        MarkDeadKeeps(s.ep);
      } else if step.UdpDatagram? {
        VerdictKeeps(s.ep, None, step.verdict);
      } else if step.Tick? {
        FeedAllKeeps(s.ep.conns, step.reactions);
      }
    }
    StandingKeepsConns(s, ApplySelect(s, step));
  }

  /** A connection's reported state only moves Connecting, Open, Finished. */
  lemma GrowingOnlyAdvances(e: ConnEntry, e': ConnEntry)
    requires Grows(e, e')
    ensures StateRank(StateOf(e)) <= StateRank(StateOf(e'))
  {
  }
}
