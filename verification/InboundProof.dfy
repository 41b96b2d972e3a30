/** The QUIC core sees one unchanging wire per peer. */
module InboundProof {
  import opened Types
  import opened RoutingTables
  import opened Endpoint
  import opened System
  import opened Invariants
  import opened RoutingProof

  lemma ReferenceAppends(ops: seq<WireOp>, op: WireOp)
    ensures ReferenceRun(ops + [op]) == ReferenceStep(ReferenceRun(ops), op)
  {
    assert (ops + [op])[..|ops|] == ops;
  }

  lemma NewPeerNumbers(r: Routing, peers: seq<Peer>, p: Peer, via: nat)
    requires Numbered(r, peers) && r.nextHost < U32_MAX && p !in r.peerToAddr
    ensures Numbered(Mention(r, p, via), peers + [p])
  {
    var r', peers' := Mention(r, p, via), peers + [p];
    assert r'.peerToAddr == r.peerToAddr[p := Standin(r.nextHost + 1)] && r'.nextHost == r.nextHost + 1;
    assert (set q | q in peers') == (set q | q in peers) + {p};
  }

  /** A mention gives the peer the address the reference numbers it with. */
  lemma MentionNumbers(r: Routing, peers: seq<Peer>, p: Peer, via: nat)
    requires Numbered(r, peers) && r.nextHost < U32_MAX
    ensures var r' := Mention(r, p, via); var peers' := AddPeer(peers, p);
            && p in peers'
            && Numbered(r', peers')
            && r'.peerToAddr[p] == Standin(NumberOf(peers', p) + 1)
  {
    var r', peers' := Mention(r, p, via), AddPeer(peers, p);
    assert p in r.peerToAddr <==> p in (set q | q in peers);
    if p !in r.peerToAddr {
      NewPeerNumbers(r, peers, p, via);
    }
    NumberedByPlace(r', peers', p);
  }

  lemma NumberedByPlace(r: Routing, peers: seq<Peer>, p: Peer)
    requires Numbered(r, peers) && p in peers
    ensures p in r.peerToAddr && r.peerToAddr[p] == Standin(NumberOf(peers, p) + 1)
  {
  }

  /** What an operation adds to the reference's peers. */
  function PeersAfter(peers: seq<Peer>, op: RoutingOp): seq<Peer> {
    if op.Mentioned? || op.Redialed? || op.Registered? then AddPeer(peers, op.peer) else peers
  }

  lemma OpNumbers(r: Routing, peers: seq<Peer>, op: RoutingOp)
    requires Numbered(r, peers) && r.nextHost < U32_MAX
    ensures Numbered(ApplyOp(r, op), PeersAfter(peers, op))
  {
    if op.Mentioned? || op.Redialed? || op.Registered? {
      MentionNumbers(r, peers, op.peer, op.via);
    }
  }

  ghost predicate Feeding(s: Sys) {
    s.ep.routing.nextHost < U32_MAX && FeedInv(s.ep.routing, s.feed)
  }

  lemma ApiKeepsFeed(s: Sys, step: ApiStep)
    requires Feeding(s) && ApiEnabled(s, step)
    ensures var s' := ApplyApi(s, step); FeedInv(s'.ep.routing, s'.feed)
  {
    ApiEffectIsExact(s, step);
    OpNumbers(s.ep.routing, ReferenceRun(s.feed.ops).peers, ApiEffect(s, step));
    if step.Connect? && !ClosedOrDead(s.ep) && step.direct.None? {
      ReferenceAppends(s.feed.ops, Named(step.peer));
    }
  }

  lemma SessionKeepsFeed(s: Sys, step: SessionStep)
    requires Feeding(s) && SessionEnabled(s, step)
    ensures var s' := ApplySession(s, step); FeedInv(s'.ep.routing, s'.feed)
  {
    SessionEffectIsExact(s, step);
    OpNumbers(s.ep.routing, ReferenceRun(s.feed.ops).peers, SessionEffect(s, step));
    ReferenceAppends(s.feed.ops, Named(s.dance.sessions[step.i].peer));
  }

  lemma TurnKeepsFeed(s: Sys, step: TurnStep)
    requires Feeding(s) && TurnEnabled(s, step)
    ensures var s' := ApplyTurn(s, step); FeedInv(s'.ep.routing, s'.feed)
  {
    TurnEffectIsExact(s, step);
    OpNumbers(s.ep.routing, ReferenceRun(s.feed.ops).peers, if step.Arm? then Taken else Keep);
  }

  lemma EnterFeeds(s: Sys, pump: Pump, peer: Peer, via: nat, data: Bytes, v: Verdict)
    ensures var s' := EnterFromPeer(s, pump, peer, via, data, v); var r := Mention(s.ep.routing, peer, via);
            && s'.ep.routing == r
            && s'.feed.ops == s.feed.ops + [FromPeer(peer, data)]
            && s'.feed.inputs == s.feed.inputs + [Input(r.peerToAddr[peer], Some(peer), data)]
  {
  }

  lemma EnterKeepsFeed(s: Sys, pump: Pump, peer: Peer, via: nat, data: Bytes, v: Verdict)
    requires Feeding(s)
    ensures var s' := EnterFromPeer(s, pump, peer, via, data, v); FeedInv(s'.ep.routing, s'.feed)
  {
    EnterFeeds(s, pump, peer, via, data, v);
    MentionNumbers(s.ep.routing, ReferenceRun(s.feed.ops).peers, peer, via);
    ReferenceAppends(s.feed.ops, FromPeer(peer, data));
  }

  lemma UdpKeepsFeed(s: Sys, step: SelectStep)
    requires Feeding(s) && SelectEnabled(s, step) && step.UdpDatagram?
    ensures var s' := ApplySelect(s, step); FeedInv(s'.ep.routing, s'.feed)
  {
    ReferenceAppends(s.feed.ops, FromUdp(step.remote, step.data));
  }

  predicate Enters(s: Sys, step: SelectStep) {
    || (step.RelayDatagram? && (step.data == [] || step.data[0] != SIGNAL_PREFIX))
    || (step.ChannelMessage? && step.message.Some? && step.id in s.ep.routing.channels)
  }

  lemma EnteringKeepsFeed(s: Sys, step: SelectStep)
    requires Feeding(s) && SelectEnabled(s, step) && Enters(s, step)
    ensures var s' := ApplySelect(s, step); FeedInv(s'.ep.routing, s'.feed)
  {
    if step.RelayDatagram? {
      EnterKeepsFeed(s, PumpAfterEvent(s, step), step.source, step.key, step.data, step.verdict);
    } else {
      var c := s.ep.routing.channels[step.id];
      EnterKeepsFeed(s, PumpAfterEvent(s, step), c.peer, c.fallbackRelay, step.message.value, step.verdict);
    }
  }

  lemma OtherwiseFeedStays(s: Sys, step: SelectStep)
    requires SelectEnabled(s, step) && !Enters(s, step) && !step.UdpDatagram?
    ensures var s' := ApplySelect(s, step);
            && s'.feed == s.feed
            && s'.ep.routing == if step.ChannelFailed? then Retire(s.ep.routing, step.id) else s.ep.routing
  {
  }

  lemma SelectKeepsFeed(s: Sys, step: SelectStep)
    requires Feeding(s) && SelectEnabled(s, step)
    ensures var s' := ApplySelect(s, step); FeedInv(s'.ep.routing, s'.feed)
  {
    if Enters(s, step) {
      EnteringKeepsFeed(s, step);
    } else if step.UdpDatagram? {
      UdpKeepsFeed(s, step);
    } else {
      OtherwiseFeedStays(s, step);
      if step.ChannelFailed? {
        OpNumbers(s.ep.routing, ReferenceRun(s.feed.ops).peers, Retired(step.id));
      }
    }
  }
}
