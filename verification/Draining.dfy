/** Sequences of polls: what any schedule of them conserves. */
module Draining {
  import opened Types
  import opened RoutingTables
  import opened Connections
  import opened Endpoint

  predicate CanPollAll(ep: Ep, ps: seq<Poll>)
    decreases |ps|
  {
    ps == [] || (CanPoll(ep, ps[0]) && CanPollAll(DoPoll(ep, ps[0]), ps[1..]))
  }

  function DoPolls(ep: Ep, ps: seq<Poll>): Ep
    requires CanPollAll(ep, ps)
    decreases |ps|
  {
    if ps == [] then ep else DoPolls(DoPoll(ep, ps[0]), ps[1..])
  }

  lemma OnePoll(ep: Ep, p: Poll)
    requires CanPoll(ep, p)
    ensures CanPollAll(ep, [p]) && DoPolls(ep, [p]) == DoPoll(ep, p)
  {
    var ps, ep' := [p], DoPoll(ep, p);
    assert ps[1..] == [];
    assert CanPollAll(ep', []) && DoPolls(ep', []) == ep';
  }

  lemma {:induction false} PollsConcat(ep: Ep, ps: seq<Poll>, qs: seq<Poll>)
    requires CanPollAll(ep, ps) && CanPollAll(DoPolls(ep, ps), qs)
    ensures CanPollAll(ep, ps + qs) && DoPolls(ep, ps + qs) == DoPolls(DoPolls(ep, ps), qs)
    decreases |ps|
  {
    if ps == [] {
      assert ps + qs == qs;
    } else {
      assert (ps + qs)[1..] == ps[1..] + qs;
      PollsConcat(DoPoll(ep, ps[0]), ps[1..], qs);
    }
  }

  /** What one poll takes out. */
  function TakenOut(ep: Ep, p: Poll): seq<(Handle, Transmit)>
    requires CanPoll(ep, p)
  {
    if p.Transmits? then [(p.h, ep.conns[p.h].conn.txs[0])] else []
  }

  /** What the polls take out of the connections, in order, with the connection it came from. */
  function Produced(ep: Ep, ps: seq<Poll>): seq<(Handle, Transmit)>
    requires CanPollAll(ep, ps)
    decreases |ps|
  {
    if ps == [] then [] else TakenOut(ep, ps[0]) + Produced(DoPoll(ep, ps[0]), ps[1..])
  }

  // --- nothing is lost or duplicated ---------------------------------------------------------------

  function CopiesFrom(ts: seq<(Handle, Transmit)>, h: Handle, t: Transmit): nat {
    if ts == [] then 0 else (if ts[0] == (h, t) then 1 else 0) + CopiesFrom(ts[1..], h, t)
  }

  /** The copies of `t` connection `h` still has to give. */
  function CopiesLeft(ep: Ep, h: Handle, t: Transmit): nat
    requires h in ep.conns
  {
    Count(Copies(ep.conns[h].expectedPeer, t), ep.conns[h].conn)
  }

  lemma PollConserves(ep: Ep, p: Poll, h: Handle, t: Transmit)
    requires CanPoll(ep, p) && h in ep.conns
    ensures var ep' := DoPoll(ep, p);
            h in ep'.conns && CopiesLeft(ep, h, t) == CopiesFrom(TakenOut(ep, p), h, t) + CopiesLeft(ep', h, t)
  {
    if p.h == h {
      var e := ep.conns[h];
      var m := Copies(e.expectedPeer, t);
      match p
      case EndpointEvents(_) => TakeEndpointEventCounts(e, m);
      case Events(_) => TakeEventCounts(e, m);
      case Transmits(_) => TakeTransmitCounts(e, m);
      case IsDrained(_) =>
    }
  }

  lemma CopiesFromConcat(ts: seq<(Handle, Transmit)>, us: seq<(Handle, Transmit)>, h: Handle, t: Transmit)
    ensures |ts| <= 1 ==> CopiesFrom(ts + us, h, t) == CopiesFrom(ts, h, t) + CopiesFrom(us, h, t)
  {
    if ts == [] {
      assert ts + us == us;
    } else {
      assert (ts + us)[1..] == ts[1..] + us;
      assert |ts| == 1 ==> ts[1..] + us == us;
    }
  }

  /** Whatever the schedule, what a connection gave plus what it still has is what it had. */
  lemma {:induction false} PollsConserve(ep: Ep, ps: seq<Poll>, h: Handle, t: Transmit)
    requires CanPollAll(ep, ps) && h in ep.conns
    ensures var ep' := DoPolls(ep, ps);
            && h in ep'.conns
            && CopiesLeft(ep, h, t) == CopiesFrom(Produced(ep, ps), h, t) + CopiesLeft(ep', h, t)
    decreases |ps|
  {
    if ps != [] {
      var ep1 := DoPoll(ep, ps[0]);
      PollConserves(ep, ps[0], h, t);
      PollsConserve(ep1, ps[1..], h, t);
      CopiesFromConcat(TakenOut(ep, ps[0]), Produced(ep1, ps[1..]), h, t);
    }
  }

  /** A drain to quiescence empties each connection of exactly the transmits it was going to give. */
  lemma DrainGivesEverything(ep: Ep, ps: seq<Poll>, h: Handle, t: Transmit)
    requires CanPollAll(ep, ps) && h in ep.conns && h in DoPolls(ep, ps).conns && Quiescent(DoPolls(ep, ps).conns[h])
    ensures CopiesFrom(Produced(ep, ps), h, t) == CopiesLeft(ep, h, t)
  {
    PollsConserve(ep, ps, h, t);
  }

  // --- and each destination's share keeps its queue and its order --------------------------------------

  function DataTo(ts: seq<(Handle, Transmit)>, a: SocketAddr): seq<Bytes> {
    if ts == [] then [] else (if ts[0].1.dest == a then [ts[0].1.data] else []) + DataTo(ts[1..], a)
  }

  function RelayDataTo(q: seq<RelayItem>, key: nat, p: Peer): seq<Bytes> {
    if q == [] then []
    else RelayDataTo(q[..|q| - 1], key, p)
         + (var item := q[|q| - 1]; if item.key == key && item.peer == p then [item.data] else [])
  }

  function ChannelDataTo(q: seq<ChannelItem>, id: nat): seq<Bytes> {
    if q == [] then []
    else ChannelDataTo(q[..|q| - 1], id) + (var item := q[|q| - 1]; if item.id == id then [item.data] else [])
  }

  function UdpDataTo(q: seq<UdpItem>, a: SocketAddr): seq<Bytes> {
    if q == [] then []
    else UdpDataTo(q[..|q| - 1], a) + (var item := q[|q| - 1]; if item.dest == a then [item.data] else [])
  }

  /** What the queues hold for address `a`, by the one queue its route selects. */
  function QueuedFor(r: Routing, out: Outbound, a: SocketAddr): seq<Bytes> {
    match RouteOf(r, a)
    case Some(Relay(key)) => RelayDataTo(out.relay, key, PeerAt(r, a))
    case Some(Channel(id)) => ChannelDataTo(out.channel, id)
    case None => UdpDataTo(out.udp, a)
  }

  function QueuedTotal(out: Outbound): nat {
    |out.relay| + |out.udp| + |out.channel|
  }

  lemma RelayDataAppends(q: seq<RelayItem>, item: RelayItem, key: nat, p: Peer)
    ensures RelayDataTo(q + [item], key, p)
            == RelayDataTo(q, key, p) + if item.key == key && item.peer == p then [item.data] else []
  {
    assert (q + [item])[..|q|] == q;
  }

  lemma ChannelDataAppends(q: seq<ChannelItem>, item: ChannelItem, id: nat)
    ensures ChannelDataTo(q + [item], id) == ChannelDataTo(q, id) + if item.id == id then [item.data] else []
  {
    assert (q + [item])[..|q|] == q;
  }

  lemma UdpDataAppends(q: seq<UdpItem>, item: UdpItem, a: SocketAddr)
    ensures UdpDataTo(q + [item], a) == UdpDataTo(q, a) + if item.dest == a then [item.data] else []
  {
    assert (q + [item])[..|q|] == q;
  }

  /** No two addresses share a channel, or a relay and a peer. */
  lemma RoutesTellApart(r: Routing, a: SocketAddr, b: SocketAddr)
    requires RoutingInv(r) && RouteOf(r, a).Some? && RouteOf(r, a) == RouteOf(r, b)
    ensures RouteOf(r, a).value.Channel? || PeerAt(r, a) == PeerAt(r, b) ==> a == b
  {
  }

  /** Queueing a transmit shows up for its own destination and for no other. */
  lemma EnqueueShows(r: Routing, out: Outbound, t: Transmit, a: SocketAddr)
    requires RoutingInv(r)
    ensures var out' := Enqueue(r, out, t);
            && QueuedFor(r, out', a) == QueuedFor(r, out, a) + (if t.dest == a then [t.data] else [])
            && QueuedTotal(out') == QueuedTotal(out) + 1
  {
    if RouteOf(r, a).Some? && RouteOf(r, a) == RouteOf(r, t.dest) {
      RoutesTellApart(r, a, t.dest);
    }
    EnqueueAppears(r, out, t, a);
  }

  lemma EnqueueAppears(r: Routing, out: Outbound, t: Transmit, a: SocketAddr)
    requires RouteOf(r, a).Some? && RouteOf(r, a) == RouteOf(r, t.dest) ==>
               (RouteOf(r, a).value.Channel? || PeerAt(r, a) == PeerAt(r, t.dest) ==> a == t.dest)
    ensures var out' := Enqueue(r, out, t);
            && QueuedFor(r, out', a) == QueuedFor(r, out, a) + (if t.dest == a then [t.data] else [])
            && QueuedTotal(out') == QueuedTotal(out) + 1
  {
    match RouteOf(r, a)
    case Some(Relay(key)) =>
      if RouteOf(r, t.dest).Some? && RouteOf(r, t.dest).value.Relay? {
        var item := RelayItem(RouteOf(r, t.dest).value.key, PeerAt(r, t.dest), t.data);
        RelayDataAppends(out.relay, item, key, PeerAt(r, a));
      }
    case Some(Channel(id)) =>
      if RouteOf(r, t.dest).Some? && RouteOf(r, t.dest).value.Channel? {
        ChannelDataAppends(out.channel, ChannelItem(RouteOf(r, t.dest).value.id, t.data), id);
      }
    case None => UdpDataAppends(out.udp, UdpItem(t.dest, t.data), a);
  }

  lemma PollShows(ep: Ep, p: Poll, a: SocketAddr)
    requires CanPoll(ep, p) && RoutingInv(ep.routing)
    ensures var ep' := DoPoll(ep, p);
            && ep'.routing == ep.routing
            && QueuedFor(ep.routing, ep'.out, a) == QueuedFor(ep.routing, ep.out, a) + DataTo(TakenOut(ep, p), a)
            && QueuedTotal(ep'.out) == QueuedTotal(ep.out) + |TakenOut(ep, p)|
  {
    if p.Transmits? {
      EnqueueShows(ep.routing, ep.out, ep.conns[p.h].conn.txs[0], a);
    }
  }

  lemma {:induction false} DataToConcat(ts: seq<(Handle, Transmit)>, us: seq<(Handle, Transmit)>, a: SocketAddr)
    ensures DataTo(ts + us, a) == DataTo(ts, a) + DataTo(us, a)
  {
    if ts == [] {
      assert ts + us == us;
    } else {
      assert (ts + us)[1..] == ts[1..] + us;
      DataToConcat(ts[1..], us, a);
    }
  }

  /**
   * Draining appends, for each address, exactly the data produced for it, in the order produced,
   * all to the one queue its route selects; and nothing else is queued.
   */
  lemma {:induction false} DrainKeepsOrder(ep: Ep, ps: seq<Poll>, a: SocketAddr)
    requires CanPollAll(ep, ps) && RoutingInv(ep.routing)
    ensures var ep' := DoPolls(ep, ps);
            && ep'.routing == ep.routing
            && QueuedFor(ep.routing, ep'.out, a) == QueuedFor(ep.routing, ep.out, a) + DataTo(Produced(ep, ps), a)
            && QueuedTotal(ep'.out) == QueuedTotal(ep.out) + |Produced(ep, ps)|
    decreases |ps|
  {
    if ps != [] {
      var ep1 := DoPoll(ep, ps[0]);
      PollShows(ep, ps[0], a);
      DrainKeepsOrder(ep1, ps[1..], a);
      DataToConcat(TakenOut(ep, ps[0]), Produced(ep1, ps[1..]), a);
      Associates(QueuedFor(ep.routing, ep.out, a), DataTo(TakenOut(ep, ps[0]), a), DataTo(Produced(ep1, ps[1..]), a));
    }
  }

  lemma Associates(a: seq<Bytes>, b: seq<Bytes>, c: seq<Bytes>)
    ensures a + b + c == a + (b + c)
  {
  }
}
