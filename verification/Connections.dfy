/** Connection entries, and the QUIC core reduced to the reactions it may show the endpoint. */
module Connections {
  import opened Types

  type Handle = nat
  type StreamId = nat

  datatype Transmit = Transmit(dest: SocketAddr, data: Bytes)

  /**
   * What a connection of the QUIC core has ready to be polled. An endpoint event may be answered
   * with an event that makes the connection react further (`back`), and so may the `close` the
   * endpoint issues on an identity mismatch (`onClose`). Being a finite tree, a reaction is an
   * arbitrary finite behaviour: the core produces finitely many events between inputs.
   */
  datatype Reaction = Reaction(eps: seq<EndpointEvent>, apps: seq<AppEvent>, txs: seq<Transmit>)

  datatype EndpointEvent = Answered(back: Reaction) | Unanswered

  datatype AppEvent =
    | Connected(alpn: Option<Bytes>, tlsPeer: Option<Peer>, onClose: Reaction)
    | StreamsOpened(bi: seq<StreamId>, uni: seq<StreamId>)
    | ConnectionLost(byApplication: bool)
    | Unrecorded

  const Idle := Reaction([], [], [])

  /** A connection taking one more input: the new reaction queues behind what is already there. */
  function Merge(a: Reaction, b: Reaction): Reaction {
    Reaction(a.eps + b.eps, a.apps + b.apps, a.txs + b.txs)
  }

  datatype ConnEntry = ConnEntry(
    conn: Reaction,
    expectedPeer: Option<Peer>,
    peer: Option<Peer>,
    acceptedSide: bool,
    connected: bool,
    alpn: Bytes,
    error: Option<Error>,
    drained: bool,
    biQueue: seq<StreamId>,
    uniQueue: seq<StreamId>)

  function NewEntry(conn: Reaction, expectedPeer: Option<Peer>, acceptedSide: bool): ConnEntry {
    ConnEntry(conn, expectedPeer, None, acceptedSide, false, [], None, false, [], [])
  }

  function Feed(e: ConnEntry, r: Reaction): ConnEntry {
    e.(conn := Merge(e.conn, r))
  }

  /** The authenticated key is acceptable: there is one, and it is the expected one if any is. */
  predicate IdentityOk(expected: Option<Peer>, tlsPeer: Option<Peer>) {
    tlsPeer.Some? && (expected.None? || expected == tlsPeer)
  }

  /** `on_event`, without the push to the accept queue. */
  function OnEvent(e: ConnEntry, event: AppEvent): ConnEntry {
    match event
    case Connected(alpn, tlsPeer, onClose) =>
      var e1 := if alpn.Some? then e.(alpn := alpn.value) else e;
      if IdentityOk(e.expectedPeer, tlsPeer)
      then e1.(peer := tlsPeer, connected := true)
      else Feed(e1.(error := Some(ConnectFailed)), onClose)
    case StreamsOpened(bi, uni) => e.(biQueue := e.biQueue + bi, uniQueue := e.uniQueue + uni)
    case ConnectionLost(byApplication) => e.(error := Some(if byApplication then Closed else Other))
    case Unrecorded => e
  }

  /** Whether `on_event` pushes the handle to the accept queue. */
  predicate Surfaces(e: ConnEntry, event: AppEvent) {
    event.Connected? && IdentityOk(e.expectedPeer, event.tlsPeer) && e.acceptedSide
  }

  /** One `poll_endpoint_events` and the core's answer to it. */
  function TakeEndpointEvent(e: ConnEntry): ConnEntry
    requires e.conn.eps != []
  {
    var e1 := e.(conn := e.conn.(eps := e.conn.eps[1..]));
    match e.conn.eps[0]
    case Answered(back) => Feed(e1, back)
    case Unanswered => e1
  }

  /** One `poll`. */
  function TakeEvent(e: ConnEntry): ConnEntry
    requires e.conn.apps != []
  {
    OnEvent(e.(conn := e.conn.(apps := e.conn.apps[1..])), e.conn.apps[0])
  }

  /** One `poll_transmit`. */
  function TakeTransmit(e: ConnEntry): ConnEntry
    requires e.conn.txs != []
  {
    e.(conn := e.conn.(txs := e.conn.txs[1..]))
  }

  /** The front of a stream queue popped, if there is one. */
  function PopStream(e: ConnEntry, bi: bool): ConnEntry {
    if bi then e.(biQueue := if e.biQueue == [] then [] else e.biQueue[1..])
    else e.(uniQueue := if e.uniQueue == [] then [] else e.uniQueue[1..])
  }

  predicate Quiescent(e: ConnEntry) {
    e.conn == Idle
  }

  datatype ConnectionState = Connecting | Open | Finished

  function StateOf(e: ConnEntry): ConnectionState {
    if e.drained || e.error.Some? then Finished
    else if e.connected then Open
    else Connecting
  }

  function StateRank(s: ConnectionState): nat {
    match s case Connecting => 0 case Open => 1 case Finished => 2
  }

  // --- what a reaction holds, counted through the whole tree -------------------------------

  /**
   * What to count: the events left to poll, the `Connected` events among them, or the copies of
   * `t` that will come out of a connection expecting `x`.
   */
  datatype Measure = Events | Connects | Copies(x: Option<Peer>, t: Transmit)

  function Count(m: Measure, r: Reaction): nat
    decreases r
  {
    CountEps(m, r.eps) + CountApps(m, r.apps) + CountTxs(m, r.txs)
  }

  function CountTxs(m: Measure, txs: seq<Transmit>): nat {
    match m
    case Events => |txs|
    case Connects => 0
    case Copies(_, t) => multiset(txs)[t]
  }

  function CountEps(m: Measure, es: seq<EndpointEvent>): nat
    decreases es
  {
    if es == [] then 0 else CountEp(m, es[0]) + CountEps(m, es[1..])
  }

  function CountEp(m: Measure, e: EndpointEvent): nat
    decreases e
  {
    (if m.Events? then 1 else 0) + (if e.Answered? then Count(m, e.back) else 0)
  }

  function CountApps(m: Measure, es: seq<AppEvent>): nat
    decreases es
  {
    if es == [] then 0 else CountApp(m, es[0]) + CountApps(m, es[1..])
  }

  /** The transmits of a `close` come out only if the authenticated identity is refused. */
  function CountApp(m: Measure, e: AppEvent): nat
    decreases e
  {
    (if m.Events? || (m.Connects? && e.Connected?) then 1 else 0)
    + (if e.Connected? && !(m.Copies? && IdentityOk(m.x, e.tlsPeer)) then Count(m, e.onClose) else 0)
  }

  lemma {:induction false} CountEpsConcat(m: Measure, a: seq<EndpointEvent>, b: seq<EndpointEvent>)
    ensures CountEps(m, a + b) == CountEps(m, a) + CountEps(m, b)
  {
    if a == [] {
      assert a + b == b;
    } else {
      assert (a + b)[1..] == a[1..] + b;
      CountEpsConcat(m, a[1..], b);
    }
  }

  lemma {:induction false} CountAppsConcat(m: Measure, a: seq<AppEvent>, b: seq<AppEvent>)
    ensures CountApps(m, a + b) == CountApps(m, a) + CountApps(m, b)
  {
    if a == [] {
      assert a + b == b;
    } else {
      assert (a + b)[1..] == a[1..] + b;
      CountAppsConcat(m, a[1..], b);
    }
  }

  lemma CountMerge(m: Measure, a: Reaction, b: Reaction)
    ensures Count(m, Merge(a, b)) == Count(m, a) + Count(m, b)
  {
    CountEpsConcat(m, a.eps, b.eps);
    CountAppsConcat(m, a.apps, b.apps);
  }

  lemma CountHeads(m: Measure, r: Reaction)
    ensures r.eps != [] ==> Count(m, r) == CountEp(m, r.eps[0]) + Count(m, r.(eps := r.eps[1..]))
    ensures r.apps != [] ==> Count(m, r) == CountApp(m, r.apps[0]) + Count(m, r.(apps := r.apps[1..]))
  {
  }

  /** Polling an endpoint event uses up one event; nothing else is lost or added. */
  lemma TakeEndpointEventCounts(e: ConnEntry, m: Measure)
    requires e.conn.eps != []
    ensures Count(m, TakeEndpointEvent(e).conn) + (if m.Events? then 1 else 0) == Count(m, e.conn)
  {
    var rest := e.conn.(eps := e.conn.eps[1..]);
    CountHeads(m, e.conn);
    match e.conn.eps[0]
    case Answered(back) => CountMerge(m, rest, back);
    case Unanswered =>
  }

  /** An event leaves the connection with what it had, or with what its `close` added. */
  lemma TakeEventConn(e: ConnEntry)
    requires e.conn.apps != []
    ensures var rest := e.conn.(apps := e.conn.apps[1..]); var event := e.conn.apps[0];
            TakeEvent(e).conn ==
            if event.Connected? && !IdentityOk(e.expectedPeer, event.tlsPeer) then Merge(rest, event.onClose) else rest
  {
  }

  /** Polling an application event uses up events, and the transmits still to come are the same. */
  lemma TakeEventCounts(e: ConnEntry, m: Measure)
    requires e.conn.apps != []
    requires m.Copies? ==> m.x == e.expectedPeer
    ensures m.Events? ==> Count(m, TakeEvent(e).conn) < Count(m, e.conn)
    ensures m.Connects? ==>
              Count(m, TakeEvent(e).conn) + (if e.conn.apps[0].Connected? then 1 else 0) <= Count(m, e.conn)
    ensures m.Copies? ==> Count(m, TakeEvent(e).conn) == Count(m, e.conn)
  {
    TakeEventConn(e);
    var rest, event := e.conn.(apps := e.conn.apps[1..]), e.conn.apps[0];
    CountHeads(m, e.conn);
    if event.Connected? && !IdentityOk(e.expectedPeer, event.tlsPeer) {
      CountMerge(m, rest, event.onClose);
    }
  }

  /** Polling a transmit takes exactly that one out. */
  lemma TakeTransmitCounts(e: ConnEntry, m: Measure)
    requires e.conn.txs != []
    ensures Count(m, TakeTransmit(e).conn)
            + (if m.Events? || (m.Copies? && m.t == e.conn.txs[0]) then 1 else 0) == Count(m, e.conn)
  {
    assert e.conn.txs == [e.conn.txs[0]] + e.conn.txs[1..];
  }
}
