/** The relay connection: a handshake, then websocket frames turned into a flat stream of datagrams. */
module RelayClient {
  import opened Types
  import opened RelayFrames

  /** What `receive` on the websocket yields; `sent` says whether a reply to the frame goes out. */
  datatype WsEvent = Binary(frame: Bytes, sent: bool) | Text | Failure

  /** The datagrams one event carries. */
  function DatagramsIn(ev: WsEvent): seq<Datagram> {
    if !ev.Binary? then []
    else
      match SplitTagSpec(ev.frame)
      case Some(Tagged(tag, payload)) =>
        if tag == RELAY_TO_CLIENT_DATAGRAM || tag == RELAY_TO_CLIENT_DATAGRAM_BATCH then
          (match DecodeRelayDatagrams(payload, tag == RELAY_TO_CLIENT_DATAGRAM_BATCH)
           case Some(ds) => ds
           case None => [])
        else []
      case None => []
  }

  /** The ping payload of an event, if it is a well-formed ping. */
  function PingIn(ev: WsEvent): Option<Bytes> {
    if !ev.Binary? then None
    else
      match SplitTagSpec(ev.frame)
      case Some(Tagged(tag, payload)) => if tag == PING && |payload| == 8 then Some(payload) else None
      case None => None
  }

  /** A frame whose first byte is below 64 splits into that byte, its type, and the rest. */
  lemma ShortTag(tag: byte, payload: Bytes)
    requires tag < 64
    ensures SplitTagSpec([tag] + payload) == Some(Tagged(tag, payload))
  {
    var frame := [tag] + payload;
    var one: Bytes := [tag];
    assert [frame[0] % 64] + frame[1..1] == one && one[..0] == [];
    assert BigEndian(one) == 256 * BigEndian(one[..0]) + tag;
    assert frame[1..] == payload;
  }

  /** Type 6 carries one datagram: the sender, an ECN byte and all the rest. */
  lemma SingleFrameMeans(src: Bytes, ecn: byte, payload: Bytes, sent: bool)
    requires |src| == 32
    ensures DatagramsIn(Binary([6] + src + [ecn] + payload, sent)) == [Datagram(src, payload)]
  {
    var body := src + [ecn] + payload;
    ShortTag(6, body);
    assert [6] + src + [ecn] + payload == [6] + body;
    assert body[..32] == src && body[32..][1..] == payload;
  }

  /** Type 7 carries a batch: as many datagrams of the sender's as its contents have segments. */
  lemma BatchFrameMeans(src: Bytes, ecn: byte, n: nat, parts: seq<Bytes>, sent: bool)
    requires |src| == 32 && 0 < n < 0x1_0000 && WellCut(parts, n)
    ensures var ds := DatagramsIn(Binary([7] + src + [ecn, n / 256, n % 256] + Flatten(parts), sent));
            |ds| == |parts| && forall i :: 0 <= i < |parts| ==> ds[i] == Datagram(src, parts[i])
  {
    var body := src + [ecn] + ToBigEndian(n, 2) + Flatten(parts);
    TwoBytes(n);
    BatchRoundTrip(src, ecn, n, parts);
    ShortTag(7, body);
    assert [7] + src + [ecn, n / 256, n % 256] + Flatten(parts) == [7] + body;
  }

  /** No other type carries datagrams, and only type 9 with eight bytes is a ping. */
  lemma OtherFramesMean(tag: byte, payload: Bytes, sent: bool)
    requires tag < 64
    ensures tag != 6 && tag != 7 ==> DatagramsIn(Binary([tag] + payload, sent)) == []
    ensures PingIn(Binary([tag] + payload, sent)) == if tag == 9 && |payload| == 8 then Some(payload) else None
  {
    ShortTag(tag, payload);
  }

  /** Text messages and failures carry nothing. */
  lemma OnlyFramesMean(ev: WsEvent)
    requires !ev.Binary?
    ensures DatagramsIn(ev) == [] && PingIn(ev) == None
  {
  }

  /** One client datagram: who sends it, to whom, and what. */
  datatype ClientSend = ClientSend(src: Bytes, dst: Bytes, payload: Bytes)

  predicate Addressed(sends: seq<ClientSend>) {
    forall k :: 0 <= k < |sends| ==> |sends[k].src| == 32 && |sends[k].dst| == 32
  }

  /** The frame an ideal relay hands over for a client's datagram. */
  function Forwarded(send: ClientSend): WsEvent
    requires |send.src| == 32
  {
    match IdealRelay(send.src, ClientFrame(send.dst, send.payload))
    case Some((_, frame)) => Binary(frame, true)
    case None => Text
  }

  function Relayed(sends: seq<ClientSend>): seq<WsEvent>
    requires Addressed(sends)
  {
    seq(|sends|, k requires 0 <= k < |sends| => Forwarded(sends[k]))
  }

  /** Events that carry one datagram each carry the stream of those. */
  lemma {:induction false} OneEach(evs: seq<WsEvent>, ds: seq<Datagram>)
    requires |evs| == |ds| && forall k :: 0 <= k < |evs| ==> DatagramsIn(evs[k]) == [ds[k]]
    ensures Stream(evs) == ds
  {
    if evs != [] {
      var n := |evs| - 1;
      OneEach(evs[..n], ds[..n]);
      assert ds[..n] + [ds[n]] == ds;
    }
  }

  function AsReceived(sends: seq<ClientSend>): seq<Datagram> {
    seq(|sends|, k requires 0 <= k < |sends| => Datagram(sends[k].src, sends[k].payload))
  }

  /** End to end: the stream received is the datagrams sent, each from its sender, in order. */
  lemma StreamIsWhatWasSent(sends: seq<ClientSend>)
    requires Addressed(sends)
    ensures Stream(Relayed(sends)) == AsReceived(sends)
  {
    forall k | 0 <= k < |sends| ensures DatagramsIn(Relayed(sends)[k]) == [AsReceived(sends)[k]] {
      OneIsRelayed(sends[k]);
    }
    OneEach(Relayed(sends), AsReceived(sends));
  }

  lemma OneIsRelayed(send: ClientSend)
    requires |send.src| == 32 && |send.dst| == 32
    ensures DatagramsIn(Forwarded(send)) == [Datagram(send.src, send.payload)]
  {
    RelayRoundTrip(send.src, send.dst, send.payload);
  }

  /** The flat stream: all datagrams of all events, in order. */
  function Stream(evs: seq<WsEvent>): seq<Datagram> {
    if evs == [] then [] else Stream(evs[..|evs| - 1]) + DatagramsIn(evs[|evs| - 1])
  }

  /** The pongs owed: one per well-formed ping whose reply went out, in order. */
  function Pongs(evs: seq<WsEvent>): seq<Bytes> {
    if evs == [] then []
    else
      var ev := evs[|evs| - 1];
      Pongs(evs[..|evs| - 1]) + PongFor(ev)
  }

  /** An event on which `recv_datagram` gives up: the socket failed, or a pong could not be sent. */
  predicate Breaks(ev: WsEvent) {
    ev.Failure? || (PingIn(ev).Some? && !ev.sent)
  }

  lemma StreamAppends(evs: seq<WsEvent>, ev: WsEvent)
    ensures Stream(evs + [ev]) == Stream(evs) + DatagramsIn(ev)
    ensures Pongs(evs + [ev]) == Pongs(evs) + PongFor(ev)
  {
    assert (evs + [ev])[..|evs|] == evs;
  }

  lemma {:induction false} StreamGrows(evs: seq<WsEvent>, more: seq<WsEvent>)
    ensures Stream(evs) <= Stream(evs + more)
    decreases |more|
  {
    if more == [] {
      assert evs + more == evs;
    } else {
      var front := more[..|more| - 1];
      assert evs + more == evs + front + [more[|more| - 1]];
      StreamAppends(evs + front, more[|more| - 1]);
      StreamGrows(evs, front);
    }
  }

  /** Delivered and pending together are the stream received; every pong owed went out. */
  ghost predicate InStep(received: seq<WsEvent>, delivered: seq<Datagram>, pending: seq<Datagram>,
                         outgoing: seq<Bytes>)
  {
    delivered + pending == Stream(received) && outgoing == Pongs(received)
  }

  function PongFor(ev: WsEvent): seq<Bytes> {
    if PingIn(ev).Some? && ev.sent then [PongFrame(PingIn(ev).value)] else []
  }

  /** A ping of eight bytes is owed a pong of the same bytes; a connection that cannot send it gives up. */
  lemma PingIsAnswered(payload: Bytes, sent: bool)
    requires |payload| == 8
    ensures PongFor(Binary([9] + payload, sent)) == if sent then [[10] + payload] else []
    ensures Breaks(Binary([9] + payload, sent)) == !sent
  {
    OtherFramesMean(9, payload, sent);
  }

  /** No other frame is answered or ends the stream; a failing socket does. */
  lemma NothingElseIsAnswered(tag: byte, payload: Bytes, sent: bool)
    requires tag < 64 && !(tag == 9 && |payload| == 8)
    ensures PongFor(Binary([tag] + payload, sent)) == [] && !Breaks(Binary([tag] + payload, sent))
    ensures Breaks(Failure) && !Breaks(Text)
  {
    OtherFramesMean(tag, payload, sent);
  }

  lemma EventKeepsStep(received: seq<WsEvent>, delivered: seq<Datagram>, outgoing: seq<Bytes>, ev: WsEvent)
    requires InStep(received, delivered, [], outgoing)
    ensures InStep(received + [ev], delivered, DatagramsIn(ev), outgoing + PongFor(ev))
  {
    StreamAppends(received, ev);
    assert delivered + [] == delivered;
  }

  lemma HandsOver(delivered: seq<Datagram>, pending: seq<Datagram>)
    requires pending != []
    ensures delivered + [pending[0]] + pending[1..] == delivered + pending
  {
  }

  lemma MovesOne(received: seq<WsEvent>, incoming: seq<WsEvent>)
    requires incoming != []
    ensures received + [incoming[0]] + incoming[1..] == received + incoming
  {
  }

  datatype Received = Delivered(datagram: Datagram) | Failed | Blocked

  class RelayConn {
    var pending: seq<Datagram>
    /** The websocket: events still to come, and the frames sent. */
    var incoming: seq<WsEvent>
    var outgoing: seq<Bytes>
    /** History: the events taken so far, and the datagrams handed to the caller. */
    ghost var received: seq<WsEvent>
    ghost var delivered: seq<Datagram>

    ghost predicate Valid()
      reads this
    {
      InStep(received, delivered, pending, outgoing)
    }

    constructor (incoming: seq<WsEvent>)
      ensures Valid() && this.incoming == incoming && received == [] && delivered == []
    {
      this.incoming := incoming;
      pending, outgoing, received, delivered := [], [], [], [];
    }

    /** At all times the caller has got a prefix of the stream the socket will ever carry. */
    lemma DeliveredIsPrefix()
      requires Valid()
      ensures delivered <= Stream(received + incoming)
    {
      StreamGrows(received, incoming);
    }

    /** The next datagram; an error surfaces only when everything received was delivered. */
    method RecvDatagram() returns (r: Received)
      requires Valid()
      modifies this
      ensures Valid() && received + incoming == old(received + incoming)
      ensures match r
              case Delivered(d) => delivered == old(delivered) + [d]
              case Failed =>
                && delivered == old(delivered) == Stream(received)
                && received != [] && Breaks(received[|received| - 1])
              case Blocked => delivered == old(delivered) == Stream(received) && incoming == []
    {
      ghost var all := received + incoming;
      while pending == []
        invariant Valid() && received + incoming == all && delivered == old(delivered)
        decreases |incoming|
      {
        if incoming == [] {
          return Blocked;
        }
        var broken := TakeEvent(incoming[0]);
        if broken {
          return Failed;
        }
      }
      var d := PopPending();
      return Delivered(d);
    }

    method PopPending() returns (d: Datagram)
      requires Valid() && pending != []
      modifies this`pending, this`delivered
      ensures Valid() && delivered == old(delivered) + [d]
    {
      d := pending[0];
      HandsOver(delivered, pending);
      pending, delivered := pending[1..], delivered + [d];
    }

    /** One round of the receive loop: take an event and act on its frame. */
    method TakeEvent(ev: WsEvent) returns (broken: bool)
      requires Valid() && pending == [] && incoming != [] && ev == incoming[0]
      modifies this`incoming, this`received, this`pending, this`outgoing
      ensures Valid() && received == old(received) + [ev] && |incoming| < |old(incoming)|
      ensures received + incoming == old(received + incoming)
      ensures broken <==> Breaks(ev)
      ensures broken ==> pending == []
    {
      EventKeepsStep(received, delivered, outgoing, ev);
      var datagrams, pongs;
      datagrams, pongs, broken := ReadEvent(ev);
      MovesOne(received, incoming);
      incoming, received := incoming[1..], received + [ev];
      assert pending + datagrams == datagrams;
      pending, outgoing := pending + datagrams, outgoing + pongs;
    }
  }

  /** What an event calls for: datagrams to queue, a pong that goes out, or giving up. */
  method ReadEvent(ev: WsEvent) returns (datagrams: seq<Datagram>, pongs: seq<Bytes>, broken: bool)
    ensures datagrams == DatagramsIn(ev) && pongs == PongFor(ev)
    ensures (broken <==> Breaks(ev)) && (broken ==> datagrams == [])
  {
    datagrams, pongs, broken := [], [], ev.Failure?;
    if ev.Binary? {
      var tagged := SplitTag(ev.frame);
      if tagged.Some? {
        var Tagged(tag, payload) := tagged.value;
        if tag == RELAY_TO_CLIENT_DATAGRAM || tag == RELAY_TO_CLIENT_DATAGRAM_BATCH {
          var decoded := DecodeRelayDatagrams(payload, tag == RELAY_TO_CLIENT_DATAGRAM_BATCH);
          if decoded.Some? {
            datagrams := decoded.value;
          }
        } else if tag == PING && |payload| == 8 {
          broken := !ev.sent;
          if ev.sent {
            var pong := EncodePong(payload);
            pongs := [pong];
          }
        }
      }
    }
  }

  // --- the handshake --------------------------------------------------------------------------------

  /** A frame during the handshake, with the signature the identity makes for it if asked to. */
  datatype HandshakeEvent = Frame(frame: Bytes, signature: Option<Bytes>, sent: bool) | Skipped | Broken

  function TagOf(ev: HandshakeEvent): Option<Tagged> {
    if ev.Frame? then SplitTagSpec(ev.frame) else None
  }

  /** A challenge that gets answered: 16 bytes, a 64-byte signature, and the reply goes out. */
  predicate Answered(ev: HandshakeEvent) {
    && ev.Frame? && TagOf(ev).Some? && TagOf(ev).value.tag == SERVER_CHALLENGE && |TagOf(ev).value.payload| == 16
    && ev.signature.Some? && |ev.signature.value| == 64 && ev.sent
  }

  predicate Confirms(ev: HandshakeEvent) {
    TagOf(ev).Some? && TagOf(ev).value.tag == SERVER_CONFIRMS_AUTH
  }

  /** The first `k` events let the handshake go on, and the next one confirms it. */
  predicate ConfirmedAt(evs: seq<HandshakeEvent>, k: nat) {
    k < |evs| && Confirms(evs[k]) && forall i :: 0 <= i < k ==> evs[i].Skipped? || Answered(evs[i])
  }

  /** Layout of the authentication frame: type, key, signature length, signature. */
  function AuthFrame(key: Bytes, signature: Bytes): Bytes {
    [CLIENT_AUTH] + key + [64] + signature
  }

  /** The authentication frame is of type 1 and holds key, length and signature in that order. */
  lemma AuthFrameMeans(key: Bytes, signature: Bytes)
    requires |key| == 32 && |signature| == 64
    ensures var tagged := SplitTagSpec(AuthFrame(key, signature));
            && tagged.Some? && tagged.value.tag == 1 && |tagged.value.payload| == 97
            && tagged.value.payload[..32] == key && tagged.value.payload[32] == 64
            && tagged.value.payload[33..] == signature
  {
    var body := key + [64] + signature;
    ShortTag(1, body);
    assert AuthFrame(key, signature) == [1] + body;
    assert body[..32] == key && body[33..] == signature;
  }

  /** Type 0 with sixteen bytes is a challenge, type 2 confirms, and nothing else lets the handshake go on. */
  lemma HandshakeFramesMean(tag: byte, payload: Bytes, signature: Option<Bytes>, sent: bool)
    requires tag < 64
    ensures var ev := Frame([tag] + payload, signature, sent);
            && (Confirms(ev) <==> tag == 2)
            && (Answered(ev) <==>
                  tag == 0 && |payload| == 16 && signature.Some? && |signature.value| == 64 && sent)
  {
    ShortTag(tag, payload);
  }

  function Auths(key: Bytes, evs: seq<HandshakeEvent>): seq<Bytes> {
    if evs == [] then []
    else
      var ev := evs[|evs| - 1];
      Auths(key, evs[..|evs| - 1]) + if Answered(ev) then [AuthFrame(key, ev.signature.value)] else []
  }

  /** Authenticate: succeeds exactly when the relay confirms before anything else ends the dance. */
  method Handshake(key: Bytes, evs: seq<HandshakeEvent>) returns (ok: bool, used: nat, auths: seq<Bytes>)
    ensures used <= |evs| && auths == Auths(key, evs[..used])
    ensures ok <==> exists k :: ConfirmedAt(evs, k)
    ensures ok ==> 0 < used && ConfirmedAt(evs, used - 1)
  {
    ok, used, auths := false, 0, [];
    while used < |evs|
      invariant used <= |evs| && auths == Auths(key, evs[..used]) && !ok
      invariant forall i :: 0 <= i < used ==> evs[i].Skipped? || Answered(evs[i])
      invariant forall i :: 0 <= i < used ==> !Confirms(evs[i])
    {
      var ev := evs[used];
      assert evs[..used + 1][..used] == evs[..used];
      used := used + 1;
      if ev.Broken? {
        assert !(evs[used - 1].Skipped? || Answered(evs[used - 1]));
        return;
      }
      if ev.Frame? {
        var tagged := SplitTag(ev.frame);
        if tagged.None? {
          assert !(evs[used - 1].Skipped? || Answered(evs[used - 1]));
          return;
        }
        if tagged.value.tag == SERVER_CONFIRMS_AUTH {
          ok := true;
          assert ConfirmedAt(evs, used - 1);
          return;
        }
        if !Answered(ev) {
          assert !(evs[used - 1].Skipped? || Answered(evs[used - 1]));
          return;
        }
        auths := auths + [AuthFrame(key, ev.signature.value)];
      }
    }
  }
}
