/**
 * The relay wire format. Shifts and masks on bytes are written as the division, remainder and
 * multiplication they are; `split_tag`'s shift drops what leaves 64 bits.
 */
module RelayFrames {
  import opened Types

  const CLIENT_TO_RELAY_DATAGRAM: nat := 4
  const RELAY_TO_CLIENT_DATAGRAM: nat := 6
  const RELAY_TO_CLIENT_DATAGRAM_BATCH: nat := 7
  const PING: nat := 9
  const PONG: nat := 10
  const SERVER_CHALLENGE: nat := 0
  const CLIENT_AUTH: nat := 1
  const SERVER_CONFIRMS_AUTH: nat := 2

  const U64: nat := 0x1_0000_0000_0000_0000

  datatype Tagged = Tagged(tag: nat, payload: Bytes)
  datatype Datagram = Datagram(source: Bytes, payload: Bytes)

  // --- big-endian numbers -----------------------------------------------------------------------

  function Pow256(n: nat): nat {
    if n == 0 then 1 else 256 * Pow256(n - 1)
  }

  function BigEndian(bs: Bytes): nat {
    if bs == [] then 0 else 256 * BigEndian(bs[..|bs| - 1]) + bs[|bs| - 1]
  }

  function ToBigEndian(v: nat, n: nat): (bs: Bytes)
    ensures |bs| == n
  {
    if n == 0 then [] else ToBigEndian(v / 256, n - 1) + [v % 256]
  }

  lemma {:induction false} BigEndianInverts(v: nat, n: nat)
    requires v < Pow256(n)
    ensures BigEndian(ToBigEndian(v, n)) == v
  {
    if n > 0 {
      BigEndianInverts(v / 256, n - 1);
      assert ToBigEndian(v, n)[..n - 1] == ToBigEndian(v / 256, n - 1);
    }
  }

  lemma {:induction false} ToBigEndianInverts(bs: Bytes)
    ensures BigEndian(bs) < Pow256(|bs|) && ToBigEndian(BigEndian(bs), |bs|) == bs
  {
    if bs != [] {
      ToBigEndianInverts(bs[..|bs| - 1]);
      assert BigEndian(bs) / 256 == BigEndian(bs[..|bs| - 1]);
      assert bs == bs[..|bs| - 1] + [bs[|bs| - 1]];
    }
  }

  /** The leading byte of a number is small exactly when the number is. */
  lemma {:induction false} LeadingByte(v: nat, n: nat, lead: nat)
    requires 0 < n && v < Pow256(n)
    ensures ToBigEndian(v, n)[0] < lead <==> v < lead * Pow256(n - 1)
  {
    if n > 1 {
      LeadingByte(v / 256, n - 1, lead);
      BelowAMultiple(v, lead, Pow256(n - 2));
    }
  }

  lemma BelowAMultiple(v: nat, lead: nat, unit: nat)
    ensures v / 256 < lead * unit <==> v < lead * (256 * unit)
  {
    var limit := lead * unit;
    assert lead * (256 * unit) == 256 * limit;
    assert v / 256 < limit <==> v < 256 * limit;
  }

  // --- QUIC varints (section 16 of RFC 9000) ----------------------------------------------------

  /** The length selected by the two leading bits. */
  function VarintLen(bits: nat): nat
    requires bits < 4
  {
    if bits == 0 then 1 else if bits == 1 then 2 else if bits == 2 then 4 else 8
  }

  /** The numbers a varint with leading bits `bits` can hold. */
  function VarintLimit(bits: nat): nat
    requires bits < 4
  {
    64 * Pow256(VarintLen(bits) - 1)
  }

  /** The encoding of `v` with leading bits `bits`. */
  function EncodeVarint(v: nat, bits: nat): (bs: Bytes)
    requires bits < 4 && v < VarintLimit(bits)
    ensures |bs| == VarintLen(bits)
  {
    var raw := ToBigEndian(v, VarintLen(bits));
    LeadingByte(v, VarintLen(bits), 64);
    [raw[0] + 64 * bits] + raw[1..]
  }

  /** What a frame's varint spells: its bytes as a number, without the two leading bits. */
  function SplitTagSpec(frame: Bytes): Option<Tagged> {
    if frame == [] then None
    else
      var len := VarintLen(frame[0] / 64);
      if |frame| < len then None
      else Some(Tagged(BigEndian([frame[0] % 64] + frame[1..len]), frame[len..]))
  }

  lemma Limits()
    ensures Pow256(1) == 0x100 && Pow256(2) == 0x1_0000 && Pow256(3) == 0x100_0000
    ensures Pow256(4) == 0x1_0000_0000 && Pow256(7) == 0x100_0000_0000_0000
  {
    assert Pow256(5) == 256 * Pow256(4) && Pow256(6) == 256 * Pow256(5);
  }

  lemma {:induction false} Pow256Grows(m: nat, n: nat)
    requires m <= n
    ensures 1 <= Pow256(m) <= Pow256(n)
  {
    if m < n {
      Pow256Grows(m, n - 1);
    } else if m > 0 {
      Pow256Grows(m - 1, n - 1);
    }
  }

  /** Split the frame type off the front of a frame; the 64-bit shift never overflows. */
  method SplitTag(frame: Bytes) returns (r: Option<Tagged>)
    ensures r == SplitTagSpec(frame)
    ensures r.Some? ==> r.value.tag < 0x4000_0000_0000_0000
    ensures r.Some? ==> exists k :: 1 <= k <= 8 && k <= |frame| && r.value.payload == frame[k..]
  {
    if frame == [] {
      return None;
    }
    var first := frame[0];
    var len := VarintLen(first / 64);
    if |frame| < len {
      return None;
    }
    var value: nat := first % 64;
    var i := 1;
    Limits();
    assert [frame[0] % 64] + frame[1..1] == [frame[0] % 64];
    while i < len
      invariant 1 <= i <= len <= |frame|
      invariant value == BigEndian([first % 64] + frame[1..i])
      invariant value < 64 * Pow256(i - 1)
    {
      Pow256Grows(i - 1, 6);
      var shifted := (value * 256) % U64;
      assert shifted == value * 256;
      assert ([first % 64] + frame[1..i + 1])[..i] == [first % 64] + frame[1..i];
      value := shifted + frame[i];
      i := i + 1;
    }
    Pow256Grows(len - 1, 7);
    r := Some(Tagged(value, frame[len..]));
  }

  /** Splitting inverts encoding, at every admissible length, and consumes exactly the encoding. */
  lemma SplitInvertsEncode(v: nat, bits: nat, rest: Bytes)
    requires bits < 4 && v < VarintLimit(bits)
    ensures SplitTagSpec(EncodeVarint(v, bits) + rest) == Some(Tagged(v, rest))
  {
    var len := VarintLen(bits);
    var raw := ToBigEndian(v, len);
    var frame := EncodeVarint(v, bits) + rest;
    LeadingByte(v, len, 64);
    Pow256Grows(len - 1, len);
    assert frame[0] / 64 == bits && frame[0] % 64 == raw[0];
    assert [frame[0] % 64] + frame[1..len] == raw;
    assert frame[len..] == rest;
    BigEndianInverts(v, len);
  }

  /** Encoding inverts splitting: a frame is its type, encoded at its own length, and its payload. */
  lemma EncodeInvertsSplit(frame: Bytes)
    requires SplitTagSpec(frame).Some?
    ensures var r := SplitTagSpec(frame).value; var bits := frame[0] / 64;
            r.tag < VarintLimit(bits) && EncodeVarint(r.tag, bits) + r.payload == frame
  {
    var bits := frame[0] / 64;
    var len := VarintLen(bits);
    var raw := [frame[0] % 64] + frame[1..len];
    ToBigEndianInverts(raw);
    LeadingByte(BigEndian(raw), len, 64);
    assert EncodeVarint(BigEndian(raw), bits) == frame[..len];
  }

  // --- datagram frames ----------------------------------------------------------------------------

  function ClientFrame(dst: Bytes, payload: Bytes): Bytes {
    [CLIENT_TO_RELAY_DATAGRAM] + dst + [0] + payload
  }

  /** Encode a client-to-relay datagram frame (single datagram, ECN 0). */
  method EncodeClientDatagram(dst: Bytes, payload: Bytes) returns (frame: Bytes)
    requires |dst| == 32
    ensures frame == ClientFrame(dst, payload) == [4] + dst + [0] + payload
    ensures SplitTagSpec(frame) == Some(Tagged(CLIENT_TO_RELAY_DATAGRAM, dst + [0] + payload))
  {
    frame := [CLIENT_TO_RELAY_DATAGRAM as byte];
    frame := frame + dst;
    frame := frame + [0];
    frame := frame + payload;
    ClientFrameSplits(dst, payload);
  }

  lemma ClientFrameSplits(dst: Bytes, payload: Bytes)
    ensures SplitTagSpec(ClientFrame(dst, payload)) == Some(Tagged(CLIENT_TO_RELAY_DATAGRAM, dst + [0] + payload))
  {
    Limits();
    SplitInvertsEncode(CLIENT_TO_RELAY_DATAGRAM, 0, dst + [0] + payload);
    assert ClientFrame(dst, payload) == EncodeVarint(CLIENT_TO_RELAY_DATAGRAM, 0) + (dst + [0] + payload);
  }

  /** Encode a pong frame echoing `payload`. */
  method EncodePong(payload: Bytes) returns (frame: Bytes)
    requires |payload| == 8
    ensures frame == PongFrame(payload) == [10] + payload && SplitTagSpec(frame) == Some(Tagged(PONG, payload))
  {
    frame := [PONG as byte];
    frame := frame + payload;
    Limits();
    SplitInvertsEncode(PONG, 0, payload);
    assert frame == EncodeVarint(PONG, 0) + payload;
  }

  function PongFrame(payload: Bytes): Bytes {
    [PONG] + payload
  }

  /** A relay forwarding one client datagram: to whom, and the frame it hands over as from `src`. */
  function IdealRelay(src: Bytes, frame: Bytes): Option<(Bytes, Bytes)>
    requires |src| == 32
  {
    match SplitTagSpec(frame)
    case Some(Tagged(tag, body)) =>
      if tag != CLIENT_TO_RELAY_DATAGRAM || |body| < 33 then None
      else Some((body[..32], EncodeVarint(RELAY_TO_CLIENT_DATAGRAM, 0) + src + body[32..33] + body[33..]))
    case None => None
  }

  /** `chunks(n)`. */
  function Chunks(contents: Bytes, n: nat): seq<Bytes>
    requires 0 < n
    decreases |contents|
  {
    if contents == [] then []
    else if |contents| <= n then [contents]
    else [contents[..n]] + Chunks(contents[n..], n)
  }

  /** `decode_relay_datagrams`: the bytes after the frame type, taken apart. */
  function DecodeRelayDatagrams(payload: Bytes, batch: bool): Option<seq<Datagram>> {
    if |payload| < 32 then None
    else
      var source, rest := payload[..32], payload[32..];
      if batch then
        if |rest| < 3 then None
        else
          var segment: nat := 256 * (rest[1] as nat) + rest[2];
          if segment == 0 then None
          else
            var parts := Chunks(rest[3..], segment);
            Some(seq(|parts|, i requires 0 <= i < |parts| => Datagram(source, parts[i])))
      else if |rest| < 1 then None
      else Some([Datagram(source, rest[1..])])
  }

  /** Exactly the payloads too short for their header, or with a segment size of zero, do not decode. */
  lemma DecodeRefuses(payload: Bytes, batch: bool)
    ensures DecodeRelayDatagrams(payload, batch) == None <==>
              if batch then |payload| < 35 || (payload[33] == 0 && payload[34] == 0) else |payload| < 33
  {
  }

  function Flatten(parts: seq<Bytes>): Bytes {
    if parts == [] then [] else parts[0] + Flatten(parts[1..])
  }

  /** Cut into pieces of `n`, the last one shorter if need be but never empty. */
  predicate WellCut(parts: seq<Bytes>, n: nat) {
    && (forall i :: 0 <= i < |parts| - 1 ==> |parts[i]| == n)
    && (parts != [] ==> 0 < |parts[|parts| - 1]| <= n)
  }

  lemma FlattenOne(part: Bytes)
    ensures Flatten([part]) == part
  {
    assert [part][1..] == [] && part + [] == part;
  }

  lemma CutsPrepend(first: Bytes, rest: seq<Bytes>, n: nat)
    requires |first| == n && WellCut(rest, n) && Flatten(rest) != []
    ensures WellCut([first] + rest, n) && Flatten([first] + rest) == first + Flatten(rest)
  {
    assert ([first] + rest)[1..] == rest;
  }

  /** Batch segments put together are the contents, and are cut as the sender cut them. */
  lemma {:induction false} ChunksAreCuts(contents: Bytes, n: nat)
    requires 0 < n
    ensures Flatten(Chunks(contents, n)) == contents && WellCut(Chunks(contents, n), n)
    decreases |contents|
  {
    if |contents| > n {
      var first, rest := contents[..n], contents[n..];
      ChunksAreCuts(rest, n);
      CutsPrepend(first, Chunks(rest, n), n);
      assert Chunks(contents, n) == [first] + Chunks(rest, n) && contents == first + rest;
    } else if contents != [] {
      FlattenOne(contents);
      assert Chunks(contents, n) == [contents];
    }
  }

  /** No other way of cutting fits: segments survive a round trip through a batch. */
  lemma {:induction false} CutsAreChunks(parts: seq<Bytes>, n: nat)
    requires 0 < n && WellCut(parts, n)
    ensures Chunks(Flatten(parts), n) == parts
  {
    if |parts| > 1 {
      CutsAreChunks(parts[1..], n);
      assert Flatten(parts)[..n] == parts[0] && Flatten(parts)[n..] == Flatten(parts[1..]);
      assert Flatten(parts[1..]) != [] by {
        assert parts[1..][|parts| - 2] == parts[|parts| - 1];
        FlattenNonempty(parts[1..]);
      }
      assert parts == [parts[0]] + parts[1..];
    } else if |parts| == 1 {
      assert parts[1..] == [] && Flatten(parts) == parts[0];
    }
  }

  lemma {:induction false} FlattenNonempty(parts: seq<Bytes>)
    requires parts != [] && parts[|parts| - 1] != []
    ensures Flatten(parts) != []
  {
    if |parts| > 1 {
      FlattenNonempty(parts[1..]);
    }
  }

  /** What a client sends through an ideal relay arrives as one datagram, from it and unaltered. */
  lemma RelayRoundTrip(src: Bytes, dst: Bytes, payload: Bytes)
    requires |src| == 32 && |dst| == 32
    ensures var relayed := IdealRelay(src, ClientFrame(dst, payload));
            && relayed.Some? && relayed.value.0 == dst
            && var received := SplitTagSpec(relayed.value.1);
               && received == Some(Tagged(RELAY_TO_CLIENT_DATAGRAM, src + [0] + payload))
               && DecodeRelayDatagrams(received.value.payload, false) == Some([Datagram(src, payload)])
  {
    Limits();
    ClientFrameSplits(dst, payload);
    var sent, body := dst + [0] + payload, src + [0] + payload;
    assert sent[..32] == dst && sent[32..33] == [0] && sent[33..] == payload;
    var tag := EncodeVarint(RELAY_TO_CLIENT_DATAGRAM, 0);
    assert tag + src + [0] + payload == tag + body;
    SplitInvertsEncode(RELAY_TO_CLIENT_DATAGRAM, 0, body);
    assert body[..32] == src && body[32..][1..] == payload;
  }

  lemma TwoBytes(n: nat)
    requires n < 0x1_0000
    ensures ToBigEndian(n, 2) == [n / 256, n % 256]
  {
    assert ToBigEndian(n / 256, 1) == ToBigEndian(n / 256 / 256, 0) + [n / 256];
  }

  lemma BatchParts(src: Bytes, ecn: byte, n: nat, contents: Bytes)
    requires |src| == 32 && n < 0x1_0000 && ToBigEndian(n, 2) == [n / 256, n % 256]
    ensures var body := src + [ecn] + ToBigEndian(n, 2) + contents;
            && |body| >= 35 && body[..32] == src
            && body[32..][1] == n / 256 && body[32..][2] == n % 256 && body[32..][3..] == contents
  {
    var body := src + [ecn] + ToBigEndian(n, 2) + contents;
    assert body[32..] == [ecn, n / 256, n % 256] + contents;
  }

  /** A batch frame body of well-cut segments decodes to those segments, all from the same source. */
  lemma BatchRoundTrip(src: Bytes, ecn: byte, n: nat, parts: seq<Bytes>)
    requires |src| == 32 && 0 < n < 0x1_0000 && WellCut(parts, n)
    ensures var body := src + [ecn] + ToBigEndian(n, 2) + Flatten(parts);
            var r := DecodeRelayDatagrams(body, true);
            && r.Some? && |r.value| == |parts|
            && forall i :: 0 <= i < |parts| ==> r.value[i] == Datagram(src, parts[i])
  {
    TwoBytes(n);
    BatchParts(src, ecn, n, Flatten(parts));
    CutsAreChunks(parts, n);
  }
}
