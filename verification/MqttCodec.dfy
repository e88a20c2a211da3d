/** The MQTT 3.1.1 packets of src/egress/mqtt_session.c, and the decoder of the standard they are
    judged against: Remaining Length (section 2.2.3), CONNECT (3.1), PUBLISH at QoS 0 (3.3) and
    PINGREQ (3.12). */
module MqttCodec {

  type Byte = b: int | 0 <= b < 256
  type Bytes = seq<Byte>

  const LEN_LIMIT := 128 * 128 * 128 * 128

  // ----- Remaining Length, section 2.2.3 -----

  /** The loop of mqtt_encode_remaining_length with room output bytes left. */
  function EncodeLength(n: nat, room: nat): (out: Bytes)
    requires room >= 1
    ensures 1 <= |out| <= room
    decreases room
  {
    var rest := n / 128;
    if rest > 0 then [n % 128 + 128] + (if room > 1 then EncodeLength(rest, room - 1) else [])
    else [n % 128]
  }

  datatype Length = Short | Bad | Length(value: nat, used: nat)

  /** The standard's decoder: seven bits a byte, low group first, at most room bytes. */
  function DecodeLength(s: Bytes, room: nat): (r: Length)
    ensures r.Length? ==> 1 <= r.used <= room && r.used <= |s|
    decreases room
  {
    if room == 0 then Bad
    else if s == [] then Short
    else if s[0] < 128 then Length(s[0], 1)
    else match DecodeLength(s[1..], room - 1)
      case Length(value, used) => Length(s[0] - 128 + 128 * value, used + 1)
      case other => other
  }

  function Power128(k: nat): nat { if k == 0 then 1 else 128 * Power128(k - 1) }

  /** Encode then decode is the identity exactly below 128^room; above, the last byte still asks
      for more and the field is malformed. Whatever follows is left untouched. */
  lemma {:induction false} LengthRoundTrip(n: nat, room: nat, rest: Bytes)
    requires room >= 1
    ensures var code := EncodeLength(n, room);
      DecodeLength(code + rest, room) ==
        if n < Power128(room) then Length(n, |code|) else Bad
    decreases room
  {
    var code := EncodeLength(n, room);
    if n / 128 > 0 {
      if room > 1 {
        LengthRoundTrip(n / 128, room - 1, rest);
        assert (code + rest)[1..] == EncodeLength(n / 128, room - 1) + rest;
      } else {
        assert DecodeLength((code + rest)[1..], 0) == Bad;
        assert Power128(1) == 128 * Power128(0);
      }
    } else {
      assert Power128(room) == 128 * Power128(room - 1);
      PowerPositive(room - 1);
    }
  }

  lemma {:induction false} PowerPositive(k: nat)
    ensures Power128(k) >= 1
  {
    if k > 0 { PowerPositive(k - 1); }
  }

  lemma FourGroups()
    ensures Power128(4) == LEN_LIMIT
  {
    assert Power128(1) == 128 * Power128(0);
    assert Power128(2) == 128 * Power128(1);
    assert Power128(3) == 128 * Power128(2);
  }

  /** No byte string that decodes to n is shorter than the encoding of n. */
  lemma {:induction false} LengthMinimal(s: Bytes, room: nat)
    requires DecodeLength(s, room).Length?
    ensures |EncodeLength(DecodeLength(s, room).value, room)| <= DecodeLength(s, room).used
    decreases room
  {
    var r := DecodeLength(s, room);
    if s[0] >= 128 {
      var inner := DecodeLength(s[1..], room - 1);
      assert r.value / 128 == inner.value;
      LengthMinimal(s[1..], room - 1);
    }
  }

  /** Any proper prefix of an encoding asks for more bytes. */
  lemma {:induction false} LengthPrefixShort(n: nat, room: nat, cut: nat)
    requires room >= 1 && cut < |EncodeLength(n, room)|
    ensures DecodeLength(EncodeLength(n, room)[..cut], room) == Short
    decreases room
  {
    var code := EncodeLength(n, room);
    if cut > 0 {
      assert code[..cut][1..] == EncodeLength(n / 128, room - 1)[..cut - 1];
      LengthPrefixShort(n / 128, room - 1, cut - 1);
    }
  }

  /** One byte below 128, two below 16384, at least three from there on. */
  lemma LengthSize(n: nat)
    ensures |EncodeLength(n, 4)| == 1 <==> n < 128
    ensures |EncodeLength(n, 4)| == 2 <==> 128 <= n < 16384
  {
    if n >= 128 {
      assert n / 128 >= 1;
      if n / 128 >= 128 { assert n / 128 / 128 >= 1; }
    }
  }

  /** mqtt_encode_remaining_length: fills out by position and returns the count. */
  method EncodeRemainingLength(out: array<Byte>, n: nat) returns (i: nat)
    requires out.Length >= 4
    modifies out
    ensures i == |EncodeLength(n, 4)| && out[..i] == EncodeLength(n, 4)
  {
    var remaining := n;
    var more := true;
    i := 0;
    while more
      invariant i <= 4 && (more ==> i < 4)
      invariant EncodeLength(n, 4) == out[..i] + if more then EncodeLength(remaining, 4 - i) else []
      decreases 4 - i, more
    {
      var byte := remaining % 128;
      remaining := remaining / 128;
      if remaining > 0 {
        byte := byte + 0x80;
      }
      out[i] := byte;
      i := i + 1;
      more := remaining > 0 && i < 4;
    }
  }

  // ----- packets -----

  datatype Packet =
    | Connect(clientId: Bytes, keepalive: nat)
    | Publish(topic: Bytes, payload: Bytes)
    | PingReq

  const PROTOCOL: Bytes := [0, 4, 77, 81, 84, 84, 4, 2]

  /** A 16-bit field, high byte first. */
  function Pair(high: Byte, low: Byte): nat { 256 * (high as int) + (low as int) }

  function Word(n: nat): Bytes { [(n / 256) % 256, n % 256] }

  function Header(p: Packet): Byte
  {
    match p case Connect(_, _) => 0x10 case Publish(_, _) => 0x30 case PingReq => 0xC0
  }

  function Body(p: Packet): Bytes
  {
    match p
    case Connect(id, keepalive) => PROTOCOL + Word(keepalive) + Word(|id|) + id
    case Publish(topic, payload) => Word(|topic|) + topic + payload
    case PingReq => []
  }

  function Framed(header: Byte, body: Bytes): Bytes
  {
    [header] + EncodeLength(|body|, 4) + body
  }

  function Encode(p: Packet): (s: Bytes)
    ensures |s| >= 2
  {
    Framed(Header(p), Body(p))
  }

  /** The stack buffers of the send functions: 160 bytes for CONNECT, 1024 for PUBLISH. */
  predicate Fits(p: Packet)
  {
    match p
    case Connect(_, keepalive) => |Encode(p)| <= 160 && keepalive < 0x1_0000
    case Publish(_, _) => |Encode(p)| <= 1024
    case PingReq => true
  }

  datatype Parsed = Incomplete | Malformed | Parsed(packet: Packet, used: nat)

  function DecodeBody(header: Byte, body: Bytes): (r: Parsed)
    ensures !r.Incomplete?
  {
    if header == 0x10 && |body| >= 12 && body[..8] == PROTOCOL && |body| == 12 + Pair(body[10], body[11]) then
      Parsed(Connect(body[12..], Pair(body[8], body[9])), |body|)
    else if header == 0x30 && |body| >= 2 && Pair(body[0], body[1]) <= |body| - 2 then
      var end := 2 + Pair(body[0], body[1]);
      Parsed(Publish(body[2..end], body[end..]), |body|)
    else if header == 0xC0 && body == [] then Parsed(PingReq, 0)
    else Malformed
  }

  /** One packet off the front of a byte stream. */
  function Parse(s: Bytes): (r: Parsed)
    ensures r.Parsed? ==> 2 <= r.used <= |s|
  {
    if s == [] then Incomplete
    else match DecodeLength(s[1..], 4)
      case Short => Incomplete
      case Bad => Malformed
      case Length(n, k) =>
        if |s| < 1 + k + n then Incomplete
        else match DecodeBody(s[0], s[1 + k..1 + k + n])
          case Parsed(p, _) => Parsed(p, 1 + k + n)
          case other => other
  }

  // ----- round trip -----

  lemma WordValue(n: nat)
    requires n < 0x1_0000
    ensures Pair(Word(n)[0], Word(n)[1]) == n
  {
  }

  lemma ConnectBody(id: Bytes, keepalive: nat)
    requires |id| < 0x1_0000 && keepalive < 0x1_0000
    ensures var body := Body(Connect(id, keepalive));
      DecodeBody(0x10, body) == Parsed(Connect(id, keepalive), |body|)
  {
    var body := Body(Connect(id, keepalive));
    WordValue(|id|);
    WordValue(keepalive);
    assert body[..8] == PROTOCOL;
    assert body[8] == Word(keepalive)[0] && body[9] == Word(keepalive)[1];
    assert body[10] == Word(|id|)[0] && body[11] == Word(|id|)[1];
    assert body[12..] == id;
  }

  lemma PublishBody(topic: Bytes, payload: Bytes)
    requires |topic| < 0x1_0000
    ensures var body := Body(Publish(topic, payload));
      DecodeBody(0x30, body) == Parsed(Publish(topic, payload), |body|)
  {
    var body := Body(Publish(topic, payload));
    WordValue(|topic|);
    assert body[0] == Word(|topic|)[0] && body[1] == Word(|topic|)[1];
    assert body[2..2 + |topic|] == topic;
    assert body[2 + |topic|..] == payload;
  }

  lemma BodyRoundTrip(p: Packet)
    requires Fits(p)
    ensures DecodeBody(Header(p), Body(p)) == Parsed(p, |Body(p)|)
  {
    match p
    case Connect(id, keepalive) => ConnectBody(id, keepalive);
    case Publish(topic, payload) => PublishBody(topic, payload);
    case PingReq =>
  }

  /** The size guards keep every packet sent far below the limit of the length field, so all of
      its 16-bit fields are exact as well. */
  lemma FitsInLengthField(p: Packet)
    requires Fits(p)
    ensures |Body(p)| < LEN_LIMIT
  {
  }

  lemma FramedSplit(header: Byte, code: Bytes, body: Bytes, rest: Bytes)
    ensures var s := [header] + code + body + rest;
      s[0] == header && s[1..] == code + (body + rest) && s[1 + |code|..1 + |code| + |body|] == body
  {
  }

  lemma FramedParses(header: Byte, body: Bytes, rest: Bytes, p: Packet)
    requires |body| < LEN_LIMIT && DecodeBody(header, body) == Parsed(p, |body|)
    ensures Parse(Framed(header, body) + rest) == Parsed(p, |Framed(header, body)|)
  {
    var s := Framed(header, body) + rest;
    var code := EncodeLength(|body|, 4);
    LengthRoundTrip(|body|, 4, body + rest);
    FourGroups();
    FramedSplit(header, code, body, rest);
  }

  lemma CutFrame(header: Byte, code: Bytes, body: Bytes, cut: nat)
    requires 0 < cut <= 1 + |code| + |body|
    ensures var s := ([header] + code + body)[..cut];
      s[0] == header && s[1..] == if cut <= |code| then code[..cut - 1] else code + body[..cut - 1 - |code|]
  {
  }

  lemma CutFrameIncomplete(header: Byte, body: Bytes, cut: nat)
    requires |body| < LEN_LIMIT && cut < |Framed(header, body)|
    ensures Parse(Framed(header, body)[..cut]) == Incomplete
  {
    var s := Framed(header, body)[..cut];
    var code := EncodeLength(|body|, 4);
    if 0 < cut <= |code| {
      CutFrame(header, code, body, cut);
      LengthPrefixShort(|body|, 4, cut - 1);
    } else if cut > 0 {
      var part := body[..cut - 1 - |code|];
      CutFrame(header, code, body, cut);
      LengthRoundTrip(|body|, 4, part);
      FourGroups();
    }
  }

  /** A packet followed by anything parses back to itself and leaves what follows. */
  lemma {:induction false} PacketRoundTrip(p: Packet, rest: Bytes)
    requires Fits(p)
    ensures Parse(Encode(p) + rest) == Parsed(p, |Encode(p)|)
  {
    FitsInLengthField(p);
    BodyRoundTrip(p);
    FramedParses(Header(p), Body(p), rest, p);
  }

  /** A packet cut short is incomplete, never mistaken for another. */
  lemma CutPacketIncomplete(p: Packet, cut: nat)
    requires Fits(p) && cut < |Encode(p)|
    ensures Parse(Encode(p)[..cut]) == Incomplete
  {
    FitsInLengthField(p);
    CutFrameIncomplete(Header(p), Body(p), cut);
  }

  /** A packet's code, given the length of its body. */
  lemma CodeIs(p: Packet, remaining: nat)
    requires remaining == |Body(p)|
    ensures Encode(p) == [Header(p)] + EncodeLength(remaining, 4) + Body(p)
    ensures |Encode(p)| == 1 + |EncodeLength(remaining, 4)| + remaining
  {
  }

  lemma WordIs(n: nat)
    requires n < 0x1_0000
    ensures Word(n) == [n / 256, n % 256]
  {
  }

  lemma ConnectPieces(all: Bytes, head: Bytes, body: Bytes, keepalive: Bytes, length: Bytes, id: Bytes)
    requires all == head + body && body == PROTOCOL + keepalive + length + id
    ensures all == head + [0x00, 0x04, 0x4D, 0x51, 0x54, 0x54, 0x04, 0x02] + keepalive + length + id
  {
  }

  lemma PublishPieces(all: Bytes, head: Bytes, body: Bytes, length: Bytes, topic: Bytes, payload: Bytes)
    requires all == head + body && body == length + topic + payload
    ensures all == head + length + topic + payload
  {
  }

  /** The bytes of the three packets, as the standard lays them out. */
  lemma ConnectBytes(id: Bytes, keepalive: nat, k: Bytes, n: Bytes)
    requires |id| < 0x1_0000 && keepalive < 0x1_0000
    requires k == [keepalive / 256, keepalive % 256] && n == [|id| / 256, |id| % 256]
    ensures Encode(Connect(id, keepalive)) ==
      [0x10] + EncodeLength(12 + |id|, 4) + [0x00, 0x04, 0x4D, 0x51, 0x54, 0x54, 0x04, 0x02] + k + n + id
  {
    var p := Connect(id, keepalive);
    CodeIs(p, 12 + |id|);
    WordIs(keepalive);
    WordIs(|id|);
    ConnectPieces(Encode(p), [0x10] + EncodeLength(12 + |id|, 4), Body(p), k, n, id);
  }

  lemma PublishBytes(topic: Bytes, payload: Bytes, n: Bytes)
    requires |topic| < 0x1_0000 && n == [|topic| / 256, |topic| % 256]
    ensures Encode(Publish(topic, payload)) ==
      [0x30] + EncodeLength(2 + |topic| + |payload|, 4) + n + topic + payload
  {
    var p := Publish(topic, payload);
    CodeIs(p, 2 + |topic| + |payload|);
    WordIs(|topic|);
    PublishPieces(Encode(p), [0x30] + EncodeLength(2 + |topic| + |payload|, 4), Body(p), n, topic, payload);
  }

  lemma PingBytes()
    ensures Encode(PingReq) == [0xC0, 0x00]
  {
  }

  // ----- streams -----

  function Wire(packets: seq<Packet>): Bytes
  {
    if packets == [] then [] else Encode(packets[0]) + Wire(packets[1..])
  }

  datatype Stream = Stream(packets: seq<Packet>, rest: Bytes, malformed: bool)

  /** Whole packets off the front until what is left is incomplete or malformed. */
  function DecodeStream(s: Bytes): Stream
    decreases |s|
  {
    match Parse(s)
    case Incomplete => Stream([], s, false)
    case Malformed => Stream([], s, true)
    case Parsed(p, used) =>
      var tail := DecodeStream(s[used..]);
      Stream([p] + tail.packets, tail.rest, tail.malformed)
  }

  lemma FirstPacketOff(p: Packet, code: Bytes, tail: Bytes)
    requires Parse(code + tail) == Parsed(p, |code|)
    ensures var t := DecodeStream(tail);
      DecodeStream(code + tail) == Stream([p] + t.packets, t.rest, t.malformed)
  {
    assert (code + tail)[|code|..] == tail;
  }

  lemma StreamCons(p: Packet, tail: Bytes)
    requires Fits(p)
    ensures var t := DecodeStream(tail);
      DecodeStream(Encode(p) + tail) == Stream([p] + t.packets, t.rest, t.malformed)
  {
    PacketRoundTrip(p, tail);
    FirstPacketOff(p, Encode(p), tail);
  }

  ghost predicate AllFit(packets: seq<Packet>) { forall i :: 0 <= i < |packets| ==> Fits(packets[i]) }

  lemma WireCons(packets: seq<Packet>, rest: Bytes)
    requires packets != []
    ensures Wire(packets) + rest == Encode(packets[0]) + (Wire(packets[1..]) + rest)
  {
  }

  /** Framing is unambiguous: any packets back to back, then the start of one more, decode to
      exactly those packets and that start. */
  lemma {:induction false} StreamRoundTrip(packets: seq<Packet>, rest: Bytes)
    requires AllFit(packets) && Parse(rest) == Incomplete
    ensures DecodeStream(Wire(packets) + rest) == Stream(packets, rest, false)
  {
    if packets == [] {
      assert Wire(packets) + rest == rest;
    } else {
      var more := packets[1..];
      StreamRoundTrip(more, rest);
      StreamCons(packets[0], Wire(more) + rest);
      WireCons(packets, rest);
      assert [packets[0]] + more == packets;
    }
  }

  lemma {:induction false} WireAppend(packets: seq<Packet>, p: Packet)
    ensures Wire(packets + [p]) == Wire(packets) + Encode(p)
  {
    if packets == [] {
      assert Wire([p][1..]) == [];
    } else {
      assert (packets + [p])[1..] == packets[1..] + [p];
      WireAppend(packets[1..], p);
    }
  }
}
