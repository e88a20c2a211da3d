/** The request/response exchange of src/ingress/modbus_serial.c: accumulate a reply from the
    serial line, then accept or reject it by its CRC. What select and read answer is a script. */
module ModbusSerial {
  import opened Bits
  import opened Crc16
  import opened CrcDetection

  /** One pass of the read loop: what select and, if it fired, read returned. */
  datatype Answer = Timeout | Retry | Error | Eof | Chunk(bytes: seq<bv8>)

  datatype Received = Failed | Got(bytes: seq<bv8>)

  function Take(bytes: seq<bv8>, n: nat): seq<bv8> { if |bytes| <= n then bytes else bytes[..n] }

  /** What read_with_timeout leaves in the buffer, with got already there. */
  function Receive(answers: seq<Answer>, max: nat, got: seq<bv8>): Received
    decreases |answers|
  {
    if |got| >= max || answers == [] then Got(got)
    else match answers[0]
      case Timeout => Got(got)
      case Eof => Got(got)
      case Error => Failed
      case Retry => Receive(answers[1..], max, got)
      case Chunk(bytes) =>
        var more := got + Take(bytes, max - |got|);
        if |more| == |got| || |more| >= 5 then Got(more) else Receive(answers[1..], max, more)
  }

  lemma {:induction false} ReceiveFits(answers: seq<Answer>, max: nat, got: seq<bv8>)
    requires |got| <= max
    ensures var r := Receive(answers, max, got);
            r.Got? ==> |got| <= |r.bytes| <= max && r.bytes[..|got|] == got
    decreases |answers|
  {
    if |got| < max && answers != [] {
      match answers[0]
      case Retry => ReceiveFits(answers[1..], max, got);
      case Chunk(bytes) =>
        var more := got + Take(bytes, max - |got|);
        ReceiveFits(answers[1..], max, more);
        assert more[..|got|] == got;
      case _ =>
    }
  }

  /** The kernel's copy of count bytes into buf at total. */
  method Store(buf: array<bv8>, total: nat, bytes: seq<bv8>)
    requires total + |bytes| <= buf.Length
    modifies buf
    ensures buf[..] == old(buf[..total]) + bytes + old(buf[total + |bytes|..])
  {
    for i := 0 to |bytes|
      invariant buf[..] == old(buf[..total]) + bytes[..i] + old(buf[total + i..])
    {
      buf[total + i] := bytes[i];
    }
  }

  /** read_with_timeout: append chunks until five bytes are in, the line goes quiet or max is
      reached. */
  method ReadWithTimeout(buf: array<bv8>, max: nat, answers: seq<Answer>) returns (n: int)
    requires max <= buf.Length
    modifies buf
    ensures Receive(answers, max, []).Failed? ==> n == -1
    ensures Receive(answers, max, []).Got? ==>
              0 <= n <= max && buf[..n] == Receive(answers, max, []).bytes
    ensures buf[max..] == old(buf[max..])
  {
    var total, at := 0, 0;
    while total < max && at < |answers|
      invariant 0 <= total <= max && at <= |answers|
      invariant Receive(answers[at..], max, buf[..total]) == Receive(answers, max, [])
      invariant buf[max..] == old(buf[max..])
      decreases |answers| - at
    {
      var answer := answers[at];
      assert answers[at..][1..] == answers[at + 1..];
      at := at + 1;
      match answer
      case Timeout => break;
      case Retry => continue;
      case Error => return -1;
      case Eof => break;
      case Chunk(bytes) =>
        var count := if |bytes| <= max - total then |bytes| else max - total;
        assert bytes[..count] == Take(bytes, max - total);
        Store(buf, total, bytes[..count]);
        total := total + count;
        if count == 0 || total >= 5 {
          break;
        }
    }
    n := total;
  }

  /** The CRC comparison that ends modbus_serial_exchange. */
  method CrcMatches(response: array<bv8>, n: nat) returns (ok: bool)
    requires 2 <= n <= response.Length
    ensures ok <==> Accepts(response[..n])
  {
    var crc := ModbusCrc16(response, n - 2);
    var lo, hi := response[n - 2], response[n - 1];
    var recvCrc := (lo as bv16) | ((hi as bv16) << 8);
    assert response[..n][..n - 2] == response[..n - 2];
    ok := crc == recvCrc;
    SameWord(crc, recvCrc, lo, hi);
  }

  lemma SameWord(crc: bv16, recvCrc: bv16, lo: bv8, hi: bv8)
    requires recvCrc == (lo as bv16) | ((hi as bv16) << 8)
    ensures crc == recvCrc <==> WordBits(crc) == ByteBits(lo) + ByteBits(hi)
  {
    WordBitsOfBytes(lo, hi);
    if WordBits(crc) == WordBits(recvCrc) {
      WordBitsInjective(crc, recvCrc);
    }
  }

  /** modbus_serial_exchange. wrote is what the write of the request returned. */
  method Exchange(fd: int, request: seq<bv8>, wrote: int, response: array<bv8>, max: nat,
                  answers: seq<Answer>)
    returns (r: int)
    requires max <= response.Length
    modifies response
    ensures r == -1 || r >= 5
    ensures r >= 5 <==>
      && fd >= 0 && |request| >= 4 && max >= 5 && wrote == |request|
      && Receive(answers, max, []).Got?
      && |Receive(answers, max, []).bytes| >= 5
      && Accepts(Receive(answers, max, []).bytes)
    ensures r >= 5 ==> r <= max && response[..r] == Receive(answers, max, []).bytes
    ensures response[max..] == old(response[max..])
    ensures fd < 0 || |request| < 4 || max < 5 || wrote != |request| ==> response[..] == old(response[..])
  {
    if fd < 0 || |request| < 4 || max < 5 {
      return -1;
    }
    if wrote != |request| {
      return -1;
    }
    var n := ReadWithTimeout(response, max, answers);
    if n < 5 {
      return -1;
    }
    var ok := CrcMatches(response, n);
    r := if ok then n else -1;
  }

  // ----- what ends the read loop -----

  function Flatten(chunks: seq<seq<bv8>>): seq<bv8>
  {
    if chunks == [] then [] else chunks[0] + Flatten(chunks[1..])
  }

  function Arrivals(chunks: seq<seq<bv8>>): (answers: seq<Answer>)
    ensures |answers| == |chunks|
  {
    seq(|chunks|, i requires 0 <= i < |chunks| => Chunk(chunks[i]))
  }

  /** Interrupted and would-block reads are not noticed. */
  lemma {:induction false} RetryIgnored(a: seq<Answer>, b: seq<Answer>, max: nat, got: seq<bv8>)
    ensures Receive(a + [Retry] + b, max, got) == Receive(a + b, max, got)
    decreases |a|
  {
    if a == [] {
      assert ([] + [Retry] + b)[1..] == b && [] + b == b;
    } else {
      assert (a + [Retry] + b)[1..] == a[1..] + [Retry] + b && (a + b)[1..] == a[1..] + b;
      match a[0]
      case Retry => RetryIgnored(a[1..], b, max, got);
      case Chunk(bytes) =>
        if |got| < max { RetryIgnored(a[1..], b, max, got + Take(bytes, max - |got|)); }
      case _ =>
    }
  }

  /** After chunks of fewer than five bytes in all, and room for more: silence or the end of the line
      hands over what has come, an error discards it, and a chunk that makes it five bytes or more
      ends the loop, cut to the room there is, whatever would have followed. */
  lemma {:induction false} ReceiveEnds(chunks: seq<seq<bv8>>, next: Answer, tail: seq<Answer>, max: nat, got: seq<bv8>)
    requires forall c :: c in chunks ==> c != []
    requires |got| + |Flatten(chunks)| < 5 && |got| + |Flatten(chunks)| < max
    ensures var r, all := Receive(Arrivals(chunks) + [next] + tail, max, got), got + Flatten(chunks);
      && (next.Timeout? || next.Eof? ==> r == Got(all))
      && (next.Error? ==> r == Received.Failed)
      && (next.Chunk? && |all| + |next.bytes| >= 5 && max >= 5 ==>
            var whole := all + next.bytes;
            r == Got(if |whole| <= max then whole else whole[..max]))
    decreases |chunks|
  {
    var answers := Arrivals(chunks) + [next] + tail;
    if chunks == [] {
      assert got + Flatten(chunks) == got;
      assert answers[0] == next;
    } else {
      var c, rest := chunks[0], chunks[1..];
      assert c in chunks && Take(c, max - |got|) == c;
      assert answers[0] == Chunk(c) && answers[1..] == Arrivals(rest) + [next] + tail;
      forall d | d in rest ensures d in chunks {}
      ReceiveEnds(rest, next, tail, max, got + c);
      assert got + Flatten(chunks) == got + c + Flatten(rest);
    }
  }

  // ----- replies that arrive in pieces -----

  /** Five bytes end the read loop, so a reply delivered in pieces is seen whole exactly when
      everything before its last piece is shorter than five bytes; otherwise the CRC check
      judges a truncated frame. */
  lemma {:induction false} SeenWholeIffShortLead(chunks: seq<seq<bv8>>, max: nat, got: seq<bv8>)
    requires chunks != [] && forall c :: c in chunks ==> c != []
    requires |got| < 5 && |got| + |Flatten(chunks)| <= max
    ensures Receive(Arrivals(chunks), max, got).Got?
    ensures Receive(Arrivals(chunks), max, got).bytes == got + Flatten(chunks)
       <==> |got| + |Flatten(chunks[..|chunks| - 1])| < 5
    decreases |chunks|
  {
    var c, rest := chunks[0], chunks[1..];
    var more := got + c;
    assert c in chunks && Take(c, max - |got|) == c;
    assert Arrivals(chunks)[1..] == Arrivals(rest);
    assert got + Flatten(chunks) == more + Flatten(rest);
    if rest == [] {
      assert chunks[..|chunks| - 1] == [];
    } else {
      var lead := chunks[..|chunks| - 1];
      assert lead[0] == c && lead[1..] == rest[..|rest| - 1];
      assert Flatten(rest) != [] by { assert rest[0] in chunks; }
      if |more| < 5 {
        forall d | d in rest ensures d in chunks {}
        SeenWholeIffShortLead(rest, max, more);
        assert |Flatten(lead)| == |c| + |Flatten(rest[..|rest| - 1])|;
        assert Receive(Arrivals(chunks), max, got) == Receive(Arrivals(rest), max, more);
      }
    }
  }
}
