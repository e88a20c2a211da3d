/** The Modbus CRC-16 of src/ingress/modbus_rtu.c: reflected polynomial 0xA001, preset 0xFFFF.

    The method ModbusCrc16 is the nested byte and bit loop of the source over machine words.
    Its specification is bit-serial: Feed shifts one transmitted bit at a time through a
    register written as sixteen bits, bit 0 first. */
module Crc16 {
  import opened Bits

  // ----- the bit-serial register -----

  /** Bits 0, 13 and 15: the word 0xA001. */
  const GEN: Word := [true, false, false, false, false, false, false, false,
                      false, false, false, false, false, true, false, true]

  const PRESET: Word := [true, true, true, true, true, true, true, true,
                         true, true, true, true, true, true, true, true]

  function Shift(w: Word): Word { w[1..] + [false] }

  /** One turn of the source's inner loop: shift right, reduce when a one falls out. */
  function Step(w: Word): Word { if w[0] then Xor(Shift(w), GEN) else Shift(w) }

  function Steps(w: Word, n: nat): Word
    decreases n
  {
    if n == 0 then w else Steps(Step(w), n - 1)
  }

  /** Shift one transmitted bit into the register. */
  function FeedBit(w: Word, b: bool): Word { if w[0] != b then Xor(Shift(w), GEN) else Shift(w) }

  function Feed(w: Word, bits: Bits): Word
    decreases |bits|
  {
    if bits == [] then w else Feed(FeedBit(w, bits[0]), bits[1..])
  }

  lemma {:induction false} FeedAppend(w: Word, a: Bits, b: Bits)
    ensures Feed(w, a + b) == Feed(Feed(w, a), b)
    decreases |a|
  {
    if a == [] {
      assert a + b == b;
    } else {
      assert (a + b)[1..] == a[1..] + b;
      FeedAppend(FeedBit(w, a[0]), a[1..], b);
    }
  }

  /** XORing a chunk into the register and turning it once per bit is the same as shifting the
      chunk in bit by bit: the reason the byte-wise loop is the bit-serial CRC. */
  lemma {:induction false} ChunkStepIsBitSteps(w: Word, bits: Bits)
    requires |bits| <= 16
    ensures Steps(XorPrefix(w, bits), |bits|) == Feed(w, bits)
    decreases |bits|
  {
    var x := XorPrefix(w, bits);
    if bits == [] {
      assert x == w;
    } else {
      var rest := bits[1..];
      assert Shift(x) == XorPrefix(Shift(w), rest);
      assert Xor(Shift(x), GEN) == XorPrefix(Xor(Shift(w), GEN), rest);
      ChunkStepIsBitSteps(FeedBit(w, bits[0]), rest);
    }
  }

  lemma {:induction false} StepsLast(w: Word, n: nat)
    ensures Steps(w, n + 1) == Step(Steps(w, n))
    decreases n
  {
    if n > 0 { StepsLast(Step(w), n - 1); }
  }

  // ----- the register as a machine word -----

  lemma WordBitsShift(c: bv16)
    ensures WordBits(c >> 1) == Shift(WordBits(c))
  {
    BitsFromSplit(c, 16, 1);
    ShrSixteen(c);
    BitsFromZero(1);
    assert BitsFrom(c, 17)[1..] == BitsFrom(c >> 1, 16);
    assert BitsFrom(c, 17) == BitsFrom(c, 16) + [false];
  }

  lemma PolynomialBits()
    ensures WordBits(0xA001) == GEN
  {
    assert BitsFrom(0x0001, 1) == [true] + BitsFrom(0x0000, 0);
    assert BitsFrom(0x0002, 2) == [false] + BitsFrom(0x0001, 1);
    assert BitsFrom(0x0005, 3) == [true] + BitsFrom(0x0002, 2);
    assert BitsFrom(0x000A, 4) == [false] + BitsFrom(0x0005, 3);
    assert BitsFrom(0x0014, 5) == [false] + BitsFrom(0x000A, 4);
    assert BitsFrom(0x0028, 6) == [false] + BitsFrom(0x0014, 5);
    assert BitsFrom(0x0050, 7) == [false] + BitsFrom(0x0028, 6);
    assert BitsFrom(0x00A0, 8) == [false] + BitsFrom(0x0050, 7);
    assert BitsFrom(0x0140, 9) == [false] + BitsFrom(0x00A0, 8);
    assert BitsFrom(0x0280, 10) == [false] + BitsFrom(0x0140, 9);
    assert BitsFrom(0x0500, 11) == [false] + BitsFrom(0x0280, 10);
    assert BitsFrom(0x0A00, 12) == [false] + BitsFrom(0x0500, 11);
    assert BitsFrom(0x1400, 13) == [false] + BitsFrom(0x0A00, 12);
    assert BitsFrom(0x2800, 14) == [false] + BitsFrom(0x1400, 13);
    assert BitsFrom(0x5000, 15) == [false] + BitsFrom(0x2800, 14);
    assert BitsFrom(0xA001, 16) == [true] + BitsFrom(0x5000, 15);
  }

  lemma WordBitsPoly(c: bv16)
    ensures WordBits(c ^ 0xA001) == Xor(WordBits(c), GEN)
  {
    XorIsXor(c ^ 0xA001, c, 0xA001, 16);
    BitsFromXor(c ^ 0xA001, c, 0xA001, 16);
    PolynomialBits();
  }

  /** The CRC register after a byte sequence. */
  function Checksum(bytes: seq<bv8>): Word { Feed(PRESET, Stream(bytes)) }

  lemma ChecksumNext(bytes: seq<bv8>, b: bv8)
    ensures Checksum(bytes + [b]) == Steps(XorPrefix(Checksum(bytes), ByteBits(b)), 8)
  {
    StreamAppend(bytes, [b]);
    assert Stream([b]) == ByteBits(b) + Stream([]);
    assert Stream(bytes + [b]) == Stream(bytes) + ByteBits(b);
    FeedAppend(PRESET, Stream(bytes), ByteBits(b));
    ChunkStepIsBitSteps(Checksum(bytes), ByteBits(b));
  }

  lemma PresetBits()
    ensures WordBits(0xFFFF) == PRESET
  {
    assert BitsFrom(0x0001, 1) == [true] + BitsFrom(0x0000, 0);
    assert BitsFrom(0x0003, 2) == [true] + BitsFrom(0x0001, 1);
    assert BitsFrom(0x0007, 3) == [true] + BitsFrom(0x0003, 2);
    assert BitsFrom(0x000F, 4) == [true] + BitsFrom(0x0007, 3);
    assert BitsFrom(0x001F, 5) == [true] + BitsFrom(0x000F, 4);
    assert BitsFrom(0x003F, 6) == [true] + BitsFrom(0x001F, 5);
    assert BitsFrom(0x007F, 7) == [true] + BitsFrom(0x003F, 6);
    assert BitsFrom(0x00FF, 8) == [true] + BitsFrom(0x007F, 7);
    assert BitsFrom(0x01FF, 9) == [true] + BitsFrom(0x00FF, 8);
    assert BitsFrom(0x03FF, 10) == [true] + BitsFrom(0x01FF, 9);
    assert BitsFrom(0x07FF, 11) == [true] + BitsFrom(0x03FF, 10);
    assert BitsFrom(0x0FFF, 12) == [true] + BitsFrom(0x07FF, 11);
    assert BitsFrom(0x1FFF, 13) == [true] + BitsFrom(0x0FFF, 12);
    assert BitsFrom(0x3FFF, 14) == [true] + BitsFrom(0x1FFF, 13);
    assert BitsFrom(0x7FFF, 15) == [true] + BitsFrom(0x3FFF, 14);
    assert BitsFrom(0xFFFF, 16) == [true] + BitsFrom(0x7FFF, 15);
  }

  lemma WordXorByte(before: bv16, b: bv8, crc: bv16)
    requires crc == before ^ (b as bv16)
    ensures WordBits(crc) == XorPrefix(WordBits(before), ByteBits(b))
  {
    XorIsXor(crc, before, b as bv16, 16);
    WordBitsXorByte(crc, before, b);
  }

  lemma WordLowBit(c: bv16)
    ensures WordBits(c)[0] <==> c & 0x0001 != 0
  {
  }

  /** One turn of the inner loop on the word is one step of the register. */
  lemma WordStep(c: bv16)
    ensures c & 0x0001 != 0 ==> WordBits((c >> 1) ^ 0xA001) == Step(WordBits(c))
    ensures c & 0x0001 == 0 ==> WordBits(c >> 1) == Step(WordBits(c))
  {
    WordLowBit(c);
    WordBitsShift(c);
    WordBitsPoly(c >> 1);
  }

  /** One pass of the outer loop: XOR a byte in, then eight conditional shifts. */
  method ShiftByteIn(before: bv16, b: bv8) returns (crc: bv16)
    ensures WordBits(crc) == Steps(XorPrefix(WordBits(before), ByteBits(b)), 8)
  {
    crc := before ^ (b as bv16);
    WordXorByte(before, b, crc);
    ghost var start: Word := XorPrefix(WordBits(before), ByteBits(b));
    for bit := 0 to 8
      invariant WordBits(crc) == Steps(start, bit)
    {
      StepsLast(start, bit);
      WordStep(crc);
      if crc & 0x0001 != 0 {
        crc := (crc >> 1) ^ 0xA001;
      } else {
        crc := crc >> 1;
      }
    }
  }

  /** modbus_crc16: the nested byte and bit loops of the source compute the bit-serial CRC. */
  method ModbusCrc16(buf: array<bv8>, len: nat) returns (crc: bv16)
    requires len <= buf.Length
    ensures WordBits(crc) == Checksum(buf[..len])
  {
    crc := 0xFFFF;
    PresetBits();
    for i := 0 to len
      invariant WordBits(crc) == Checksum(buf[..i])
    {
      assert buf[..i + 1] == buf[..i] + [buf[i]];
      ChecksumNext(buf[..i], buf[i]);
      crc := ShiftByteIn(crc, buf[i]);
    }
  }

  // ----- the standard's example -----

  function Turn(c: bv16): bv16 { if c & 0x0001 != 0 then (c >> 1) ^ 0xA001 else c >> 1 }

  lemma TurnIsStep(c: bv16, n: nat, w: Word)
    requires WordBits(c) == Steps(w, n)
    ensures WordBits(Turn(c)) == Steps(w, n + 1)
  {
    WordStep(c);
    StepsLast(w, n);
  }

  function TurnFour(c: bv16): bv16 { Turn(Turn(Turn(Turn(c)))) }

  lemma FourTurns(c: bv16, n: nat, w: Word)
    requires WordBits(c) == Steps(w, n)
    ensures WordBits(TurnFour(c)) == Steps(w, n + 4)
  {
    TurnIsStep(c, n, w);
    TurnIsStep(Turn(c), n + 1, w);
    TurnIsStep(Turn(Turn(c)), n + 2, w);
    TurnIsStep(Turn(Turn(Turn(c))), n + 3, w);
  }

  lemma EightTurns(x: bv16, d: bv16, w: Word)
    requires WordBits(x) == w && d == TurnFour(TurnFour(x))
    ensures WordBits(d) == Steps(w, 8)
  {
    FourTurns(x, 0, w);
    FourTurns(TurnFour(x), 4, w);
  }

  /** The register after one more byte, from w, the register with the byte XORed in. */
  lemma ByteAdded(bytes: seq<bv8>, b: bv8, w: Word, d: Word)
    requires w == XorPrefix(Checksum(bytes), ByteBits(b)) && d == Steps(w, 8)
    ensures d == Checksum(bytes + [b])
  {
    ChecksumNext(bytes, b);
  }

  lemma FirstByte(x: bv16, d: bv16)
    requires x == 0xFFFF ^ (2 as bv16) && d == 0x813E
    ensures d == TurnFour(TurnFour(x))
  {
    assert x == 0xFFFD;
  }

  lemma SecondByte(x: bv16, d: bv16)
    requires x == 0x813E ^ (7 as bv16) && d == 0x1241
    ensures d == TurnFour(TurnFour(x))
  {
    assert x == 0x8139;
  }

  lemma ByteProcessed(bytes: seq<bv8>, b: bv8, c: bv16, x: bv16, d: bv16)
    requires WordBits(c) == Checksum(bytes) && x == c ^ (b as bv16) && d == TurnFour(TurnFour(x))
    ensures WordBits(d) == Checksum(bytes + [b])
  {
    var w: Word := XorPrefix(WordBits(c), ByteBits(b));
    WordXorByte(c, b, x);
    EightTurns(x, d, w);
    ByteAdded(bytes, b, w, WordBits(d));
  }

  lemma FirstProcessed(b: bv8)
    requires b == 0x02
    ensures WordBits(0x813E) == Checksum([b])
  {
    var x: bv16 := 0xFFFF ^ (b as bv16);
    PresetBits();
    FirstByte(x, 0x813E);
    ByteProcessed([], b, 0xFFFF, x, 0x813E);
    assert [] + [b] == [b];
  }

  /** The CRC example of MODBUS over Serial Line V1.02: the CRC of the frame 02 07 is 1241
      hexadecimal. */
  lemma StandardExample(a: bv8, b: bv8)
    requires a == 0x02 && b == 0x07
    ensures WordBits(0x1241) == Checksum([a, b])
  {
    var y: bv16 := 0x813E ^ (b as bv16);
    FirstProcessed(a);
    SecondByte(y, 0x1241);
    ByteProcessed([a], b, 0x813E, y, 0x1241);
    assert [a] + [b] == [a, b];
  }
}
