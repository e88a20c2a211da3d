/** Bit strings, and machine words read as bit strings with bit 0 first: the order in which a
    UART puts a byte on the line. */
module Bits {

  type Bits = seq<bool>
  type Word = w: seq<bool> | |w| == 16
    witness [false, false, false, false, false, false, false, false,
             false, false, false, false, false, false, false, false]

  // ----- bit strings -----

  function Zeros(n: nat): (z: Bits)
    ensures |z| == n && forall i :: 0 <= i < n ==> !z[i]
  {
    seq(n, i => false)
  }

  function Xor(a: Bits, b: Bits): (r: Bits)
    requires |a| == |b|
    ensures |r| == |a| && forall i :: 0 <= i < |r| ==> r[i] == (a[i] != b[i])
  {
    seq(|a|, i requires 0 <= i < |a| => a[i] != b[i])
  }

  /** XOR g into the front of p. */
  function XorPrefix(p: Bits, g: Bits): (r: Bits)
    requires |g| <= |p|
    ensures |r| == |p|
    ensures forall i :: 0 <= i < |g| ==> r[i] == (p[i] != g[i])
    ensures forall i :: |g| <= i < |p| ==> r[i] == p[i]
  {
    Xor(p[..|g|], g) + p[|g|..]
  }

  // ----- bytes and machine words -----

  /** The n low bits of a machine word, least significant first. */
  function BitsFrom(v: bv16, n: nat): (bits: Bits)
    ensures |bits| == n
    decreases n
  {
    if n == 0 then [] else [v & 1 != 0] + BitsFrom(v >> 1, n - 1)
  }

  function Shr(v: bv16, n: nat): bv16
    decreases n
  {
    if n == 0 then v else Shr(v >> 1, n - 1)
  }

  function WordBits(c: bv16): Word { BitsFrom(c, 16) }

  function ByteBits(b: bv8): (bits: Bits)
    ensures |bits| == 8
  {
    BitsFrom(b as bv16, 8)
  }

  /** The low n bits of x are those of c XOR d. */
  ghost predicate IsXor(x: bv16, c: bv16, d: bv16, n: nat)
    decreases n
  {
    n > 0 ==>
      && (x & 1 != 0 <==> (c & 1 != 0) != (d & 1 != 0))
      && IsXor(x >> 1, c >> 1, d >> 1, n - 1)
  }

  lemma XorShift(x: bv16, c: bv16, d: bv16)
    requires x == c ^ d
    ensures x >> 1 == (c >> 1) ^ (d >> 1)
    ensures x & 1 != 0 <==> (c & 1 != 0) != (d & 1 != 0)
  {
  }

  lemma IsXorNext(x: bv16, c: bv16, d: bv16, n: nat, x1: bv16, c1: bv16, d1: bv16)
    requires n > 0 && x1 == x >> 1 && c1 == c >> 1 && d1 == d >> 1 && IsXor(x1, c1, d1, n - 1)
    requires x & 1 != 0 <==> (c & 1 != 0) != (d & 1 != 0)
    ensures IsXor(x, c, d, n)
  {
  }

  lemma ShiftedXor(x: bv16, c: bv16, d: bv16) returns (x1: bv16, c1: bv16, d1: bv16)
    requires x == c ^ d
    ensures x1 == x >> 1 && c1 == c >> 1 && d1 == d >> 1 && x1 == c1 ^ d1
  {
    XorShift(x, c, d);
    x1, c1, d1 := x >> 1, c >> 1, d >> 1;
  }

  lemma {:induction false} XorIsXor(x: bv16, c: bv16, d: bv16, n: nat)
    requires x == c ^ d
    ensures IsXor(x, c, d, n)
    decreases n
  {
    if n > 0 {
      XorShift(x, c, d);
      var x1, c1, d1 := ShiftedXor(x, c, d);
      XorIsXor(x1, c1, d1, n - 1);
      IsXorNext(x, c, d, n, x1, c1, d1);
    }
  }

  lemma {:induction false} BitsFromXor(x: bv16, c: bv16, d: bv16, n: nat)
    requires IsXor(x, c, d, n)
    ensures BitsFrom(x, n) == Xor(BitsFrom(c, n), BitsFrom(d, n))
    decreases n
  {
    if n > 0 {
      BitsFromXor(x >> 1, c >> 1, d >> 1, n - 1);
    }
  }

  lemma {:induction false} BitsFromSplit(v: bv16, m: nat, n: nat)
    ensures BitsFrom(v, m + n) == BitsFrom(v, m) + BitsFrom(Shr(v, m), n)
    ensures Shr(v, m + n) == Shr(Shr(v, m), n)
    decreases m
  {
    if m > 0 {
      BitsFromSplit(v >> 1, m - 1, n);
    }
  }

  lemma ShrFour(v: bv16)
    ensures Shr(v, 4) == v >> 4
  {
    assert Shr(v, 4) == Shr(v >> 1, 3) == Shr(v >> 1 >> 1, 2) == Shr(v >> 1 >> 1 >> 1, 1);
    assert Shr(v >> 1 >> 1 >> 1, 1) == v >> 1 >> 1 >> 1 >> 1;
  }

  lemma ShrEight(v: bv16)
    ensures Shr(v, 8) == v >> 8
  {
    BitsFromSplit(v, 4, 4);
    ShrFour(v);
    ShrFour(v >> 4);
  }

  lemma ShrSixteen(v: bv16)
    ensures Shr(v, 16) == 0
  {
    BitsFromSplit(v, 8, 8);
    ShrEight(v);
    ShrEight(v >> 8);
  }

  lemma {:induction false} BitsFromZero(n: nat)
    ensures BitsFrom(0, n) == Zeros(n)
  {
    if n > 0 {
      BitsFromZero(n - 1);
    }
  }

  /** The low n bits of c and d agree. */
  ghost predicate SameLow(c: bv16, d: bv16, n: nat)
    decreases n
  {
    n > 0 ==> (c & 1 != 0 <==> d & 1 != 0) && SameLow(c >> 1, d >> 1, n - 1)
  }

  lemma {:induction false} BitsFromSameLow(c: bv16, d: bv16, n: nat)
    requires BitsFrom(c, n) == BitsFrom(d, n)
    ensures SameLow(c, d, n)
    decreases n
  {
    if n > 0 {
      assert BitsFrom(c, n)[0] == BitsFrom(d, n)[0];
      assert BitsFrom(c, n)[1..] == BitsFrom(d, n)[1..];
      BitsFromSameLow(c >> 1, d >> 1, n - 1);
    }
  }

  lemma HalfZero(x: bv16)
    requires x >> 1 == 0 && !(x & 1 != 0)
    ensures x == 0
  {
  }

  lemma {:induction false} SameLowXorZero(x: bv16, c: bv16, d: bv16, n: nat)
    requires IsXor(x, c, d, n) && SameLow(c, d, n) && Shr(x, n) == 0
    ensures x == 0
    decreases n
  {
    if n > 0 {
      SameLowXorZero(x >> 1, c >> 1, d >> 1, n - 1);
      HalfZero(x);
    }
  }

  lemma XorZero(x: bv16, c: bv16, d: bv16)
    requires x == c ^ d && x == 0
    ensures c == d
  {
  }

  lemma WordBitsInjective(c: bv16, d: bv16)
    requires WordBits(c) == WordBits(d)
    ensures c == d
  {
    var x := c ^ d;
    XorIsXor(x, c, d, 16);
    BitsFromSameLow(c, d, 16);
    ShrSixteen(x);
    SameLowXorZero(x, c, d, 16);
    XorZero(x, c, d);
  }

  lemma ByteShifts(b: bv8)
    ensures (b as bv16) >> 8 == 0
  {
  }

  lemma WordBitsOfByte(b: bv8)
    ensures WordBits(b as bv16) == ByteBits(b) + Zeros(8)
  {
    var v := b as bv16;
    BitsFromSplit(v, 8, 8);
    ShrEight(v);
    ByteShifts(b);
    BitsFromZero(8);
  }

  lemma XorPrefixPadded(w: Word, g: Bits)
    requires |g| == 8
    ensures XorPrefix(w, g) == Xor(w, g + Zeros(8))
  {
  }

  lemma WordBitsXorByte(x: bv16, c: bv16, b: bv8)
    requires IsXor(x, c, b as bv16, 16)
    ensures WordBits(x) == XorPrefix(WordBits(c), ByteBits(b))
  {
    WordBitsOfByte(b);
    XorPrefixPadded(WordBits(c), ByteBits(b));
    BitsFromXor(x, c, b as bv16, 16);
  }

  ghost predicate LowZero(v: bv16, n: nat)
    decreases n
  {
    n > 0 ==> !(v & 1 != 0) && LowZero(v >> 1, n - 1)
  }

  lemma {:induction false} LowZeroBits(v: bv16, n: nat)
    requires LowZero(v, n)
    ensures BitsFrom(v, n) == Zeros(n)
    decreases n
  {
    if n > 0 {
      LowZeroBits(v >> 1, n - 1);
    }
  }

  lemma HighByteLowZero(hi: bv8)
    ensures LowZero((hi as bv16) << 8, 8)
    ensures ((hi as bv16) << 8) >> 8 == hi as bv16
  {
    var v := (hi as bv16) << 8;
    assert LowZero(v >> 1 >> 1 >> 1 >> 1, 4);
    assert LowZero(v, 4 + 4);
  }

  lemma CombineIsXor(lo: bv8, hi: bv8)
    ensures ((lo as bv16) | ((hi as bv16) << 8)) == ((hi as bv16) << 8) ^ (lo as bv16)
  {
  }

  lemma HighByteBits(hi: bv8)
    ensures WordBits((hi as bv16) << 8) == Zeros(8) + ByteBits(hi)
  {
    var v := (hi as bv16) << 8;
    HighByteLowZero(hi);
    LowZeroBits(v, 8);
    BitsFromSplit(v, 8, 8);
    ShrEight(v);
  }

  lemma CombinedBits(x: bv16, v: bv16, lo: bv8, high: Bits)
    requires IsXor(x, v, lo as bv16, 16) && |high| == 8 && WordBits(v) == Zeros(8) + high
    ensures WordBits(x) == ByteBits(lo) + high
  {
    WordBitsXorByte(x, v, lo);
  }

  /** The two CRC bytes, low byte first, put the word's bits on the line in order. */
  lemma WordBitsOfBytes(lo: bv8, hi: bv8)
    ensures WordBits((lo as bv16) | ((hi as bv16) << 8)) == ByteBits(lo) + ByteBits(hi)
  {
    var v, x := (hi as bv16) << 8, (lo as bv16) | ((hi as bv16) << 8);
    HighByteBits(hi);
    CombineIsXor(lo, hi);
    XorIsXor(x, v, lo as bv16, 16);
    CombinedBits(x, v, lo, ByteBits(hi));
  }

  lemma SplitCombine(crc: bv16)
    ensures (((crc & 0xFF) as bv8) as bv16) | ((((crc >> 8) & 0xFF) as bv8 as bv16) << 8) == crc
  {
  }

  /** The bits of a byte sequence in the order a UART transmits them. */
  function Stream(bytes: seq<bv8>): (bits: Bits)
    ensures |bits| == 8 * |bytes|
  {
    if bytes == [] then [] else ByteBits(bytes[0]) + Stream(bytes[1..])
  }

  lemma {:induction false} StreamAppend(a: seq<bv8>, b: seq<bv8>)
    ensures Stream(a + b) == Stream(a) + Stream(b)
  {
    if a == [] {
      assert a + b == b;
    } else {
      assert (a + b)[1..] == a[1..] + b;
      StreamAppend(a[1..], b);
    }
  }
}
