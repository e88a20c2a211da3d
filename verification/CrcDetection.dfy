/** What the check of src/ingress/modbus_serial.c detects, and what the checksum of
    src/ingress/modbus_rtu.c is: the remainder of a polynomial division over GF(2).

    A polynomial is written with its highest coefficient first, so bit 0 of the register is the
    coefficient of x^15 and the generator is x^16 + x^15 + x^2 + 1. */
module CrcDetection {
  import opened Bits
  import opened Crc16

  // ----- algebra of the register -----

  lemma FeedBitLinear(w: Word, v: Word, a: bool, b: bool)
    ensures FeedBit(Xor(w, v), a != b) == Xor(FeedBit(w, a), FeedBit(v, b))
  {
  }

  /** The checksum is affine over XOR: two streams through two registers XOR to the stream of the
      XORs. */
  lemma {:induction false} FeedLinear(w: Word, v: Word, a: Bits, b: Bits)
    requires |a| == |b|
    ensures Feed(Xor(w, v), Xor(a, b)) == Xor(Feed(w, a), Feed(v, b))
    decreases |a|
  {
    if a != [] {
      FeedBitLinear(w, v, a[0], b[0]);
      assert Xor(a, b)[1..] == Xor(a[1..], b[1..]);
      FeedLinear(FeedBit(w, a[0]), FeedBit(v, b[0]), a[1..], b[1..]);
    }
  }

  lemma FeedBitInjective(w: Word, v: Word, b: bool)
    requires FeedBit(w, b) == FeedBit(v, b)
    ensures w == v
  {
    assert FeedBit(w, b)[15] == (w[0] != b);
    assert FeedBit(v, b)[15] == (v[0] != b);
    forall i | 1 <= i < 16 ensures w[i] == v[i] {
      assert FeedBit(w, b)[i - 1] == FeedBit(v, b)[i - 1];
    }
  }

  /** The register step is invertible: no two registers are merged by the same bits. */
  lemma {:induction false} FeedInjective(w: Word, v: Word, bits: Bits)
    requires Feed(w, bits) == Feed(v, bits)
    ensures w == v
    decreases |bits|
  {
    if bits != [] {
      FeedInjective(FeedBit(w, bits[0]), FeedBit(v, bits[0]), bits[1..]);
      FeedBitInjective(w, v, bits[0]);
    }
  }

  /** Shifting a register's own low bits in clears them. */
  lemma {:induction false} FeedSelf(w: Word, n: nat)
    requires n <= 16
    ensures Feed(w, w[..n]) == w[n..] + Zeros(n)
    decreases n
  {
    if n > 0 {
      var r := FeedBit(w, w[0]);
      assert r == Shift(w);
      assert w[..n][1..] == r[..n - 1];
      FeedSelf(r, n - 1);
      assert r[n - 1..] == w[n..] + [false];
    }
  }

  lemma {:induction false} FeedZeros(n: nat)
    ensures Feed(Zeros(16), Zeros(n)) == Zeros(16)
    decreases n
  {
    if n > 0 {
      assert Zeros(n)[1..] == Zeros(n - 1);
      assert FeedBit(Zeros(16), false) == Zeros(16);
      FeedZeros(n - 1);
    }
  }

  /** A register is zeroed by exactly one pattern of sixteen bits: its own. */
  lemma FeedWordZero(w: Word, t: Bits)
    requires |t| == 16
    ensures Feed(w, t) == Zeros(16) <==> w == t
  {
    FeedSelf(t, 16);
    assert t[..16] == t;
    assert t[16..] + Zeros(16) == Zeros(16);
    if Feed(w, t) == Zeros(16) {
      FeedInjective(w, t, t);
    }
  }

  // ----- polynomial division -----

  /** The product of q and the generator, by shift and add. */
  function Times(q: Bits): (p: Bits)
    ensures |p| == |q| + 16
  {
    if q == [] then Zeros(16)
    else
      var tail := [false] + Times(q[1..]);
      if q[0] then XorPrefix(tail, [true] + GEN) else tail
  }

  /** One row of long division: subtract the generator when the leading coefficient is one. */
  function Reduce(p: Bits): (r: Bits)
    requires |p| > 16
    ensures |r| == |p| - 1
  {
    if p[0] then XorPrefix(p[1..], GEN) else p[1..]
  }

  function Remainder(p: Bits): Word
    requires |p| >= 16
    decreases |p|
  {
    if |p| == 16 then p else Remainder(Reduce(p))
  }

  function Quotient(p: Bits): (q: Bits)
    requires |p| >= 16
    ensures |q| == |p| - 16
    decreases |p|
  {
    if |p| == 16 then [] else [p[0]] + Quotient(Reduce(p))
  }

  /** p = q * generator + r with r of degree below 16. */
  ghost predicate Divides(p: Bits, q: Bits, r: Word)
  {
    |p| == |q| + 16 && p == Xor(Times(q), Zeros(|q|) + r)
  }

  lemma XorCons(a: bool, b: bool, p: Bits, q: Bits)
    requires |p| == |q|
    ensures Xor([a] + p, [b] + q) == [a != b] + Xor(p, q)
  {
  }

  lemma XorPrefixCons(a: bool, b: bool, p: Bits, g: Bits)
    requires |g| <= |p|
    ensures XorPrefix([a] + p, [b] + g) == [a != b] + XorPrefix(p, g)
  {
    assert ([a] + p)[..|[b] + g|] == [a] + p[..|g|];
    XorCons(a, b, p[..|g|], g);
  }

  lemma XorPrefixXor(p: Bits, q: Bits, g: Bits)
    requires |g| <= |p| == |q|
    ensures Xor(XorPrefix(p, g), q) == XorPrefix(Xor(p, q), g)
  {
  }

  lemma XorPrefixTwice(p: Bits, g: Bits)
    requires |g| <= |p|
    ensures XorPrefix(XorPrefix(p, g), g) == p
  {
  }

  /** p with the generator added when the coefficient in front of it is one. */
  function Row(lead: bool, p: Bits): (r: Bits)
    requires |p| >= 16
    ensures |r| == |p|
  {
    if lead then XorPrefix(p, GEN) else p
  }

  lemma TimesHead(q: Bits, low: Bits, product: Bits)
    requires q != [] && low == Times(q[1..]) && product == Times(q)
    ensures product == [q[0]] + Row(q[0], low)
  {
    XorPrefixCons(false, true, low, GEN);
  }

  lemma SumRow(lead: bool, low: Bits, z: Bits, product: Bits, rest: Bits)
    requires |low| == |z| >= 16
    requires product == [lead] + Row(lead, low) && rest == [false] + z
    ensures Xor(product, rest) == [lead] + Row(lead, Xor(low, z))
  {
    XorCons(lead, false, Row(lead, low), z);
    XorPrefixXor(low, z, GEN);
  }

  lemma ZerosHead(n: nat, r: Bits, z: Bits, rest: Bits)
    requires n > 0 && z == Zeros(n - 1) + r && rest == Zeros(n) + r
    ensures rest == [false] + z
  {
  }

  /** q * generator + r, by its leading coefficient and the rest. */
  lemma SumHead(q: Bits, r: Word, low: Bits, z: Bits, product: Bits, rest: Bits)
    requires q != [] && low == Times(q[1..]) && z == Zeros(|q| - 1) + r
    requires product == Times(q) && rest == Zeros(|q|) + r
    ensures |product| == |rest| && |low| == |z| >= 16
    ensures Xor(product, rest) == [q[0]] + Row(q[0], Xor(low, z))
  {
    TimesHead(q, low, product);
    ZerosHead(|q|, r, z, rest);
    SumRow(q[0], low, z, product, rest);
  }

  lemma ReduceCons(b: bool, y: Bits)
    requires |y| >= 16
    ensures Reduce([b] + Row(b, y)) == y
  {
    assert ([b] + Row(b, y))[1..] == Row(b, y);
    XorPrefixTwice(y, GEN);
  }

  lemma ReduceSplit(p: Bits)
    requires |p| > 16
    ensures p == [p[0]] + Row(p[0], Reduce(p))
  {
    assert p == [p[0]] + p[1..];
    XorPrefixTwice(p[1..], GEN);
  }

  /** One row of long division: the leading coefficients agree and the rest divides the rest. */
  lemma DivisionRow(p: Bits, q: Bits, r: Word)
    requires q != [] && |p| == |q| + 16
    ensures Divides(p, q, r) <==> p[0] == q[0] && Divides(Reduce(p), q[1..], r)
  {
    var low, z := Times(q[1..]), Zeros(|q| - 1) + r;
    SumHead(q, r, low, z, Times(q), Zeros(|q|) + r);
    ReduceCons(q[0], Xor(low, z));
    ReduceSplit(p);
  }

  lemma {:induction false} DivisionExists(p: Bits)
    requires |p| >= 16
    ensures Divides(p, Quotient(p), Remainder(p))
    decreases |p|
  {
    if |p| == 16 {
      assert Xor(Times([]), Zeros(0) + p) == p;
    } else {
      DivisionExists(Reduce(p));
      assert Quotient(p)[1..] == Quotient(Reduce(p));
      DivisionRow(p, Quotient(p), Remainder(p));
    }
  }

  lemma {:induction false} DivisionUnique(p: Bits, q: Bits, r: Word)
    requires Divides(p, q, r)
    ensures q == Quotient(p) && r == Remainder(p)
    decreases |p|
  {
    if q == [] {
      assert Xor(Times([]), Zeros(0) + r) == r;
    } else {
      DivisionRow(p, q, r);
      DivisionUnique(Reduce(p), q[1..], r);
      assert q == [q[0]] + q[1..];
    }
  }

  /** The register holds the running remainder: feeding bits is long division of the bits with
      the register XORed into their front. */
  lemma {:induction false} FeedIsDivision(w: Word, bits: Bits, t: Bits)
    requires |t| == 16
    ensures Remainder(XorPrefix(bits + t, w)) == Xor(Feed(w, bits), t)
    decreases |bits|
  {
    var p := XorPrefix(bits + t, w);
    if bits == [] {
      assert bits + t == t;
    } else {
      var rest := bits[1..] + t;
      assert (bits + t)[1..] == rest;
      assert p[1..] == XorPrefix(rest, Shift(w));
      assert XorPrefix(XorPrefix(rest, Shift(w)), GEN) == XorPrefix(rest, Xor(Shift(w), GEN));
      FeedIsDivision(FeedBit(w, bits[0]), bits[1..], t);
    }
  }

  /** modbus_crc16 is the remainder of the message polynomial times x^16, with the preset XORed
      into its first sixteen coefficients, modulo x^16 + x^15 + x^2 + 1; no other word is. */
  lemma ChecksumIsRemainder(bytes: seq<bv8>)
    ensures var dividend := XorPrefix(Stream(bytes) + Zeros(16), PRESET);
            && Divides(dividend, Quotient(dividend), Checksum(bytes))
            && forall q: Bits, r: Word :: Divides(dividend, q, r) ==> r == Checksum(bytes)
  {
    var dividend := XorPrefix(Stream(bytes) + Zeros(16), PRESET);
    FeedIsDivision(PRESET, Stream(bytes), Zeros(16));
    assert Remainder(dividend) == Checksum(bytes);
    DivisionExists(dividend);
    forall q: Bits, r: Word | Divides(dividend, q, r) ensures r == Checksum(bytes) {
      DivisionUnique(dividend, q, r);
    }
  }

  // ----- the receiver's check -----

  /** The comparison of modbus_serial_exchange: the CRC of all but two bytes against the last
      two, low byte first. */
  predicate Accepts(frame: seq<bv8>)
    requires |frame| >= 2
  {
    var n := |frame|;
    Checksum(frame[..n - 2]) == ByteBits(frame[n - 2]) + ByteBits(frame[n - 1])
  }

  lemma StreamTwo(a: bv8, b: bv8)
    ensures Stream([a, b]) == ByteBits(a) + ByteBits(b)
  {
    assert [a, b][1..] == [b];
    assert Stream([b]) == ByteBits(b) + Stream([]);
  }

  /** A frame passes the check exactly when the register ends at zero over the whole frame. */
  lemma AcceptsIffZeroResidue(frame: seq<bv8>)
    requires |frame| >= 2
    ensures Accepts(frame) <==> Checksum(frame) == Zeros(16)
  {
    var n := |frame|;
    var data, lo, hi := frame[..n - 2], frame[n - 2], frame[n - 1];
    assert frame == data + [lo, hi];
    StreamAppend(data, [lo, hi]);
    StreamTwo(lo, hi);
    FeedAppend(PRESET, Stream(data), ByteBits(lo) + ByteBits(hi));
    FeedWordZero(Checksum(data), ByteBits(lo) + ByteBits(hi));
  }

  /** Appending the CRC as the sender does, low byte first, always yields an accepted frame. */
  lemma SealedFrameAccepted(data: seq<bv8>, crc: bv16)
    requires WordBits(crc) == Checksum(data)
    ensures Accepts(data + [(crc & 0xFF) as bv8, ((crc >> 8) & 0xFF) as bv8])
  {
    var lo, hi := (crc & 0xFF) as bv8, ((crc >> 8) & 0xFF) as bv8;
    var frame := data + [lo, hi];
    SplitCombine(crc);
    WordBitsOfBytes(lo, hi);
    assert frame[..|frame| - 2] == data;
  }

  // ----- errors -----

  /** The bits that differ between what was sent and what was received, in line order. */
  function Flips(sent: seq<bv8>, received: seq<bv8>): (e: Bits)
    requires |sent| == |received|
    ensures |e| == 8 * |sent|
  {
    Xor(Stream(sent), Stream(received))
  }

  /** The residue of a received frame is that of the flipped bits alone. */
  lemma AcceptedIffFlipsVanish(sent: seq<bv8>, received: seq<bv8>)
    requires |sent| == |received| >= 2 && Accepts(sent)
    ensures Accepts(received) <==> Feed(Zeros(16), Flips(sent, received)) == Zeros(16)
  {
    AcceptsIffZeroResidue(sent);
    AcceptsIffZeroResidue(received);
    FeedLinear(PRESET, PRESET, Stream(sent), Stream(received));
    assert Xor(PRESET, PRESET) == Zeros(16);
    assert Xor(Zeros(16), Checksum(received)) == Checksum(received);
  }

  lemma XorZeroIffEqual(a: Bits, b: Bits)
    requires |a| == |b|
    ensures Xor(a, b) == Zeros(|a|) <==> a == b
  {
    if Xor(a, b) == Zeros(|a|) {
      forall i | 0 <= i < |a| ensures a[i] == b[i] {
        assert !Xor(a, b)[i];
      }
    }
  }

  lemma FeedZeroIffNoRemainder(a: Bits, t: Bits)
    requires |t| == 16
    ensures Feed(Zeros(16), a + t) == Zeros(16) <==> Remainder(a + t) == Zeros(16)
  {
    var w := Feed(Zeros(16), a);
    FeedAppend(Zeros(16), a, t);
    FeedWordZero(w, t);
    FeedIsDivision(Zeros(16), a, t);
    assert XorPrefix(a + t, Zeros(16)) == a + t;
    XorZeroIffEqual(w, t);
  }

  lemma MultipleIffNoRemainder(p: Bits)
    requires |p| >= 16
    ensures Remainder(p) == Zeros(16) <==> exists q: Bits :: p == Times(q)
  {
    DivisionExists(p);
    if Remainder(p) == Zeros(16) {
      assert p == Times(Quotient(p));
    }
    if q: Bits :| p == Times(q) {
      assert p == Xor(Times(q), Zeros(|q|) + Zeros(16));
      DivisionUnique(p, q, Zeros(16));
    }
  }

  /** Which errors go unseen, exactly: a received frame passes the check if and only if the
      flipped bits are a multiple of the generator polynomial. */
  lemma UndetectedIffMultiple(sent: seq<bv8>, received: seq<bv8>)
    requires |sent| == |received| >= 2 && Accepts(sent)
    ensures Accepts(received) <==> exists q: Bits :: Flips(sent, received) == Times(q)
  {
    AcceptedIffFlipsVanish(sent, received);
    var e := Flips(sent, received);
    assert e == e[..|e| - 16] + e[|e| - 16..];
    FeedZeroIffNoRemainder(e[..|e| - 16], e[|e| - 16..]);
    MultipleIffNoRemainder(e);
  }

  /** A short nonzero pattern leaves the cleared register nonzero. */
  lemma ShortPatternSurvives(window: Bits, hit: nat)
    requires hit < |window| <= 16 && window[hit]
    ensures Feed(Zeros(16), window) != Zeros(16)
  {
    var w: Word := window + Zeros(16 - |window|);
    FeedSelf(w, |window|);
    assert w[..|window|] == window;
    assert w[|window|..] + Zeros(|window|) == Zeros(16);
    if Feed(Zeros(16), window) == Zeros(16) {
      FeedInjective(w, Zeros(16), window);
      assert false;
    }
  }

  lemma PaddingIrrelevant(start: nat, window: Bits, rest: nat)
    ensures Feed(Zeros(16), Zeros(start) + window + Zeros(rest)) == Zeros(16)
       <==> Feed(Zeros(16), window) == Zeros(16)
  {
    FeedAppend(Zeros(16), Zeros(start) + window, Zeros(rest));
    FeedAppend(Zeros(16), Zeros(start), window);
    FeedZeros(start);
    FeedZeros(rest);
    if Feed(Feed(Zeros(16), window), Zeros(rest)) == Zeros(16) {
      FeedInjective(Feed(Zeros(16), window), Zeros(16), Zeros(rest));
    }
  }

  /** A bit string with its ones confined to [start, stop) is that window between zeros. */
  lemma WindowSplit(e: Bits, start: nat, stop: nat)
    requires start <= stop <= |e|
    requires forall i :: 0 <= i < |e| && e[i] ==> start <= i < stop
    ensures e == Zeros(start) + e[start..stop] + Zeros(|e| - stop)
  {
  }

  lemma PaddedPatternSurvives(start: nat, window: Bits, rest: nat, hit: nat)
    requires hit < |window| <= 16 && window[hit]
    ensures Feed(Zeros(16), Zeros(start) + window + Zeros(rest)) != Zeros(16)
  {
    ShortPatternSurvives(window, hit);
    PaddingIrrelevant(start, window, rest);
  }

  lemma BurstSurvives(e: Bits, start: nat, stop: nat, hit: nat)
    requires start <= hit < stop <= |e| && stop - start <= 16 && e[hit]
    requires e == Zeros(start) + e[start..stop] + Zeros(|e| - stop)
    ensures Feed(Zeros(16), e) != Zeros(16)
  {
    PaddedPatternSurvives(start, e[start..stop], |e| - stop, hit - start);
  }

  /** Some bits, all of them within sixteen consecutive ones. */
  ghost predicate Burst(e: Bits, start: nat)
  {
    && (exists i :: 0 <= i < |e| && e[i])
    && forall i :: 0 <= i < |e| && e[i] ==> start <= i < start + 16
  }

  lemma BurstLeavesResidue(e: Bits, start: nat)
    requires Burst(e, start)
    ensures Feed(Zeros(16), e) != Zeros(16)
  {
    var hit :| 0 <= hit < |e| && e[hit];
    var stop := if start + 16 <= |e| then start + 16 else |e|;
    WindowSplit(e, start, stop);
    BurstSurvives(e, start, stop, hit);
  }

  /** Every burst is caught: a received frame that differs from the sent one, but only within
      sixteen consecutive transmitted bits, is rejected. */
  lemma BurstDetected(sent: seq<bv8>, received: seq<bv8>, start: nat)
    requires |sent| == |received| >= 2
    ensures Accepts(sent) && Burst(Flips(sent, received), start) ==> !Accepts(received)
  {
    if Accepts(sent) && Burst(Flips(sent, received), start) {
      AcceptedIffFlipsVanish(sent, received);
      BurstLeavesResidue(Flips(sent, received), start);
    }
  }

  lemma FeedOne()
    ensures Feed(Zeros(16), [true]) == GEN
  {
    assert Shift(Zeros(16)) == Zeros(16);
    assert Xor(Zeros(16), GEN) == GEN;
    assert [true][1..] == [];
  }

  lemma GeneratorVanishes()
    ensures Feed(Zeros(16), [true] + GEN) == Zeros(16)
  {
    FeedAppend(Zeros(16), [true], GEN);
    FeedOne();
    FeedWordZero(GEN, GEN);
  }

  /** Sixteen is the limit: the generator itself, a burst of seventeen bits, vanishes wherever
      it falls in the frame. */
  lemma SeventeenBitBurstVanishes(sent: seq<bv8>, received: seq<bv8>, start: nat, rest: nat)
    requires |sent| == |received| >= 2 && Accepts(sent)
    requires Flips(sent, received) == Zeros(start) + ([true] + GEN) + Zeros(rest)
    ensures Accepts(received)
  {
    AcceptedIffFlipsVanish(sent, received);
    GeneratorVanishes();
    PaddingIrrelevant(start, [true] + GEN, rest);
  }

  // ----- parity -----

  function Ones(bits: Bits): nat
  {
    if bits == [] then 0 else (if bits[0] then 1 else 0) + Ones(bits[1..])
  }

  function Odd(bits: Bits): bool
  {
    if bits == [] then false else bits[0] != Odd(bits[1..])
  }

  lemma {:induction false} OddCounts(bits: Bits)
    ensures Odd(bits) <==> Ones(bits) % 2 == 1
  {
    if bits != [] { OddCounts(bits[1..]); }
  }

  lemma {:induction false} OddAppend(a: Bits, b: Bits)
    ensures Odd(a + b) == (Odd(a) != Odd(b))
  {
    if a == [] {
      assert a + b == b;
    } else {
      assert (a + b)[1..] == a[1..] + b;
      OddAppend(a[1..], b);
    }
  }

  lemma {:induction false} OddXor(a: Bits, b: Bits)
    requires |a| == |b|
    ensures Odd(Xor(a, b)) == (Odd(a) != Odd(b))
  {
    if a != [] {
      assert Xor(a, b)[1..] == Xor(a[1..], b[1..]);
      OddXor(a[1..], b[1..]);
    }
  }

  lemma {:induction false} OddZeros(n: nat)
    ensures !Odd(Zeros(n))
  {
    if n > 0 {
      assert Zeros(n)[1..] == Zeros(n - 1);
      OddZeros(n - 1);
    }
  }

  lemma OddOne(b: bool)
    ensures Odd([b]) == b
  {
    assert [b][1..] == [];
  }

  lemma OddGen()
    ensures Odd(GEN)
  {
    var mid := Zeros(12);
    assert GEN == [true] + mid + [true] + [false] + [true];
    OddOne(true);
    OddOne(false);
    OddZeros(12);
    OddAppend([true], mid);
    OddAppend([true] + mid, [true]);
    OddAppend([true] + mid + [true], [false]);
    OddAppend([true] + mid + [true] + [false], [true]);
  }

  /** The bit step preserves parity, so the register's parity follows the parity of the bits. */
  lemma {:induction false} FeedParity(w: Word, bits: Bits)
    ensures Odd(Feed(w, bits)) == (Odd(w) != Odd(bits))
    decreases |bits|
  {
    if bits != [] {
      OddAppend(w[1..], [false]);
      OddOne(false);
      OddXor(Shift(w), GEN);
      OddGen();
      FeedParity(FeedBit(w, bits[0]), bits[1..]);
    }
  }

  lemma OddPreset()
    ensures !Odd(PRESET)
  {
    var h := [true, true, true, true, true, true, true, true];
    assert PRESET == h + h;
    OddAppend(h, h);
  }

  /** The number of ones in a message and in its CRC have the same parity. */
  lemma ChecksumParity(bytes: seq<bv8>)
    ensures Ones(Checksum(bytes)) % 2 == Ones(Stream(bytes)) % 2
  {
    FeedParity(PRESET, Stream(bytes));
    OddCounts(Checksum(bytes));
    OddCounts(Stream(bytes));
    OddPreset();
  }

  lemma OddLeavesResidue(e: Bits)
    requires Ones(e) % 2 == 1
    ensures Feed(Zeros(16), e) != Zeros(16)
  {
    OddCounts(e);
    FeedParity(Zeros(16), e);
    OddZeros(16);
  }

  /** Any odd number of flipped bits anywhere in the frame is caught. */
  lemma OddErrorsDetected(sent: seq<bv8>, received: seq<bv8>)
    requires |sent| == |received| >= 2
    ensures Accepts(sent) && Ones(Flips(sent, received)) % 2 == 1 ==> !Accepts(received)
  {
    if Accepts(sent) && Ones(Flips(sent, received)) % 2 == 1 {
      AcceptedIffFlipsVanish(sent, received);
      OddLeavesResidue(Flips(sent, received));
    }
  }
}
