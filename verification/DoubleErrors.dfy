/** Two flipped bits and the checksum of src/ingress/modbus_rtu.c. The generator is (x + 1) times
    the trinomial x^15 + x + 1, and the order of x modulo it is 32767: so two flipped bits go unseen
    exactly when they are a multiple of 32767 bits apart, which no frame below 4096 bytes allows. */
module DoubleErrors {
  import opened Bits
  import opened Crc16
  import opened CrcDetection
  import opened Modular

  const ORDER: nat := 32767

  /** The polynomial 1. */
  const ONE: Word := [false, false, false, false, false, false, false, false,
                      false, false, false, false, false, false, false, true]

  /** x to the k, modulo the generator. */
  function Power(k: nat): Word { if k == 0 then ONE else Step(Power(k - 1)) }

  // ----- the register step -----

  lemma StepIsFeed(w: Word)
    ensures Step(w) == FeedBit(w, false)
  {
  }

  lemma StepLinear(w: Word, v: Word)
    ensures Step(Xor(w, v)) == Xor(Step(w), Step(v))
  {
    FeedBitLinear(w, v, false, false);
  }

  lemma StepInjective(w: Word, v: Word)
    requires Step(w) == Step(v)
    ensures w == v
  {
    FeedBitInjective(w, v, false);
  }

  lemma StepParity(w: Word)
    ensures Odd(Step(w)) == Odd(w)
  {
    StepIsFeed(w);
    FeedParity(w, [false]);
    OddOne(false);
    assert [false][1..] == [];
    assert Feed(w, [false]) == Feed(FeedBit(w, false), []);
  }

  lemma {:induction false} PowerCancel(k: nat, n: nat)
    ensures Power(k + n) == Power(n) <==> Power(k) == ONE
  {
    if n > 0 {
      PowerCancel(k, n - 1);
      if Power(k + n) == Power(n) { StepInjective(Power(k + n - 1), Power(n - 1)); }
    }
  }

  lemma {:induction false} PowerOdd(k: nat)
    ensures Odd(Power(k))
  {
    if k == 0 {
      assert ONE == Zeros(15) + [true];
      OddZeros(15);
      OddOne(true);
      OddAppend(Zeros(15), [true]);
    } else {
      PowerOdd(k - 1);
      StepParity(Power(k - 1));
    }
  }

  /** Below the degree of the generator a power is a single coefficient. */
  lemma {:induction false} PowerUnit(k: nat)
    requires k <= 15
    ensures Power(k) == Zeros(15 - k) + [true] + Zeros(k)
  {
    if k == 0 {
      assert ONE == Zeros(15) + [true] + Zeros(0);
    } else {
      PowerUnit(k - 1);
      var w := Power(k - 1);
      assert w[1..] == Zeros(15 - k) + [true] + Zeros(k - 1);
      assert Zeros(k - 1) + [false] == Zeros(k);
    }
  }

  lemma PowerSixteen(k: nat)
    requires k == 16
    ensures Power(k) == GEN
  {
    PowerUnit(k - 1);
    assert Power(k - 1) == [true] + Zeros(15);
    assert Shift(Power(k - 1)) == Zeros(16);
    assert Xor(Zeros(16), GEN) == GEN;
  }

  lemma ReducesAtOne(p: Word, a: Word, b: Word, c: Word)
    requires p == GEN && a == Zeros(0) + [true] + Zeros(15)
    requires b == Zeros(13) + [true] + Zeros(2) && c == Zeros(15) + [true] + Zeros(0)
    ensures p == Xor(a, Xor(b, c))
  {
  }

  lemma ReducesNext(p: Word, a: Word, b: Word, c: Word, p': Word, a': Word, b': Word, c': Word)
    requires p == Xor(a, Xor(b, c))
    requires p' == Step(p) && a' == Step(a) && b' == Step(b) && c' == Step(c)
    ensures p' == Xor(a', Xor(b', c'))
  {
    StepLinear(a, Xor(b, c));
    StepLinear(b, c);
  }

  /** The four powers starting at j, 2 + j, 15 + j and 16 + j. */
  ghost predicate ReducesAt(j: nat, k2: nat, k15: nat, k16: nat)
  {
    Power(k16) == Xor(Power(k15), Xor(Power(k2), Power(j)))
  }

  lemma ReducesAtZero(j: nat, k2: nat, k15: nat, k16: nat)
    requires j == 0 && k2 == 2 && k15 == 15 && k16 == 16
    ensures ReducesAt(j, k2, k15, k16)
  {
    PowerSixteen(k16);
    PowerUnit(k15);
    PowerUnit(k2);
    PowerUnit(j);
    ReducesAtOne(Power(k16), Power(k15), Power(k2), Power(j));
  }

  lemma ReducesAtNext(j: nat, k2: nat, k15: nat, k16: nat)
    requires ReducesAt(j, k2, k15, k16)
    ensures ReducesAt(j + 1, k2 + 1, k15 + 1, k16 + 1)
  {
    ReducesNext(Power(k16), Power(k15), Power(k2), Power(j),
                Power(k16 + 1), Power(k15 + 1), Power(k2 + 1), Power(j + 1));
  }

  /** x^16 = x^15 + x^2 + 1, at every power. */
  lemma {:induction false} PowerReduces(j: nat, k2: nat, k15: nat, k16: nat)
    requires k2 == j + 2 && k15 == j + 15 && k16 == j + 16
    ensures ReducesAt(j, k2, k15, k16)
    decreases j
  {
    if j == 0 {
      ReducesAtZero(j, k2, k15, k16);
    } else {
      PowerReduces(j - 1, k2 - 1, k15 - 1, k16 - 1);
      ReducesAtNext(j - 1, k2 - 1, k15 - 1, k16 - 1);
    }
  }

  // ----- multiples of x + 1 -----

  /** Coefficient b of (x + 1) * x^k. */
  function Coefficient(k: nat, b: nat): bool
    requires b < 16
  {
    Power(k + 1)[b] != Power(k)[b]
  }

  /** On multiples of x + 1 the trinomial already vanishes: x^16 = x^2 + x. */
  lemma Trinomial(j: nat, b: nat)
    requires b < 16
    ensures Coefficient(16 + j, b) == (Coefficient(2 + j, b) != Coefficient(1 + j, b))
  {
    PowerReduces(j, 2 + j, 15 + j, 16 + j);
    PowerReduces(j + 1, 3 + j, 16 + j, 17 + j);
    assert Power(17 + j)[b] == (Power(16 + j)[b] != (Power(3 + j)[b] != Power(j + 1)[b]));
  }

  function Two(n: nat): nat { if n == 0 then 1 else 2 * Two(n - 1) }

  /** The relation x^top = x^mid + x^low, on multiples of x + 1. */
  ghost predicate Sums(top: nat, mid: nat, low: nat, b: nat)
    requires b < 16
  {
    Coefficient(top, b) == (Coefficient(mid, b) != Coefficient(low, b))
  }

  lemma SumsCancel(top: nat, u: nat, v: nat, mid: nat, w: nat, low: nat, b: nat)
    requires b < 16 && Sums(top, u, v, b) && Sums(u, mid, w, b) && Sums(v, w, low, b)
    ensures Sums(top, mid, low, b)
  {
  }

  lemma TwoNext(n: nat, m: nat) returns (h: nat)
    requires n > 0 && m == Two(n)
    ensures h == Two(n - 1) && m == 2 * h
  {
    h := Two(n - 1);
  }

  lemma SumsAtOne(j: nat, top: nat, mid: nat, low: nat, b: nat)
    requires b < 16 && top == 16 + j && mid == 2 + j && low == 1 + j
    ensures Sums(top, mid, low, b)
  {
    Trinomial(j, b);
  }

  /** Squaring it n times: x^(16 * 2^n) = x^(2 * 2^n) + x^(2^n). */
  lemma {:induction false} Frobenius(n: nat, m: nat, j: nat, top: nat, mid: nat, low: nat, b: nat)
    requires b < 16 && m == Two(n) && top == 16 * m + j && mid == 2 * m + j && low == m + j
    ensures Sums(top, mid, low, b)
    decreases n
  {
    if n == 0 {
      SumsAtOne(j, top, mid, low, b);
    } else {
      var h := TwoNext(n, m);
      var u, v, w := 18 * h + j, 17 * h + j, 3 * h + j;
      Frobenius(n - 1, h, 16 * h + j, top, u, v, b);
      Frobenius(n - 1, h, 2 * h + j, u, mid, w, b);
      Frobenius(n - 1, h, h + j, v, w, low, b);
      SumsCancel(top, u, v, mid, w, low, b);
    }
  }

  /** So every power x^(2^n) is a sum of x, x^2, x^4 and x^8, and x^(2^15) is x again. */
  lemma Conjugate5(j: nat, b: nat)
    requires b < 16
    ensures Coefficient(32 + j, b) == (Coefficient(4 + j, b) != Coefficient(2 + j, b))
  {
    Frobenius(1, 2, j, 32 + j, 4 + j, 2 + j, b);
  }

  lemma Conjugate6(j: nat, b: nat)
    requires b < 16
    ensures Coefficient(64 + j, b) == (Coefficient(8 + j, b) != Coefficient(4 + j, b))
  {
    Frobenius(2, 4, j, 64 + j, 8 + j, 4 + j, b);
  }

  lemma Conjugate7(j: nat, b: nat)
    requires b < 16
    ensures Coefficient(128 + j, b) == (Coefficient(8 + j, b) != (Coefficient(2 + j, b) != Coefficient(1 + j, b)))
  {
    Frobenius(3, 8, j, 128 + j, 16 + j, 8 + j, b);
    Trinomial(j, b);
  }

  lemma Conjugate8(j: nat, b: nat)
    requires b < 16
    ensures Coefficient(256 + j, b) == (Coefficient(4 + j, b) != Coefficient(1 + j, b))
  {
    Frobenius(4, 16, j, 256 + j, 32 + j, 16 + j, b);
    Conjugate5(j, b);
    Trinomial(j, b);
  }

  lemma Conjugate9(j: nat, b: nat)
    requires b < 16
    ensures Coefficient(512 + j, b) == (Coefficient(8 + j, b) != Coefficient(2 + j, b))
  {
    Frobenius(5, 32, j, 512 + j, 64 + j, 32 + j, b);
    Conjugate6(j, b);
    Conjugate5(j, b);
  }

  lemma Conjugate10(j: nat, b: nat)
    requires b < 16
    ensures Coefficient(1024 + j, b) == (Coefficient(4 + j, b) != (Coefficient(2 + j, b) != Coefficient(1 + j, b)))
  {
    Frobenius(6, 64, j, 1024 + j, 128 + j, 64 + j, b);
    Conjugate7(j, b);
    Conjugate6(j, b);
  }

  lemma Conjugate11(j: nat, b: nat)
    requires b < 16
    ensures Coefficient(2048 + j, b) == (Coefficient(8 + j, b) != (Coefficient(4 + j, b) != Coefficient(2 + j, b)))
  {
    Frobenius(7, 128, j, 2048 + j, 256 + j, 128 + j, b);
    Conjugate8(j, b);
    Conjugate7(j, b);
  }

  lemma Conjugate12(j: nat, b: nat)
    requires b < 16
    ensures Coefficient(4096 + j, b) ==
              (Coefficient(8 + j, b) != (Coefficient(4 + j, b) != (Coefficient(2 + j, b) != Coefficient(1 + j, b))))
  {
    Frobenius(8, 256, j, 4096 + j, 512 + j, 256 + j, b);
    Conjugate9(j, b);
    Conjugate8(j, b);
  }

  lemma Conjugate15(j: nat, b: nat)
    requires b < 16
    ensures Coefficient(32768 + j, b) == Coefficient(1 + j, b)
  {
    Frobenius(11, 2048, j, 32768 + j, 4096 + j, 2048 + j, b);
    Conjugate12(j, b);
    Conjugate11(j, b);
  }

  // ----- the order of x -----

  /** A register that a turn leaves alone is empty or the trinomial, whose parity is odd. */
  lemma FixedPoint(w: Word)
    requires Step(w) == w
    ensures w[0] ==> w == [true] + Zeros(13) + [true] + [true]
    ensures !w[0] ==> w == Zeros(16)
  {
    assert w[15] == w[0] && w[14] == w[15] && w[13] == (w[14] != w[0]);
    assert w[12] == w[13] && w[11] == w[12] && w[10] == w[11] && w[9] == w[10] && w[8] == w[9] && w[7] == w[8];
    assert w[6] == w[7] && w[5] == w[6] && w[4] == w[5] && w[3] == w[4] && w[2] == w[3] && w[1] == w[2];
  }

  lemma TrinomialOdd()
    ensures Odd([true] + Zeros(13) + [true] + [true])
  {
    OddZeros(13);
    OddOne(true);
    OddAppend([true], Zeros(13));
    OddAppend([true] + Zeros(13), [true]);
    OddAppend([true] + Zeros(13) + [true], [true]);
  }

  lemma EvenFixedPoint(w: Word)
    requires Step(w) == w && !Odd(w)
    ensures w == Zeros(16)
  {
    FixedPoint(w);
    TrinomialOdd();
  }

  lemma SameBits(w: Word, v: Word)
    requires forall b :: 0 <= b < 16 ==> w[b] == v[b]
    ensures w == v
  {
  }

  lemma PowersMeet(n: nat)
    requires forall b | 0 <= b < 16 :: Coefficient(n, b) == Coefficient(1, b)
    ensures Power(n) == Power(1)
  {
    var w := Xor(Power(n), Power(1));
    StepLinear(Power(n), Power(1));
    forall b | 0 <= b < 16 ensures Step(w)[b] == w[b] {
      assert Coefficient(n, b) == Coefficient(1, b);
    }
    SameBits(Step(w), w);
    PowerOdd(n);
    PowerOdd(1);
    OddXor(Power(n), Power(1));
    EvenFixedPoint(w);
    XorZeroIffEqual(Power(n), Power(1));
  }

  lemma PowerReturns(order: nat)
    requires order == ORDER
    ensures Power(order) == ONE
  {
    var j := order - 32767;
    forall b | 0 <= b < 16 ensures Coefficient(order + 1, b) == Coefficient(1, b) {
      Conjugate15(j, b);
    }
    PowersMeet(order + 1);
    PowerCancel(order, 1);
  }

  // ----- it is not a proper divisor -----

  lemma SmallCoefficient(k: nat, b: nat)
    requires k <= 14 && b < 16
    ensures Coefficient(k, b) <==> b == 14 - k || b == 15 - k
  {
    PowerUnit(k);
    PowerUnit(k + 1);
  }

  lemma SmallCoefficients(b: nat)
    requires b < 16
    ensures forall k :: 0 <= k <= 14 ==> (Coefficient(k, b) <==> b == 14 - k || b == 15 - k)
  {
    forall k | 0 <= k <= 14 ensures Coefficient(k, b) <==> b == 14 - k || b == 15 - k {
      SmallCoefficient(k, b);
    }
  }

  lemma ReturnMeans(k: nat, z: nat, b: nat)
    requires b < 16 && z == 0
    ensures Power(k) == ONE ==> Coefficient(k, b) == Coefficient(z, b)
  {
  }

  /** The coefficient of x^10 in (x + 1) * x^1057 is one. */
  lemma NoReturnAt1057(z: nat)
    requires z == 0
    ensures Power(1057 + z) != ONE
  {
    Conjugate10(33 + z, 5);
    Conjugate5(5 + z, 5);
    Conjugate5(3 + z, 5);
    Conjugate5(2 + z, 5);
    SmallCoefficients(5);
    ReturnMeans(1057 + z, z, 5);
  }

  lemma CoefficientFifteen(k: nat, b: nat)
    requires k == 15 && b == 1
    ensures !Coefficient(k, b)
  {
    PowerSixteen(k + 1);
    PowerUnit(k);
    assert !GEN[b] && !(Zeros(0) + [true] + Zeros(15))[b];
  }

  /** The coefficient of x^14 in (x + 1) * x^217 is one. */
  lemma NoReturnAt217(z: nat)
    requires z == 0
    ensures Power(217 + z) != ONE
  {
    Conjugate7(89 + z, 1);
    Conjugate6(33 + z, 1);
    Conjugate6(27 + z, 1);
    Conjugate6(26 + z, 1);
    Conjugate5(9 + z, 1);
    Conjugate5(5 + z, 1);
    Conjugate5(3 + z, 1);
    Conjugate5(2 + z, 1);
    Trinomial(15 + z, 1);
    Trinomial(14 + z, 1);
    Trinomial(1 + z, 1);
    Trinomial(z, 1);
    CoefficientFifteen(15 + z, 1);
    SmallCoefficients(1);
    ReturnMeans(217 + z, z, 1);
  }

  /** Coefficient 2, that of x^13, where the trinomial is needed once. */
  lemma MiddleCoefficient(k: nat)
    requires 16 <= k <= 28
    ensures Coefficient(k, 2) <==> k == 26 || k == 28
  {
    Trinomial(k - 16, 2);
    SmallCoefficient(k - 14, 2);
    SmallCoefficient(k - 15, 2);
  }

  lemma MiddleCoefficients()
    ensures forall k :: 16 <= k <= 28 ==> (Coefficient(k, 2) <==> k == 26 || k == 28)
  {
    forall k | 16 <= k <= 28 ensures Coefficient(k, 2) <==> k == 26 || k == 28 {
      MiddleCoefficient(k);
    }
  }

  /** The coefficient of x^13 in (x + 1) * x^4681 is one. */
  lemma NoReturnAt4681(z: nat)
    requires z == 0
    ensures Power(4681 + z) != ONE
  {
    Conjugate12(585 + z, 2);
    Conjugate9(81 + z, 2);
    Conjugate9(77 + z, 2);
    Conjugate9(75 + z, 2);
    Conjugate9(74 + z, 2);
    Conjugate6(25 + z, 2);
    Conjugate6(21 + z, 2);
    Conjugate6(15 + z, 2);
    Conjugate6(13 + z, 2);
    Conjugate6(18 + z, 2);
    Conjugate6(12 + z, 2);
    Trinomial(17 + z, 2);
    MiddleCoefficients();
    SmallCoefficients(2);
    ReturnMeans(4681 + z, z, 2);
  }

  // ----- the order is exactly 32767 -----

  ghost predicate Multiple(n: nat, g: nat) { exists q: nat :: n == q * g }

  lemma PowerShift(k: nat, r: nat, n: nat)
    requires Power(k) == ONE && n == k + r
    ensures Power(n) == Power(r)
  {
    PowerCancel(k, r);
  }

  lemma MulNext(q: nat, g: nat)
    requires q > 0
    ensures (q - 1) * g >= 0 && q * g == (q - 1) * g + g
  {
  }

  lemma MulMono(a: nat, b: nat, c: nat)
    requires a <= b
    ensures a * c <= b * c
  {
  }

  lemma PowerZero(n: nat)
    requires n == 0
    ensures Power(n) == ONE
  {
  }

  lemma {:induction false} PowerMultiple(g: nat, q: nat, n: nat)
    requires Power(g) == ONE && n == q * g
    ensures Power(n) == ONE
    decreases q
  {
    if q == 0 {
      PowerZero(n);
    } else {
      MulNext(q, g);
      var rest := n - g;
      PowerMultiple(g, q - 1, rest);
      PowerShift(g, rest, n);
    }
  }

  lemma {:induction false} PowerRem(a: nat, b: nat)
    requires b > 0 && Power(b) == ONE
    ensures Power(Rem(a, b)) == Power(a)
    decreases a
  {
    if a >= b {
      PowerShift(b, a - b, a);
      PowerRem(a - b, b);
    }
  }

  lemma MultipleSum(q: nat, b: nat, r: nat, g: nat)
    requires Multiple(b, g) && Multiple(r, g)
    ensures Multiple(q * b + r, g)
  {
    var t: nat :| b == t * g;
    var u: nat :| r == u * g;
    assert q * (t * g) == (q * t) * g;
    assert (q * t) * g + u * g == (q * t + u) * g;
    assert q * b + r == (q * t + u) * g;
  }

  lemma RemSplits(a: nat, b: nat)
    requires b > 0
    ensures a == (a / b) * b + Rem(a, b)
  {
    RemIsRemainder(a, b);
    DivMod(a, b);
  }

  lemma MultipleOfSelf(n: nat)
    ensures Multiple(n, n) && Multiple(0, n)
  {
    assert n == 1 * n;
    assert 0 == 0 * n;
  }

  /** Euclid: two returns of x have a common divisor that is one as well. */
  lemma {:induction false} CommonReturn(a: nat, b: nat) returns (g: nat)
    requires b > 0 && Power(a) == ONE && Power(b) == ONE
    ensures 0 < g <= b && Power(g) == ONE && Multiple(a, g) && Multiple(b, g)
    decreases b
  {
    var r := Rem(a, b);
    PowerRem(a, b);
    RemSplits(a, b);
    if r == 0 {
      g := b;
      MultipleOfSelf(b);
    } else {
      g := CommonReturn(b, r);
    }
    MultipleSum(a / b, b, r, g);
  }

  /** 32767 is the product of these. */
  predicate Listed(p: nat) { p == 7 || p == 31 || p == 151 }

  lemma SmallFactor(p: nat, a: nat, b: nat)
    requires Listed(p) && a * b == p && a <= 12
    ensures a == 1 || b == 1
  {
    if a == 0 {
    } else if a == 2 {
    } else if a == 3 {
    } else if a == 4 {
    } else if a == 5 {
    } else if a == 6 {
    } else if a == 7 {
    } else if a == 8 {
    } else if a == 9 {
    } else if a == 10 {
    } else if a == 11 {
    } else if a == 12 {
    }
  }

  lemma Factors(p: nat, a: nat, b: nat)
    requires Listed(p) && a * b == p
    ensures a == 1 || b == 1
  {
    if a <= 12 {
      SmallFactor(p, a, b);
    } else {
      MulMono(13, a, b);
      SmallFactor(p, b, a);
    }
  }

  lemma SubtractMultiple(p: nat, q: nat, r: nat, s: nat, t: nat)
    requires r * s == p * t
    ensures (p - q * r) * s == p * (s - q * t)
  {
    assert (p - q * r) * s == p * s - q * (r * s);
    assert p * (s - q * t) == p * s - q * (p * t);
  }

  /** Numbers below one of these primes have no product divisible by it. */
  lemma {:induction false} NoZeroDivisors(p: nat, r: nat, s: nat, t: nat)
    requires Listed(p) && 0 < r < p && 0 < s < p
    ensures r * s != p * t
    decreases r
  {
    if r * s == p * t {
      var q, r' := p / r, p % r;
      DivMod(p, r);
      assert r' == p - q * r;
      if r' == 0 {
        Factors(p, q, r);
      } else {
        SubtractMultiple(p, q, r, s, t);
        ProductSign(p, s - q * t, r', s);
        NoZeroDivisors(p, r', s, s - q * t);
      }
    }
  }

  lemma ProductSign(p: nat, x: int, r: nat, s: nat)
    requires r * s == p * x && p > 0
    ensures x >= 0
  {
    if x < 0 { assert p * (-x) == -(p * x); }
  }

  lemma ProductResidue(p: nat, m: nat, g: nat, n: nat)
    requires m * g == p * n && p > 0
    ensures (m % p) * (g % p) == p * (n - (m / p) * g - (m % p) * (g / p))
  {
    var a, r, b, s := m / p, m % p, g / p, g % p;
    DivMod(m, p);
    DivMod(g, p);
    assert m * g == (a * p + r) * g == a * p * g + r * g;
    assert r * g == r * (b * p + s) == r * (b * p) + r * s;
    assert a * p * g == p * (a * g) && r * (b * p) == p * (r * b);
    assert p * (n - a * g - r * b) == p * n - p * (a * g) - p * (r * b);
  }

  lemma PrimeDivides(p: nat, m: nat, g: nat, n: nat)
    requires Listed(p) && m * g == p * n
    ensures m % p == 0 || g % p == 0
  {
    var r, s := m % p, g % p;
    DivMod(m, p);
    DivMod(g, p);
    ProductResidue(p, m, g, n);
    if r > 0 && s > 0 {
      var t := n - (m / p) * g - r * (g / p);
      ProductSign(p, t, r, s);
      NoZeroDivisors(p, r, s, t);
    }
  }

  lemma DivideOut(p: nat, m: nat) returns (q: nat)
    requires p > 0 && m % p == 0
    ensures m == p * q
  {
    DivMod(m, p);
    q := m / p;
  }

  /** Every proper divisor of 32767 divides one of the three maximal ones. */
  lemma ProperDivisor(g: nat, m: nat) returns (n: nat, q: nat)
    requires m * g == 32767 && g < 32767
    ensures n == 217 || n == 1057 || n == 4681
    ensures n == q * g
  {
    PrimeDivides(7, m, g, 4681);
    if m % 7 == 0 {
      q := DivideOut(7, m);
      assert 7 * (q * g) == 7 * 4681;
      return 4681, q;
    }
    var g1 := DivideOut(7, g);
    assert 7 * (m * g1) == 7 * 4681;
    PrimeDivides(31, m, g1, 151);
    if m % 31 == 0 {
      q := DivideOut(31, m);
      assert 31 * (q * g1) == 31 * 151;
      assert q * g == 7 * (q * g1);
      return 1057, q;
    }
    var g2 := DivideOut(31, g1);
    assert 31 * (m * g2) == 31 * 151;
    Factors(151, m, g2);
    return 217, 1;
  }

  lemma NoReturnBelow(g: nat, q: nat, n: nat)
    requires n == q * g && Power(n) != ONE
    ensures Power(g) != ONE
  {
    if Power(g) == ONE { PowerMultiple(g, q, n); }
  }

  lemma NoReturnAtProperDivisor(g: nat, n: nat, q: nat, z: nat)
    requires z == 0 && n == q * g && (n == 217 || n == 1057 || n == 4681)
    ensures Power(g) != ONE
  {
    NoReturnAt217(z);
    NoReturnAt1057(z);
    NoReturnAt4681(z);
    NoReturnBelow(g, q, n + z);
  }

  /** The order of x modulo the generator is 32767. */
  lemma PowerOrder(k: nat)
    ensures Power(k) == ONE <==> k % ORDER == 0
  {
    var order := ORDER;
    PowerReturns(order);
    PowerRem(k, order);
    RemIsRemainder(k, order);
    var r := Rem(k, order);
    if r > 0 && Power(r) == ONE {
      var g := CommonReturn(order, r);
      var m: nat :| order == m * g;
      var n, q := ProperDivisor(g, m);
      NoReturnAtProperDivisor(g, n, q, 0);
    }
  }

  // ----- two flipped bits -----

  lemma {:induction false} FeedZerosIsPower(w: Word, k: nat, n: nat, end: nat)
    requires w == Power(k) && end == k + n
    ensures Feed(w, Zeros(n)) == Power(end)
    decreases n
  {
    if n > 0 {
      assert Zeros(n)[1..] == Zeros(n - 1);
      StepIsFeed(w);
      FeedZerosIsPower(FeedBit(w, false), k + 1, n - 1, end);
    }
  }

  lemma FeedTrueClears(w: Word)
    ensures FeedBit(w, true) == Zeros(16) <==> w == [true] + Zeros(15)
  {
    var top: Word := [true] + Zeros(15);
    assert FeedBit(top, true) == Zeros(16) by { assert top[1..] == Zeros(15); }
    if FeedBit(w, true) == Zeros(16) { FeedBitInjective(w, top, true); }
  }

  lemma FeedSingle(w: Word, b: bool)
    ensures Feed(w, [b]) == FeedBit(w, b)
  {
    assert [b][1..] == [];
    assert Feed(FeedBit(w, b), []) == FeedBit(w, b);
  }

  /** Two ones d bits apart clear the register again exactly when x^d = 1. */
  lemma PairVanishes(d: nat, k16: nat, end: nat)
    requires d > 0 && k16 == 16 && end == 15 + d
    ensures Feed(Zeros(16), [true] + Zeros(d - 1) + [true]) == Zeros(16) <==> d % ORDER == 0
  {
    FeedAppend(Zeros(16), [true] + Zeros(d - 1), [true]);
    FeedAppend(Zeros(16), [true], Zeros(d - 1));
    FeedOne();
    PowerSixteen(k16);
    FeedZerosIsPower(GEN, k16, d - 1, end);
    FeedSingle(Power(end), true);
    FeedTrueClears(Power(end));
    PowerUnit(k16 - 1);
    assert Power(k16 - 1) == [true] + Zeros(15);
    PowerCancel(d, k16 - 1);
    PowerOrder(d);
  }

  /** Exactly the bits i and j. */
  ghost predicate IsPair(e: Bits, i: nat, j: nat)
  {
    i < j < |e| && forall k :: 0 <= k < |e| ==> (e[k] <==> k == i || k == j)
  }

  lemma PairSplit(e: Bits, i: nat, j: nat)
    requires IsPair(e, i, j)
    ensures e == Zeros(i) + ([true] + Zeros(j - i - 1) + [true]) + Zeros(|e| - j - 1)
  {
  }

  lemma PairResidue(e: Bits, i: nat, j: nat)
    requires IsPair(e, i, j)
    ensures Feed(Zeros(16), e) == Zeros(16) <==> (j - i) % ORDER == 0
  {
    PairSplit(e, i, j);
    PaddingIrrelevant(i, [true] + Zeros(j - i - 1) + [true], |e| - j - 1);
    PairVanishes(j - i, 16, 15 + (j - i));
  }

  /** Double-bit errors, exactly: two flipped bits pass the receiver's check if and only if they are
      a multiple of 32767 bits apart. */
  lemma DoubleErrorUnseenIff(sent: seq<bv8>, received: seq<bv8>, i: nat, j: nat)
    requires |sent| == |received| >= 2
    ensures Accepts(sent) && IsPair(Flips(sent, received), i, j) ==>
              (Accepts(received) <==> (j - i) % ORDER == 0)
  {
    if Accepts(sent) && IsPair(Flips(sent, received), i, j) {
      AcceptedIffFlipsVanish(sent, received);
      PairResidue(Flips(sent, received), i, j);
    }
  }

  lemma PairClose(e: Bits, i: nat, j: nat)
    requires IsPair(e, i, j) && |e| <= 8 * 4095
    ensures Feed(Zeros(16), e) != Zeros(16)
  {
    PairResidue(e, i, j);
  }

  /** So any two flipped bits in a frame of at most 4095 bytes, sixteen times the longest Modbus
      frame, are caught. */
  lemma DoubleErrorsDetected(sent: seq<bv8>, received: seq<bv8>, i: nat, j: nat)
    requires 2 <= |sent| == |received| <= 4095
    ensures Accepts(sent) && IsPair(Flips(sent, received), i, j) ==> !Accepts(received)
  {
    if Accepts(sent) && IsPair(Flips(sent, received), i, j) {
      AcceptedIffFlipsVanish(sent, received);
      PairClose(Flips(sent, received), i, j);
    }
  }
}
