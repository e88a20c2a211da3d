/** Facts about remainders by a variable divisor that the solver does not find by itself. */
module Modular {

  lemma MulAtLeast(x: int, size: nat)
    requires x >= 1
    ensures x * size >= size
  {
  }

  lemma Distribute(x: int, y: int, size: int)
    ensures (x - y) * size == x * size - y * size
  {
  }

  lemma DivMod(a: int, size: nat)
    requires size > 0
    ensures a == (a / size) * size + a % size && 0 <= a % size < size
  {
  }

  lemma DivModUnique(q: int, r: int, q': int, r': int, size: nat)
    requires q * size + r == q' * size + r' && 0 <= r < size && 0 <= r' < size
    ensures q == q' && r == r'
  {
    Distribute(q, q', size);
    Distribute(q', q, size);
    if q < q' { MulAtLeast(q' - q, size); }
    if q > q' { MulAtLeast(q - q', size); }
  }

  lemma ModIs(a: nat, q: nat, r: nat, size: nat)
    requires r < size && a == q * size + r
    ensures a % size == r && a / size == q
  {
    DivMod(a, size);
    DivModUnique(q, r, a / size, a % size, size);
  }

  lemma ModSmall(r: nat, size: nat)
    requires r < size
    ensures r % size == r
  {
    ModIs(r, 0, r, size);
  }

  /** The remainder of a difference, from the two remainders. */
  lemma ModDifference(n: nat, m: nat, size: nat)
    requires size > 0
    ensures (n - m) % size == if n % size >= m % size then n % size - m % size else size - m % size + n % size
  {
    var q, r := n / size - m / size, n % size - m % size;
    DivMod(n, size);
    DivMod(m, size);
    DivMod(n - m, size);
    Distribute(n / size, m / size, size);
    if r >= 0 {
      DivModUnique(q, r, (n - m) / size, (n - m) % size, size);
    } else {
      Distribute(q, 1, size);
      DivModUnique(q - 1, size + r, (n - m) / size, (n - m) % size, size);
    }
  }

  /** Taking more away leaves the remainder as it was exactly for whole multiples. */
  lemma ModUnchanged(r: nat, extra: nat, size: nat)
    requires r < size
    ensures (r - extra) % size == r <==> extra % size == 0
  {
    var q := extra / size;
    DivMod(extra, size);
    DivMod(r - extra, size);
    Distribute(0, q, size);
    if extra % size == 0 {
      DivModUnique(-q, r, (r - extra) / size, (r - extra) % size, size);
    } else if (r - extra) % size == r {
      Distribute(0, (r - extra) / size, size);
      DivModUnique(q, extra % size, -((r - extra) / size), 0, size);
    }
  }

  /** The remainder of C's unsigned division, by repeated subtraction. */
  function Rem(n: nat, size: nat): (r: nat)
    requires size > 0
    ensures r < size
    decreases n
  {
    if n < size then n else Rem(n - size, size)
  }

  lemma {:induction false} RemIsRemainder(n: nat, size: nat)
    requires size > 0
    ensures Rem(n, size) == n % size
    decreases n
  {
    if n < size {
      ModSmall(n, size);
    } else {
      RemIsRemainder(n - size, size);
      DivMod(n - size, size);
      Distribute((n - size) / size, -1, size);
      ModIs(n, (n - size) / size + 1, (n - size) % size, size);
    }
  }

  lemma ModNext(a: nat, size: nat)
    requires size > 0
    ensures (a + 1) % size == if a % size + 1 == size then 0 else a % size + 1
  {
    var q, r := a / size, a % size;
    DivMod(a, size);
    if r + 1 == size {
      Distribute(q, -1, size);
      ModIs(a + 1, q + 1, 0, size);
    } else {
      ModIs(a + 1, q, r + 1, size);
    }
  }
}
