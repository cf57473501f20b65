/** Unsigned machine words as natural numbers, with the bitwise operators the source uses:
    `>>> n` is division by a power of two, `& 0xff` is a remainder, `^` is `Xor`. */
module Words {
  function Pow2(n: nat): (p: nat)
    ensures p > 0
  {
    if n == 0 then 1 else 2 * Pow2(n - 1)
  }

  /** Bitwise exclusive or. */
  function Xor(x: nat, y: nat): nat
    decreases x + y
  {
    if x == 0 && y == 0 then 0 else 2 * Xor(x / 2, y / 2) + (if x % 2 == y % 2 then 0 else 1)
  }

  /** Logical shift right. */
  function Shr(x: nat, n: nat): nat
    decreases n
  {
    if n == 0 then x else Shr(x / 2, n - 1)
  }

  lemma XorBit(x: nat, y: nat)
    ensures Xor(x, y) / 2 == Xor(x / 2, y / 2)
    ensures Xor(x, y) % 2 == if x % 2 == y % 2 then 0 else 1
  {}

  lemma {:induction false} XorCommutes(x: nat, y: nat)
    ensures Xor(x, y) == Xor(y, x)
    decreases x + y
  {
    if x != 0 || y != 0 { XorCommutes(x / 2, y / 2); }
  }

  lemma EqualByHalves(l: nat, r: nat)
    requires l / 2 == r / 2 && l % 2 == r % 2
    ensures l == r
  {}

  lemma XorParity(x: nat, y: nat, z: nat)
    ensures Xor(Xor(x, y), z) % 2 == Xor(x, Xor(y, z)) % 2
  {
    XorBit(x, y);
    XorBit(y, z);
    XorBit(Xor(x, y), z);
    XorBit(x, Xor(y, z));
  }

  lemma XorHalf(x: nat, y: nat, z: nat)
    ensures Xor(Xor(x, y), z) / 2 == Xor(Xor(x / 2, y / 2), z / 2)
    ensures Xor(x, Xor(y, z)) / 2 == Xor(x / 2, Xor(y / 2, z / 2))
  {
    XorBit(x, y);
    XorBit(y, z);
    XorBit(Xor(x, y), z);
    XorBit(x, Xor(y, z));
  }

  lemma {:induction false} XorAssociates(x: nat, y: nat, z: nat)
    ensures Xor(Xor(x, y), z) == Xor(x, Xor(y, z))
    decreases x + y + z
  {
    if x != 0 || y != 0 || z != 0 {
      XorAssociates(x / 2, y / 2, z / 2);
      XorParity(x, y, z);
      XorHalf(x, y, z);
      EqualByHalves(Xor(Xor(x, y), z), Xor(x, Xor(y, z)));
    }
  }

  lemma {:induction false} XorZero(x: nat)
    ensures Xor(x, 0) == x && Xor(0, x) == x
  {
    if x != 0 { XorZero(x / 2); }
  }

  lemma {:induction false} XorSelf(x: nat)
    ensures Xor(x, x) == 0
  {
    if x != 0 { XorSelf(x / 2); }
  }

  /** What was added once is removed by adding it again. */
  lemma XorCancels(x: nat, y: nat)
    ensures Xor(x, Xor(x, y)) == y
  {
    XorAssociates(x, x, y);
    XorSelf(x);
    XorZero(y);
  }

  lemma XorInjective(x: nat, y: nat, z: nat)
    ensures Xor(x, y) == Xor(x, z) ==> y == z
  {
    XorCancels(x, y);
    XorCancels(x, z);
  }

  /** Exclusive or of two sums, regrouped. */
  lemma XorInterchange(a: nat, b: nat, c: nat, d: nat)
    ensures Xor(Xor(a, b), Xor(c, d)) == Xor(Xor(a, c), Xor(b, d))
  {
    XorAssociates(a, b, Xor(c, d));
    XorAssociates(b, c, d);
    XorCommutes(b, c);
    XorAssociates(c, b, d);
    XorAssociates(a, c, Xor(b, d));
  }

  lemma {:induction false} XorBound(x: nat, y: nat, n: nat)
    requires x < Pow2(n) && y < Pow2(n)
    ensures Xor(x, y) < Pow2(n)
    decreases n
  {
    if n != 0 { XorBound(x / 2, y / 2, n - 1); }
  }

  lemma {:induction false} ShrOfXor(x: nat, y: nat, n: nat)
    ensures Shr(Xor(x, y), n) == Xor(Shr(x, n), Shr(y, n))
    decreases n
  {
    if n != 0 {
      XorBit(x, y);
      ShrOfXor(x / 2, y / 2, n - 1);
    }
  }

  lemma {:induction false} ShrTwice(x: nat, m: nat, n: nat)
    ensures Shr(Shr(x, m), n) == Shr(x, m + n)
    decreases m
  {
    if m != 0 { ShrTwice(x / 2, m - 1, n); }
  }

  lemma {:induction false} ShrOfSmall(x: nat, n: nat)
    requires x < Pow2(n)
    ensures Shr(x, n) == 0
    decreases n
  {
    if n != 0 { ShrOfSmall(x / 2, n - 1); }
  }

  lemma {:induction false} XorLow(x: nat, y: nat, n: nat)
    ensures Xor(x, y) % Pow2(n) == Xor(x % Pow2(n), y % Pow2(n)) % Pow2(n)
    decreases n
  {
    if n != 0 {
      XorLow(x / 2, y / 2, n - 1);
      XorBit(x, y);
      XorBit(x % Pow2(n), y % Pow2(n));
      LowHalf(x, n);
      LowHalf(y, n);
      LowHalf(Xor(x, y), n);
      LowHalf(Xor(x % Pow2(n), y % Pow2(n)), n);
    }
  }

  lemma LowHalf(x: nat, n: nat)
    requires n > 0
    ensures x % Pow2(n) == 2 * (x / 2 % Pow2(n - 1)) + x % 2
    ensures x % Pow2(n) / 2 == x / 2 % Pow2(n - 1) && x % Pow2(n) % 2 == x % 2
  {
    DoubledRemainder(x, Pow2(n - 1));
  }

  lemma DoubledRemainder(x: nat, m: nat)
    requires m > 0
    ensures x % (2 * m) == 2 * (x / 2 % m) + x % 2
  {
    var q, low := x / 2 / m, 2 * (x / 2 % m) + x % 2;
    calc {
      x;
      2 * (x / 2) + x % 2;
      2 * (q * m + x / 2 % m) + x % 2;
      2 * (q * m) + low;
      { TwiceTimes(q, m); }
      q * (2 * m) + low;
    }
    RemainderIs(x, q, 2 * m, low);
  }

  lemma TwiceTimes(q: nat, m: nat)
    ensures 2 * (q * m) == q * (2 * m)
  {}

  lemma RemainderIs(x: nat, q: nat, m: nat, r: nat)
    requires r < m && x == q * m + r
    ensures x % m == r
  {
    SameQuotient(q, r, x / m, x % m, m);
  }

  lemma SameQuotient(q: nat, r: nat, p: nat, s: nat, m: nat)
    requires r < m && s < m && q * m + r == p * m + s
    ensures q == p
  {
    if q < p { Exceeds(q, p, m); }
    if p < q { Exceeds(p, q, m); }
  }

  lemma Exceeds(q: nat, p: nat, m: nat)
    requires q < p
    ensures p * m >= q * m + m
  {
    assert p * m == q * m + (p - q) * m;
    assert (p - q) * m == m + (p - q - 1) * m;
  }
}
