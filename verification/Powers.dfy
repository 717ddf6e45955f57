// Powers of two and what they divide.

module Powers {

  function Pow2(k: nat): (p: nat)
    ensures p > 0
  {
    if k == 0 then 1 else 2 * Pow2(k - 1)
  }

  lemma Pow2By4(k: nat)
    ensures Pow2(k + 4) == 16 * Pow2(k)
  {
    assert Pow2(k + 4) == 2 * Pow2(k + 3) == 4 * Pow2(k + 2) == 8 * Pow2(k + 1);
  }

  lemma Pow2Is64()
    ensures Pow2(64) == 0x1_0000_0000_0000_0000
  {
    assert Pow2(0) == 1;
    Pow2By4(0);
    Pow2By4(4);
    Pow2By4(8);
    Pow2By4(12);
    Pow2By4(16);
    Pow2By4(20);
    Pow2By4(24);
    Pow2By4(28);
    Pow2By4(32);
    Pow2By4(36);
    Pow2By4(40);
    Pow2By4(44);
    Pow2By4(48);
    Pow2By4(52);
    Pow2By4(56);
    Pow2By4(60);
  }

  lemma AtLeastOnce(d: int, p: nat)
    requires d >= 1
    ensures d * p >= p
  {
  }

  lemma ModUnique(z: int, p: nat, q: int, r: nat)
    requires p > 0 && r < p && z == q * p + r
    ensures z % p == r && z / p == q
  {
    var (d, r') := (q - z / p, z % p);
    assert z == z / p * p + r';
    assert d * p == q * p - z / p * p == r' - r;
    if d > 0 {
      AtLeastOnce(d, p);
    } else if d < 0 {
      AtLeastOnce(-d, p);
    }
  }

  lemma DoubledMod(z: int, p: nat)
    requires p > 0
    ensures 2 * z % (2 * p) == 2 * (z % p)
  {
    var (q, r) := (z / p, z % p);
    assert 2 * z == q * (2 * p) + 2 * r;
    ModUnique(2 * z, 2 * p, q, 2 * r);
  }

  lemma OddIsNoMultiple(z: int, p: nat)
    requires p > 0 && z % 2 == 1
    ensures z % (2 * p) != 0
  {
    var q := z / (2 * p);
    assert z % (2 * p) == 0 ==> z == 2 * (q * p);
  }

  lemma OddTimesOdd(x: int, y: int)
    requires x % 2 == 1 && y % 2 == 1
    ensures x * y % 2 == 1
  {
    var (i, j) := (x / 2, y / 2);
    assert x * y == 2 * (2 * i * j + i + j) + 1;
  }

  lemma EvenOddFactor(p: nat, odd: int, y: int)
    requires p > 0 && (odd * y % p == 0 <==> y % p == 0)
    ensures odd * (2 * y) % (2 * p) == 0 <==> 2 * y % (2 * p) == 0
  {
    DoubledMod(y, p);
    DoubledMod(odd * y, p);
    assert odd * (2 * y) == 2 * (odd * y);
  }

  lemma OddOddFactor(p: nat, odd: int, x: int)
    requires p > 0 && odd % 2 == 1 && x % 2 == 1
    ensures odd * x % (2 * p) != 0 && x % (2 * p) != 0
  {
    OddTimesOdd(odd, x);
    OddIsNoMultiple(x, p);
    OddIsNoMultiple(odd * x, p);
  }

  // An odd factor changes nothing about divisibility by a power of two.
  lemma {:induction false} OddFactor(k: nat, odd: int, x: int)
    requires odd % 2 == 1
    ensures odd * x % Pow2(k) == 0 <==> x % Pow2(k) == 0
  {
    if k == 0 {
      assert Pow2(0) == 1;
    } else {
      assert Pow2(k) == 2 * Pow2(k - 1);
      hide Pow2;
      if x % 2 == 1 {
        OddOddFactor(Pow2(k - 1), odd, x);
      } else {
        OddFactor(k - 1, odd, x / 2);
        EvenOddFactor(Pow2(k - 1), odd, x / 2);
      }
    }
  }
}
