/** The finite field GF(2^8) of section 4 of FIPS 197: bytes as polynomials modulo x^8 + x^4 + x^3 + x + 1.
    The powers of the generator 3 are what aes.c builds its log and antilog tables from. */
module Gf8 {
  import opened Arithmetic
  import opened Words

  /** Multiplication by x, section 4.2.1. */
  function XTime(a: bv8): bv8 {
    (a << 1) ^ (if a & 0x80 != 0 then 0x1b else 0)
  }

  function LowBit(a: bv8, b: bv8): bv8 {
    if a & 1 != 0 then b else 0
  }

  function Half(a: bv8): bv8 {
    a >> 1
  }

  /** The product of b with the polynomial of the low n bits of a, by a Horner scheme. */
  function MulBits(n: nat, a: bv8, b: bv8): bv8 {
    if n == 0 then 0 else Xor(LowBit(a, b), XTime(MulBits(n - 1, Half(a), b)))
  }

  /** The field product, section 4.2. */
  function Mul(a: bv8, b: bv8): bv8 {
    MulBits(8, a, b)
  }

  /** Multiplication by x + 1, the step of the power table. */
  function Mul3(a: bv8): bv8 {
    Xor(a, XTime(a))
  }

  function Pow3(n: nat): bv8 {
    if n == 0 then 1 else Mul3(Pow3(n - 1))
  }

  lemma XTimeLinear(a: bv8, b: bv8)
    ensures XTime(Xor(a, b)) == Xor(XTime(a), XTime(b))
  {
    assert (a ^ b) << 1 == (a << 1) ^ (b << 1);
    if a & 0x80 == 0 && b & 0x80 == 0 {
      assert (a ^ b) & 0x80 == 0;
    } else if a & 0x80 == 0 || b & 0x80 == 0 {
      assert (a ^ b) & 0x80 != 0;
    } else {
      assert (a ^ b) & 0x80 == 0;
    }
  }

  lemma LowBitLinear(a: bv8, c: bv8, b: bv8)
    ensures LowBit(Xor(a, c), b) == Xor(LowBit(a, b), LowBit(c, b))
  {
    if a & 1 == 0 && c & 1 == 0 {
      assert (a ^ c) & 1 == 0;
    } else if a & 1 == 0 || c & 1 == 0 {
      assert (a ^ c) & 1 != 0;
    } else {
      assert (a ^ c) & 1 == 0;
    }
  }

  lemma HalfLinear(a: bv8, c: bv8)
    ensures Half(Xor(a, c)) == Xor(Half(a), Half(c))
  {
  }

  lemma MulBitsUnfold(n: nat, a: bv8, b: bv8)
    requires n > 0
    ensures MulBits(n, a, b) == Xor(LowBit(a, b), XTime(MulBits(n - 1, Half(a), b)))
  {
    hide Xor, LowBit, XTime, Half;
  }

  lemma {:induction false} MulBitsLinear(n: nat, a: bv8, c: bv8, b: bv8)
    ensures MulBits(n, Xor(a, c), b) == Xor(MulBits(n, a, b), MulBits(n, c, b))
  {
    if n == 0 {
      assert MulBits(0, Xor(a, c), b) == 0;
    } else {
      hide *;
      MulBitsUnfold(n, a, b); MulBitsUnfold(n, c, b); MulBitsUnfold(n, Xor(a, c), b);
      MulBitsLinear(n - 1, Half(a), Half(c), b);
      HalfLinear(a, c);
      LowBitLinear(a, c, b);
      XTimeLinear(MulBits(n - 1, Half(a), b), MulBits(n - 1, Half(c), b));
      XorSwap(LowBit(a, b), LowBit(c, b), XTime(MulBits(n - 1, Half(a), b)), XTime(MulBits(n - 1, Half(c), b)));
    }
  }

  lemma {:induction false} MulBitsZero(n: nat, b: bv8)
    ensures MulBits(n, 0, b) == 0
  {
    if n > 0 {
      MulBitsZero(n - 1, b);
      assert Half(0) == 0 && LowBit(0, b) == 0 && XTime(0) == 0;
      MulBitsUnfold(n, 0, b);
    }
  }

  /** The first products, each got from the one before by the Horner step. */
  lemma MulBitsOne(n: nat, b: bv8)
    requires n > 0
    ensures MulBits(n, 1, b) == b
  {
    MulBitsUnfold(n, 1, b);
    MulBitsZero(n - 1, b);
    assert Half(1) == 0 && LowBit(1, b) == b && XTime(0) == 0;
    hide *;
    XorLaws(b, 0, 0);
  }

  lemma MulBitsEven(n: nat, a: bv8, b: bv8)
    requires n > 0 && a & 1 == 0
    ensures MulBits(n, a, b) == XTime(MulBits(n - 1, Half(a), b))
  {
    assert LowBit(a, b) == 0;
    hide *;
    MulBitsUnfold(n, a, b);
    XorLaws(0, XTime(MulBits(n - 1, Half(a), b)), 0);
    XorLaws(XTime(MulBits(n - 1, Half(a), b)), 0, 0);
  }

  lemma MulBitsOdd(n: nat, a: bv8, b: bv8)
    requires n > 0 && a & 1 == 1
    ensures MulBits(n, a, b) == Xor(b, XTime(MulBits(n - 1, Half(a), b)))
  {
    assert LowBit(a, b) == b;
    hide *;
    MulBitsUnfold(n, a, b);
  }

  /** Products with the constants of MixColumns. */
  lemma MulSmall(b: bv8)
    ensures Mul(1, b) == b && Mul(2, b) == XTime(b) && Mul(3, b) == Mul3(b)
  {
    assert Half(2) == 1 && Half(3) == 1;
    hide Xor, XTime, LowBit, Half, MulBits;
    MulBitsOne(8, b); MulBitsOne(7, b);
    MulBitsEven(8, 2, b); MulBitsOdd(8, 3, b);
  }

  /** Products with the constants of the inverse of MixColumns. */
  lemma MulNine(b: bv8)
    ensures Mul(9, b) == Xor(b, XTime(XTime(XTime(b))))
  {
    assert Half(9) == 4 && Half(4) == 2 && Half(2) == 1;
    hide Xor, XTime, LowBit, Half, MulBits;
    MulBitsOne(5, b); MulBitsEven(6, 2, b); MulBitsEven(7, 4, b); MulBitsOdd(8, 9, b);
  }

  lemma MulEleven(b: bv8)
    ensures Mul(11, b) == Xor(b, XTime(Xor(b, XTime(XTime(b)))))
  {
    assert Half(11) == 5 && Half(5) == 2 && Half(2) == 1;
    hide Xor, XTime, LowBit, Half, MulBits;
    MulBitsOne(5, b); MulBitsEven(6, 2, b); MulBitsOdd(7, 5, b); MulBitsOdd(8, 11, b);
  }

  lemma MulThirteen(b: bv8)
    ensures Mul(13, b) == Xor(b, XTime(XTime(Mul3(b))))
  {
    assert Half(13) == 6 && Half(6) == 3 && Half(3) == 1;
    hide Xor, XTime, LowBit, Half, MulBits;
    MulBitsOne(5, b); MulBitsOdd(6, 3, b); MulBitsEven(7, 6, b); MulBitsOdd(8, 13, b);
  }

  lemma MulFourteen(b: bv8)
    ensures Mul(14, b) == XTime(Xor(b, XTime(Mul3(b))))
  {
    assert Half(14) == 7 && Half(7) == 3 && Half(3) == 1;
    hide Xor, XTime, LowBit, Half, MulBits;
    MulBitsOne(5, b); MulBitsOdd(6, 3, b); MulBitsOdd(7, 7, b); MulBitsEven(8, 14, b);
  }

  predicate FitsIn(n: nat, a: bv8) {
    if n == 0 then a == 0 else FitsIn(n - 1, Half(a))
  }

  /** Bits above the degree of a contribute nothing. */
  lemma {:induction false} MulBitsTop(n: nat, a: bv8, b: bv8)
    requires FitsIn(n, a)
    ensures MulBits(n, a, b) == MulBits(n + 1, a, b)
  {
    if n == 0 {
      MulBitsZero(1, b);
    } else {
      MulBitsTop(n - 1, Half(a), b);
      hide Xor, XTime, LowBit, Half;
      MulBitsUnfold(n, a, b);
      MulBitsUnfold(n + 1, a, b);
    }
  }

  lemma FitsInSeven(a: bv8)
    requires a & 0x80 == 0
    ensures FitsIn(7, a)
  {
    assert a >> 7 == 0;
    assert Half(Half(Half(Half(Half(Half(Half(a))))))) == a >> 7;
    hide Half;
    assert FitsIn(0, Half(Half(Half(Half(Half(Half(Half(a))))))));
    assert FitsIn(2, Half(Half(Half(Half(Half(a))))));
    assert FitsIn(4, Half(Half(Half(a))));
    assert FitsIn(6, Half(a));
  }

  lemma MulDouble(a: bv8, b: bv8)
    requires a & 0x80 == 0
    ensures Mul(a << 1, b) == XTime(Mul(a, b))
  {
    assert (a << 1) & 1 == 0 && Half(a << 1) == a;
    FitsInSeven(a);
    hide Xor, XTime, LowBit, Half, MulBits, FitsIn;
    MulBitsEven(8, a << 1, b);
    MulBitsTop(7, a, b);
  }

  /** x^8 = x^4 + x^3 + x + 1 in the field. */
  lemma XTimeEight(b: bv8)
    ensures XTime(XTime(XTime(XTime(XTime(XTime(XTime(XTime(b)))))))) == Xor(b, XTime(Xor(b, XTime(XTime(Mul3(b))))))
  {
  }

  lemma MulTop(b: bv8)
    ensures Mul(0x80, b) == XTime(XTime(XTime(XTime(XTime(XTime(XTime(b)))))))
  {
    hide *;
    MulSmall(b);
    MulDouble(1, b); MulDouble(2, b); MulDouble(4, b); MulDouble(8, b);
    MulDouble(0x10, b); MulDouble(0x20, b); MulDouble(0x40, b);
  }

  lemma MulReduce(b: bv8)
    ensures Mul(0x1b, b) == XTime(Mul(0x80, b))
  {
    assert Half(0x1b) == 13 && Half(13) == 6 && Half(6) == 3 && Half(3) == 1;
    hide Xor, XTime, LowBit, Half, MulBits;
    MulBitsOne(4, b); MulBitsOdd(5, 3, b); MulBitsEven(6, 6, b); MulBitsOdd(7, 13, b); MulBitsOdd(8, 0x1b, b);
    XTimeEight(b);
    MulTop(b);
  }

  lemma MulXTime(a: bv8, b: bv8)
    ensures Mul(XTime(a), b) == XTime(Mul(a, b))
  {
    var low := a & 0x7f;
    MulDouble(low, b);
    if a & 0x80 == 0 {
      assert XTime(a) == low << 1 && low == a;
    } else {
      assert a == Xor(low, 0x80) && XTime(a) == Xor(low << 1, 0x1b);
      hide Xor, XTime, LowBit, Half, MulBits;
      MulBitsLinear(8, low, 0x80, b);
      MulBitsLinear(8, low << 1, 0x1b, b);
      MulReduce(b);
      XTimeLinear(Mul(low, b), Mul(0x80, b));
    }
  }

  /** Powers of the generator multiply by adding exponents. */
  lemma {:induction false} PowAdd(i: nat, j: nat)
    ensures Pow3(i + j) == Mul(Pow3(i), Pow3(j))
  {
    hide Xor, XTime, LowBit, Half, MulBits;
    if i == 0 {
      MulSmall(Pow3(j));
    } else {
      PowAdd(i - 1, j);
      MulBitsLinear(8, Pow3(i - 1), XTime(Pow3(i - 1)), Pow3(j));
      MulXTime(Pow3(i - 1), Pow3(j));
    }
  }

  lemma Mul3Injective(a: bv8, b: bv8)
    requires Mul3(a) == Mul3(b)
    ensures a == b
  {
    XTimeLinear(a, b);
    var d := a ^ b;
    assert Mul3(d) == 0 ==> d == 0;
  }

  lemma {:induction false} PowNonzero(n: nat)
    ensures Pow3(n) != 0
  {
    if n != 0 {
      PowNonzero(n - 1);
      assert Mul3(0) == 0;
      hide Xor, XTime, Mul3;
      if Pow3(n) == 0 {
        Mul3Injective(Pow3(n - 1), 0);
      }
    }
  }

  lemma {:induction false} PowCancel(i: nat, j: nat)
    requires i <= j && Pow3(i) == Pow3(j)
    ensures Pow3(j - i) == 1
  {
    hide Xor, XTime, Mul3;
    if i != 0 {
      Mul3Injective(Pow3(i - 1), Pow3(j - 1));
      PowCancel(i - 1, j - 1);
    }
  }

  function Mul3x4(a: bv8): bv8 {
    Mul3(Mul3(Mul3(Mul3(a))))
  }

  function Mul3x17(a: bv8): bv8 {
    Mul3(Mul3x4(Mul3x4(Mul3x4(Mul3x4(a)))))
  }

  lemma PowSeventeen(n: nat)
    ensures Pow3(n + 17) == Mul3x17(Pow3(n))
  {
    hide Mul3, Xor, XTime;
    assert Pow3(n + 2) == Mul3(Mul3(Pow3(n)));
    assert Pow3(n + 4) == Mul3x4(Pow3(n));
    assert Pow3(n + 6) == Mul3(Mul3(Pow3(n + 4)));
    assert Pow3(n + 8) == Mul3x4(Pow3(n + 4));
    assert Pow3(n + 10) == Mul3(Mul3(Pow3(n + 8)));
    assert Pow3(n + 12) == Mul3x4(Pow3(n + 8));
    assert Pow3(n + 14) == Mul3(Mul3(Pow3(n + 12)));
    assert Pow3(n + 16) == Mul3x4(Pow3(n + 12));
  }

  lemma PowTo51()
    ensures Mul3x17(0x01) == 0xe1
    ensures Mul3x17(0xe1) == 0x5c
    ensures Mul3x17(0x5c) == 0x0c
  {
  }

  lemma MulTwelve(b: bv8)
    ensures Mul(12, b) == XTime(XTime(Mul3(b)))
  {
    hide *;
    MulSmall(b);
    MulDouble(3, b);
    MulDouble(6, b);
  }

  lemma PowSmall()
    ensures Pow3(0) == 1 && Pow3(51) == 0x0c && Pow3(34) == 0x5c && Pow3(15) != 1
  {
    assert Pow3(0) == 1;
    assert Mul3(Mul3(1)) == 5;
    assert Pow3(17) == Mul3(Mul3(Pow3(15))) by { hide Mul3; }
    hide *;
    PowTo51();
    PowSeventeen(0); PowSeventeen(17); PowSeventeen(34);
  }

  lemma StepsOf51()
    ensures Mul(12, 0x0c) == 0x50 && Mul(12, 0x50) == 0xed && Mul(12, 0xed) == 0xb0 && Mul(12, 0xb0) == 0x01
    ensures Mul(12, 0x5c) == 0xbd
  {
    assert XTime(XTime(Mul3(0x0c))) == 0x50;
    assert XTime(XTime(Mul3(0x50))) == 0xed;
    assert XTime(XTime(Mul3(0xed))) == 0xb0;
    assert XTime(XTime(Mul3(0xb0))) == 0x01;
    assert XTime(XTime(Mul3(0x5c))) == 0xbd;
    hide *;
    MulTwelve(0x0c); MulTwelve(0x50); MulTwelve(0xed); MulTwelve(0xb0); MulTwelve(0x5c);
  }

  /** The powers at the maximal proper divisors of 255 are not 1, and the 255th power is.
      The 51st power is 12, so steps of 51 are products with 12. */
  lemma PowDivisors()
    ensures Pow3(15) != 1 && Pow3(51) != 1 && Pow3(85) != 1 && Pow3(255) == 1
  {
    hide *;
    PowSmall();
    StepsOf51();
    PowAdd(51, 51); PowAdd(51, 102); PowAdd(51, 153); PowAdd(51, 204); PowAdd(51, 34);
  }

  /** An exponent at which the powers return to 1 can be reduced modulo another one. */
  lemma {:induction false} PowReduce(n: nat, d: nat)
    requires d > 0 && Pow3(d) == 1
    ensures Pow3(n) == Pow3(n % d)
  {
    hide *;
    if n >= d {
      PowReduce(n - d, d);
      PowAdd(d, n - d);
      MulSmall(Pow3(n - d));
      ModStep(n, d);
    }
  }

  /** No exponent strictly between 0 and 255 gives 1: the generator has order 255. */
  lemma {:induction false} PowOrder(d: nat)
    requires 0 < d < 255
    ensures Pow3(d) != 1
  {
    hide *;
    if Pow3(d) == 1 {
      PowDivisors();
      PowReduce(255, d);
      if 255 % d != 0 {
        PowOrder(255 % d);
      } else {
        DivisorsOf255(d);
        PowReduce(85, d); PowReduce(51, d); PowReduce(15, d);
      }
    }
  }

  lemma DivisorsOf255(d: nat)
    requires 0 < d < 255 && 255 % d == 0
    ensures 85 % d == 0 || 51 % d == 0 || 15 % d == 0
  {
    var q := 255 / d;
    assert q * d == 255 && q >= 2;
    if d > 15 {
      assert q < 16;
      assert q == 3 || q == 5 || q == 15;
    }
  }

  lemma PowInjective(i: nat, j: nat)
    requires i < 255 && j < 255 && Pow3(i) == Pow3(j)
    ensures i == j
  {
    hide Pow3;
    var lo, hi := if i < j then i else j, if i < j then j else i;
    PowCancel(lo, hi);
    if lo < hi {
      PowOrder(hi - lo);
    }
  }

  ghost function PowerSet(n: nat): set<int> {
    set i | 0 <= i < n :: Pow3(i) as int
  }

  ghost function NonzeroBytes(n: nat): set<int> {
    if n == 0 then {} else NonzeroBytes(n - 1) + {n}
  }

  lemma {:induction false} NonzeroBytesMembers(n: nat, i: int)
    ensures i in NonzeroBytes(n) <==> 1 <= i <= n
    ensures |NonzeroBytes(n)| == n
  {
    if n > 0 {
      NonzeroBytesMembers(n - 1, i);
      NonzeroBytesMembers(n - 1, n);
    }
  }

  lemma {:induction false} PowerSetSize(n: nat)
    requires n <= 255
    ensures |PowerSet(n)| == n && PowerSet(n) <= NonzeroBytes(255)
  {
    hide Pow3, NonzeroBytes;
    if n > 0 {
      PowerSetSize(n - 1);
      PowerSetNew(n - 1);
      assert PowerSet(n) == PowerSet(n - 1) + {Pow3(n - 1) as int};
      PowNonzero(n - 1);
      NonzeroBytesMembers(255, Pow3(n - 1) as int);
    }
  }

  lemma PowerSetNew(n: nat)
    requires n < 255
    ensures Pow3(n) as int !in PowerSet(n)
  {
    hide Pow3;
    if Pow3(n) as int in PowerSet(n) {
      var i :| 0 <= i < n && Pow3(i) as int == Pow3(n) as int;
      PowInjective(i, n);
    }
  }

  lemma SubsetSameSize<T>(a: set<T>, b: set<T>)
    requires a <= b && |a| == |b|
    ensures a == b
  {
    assert b == a + (b - a);
    assert |b - a| == 0;
  }

  /** Every nonzero byte is a power of the generator: the antilog table has no gaps. */
  lemma LogExists(a: bv8)
    requires a != 0
    ensures exists k :: 0 <= k < 255 && Pow3(k) == a
  {
    hide Pow3, NonzeroBytes;
    PowerSetSize(255);
    NonzeroBytesMembers(255, a as int);
    SubsetSameSize(PowerSet(255), NonzeroBytes(255));
    var k :| 0 <= k < 255 && Pow3(k) as int == a as int;
  }

  /** The discrete logarithm of a nonzero byte. */
  ghost function Log(a: bv8): (k: nat)
    requires a != 0
    ensures k < 255 && Pow3(k) == a
  {
    LogExists(a);
    var k: nat :| k < 255 && Pow3(k) == a;
    k
  }

  /** Multiplicative inverse, with zero mapped to itself (section 5.1.1). */
  ghost predicate IsInverse(a: bv8, b: bv8) {
    if a == 0 then b == 0 else Mul(a, b) == 1
  }

  ghost function Inverse(a: bv8): (b: bv8)
    ensures IsInverse(a, b)
  {
    if a == 0 then 0 else
      InverseByLog(a, Log(a));
      Pow3(255 - Log(a))
  }

  /** The byte the tables hold at the negated logarithm is a multiplicative inverse. */
  lemma InverseByLog(a: bv8, k: nat)
    requires a != 0 && k < 255 && Pow3(k) == a
    ensures IsInverse(a, Pow3(255 - k))
  {
    hide Pow3, Mul;
    PowAdd(k, 255 - k);
    PowDivisors();
  }

  lemma {:induction false} MulZero(n: nat, a: bv8)
    ensures MulBits(n, a, 0) == 0
  {
    if n > 0 {
      MulZero(n - 1, Half(a));
      assert LowBit(a, 0) == 0 && XTime(0) == 0 && Xor(0, 0) == 0;
      hide Xor, XTime, LowBit, Half;
      MulBitsUnfold(n, a, 0);
    }
  }

  /** A product is 1 only when the logarithms sum to a multiple of 255. */
  lemma InverseLogs(a: bv8, b: bv8)
    requires a != 0 && Mul(a, b) == 1
    ensures b != 0 && b == Pow3(255 - Log(a))
  {
    hide Pow3, MulBits;
    MulZero(8, a);
    var i, j := Log(a), Log(b);
    PowAdd(i, j);
    PowDivisors();
    PowSmall();
    if i + j < 255 {
      PowInjective(i + j, 0);
    } else {
      PowAdd(255, i + j - 255);
      MulSmall(Pow3(i + j - 255));
      PowInjective(i + j - 255, 0);
    }
  }

  lemma InverseUnique(a: bv8, b: bv8)
    requires IsInverse(a, b)
    ensures b == Inverse(a)
  {
    hide Pow3, Mul;
    if a != 0 {
      InverseLogs(a, b);
    }
  }

  lemma MulCommutes(a: bv8, b: bv8)
    ensures Mul(a, b) == Mul(b, a)
  {
    hide Pow3, MulBits;
    if a == 0 || b == 0 {
      MulZero(8, a); MulZero(8, b); MulBitsZero(8, a); MulBitsZero(8, b);
    } else {
      PowAdd(Log(a), Log(b));
      PowAdd(Log(b), Log(a));
    }
  }

  /** Inversion is its own inverse. */
  lemma InverseInvolution(a: bv8)
    ensures Inverse(Inverse(a)) == a
  {
    hide Pow3, MulBits, Inverse;
    var b := Inverse(a);
    MulCommutes(a, b);
    MulZero(8, a);
    InverseUnique(b, a);
  }
}
