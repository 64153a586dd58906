/** crypto/tea.c: TEA and XTEA. */
module Tea {
  import opened Arithmetic
  import opened ByteValues
  import opened Words
  import opened WordValues

  const ROUNDS: nat := 32
  const DELTA: nat := 0x9e3779b9

  // ---- the sum of the rounds

  /** sum before round i: it wraps around. */
  function SumAt(i: nat): (s: nat)
    ensures s < TWO32
  {
    i * DELTA % TWO32
  }

  function Pow2(e: nat): (p: nat)
    ensures p > 0
  {
    if e == 0 then 1 else 2 * Pow2(e - 1)
  }

  /** A power of two that divides an odd multiple of k divides k. */
  lemma {:induction false} OddFactor(e: nat, k: nat, d: nat, m: nat)
    requires d % 2 == 1 && k * d == m * Pow2(e)
    ensures k % Pow2(e) == 0
    decreases e
  {
    if e > 0 {
      var p, j := Pow2(e - 1), k / 2;
      TwiceProduct(m, p);
      EvenProduct(k, d, m * p);
      HalfProduct(j, d, m * p);
      OddFactor(e - 1, j, d, m);
      TwiceMultiple(j, p);
    }
  }

  lemma TwiceProduct(m: nat, p: nat)
    ensures m * (2 * p) == 2 * (m * p)
  {
  }

  lemma EvenProduct(k: nat, d: nat, x: nat)
    requires d % 2 == 1 && k * d == 2 * x
    ensures k == 2 * (k / 2)
  {
    if k % 2 == 1 {
      OddTimesOdd(k, d);
    }
  }

  lemma HalfProduct(j: nat, d: nat, x: nat)
    requires 2 * j * d == 2 * x
    ensures j * d == x
  {
    assert 2 * j * d == 2 * (j * d);
  }

  lemma TwiceMultiple(j: nat, p: nat)
    requires p > 0 && j % p == 0
    ensures 2 * j % (2 * p) == 0
  {
    var q := j / p;
    assert j == q * p;
    TwiceProduct(q, p);
    DivModUnique(2 * j, 2 * p, q, 0);
  }

  lemma OddTimesOdd(k: nat, d: nat)
    requires k % 2 == 1 && d % 2 == 1
    ensures k * d % 2 == 1
  {
    var a, b := k / 2, d / 2;
    assert k * d == 2 * (2 * a * b + a + b) + 1;
    DivModUnique(k * d, 2, 2 * a * b + a + b, 1);
  }

  lemma Pow2Of32()
    ensures Pow2(32) == TWO32
  {
    assert Pow2(8) == 0x100;
    assert Pow2(16) == 0x1_0000 by { assert Pow2(12) == 0x1000; }
    assert Pow2(24) == 0x100_0000 by { assert Pow2(20) == 0x10_0000; }
    assert Pow2(28) == 0x1000_0000;
  }

  /** Because delta is odd, the sums of 2^32 rounds running are all different. */
  lemma SumsDiffer(i: nat, j: nat)
    requires i < j < i + TWO32
    ensures SumAt(i) != SumAt(j)
  {
    if SumAt(i) == SumAt(j) {
      var a, b, k := i * DELTA / TWO32, j * DELTA / TWO32, j - i;
      assert k * DELTA == j * DELTA - i * DELTA == (b - a) * TWO32;
      Pow2Of32();
      OddFactor(32, k, DELTA, b - a);
      DivModUnique(k, TWO32, 0, k);
      assert false;
    }
  }

  // ---- arithmetic modulo 2^32, and the bytes of words

  function Add(a: Word, b: Word): Word {
    (a + b) % TWO32
  }

  function Sub(a: Word, b: Word): Word {
    (a + TWO32 - b) % TWO32
  }

  /** Exclusive or. */
  function Xored(a: Word, b: Word): Word {
    Value(Xor32(Bits(a), Bits(b)))
  }

  lemma AddSub(a: Word, b: Word)
    ensures Sub(Add(a, b), b) == a && Add(Sub(a, b), b) == a
  {
  }

  /** Least significant byte first. */
  function WordIn(b: seq<bv8>): Word
    requires |b| == 4
  {
    FromDigits(Index(b[0]), Index(b[1]), Index(b[2]), Index(b[3]))
  }

  function WordOut(n: Word): (b: seq<bv8>)
    ensures |b| == 4
  {
    [ToByte(n % 256), ToByte(n / 0x100 % 256), ToByte(n / 0x1_0000 % 256), ToByte(n / 0x100_0000)]
  }

  lemma WordInOut(n: Word)
    ensures WordIn(WordOut(n)) == n
  {
    hide Index, ToByte;
    IndexToByte(n % 256);
    IndexToByte(n / 0x100 % 256);
    IndexToByte(n / 0x1_0000 % 256);
    IndexToByte(n / 0x100_0000);
    DigitsOf(n);
  }

  lemma WordOutIn(b: seq<bv8>)
    requires |b| == 4
    ensures WordOut(WordIn(b)) == b
  {
    hide Index, ToByte;
    FourDigits(Index(b[0]), Index(b[1]), Index(b[2]), Index(b[3]));
    ToByteIndex(b[0]);
    ToByteIndex(b[1]);
    ToByteIndex(b[2]);
    ToByteIndex(b[3]);
  }

  // ---- the rounds

  datatype Half = Half(y: Word, z: Word)
  datatype Variant = Tea | Xtea

  type Key = k: seq<Word> | |k| == 4 witness [0, 0, 0, 0]

  /** What one half of the block adds to the other, in TEA and in XTEA. */
  function TeaMix(v: Word, ka: Word, kb: Word, sum: Word): Word {
    Xored(Xored(Add(16 * v % TWO32, ka), Add(v, sum)), Add(v / 32, kb))
  }

  function XteaMix(v: Word, k: Word, sum: Word): Word {
    Add(Add(Xored(16 * v % TWO32, v / 32), Xored(v, sum)), k)
  }

  /** What round i adds to y, given z, and to z, given the new y. */
  function MixY(c: Variant, key: Key, i: nat, z: Word): Word {
    match c
    case Tea => TeaMix(z, key[0], key[1], SumAt(i + 1))
    case Xtea => XteaMix(z, key[SumAt(i) % 4], SumAt(i))
  }

  function MixZ(c: Variant, key: Key, i: nat, y: Word): Word {
    match c
    case Tea => TeaMix(y, key[2], key[3], SumAt(i + 1))
    case Xtea => XteaMix(y, key[SumAt(i + 1) / 2048 % 4], SumAt(i + 1))
  }

  function Round(c: Variant, key: Key, i: nat, s: Half): Half {
    var y := Add(s.y, MixY(c, key, i, s.z));
    Half(y, Add(s.z, MixZ(c, key, i, y)))
  }

  function Unround(c: Variant, key: Key, i: nat, s: Half): Half {
    var z := Sub(s.z, MixZ(c, key, i, s.y));
    Half(Sub(s.y, MixY(c, key, i, z)), z)
  }

  lemma RoundUndone(c: Variant, key: Key, i: nat, s: Half)
    ensures Unround(c, key, i, Round(c, key, i, s)) == s && Round(c, key, i, Unround(c, key, i, s)) == s
  {
    hide Add, Sub, MixY, MixZ;
    var t, u := Round(c, key, i, s), Unround(c, key, i, s);
    AddSub(s.z, MixZ(c, key, i, t.y));
    AddSub(s.y, MixY(c, key, i, s.z));
    AddSub(s.y, MixY(c, key, i, u.z));
    AddSub(s.z, MixZ(c, key, i, s.y));
  }

  /** The rounds 0 to n - 1, and their undoing from the last to the first. */
  function Rounds(c: Variant, key: Key, n: nat, s: Half): Half {
    if n == 0 then s else Round(c, key, n - 1, Rounds(c, key, n - 1, s))
  }

  function Unrounds(c: Variant, key: Key, n: nat, s: Half): Half {
    if n == 0 then s else Unrounds(c, key, n - 1, Unround(c, key, n - 1, s))
  }

  lemma {:induction false} RoundsUndone(c: Variant, key: Key, n: nat, s: Half)
    ensures Unrounds(c, key, n, Rounds(c, key, n, s)) == s && Rounds(c, key, n, Unrounds(c, key, n, s)) == s
  {
    hide Round, Unround;
    if n > 0 {
      RoundsUndone(c, key, n - 1, s);
      RoundUndone(c, key, n - 1, Rounds(c, key, n - 1, s));
      RoundsUndone(c, key, n - 1, Unround(c, key, n - 1, s));
      RoundUndone(c, key, n - 1, s);
    }
  }

  function HalfOf(block: seq<bv8>): Half
    requires |block| == 8
  {
    Half(WordIn(block[..4]), WordIn(block[4..]))
  }

  function BlockOf(s: Half): (b: seq<bv8>)
    ensures |b| == 8
  {
    WordOut(s.y) + WordOut(s.z)
  }

  lemma HalfBlock(s: Half, block: seq<bv8>)
    requires |block| == 8
    ensures HalfOf(BlockOf(s)) == s && BlockOf(HalfOf(block)) == block
  {
    hide WordIn, WordOut;
    WordInOut(s.y);
    WordInOut(s.z);
    WordOutIn(block[..4]);
    WordOutIn(block[4..]);
    assert BlockOf(s)[..4] == WordOut(s.y) && BlockOf(s)[4..] == WordOut(s.z);
  }

  /** The block ciphers. */
  function Encrypted(c: Variant, key: Key, block: seq<bv8>): (e: seq<bv8>)
    requires |block| == 8
    ensures |e| == 8
  {
    BlockOf(Rounds(c, key, ROUNDS, HalfOf(block)))
  }

  function Decrypted(c: Variant, key: Key, block: seq<bv8>): (d: seq<bv8>)
    requires |block| == 8
    ensures |d| == 8
  {
    BlockOf(Unrounds(c, key, ROUNDS, HalfOf(block)))
  }

  /** For every key and block, decryption undoes encryption and encryption undoes decryption. */
  lemma TeaRoundTrip(c: Variant, key: Key, block: seq<bv8>)
    requires |block| == 8
    ensures Decrypted(c, key, Encrypted(c, key, block)) == block
    ensures Encrypted(c, key, Decrypted(c, key, block)) == block
  {
    hide Rounds, Unrounds, HalfOf, BlockOf;
    var h := HalfOf(block);
    HalfBlock(Rounds(c, key, ROUNDS, h), block);
    HalfBlock(Unrounds(c, key, ROUNDS, h), block);
    RoundsUndone(c, key, ROUNDS, h);
  }

  // ---- what the operations of tea.c do to the numbers

  function Shl4(w: bv32): bv32 {
    w << 4
  }

  function Shr5(w: bv32): bv32 {
    w >> 5
  }

  function Shr11(w: bv32): bv32 {
    w >> 11
  }

  function Sub32(a: bv32, b: bv32): bv32 {
    a - b
  }

  lemma Shl4Bits(w: bv32)
    ensures Shl4(w) == Double32(Double32(Double32(Double32(w))))
  {
  }

  lemma Shr5Bits(w: bv32)
    ensures Shr5(w) == Half32(Half32(Half32(Half32(Half32(w)))))
  {
  }

  lemma Shr11Bits(w: bv32)
    ensures Shr11(w) == Half32(Shr5(Shr5(w)))
  {
  }

  lemma DoubleMod(x: nat)
    ensures 2 * (x % TWO32) % TWO32 == 2 * x % TWO32
  {
    var q := x / TWO32;
    assert 2 * x == 2 * q * TWO32 + 2 * (x % TWO32);
  }

  lemma ValueShl4(w: bv32)
    ensures Value(Shl4(w)) == 16 * Value(w) % TWO32
  {
    hide Value, Double32, Shl4;
    var v: nat := Value(w);
    Shl4Bits(w);
    ValueDouble(w);
    ValueDouble(Double32(w));
    ValueDouble(Double32(Double32(w)));
    ValueDouble(Double32(Double32(Double32(w))));
    DoubleMod(2 * v);
    DoubleMod(4 * v);
    DoubleMod(8 * v);
  }

  lemma ValueShr5(w: bv32)
    ensures Value(Shr5(w)) == Value(w) / 32
  {
    hide Value, Half32, Shr5;
    Shr5Bits(w);
    ValueHalf(w);
    ValueHalf(Half32(w));
    ValueHalf(Half32(Half32(w)));
    ValueHalf(Half32(Half32(Half32(w))));
    ValueHalf(Half32(Half32(Half32(Half32(w)))));
  }

  lemma ValueShr11(w: bv32)
    ensures Value(Shr11(w)) == Value(w) / 2048
  {
    hide Value, Half32, Shr5, Shr11;
    Shr11Bits(w);
    ValueShr5(w);
    ValueShr5(Shr5(w));
    ValueHalf(Shr5(Shr5(w)));
  }

  lemma ValueAdd32(a: bv32, b: bv32)
    ensures Value(Add32(a, b)) == Add(Value(a), Value(b))
  {
    hide Value, Add32;
    ValueAdd(a, b);
  }

  lemma ValueSub32(a: bv32, b: bv32)
    ensures Value(Sub32(a, b)) == Sub(Value(a), Value(b))
  {
    hide Value;
    ValueSub(a, b);
  }

  lemma XoredIs(a: bv32, b: bv32)
    ensures Xored(Value(a), Value(b)) == Value(Xor32(a, b))
  {
    hide Value, Bits, Xor32;
    BitsOfValue(a);
    BitsOfValue(b);
  }

  // ---- tea.c

  /** What the code adds in a round: z stands for the other half. */
  function TeaTerm(z: bv32, ka: bv32, kb: bv32, sum: bv32): bv32 {
    Xor32(Xor32(Add32(Shl4(z), ka), Add32(z, sum)), Add32(Shr5(z), kb))
  }

  function XteaTerm(z: bv32, k: bv32, sum: bv32): bv32 {
    Add32(Add32(Xor32(Shl4(z), Shr5(z)), Xor32(z, sum)), k)
  }

  lemma TeaTermIs(z: bv32, ka: bv32, kb: bv32, sum: bv32)
    ensures Value(TeaTerm(z, ka, kb, sum)) == TeaMix(Value(z), Value(ka), Value(kb), Value(sum))
  {
    hide Value, Add32, Xor32, Shl4, Shr5, Xored;
    var a, b, c := Add32(Shl4(z), ka), Add32(z, sum), Add32(Shr5(z), kb);
    ValueShl4(z);
    ValueShr5(z);
    ValueAdd(Shl4(z), ka);
    ValueAdd(z, sum);
    ValueAdd(Shr5(z), kb);
    XoredIs(a, b);
    XoredIs(Xor32(a, b), c);
  }

  lemma XteaTermIs(z: bv32, k: bv32, sum: bv32)
    ensures Value(XteaTerm(z, k, sum)) == XteaMix(Value(z), Value(k), Value(sum))
  {
    hide Value, Add32, Xor32, Shl4, Shr5, Xored;
    var a, b := Xor32(Shl4(z), Shr5(z)), Xor32(z, sum);
    ValueShl4(z);
    ValueShr5(z);
    XoredIs(Shl4(z), Shr5(z));
    XoredIs(z, sum);
    ValueAdd(a, b);
    ValueAdd(Add32(a, b), k);
  }

  type KeyWords = k: seq<bv32> | |k| == 4 witness [0, 0, 0, 0]

  function Values(k: KeyWords): Key {
    [Value(k[0]), Value(k[1]), Value(k[2]), Value(k[3])]
  }

  function HalfAt(y: bv32, z: bv32): Half {
    Half(Value(y), Value(z))
  }

  /** One turn of the loop of tea_encrypt, and of tea_decrypt. */
  lemma TeaTurn(k: KeyWords, i: nat, y: bv32, z: bv32, sum: bv32)
    requires Value(sum) == SumAt(i + 1)
    ensures var y' := Add32(y, TeaTerm(z, k[0], k[1], sum)); var z' := Add32(z, TeaTerm(y', k[2], k[3], sum));
            HalfAt(y', z') == Round(Tea, Values(k), i, HalfAt(y, z))
  {
    hide Value, Add, Add32, TeaTerm, TeaMix, SumAt;
    var t := TeaTerm(z, k[0], k[1], sum);
    var y' := Add32(y, t);
    TeaTermIs(z, k[0], k[1], sum);
    ValueAdd32(y, t);
    TeaTermIs(y', k[2], k[3], sum);
    ValueAdd32(z, TeaTerm(y', k[2], k[3], sum));
  }

  lemma TeaTurnBack(k: KeyWords, i: nat, y: bv32, z: bv32, sum: bv32)
    requires Value(sum) == SumAt(i + 1)
    ensures var z' := Sub32(z, TeaTerm(y, k[2], k[3], sum)); var y' := Sub32(y, TeaTerm(z', k[0], k[1], sum));
            HalfAt(y', z') == Unround(Tea, Values(k), i, HalfAt(y, z))
  {
    hide Value, Sub, Sub32, TeaTerm, TeaMix, SumAt;
    var t := TeaTerm(y, k[2], k[3], sum);
    var z' := Sub32(z, t);
    TeaTermIs(y, k[2], k[3], sum);
    ValueSub32(z, t);
    TeaTermIs(z', k[0], k[1], sum);
    ValueSub32(y, TeaTerm(z', k[0], k[1], sum));
  }

  /** The number of the key word that XTEA takes. */
  function Low(w: bv32): (n: nat)
    ensures n < 4
    ensures n == Value(w) % 4
  {
    ValueLowTwo(w);
    Value(And32(w, 3))
  }

  lemma KeyWord(k: KeyWords, n: nat)
    requires n < 4
    ensures Value(k[n]) == Values(k)[n]
  {
    hide Value;
  }

  /** One turn of the loop of xtea_encrypt, and of xtea_decrypt; ka and kb are the key words. */
  lemma XteaTurn(k: KeyWords, i: nat, y: bv32, z: bv32, sum: bv32, sum': bv32)
    requires Value(sum) == SumAt(i) && Value(sum') == SumAt(i + 1)
    ensures var y' := Add32(y, XteaTerm(z, k[Low(sum)], sum));
            var z' := Add32(z, XteaTerm(y', k[Low(Shr11(sum'))], sum'));
            HalfAt(y', z') == Round(Xtea, Values(k), i, HalfAt(y, z))
  {
    hide Value, Add, Add32, XteaTerm, XteaMix, SumAt, Shr11, Low, Values;
    ValueShr11(sum');
    KeyWord(k, Low(sum));
    KeyWord(k, Low(Shr11(sum')));
    var ka, kb := k[Low(sum)], k[Low(Shr11(sum'))];
    var t := XteaTerm(z, ka, sum);
    var y' := Add32(y, t);
    XteaTermIs(z, ka, sum);
    ValueAdd32(y, t);
    XteaTermIs(y', kb, sum');
    ValueAdd32(z, XteaTerm(y', kb, sum'));
  }

  lemma XteaTurnBack(k: KeyWords, i: nat, y: bv32, z: bv32, sum: bv32, sum': bv32)
    requires Value(sum) == SumAt(i) && Value(sum') == SumAt(i + 1)
    ensures var z' := Sub32(z, XteaTerm(y, k[Low(Shr11(sum'))], sum'));
            var y' := Sub32(y, XteaTerm(z', k[Low(sum)], sum));
            HalfAt(y', z') == Unround(Xtea, Values(k), i, HalfAt(y, z))
  {
    hide Value, Sub, Sub32, XteaTerm, XteaMix, SumAt, Shr11, Low, Values;
    ValueShr11(sum');
    KeyWord(k, Low(sum));
    KeyWord(k, Low(Shr11(sum')));
    var ka, kb := k[Low(sum)], k[Low(Shr11(sum'))];
    var t := XteaTerm(y, kb, sum');
    var z' := Sub32(z, t);
    XteaTermIs(y, kb, sum');
    ValueSub32(z, t);
    XteaTermIs(z', ka, sum);
    ValueSub32(y, XteaTerm(z', ka, sum));
  }

  /** u32_in and u32_out. */
  function U32In(b: seq<bv8>): (w: bv32)
    requires |b| == 4
    ensures Value(w) == WordIn(b)
  {
    ValueOfPack(b[0], b[1], b[2], b[3]);
    Pack(b[0], b[1], b[2], b[3])
  }

  function U32Out(w: bv32): (b: seq<bv8>)
    ensures b == WordOut(Value(w))
  {
    OutDigits(w);
    [Byte(w, 0), Byte(w, 1), Byte(w, 2), Byte(w, 3)]
  }

  lemma OutDigits(w: bv32)
    ensures [Byte(w, 0), Byte(w, 1), Byte(w, 2), Byte(w, 3)] == WordOut(Value(w))
  {
    hide Index, ToByte, Byte;
    FourDigits(Index(Byte(w, 0)), Index(Byte(w, 1)), Index(Byte(w, 2)), Index(Byte(w, 3)));
    ToByteIndex(Byte(w, 0));
    ToByteIndex(Byte(w, 1));
    ToByteIndex(Byte(w, 2));
    ToByteIndex(Byte(w, 3));
  }

  /** struct tea_ctx and struct xtea_ctx. */
  class TeaCtx {
    var key: KeyWords

    /** tea_setkey and xtea_setkey: a key has sixteen bytes. */
    method SetKey(inKey: seq<bv8>) returns (ret: int, badKeyLen: bool)
      modifies this
      ensures badKeyLen <==> |inKey| != 16
      ensures ret == if badKeyLen then -22 else 0
      ensures !badKeyLen ==> Values(key) == [WordIn(inKey[..4]), WordIn(inKey[4..8]), WordIn(inKey[8..12]),
                                             WordIn(inKey[12..])]
      ensures badKeyLen ==> key == old(key)
    {
      hide WordIn, Value, U32In;
      if |inKey| != 16 {
        return -22, true;
      }
      key := [U32In(inKey[..4]), U32In(inKey[4..8]), U32In(inKey[8..12]), U32In(inKey[12..])];
      return 0, false;
    }

    /** tea_encrypt. */
    method TeaEncrypt(src: seq<bv8>) returns (dst: seq<bv8>)
      requires |src| == 8
      ensures dst == Encrypted(Tea, Values(key), src)
    {
      hide Rounds, Round, Add32, TeaTerm, WordIn, WordOut, SumAt, Value, U32In, U32Out, Values;
      var y, z, n: nat, sum: bv32 := U32In(src[..4]), U32In(src[4..]), ROUNDS, 0;
      ghost var i, s0 := 0, HalfAt(y, z);
      FirstSum();
      NoRounds(Tea, Values(key), s0);
      while n > 0
        invariant 0 <= n <= ROUNDS && i == ROUNDS - n && Value(sum) == SumAt(i)
        invariant HalfAt(y, z) == Rounds(Tea, Values(key), i, s0)
      {
        n := n - 1;
        NextSum(i, sum);
        NextRound(Tea, Values(key), i, s0);
        sum := Add32(sum, 0x9e3779b9);
        TeaTurn(key, i, y, z, sum);
        y := Add32(y, TeaTerm(z, key[0], key[1], sum));
        z := Add32(z, TeaTerm(y, key[2], key[3], sum));
        i := i + 1;
      }
      dst := U32Out(y) + U32Out(z);
    }

    /** tea_decrypt. */
    method TeaDecrypt(src: seq<bv8>) returns (dst: seq<bv8>)
      requires |src| == 8
      ensures dst == Decrypted(Tea, Values(key), src)
    {
      hide Unrounds, Unround, Sub32, TeaTerm, WordIn, WordOut, SumAt, Value, U32In, U32Out, Values;
      var y, z, n: nat, sum: bv32 := U32In(src[..4]), U32In(src[4..]), ROUNDS, 0x9e3779b9 << 5;
      ghost var i, s0 := ROUNDS, HalfAt(y, z);
      LastSum();
      while n > 0
        invariant 0 <= n <= ROUNDS && i == n && Value(sum) == SumAt(i)
        invariant Unrounds(Tea, Values(key), i, HalfAt(y, z)) == Unrounds(Tea, Values(key), ROUNDS, s0)
      {
        n := n - 1;
        PreviousSum(i, sum);
        NextUnround(Tea, Values(key), i, HalfAt(y, z));
        TeaTurnBack(key, i - 1, y, z, sum);
        z := Sub32(z, TeaTerm(y, key[2], key[3], sum));
        y := Sub32(y, TeaTerm(z, key[0], key[1], sum));
        sum := Sub32(sum, 0x9e3779b9);
        i := i - 1;
      }
      NoUnrounds(Tea, Values(key), HalfAt(y, z));
      dst := U32Out(y) + U32Out(z);
    }

    /** xtea_encrypt. The loop ends because delta is odd, after ROUNDS rounds and not before. */
    method XteaEncrypt(src: seq<bv8>) returns (dst: seq<bv8>)
      requires |src| == 8
      ensures dst == Encrypted(Xtea, Values(key), src)
    {
      hide Rounds, Round, Add32, XteaTerm, WordIn, WordOut, SumAt, Value, U32In, U32Out, Values, Low, Shr11;
      var y, z, sum: bv32 := U32In(src[..4]), U32In(src[4..]), 0;
      var limit: bv32 := 0x9e3779b9 * 32;
      ghost var i, s0 := 0, HalfAt(y, z);
      FirstSum();
      LastSum();
      NoRounds(Xtea, Values(key), s0);
      while sum != limit
        invariant 0 <= i <= ROUNDS && Value(sum) == SumAt(i)
        invariant HalfAt(y, z) == Rounds(Xtea, Values(key), i, s0)
        decreases ROUNDS - i
      {
        SameWord(sum, limit);
        NextSum(i, sum);
        NextRound(Xtea, Values(key), i, s0);
        XteaTurn(key, i, y, z, sum, Add32(sum, 0x9e3779b9));
        y := Add32(y, XteaTerm(z, key[Low(sum)], sum));
        sum := Add32(sum, 0x9e3779b9);
        z := Add32(z, XteaTerm(y, key[Low(Shr11(sum))], sum));
        i := i + 1;
      }
      if i < ROUNDS {
        SumsDiffer(i, ROUNDS);
      }
      dst := U32Out(y) + U32Out(z);
    }

    /** xtea_decrypt. */
    method XteaDecrypt(src: seq<bv8>) returns (dst: seq<bv8>)
      requires |src| == 8
      ensures dst == Decrypted(Xtea, Values(key), src)
    {
      hide Unrounds, Unround, Sub32, XteaTerm, WordIn, WordOut, SumAt, Value, U32In, U32Out, Values, Low, Shr11;
      var y, z, sum: bv32 := U32In(src[..4]), U32In(src[4..]), 0x9e3779b9 * 32;
      ghost var i, s0 := ROUNDS, HalfAt(y, z);
      FirstSum();
      LastSum();
      while sum != 0
        invariant 0 <= i <= ROUNDS && Value(sum) == SumAt(i)
        invariant Unrounds(Xtea, Values(key), i, HalfAt(y, z)) == Unrounds(Xtea, Values(key), ROUNDS, s0)
        decreases i
      {
        SameWord(sum, 0);
        PreviousSum(i, sum);
        NextUnround(Xtea, Values(key), i, HalfAt(y, z));
        XteaTurnBack(key, i - 1, y, z, Sub32(sum, 0x9e3779b9), sum);
        z := Sub32(z, XteaTerm(y, key[Low(Shr11(sum))], sum));
        sum := Sub32(sum, 0x9e3779b9);
        y := Sub32(y, XteaTerm(z, key[Low(sum)], sum));
        i := i - 1;
      }
      if i > 0 {
        SumsDiffer(0, i);
      }
      NoUnrounds(Xtea, Values(key), HalfAt(y, z));
      dst := U32Out(y) + U32Out(z);
    }
  }

  lemma SameWord(a: bv32, b: bv32)
    ensures Value(a) == Value(b) ==> a == b
  {
    hide Value, Bits;
    BitsOfValue(a);
    BitsOfValue(b);
  }

  lemma FirstSum()
    ensures Value(0) == SumAt(0) == 0
  {
  }

  lemma DeltaValue()
    ensures Value(0x9e3779b9) == DELTA
  {
  }

  lemma LastSum()
    ensures Value(0x9e3779b9 << 5) == SumAt(ROUNDS) == Value(0x9e3779b9 * 32)
  {
  }

  lemma ModAdd(x: nat, d: nat)
    ensures (x % TWO32 + d) % TWO32 == (x + d) % TWO32
  {
  }

  lemma NextSum(i: nat, sum: bv32)
    requires Value(sum) == SumAt(i)
    ensures Value(Add32(sum, 0x9e3779b9)) == SumAt(i + 1)
  {
    hide Value, Add32;
    var x := i * DELTA;
    assert (i + 1) * DELTA == x + DELTA;
    DeltaValue();
    ValueAdd(sum, 0x9e3779b9);
    ModAdd(x, DELTA);
  }

  lemma PreviousSum(i: nat, sum: bv32)
    requires i > 0 && Value(sum) == SumAt(i)
    ensures Value(Sub32(sum, 0x9e3779b9)) == SumAt(i - 1)
  {
    hide Value, Sub32;
    var x := (i - 1) * DELTA;
    assert i * DELTA == x + DELTA;
    DeltaValue();
    ValueSub32(sum, 0x9e3779b9);
    ModAdd(x + DELTA, TWO32 - DELTA);
    ModAdd(x, TWO32);
  }

  lemma NoRounds(c: Variant, key: Key, s: Half)
    ensures Rounds(c, key, 0, s) == s
  {
  }

  lemma NextRound(c: Variant, key: Key, i: nat, s: Half)
    ensures Rounds(c, key, i + 1, s) == Round(c, key, i, Rounds(c, key, i, s))
  {
  }

  lemma NoUnrounds(c: Variant, key: Key, s: Half)
    ensures Unrounds(c, key, 0, s) == s
  {
  }

  lemma NextUnround(c: Variant, key: Key, i: nat, s: Half)
    requires i > 0
    ensures Unrounds(c, key, i, s) == Unrounds(c, key, i - 1, Unround(c, key, i - 1, s))
  {
  }
}
