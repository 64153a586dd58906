/** 32-bit words and the numbers they stand for: what the operations of C do to the numbers. The operations are named
    functions so that proofs about numbers can leave the bits alone. */
module WordValues {
  import opened Arithmetic
  import opened ByteValues
  import opened Words

  type Word = n: nat | n < TWO32

  /** The number that four bytes stand for, least significant first. */
  function FromDigits(b0: nat, b1: nat, b2: nat, b3: nat): (n: Word)
    requires b0 < 256 && b1 < 256 && b2 < 256 && b3 < 256
  {
    b0 + 0x100 * b1 + 0x1_0000 * b2 + 0x100_0000 * b3
  }

  function Value(w: bv32): Word {
    FromDigits(Index(Byte(w, 0)), Index(Byte(w, 1)), Index(Byte(w, 2)), Index(Byte(w, 3)))
  }

  /** The word that stands for a number. */
  function Bits(n: Word): bv32 {
    Pack(ToByte(n % 256), ToByte(n / 0x100 % 256), ToByte(n / 0x1_0000 % 256), ToByte(n / 0x100_0000))
  }

  // ---- numbers and their digits

  lemma DigitsOf(n: Word)
    ensures n == FromDigits(n % 256, n / 0x100 % 256, n / 0x1_0000 % 256, n / 0x100_0000)
  {
    var a, b, c := n / 0x100, n / 0x1_0000, n / 0x100_0000;
    assert b == a / 256;
    assert c == b / 256;
  }

  lemma FourDigits(b0: nat, b1: nat, b2: nat, b3: nat)
    requires b0 < 256 && b1 < 256 && b2 < 256 && b3 < 256
    ensures var n := FromDigits(b0, b1, b2, b3);
            n % 256 == b0 && n / 0x100 % 256 == b1 && n / 0x1_0000 % 256 == b2 && n / 0x100_0000 == b3
  {
    var n := FromDigits(b0, b1, b2, b3);
    DivModUnique(n, 0x100, b1 + 0x100 * b2 + 0x1_0000 * b3, b0);
    DivModUnique(n / 0x100, 0x100, b2 + 0x100 * b3, b1);
    DivModUnique(n, 0x1_0000, b2 + 0x100 * b3, b0 + 0x100 * b1);
    DivModUnique(n / 0x1_0000, 0x100, b3, b2);
    DivModUnique(n, 0x100_0000, b3, b0 + 0x100 * b1 + 0x1_0000 * b2);
  }

  lemma ValueOfPack(b0: bv8, b1: bv8, b2: bv8, b3: bv8)
    ensures Value(Pack(b0, b1, b2, b3)) == FromDigits(Index(b0), Index(b1), Index(b2), Index(b3))
  {
    hide Index, Byte, Pack;
    PackBytes(b0, b1, b2, b3);
  }

  lemma ValueOfBits(n: Word)
    ensures Value(Bits(n)) == n
  {
    hide Index, ToByte, Byte, Pack, Value;
    var b0, b1, b2, b3 := n % 256, n / 0x100 % 256, n / 0x1_0000 % 256, n / 0x100_0000;
    ValueOfPack(ToByte(b0), ToByte(b1), ToByte(b2), ToByte(b3));
    IndexToByte(b0);
    IndexToByte(b1);
    IndexToByte(b2);
    IndexToByte(b3);
    DigitsOf(n);
  }

  lemma BitsOfValue(w: bv32)
    ensures Bits(Value(w)) == w
  {
    hide Index, ToByte, Byte, Pack;
    var b0, b1, b2, b3 := Byte(w, 0), Byte(w, 1), Byte(w, 2), Byte(w, 3);
    FourDigits(Index(b0), Index(b1), Index(b2), Index(b3));
    ToByteIndex(b0);
    ToByteIndex(b1);
    ToByteIndex(b2);
    ToByteIndex(b3);
    PackOfBytes(w);
  }

  // ---- sums

  /** The carry of an increment runs through the bytes. */
  lemma NextByte0(w: bv32)
    requires Byte(w, 0) != 255
    ensures Byte(Add32(w, 1), 0) == Byte(w, 0) + 1 && Byte(Add32(w, 1), 1) == Byte(w, 1)
    ensures Byte(Add32(w, 1), 2) == Byte(w, 2) && Byte(Add32(w, 1), 3) == Byte(w, 3)
  {
  }

  lemma NextByte1(w: bv32)
    requires Byte(w, 0) == 255 && Byte(w, 1) != 255
    ensures Byte(Add32(w, 1), 0) == 0 && Byte(Add32(w, 1), 1) == Byte(w, 1) + 1
    ensures Byte(Add32(w, 1), 2) == Byte(w, 2) && Byte(Add32(w, 1), 3) == Byte(w, 3)
  {
  }

  lemma NextByte2(w: bv32)
    requires Byte(w, 0) == 255 && Byte(w, 1) == 255 && Byte(w, 2) != 255
    ensures Byte(Add32(w, 1), 0) == 0 && Byte(Add32(w, 1), 1) == 0
    ensures Byte(Add32(w, 1), 2) == Byte(w, 2) + 1 && Byte(Add32(w, 1), 3) == Byte(w, 3)
  {
  }

  lemma NextByte3(w: bv32)
    requires w != 0xffff_ffff && Byte(w, 0) == 255 && Byte(w, 1) == 255 && Byte(w, 2) == 255
    ensures Byte(Add32(w, 1), 0) == 0 && Byte(Add32(w, 1), 1) == 0 && Byte(Add32(w, 1), 2) == 0
    ensures Byte(w, 3) != 255 && Byte(Add32(w, 1), 3) == Byte(w, 3) + 1
  {
  }

  lemma Next(w: bv32)
    requires w != 0xffff_ffff
    ensures Value(Add32(w, 1)) == Value(w) + 1
  {
    hide Index, Byte, Add32;
    Least();
    if Byte(w, 0) != 255 {
      NextByte0(w);
      NextValue(Byte(w, 0));
    } else if Byte(w, 1) != 255 {
      NextByte1(w);
      NextValue(Byte(w, 1));
    } else if Byte(w, 2) != 255 {
      NextByte2(w);
      NextValue(Byte(w, 2));
    } else {
      NextByte3(w);
      NextValue(Byte(w, 3));
    }
  }

  lemma Least()
    ensures Index(0) == 0 && Index(255) == 255
  {
  }

  lemma Zero()
    ensures Value(0) == 0
  {
  }

  lemma One()
    ensures Value(1) == 1
  {
  }

  lemma Top()
    ensures Value(0xffff_ffff) == TWO32 - 1
  {
  }

  lemma Previous(a: bv32, b: bv32) returns (c: bv32)
    requires b != 0
    ensures c != 0xffff_ffff && Add32(c, 1) == b && Add32(a, b) == Add32(Add32(a, c), 1)
  {
    c := b - 1;
  }

  lemma AddZero(a: bv32)
    ensures Add32(a, 0) == a
  {
  }

  lemma AddTop()
    ensures Add32(0xffff_ffff, 1) == 0
  {
  }

  lemma ModNext(x: nat)
    ensures (x + 1) % TWO32 == if x % TWO32 == TWO32 - 1 then 0 else x % TWO32 + 1
  {
  }

  lemma ValueNext(a: bv32)
    ensures Value(Add32(a, 1)) == if Value(a) == TWO32 - 1 then 0 else Value(a) + 1
  {
    hide Value, Add32;
    Zero();
    Top();
    AddTop();
    if a != 0xffff_ffff {
      Next(a);
    }
  }

  lemma {:induction false} ValueAdd(a: bv32, b: bv32)
    ensures Value(Add32(a, b)) == (Value(a) + Value(b)) % TWO32
    decreases Value(b)
  {
    hide Value, Add32;
    if b == 0 {
      Zero();
      AddZero(a);
    } else {
      var c := Previous(a, b);
      Next(c);
      ValueAdd(a, c);
      ModNext(Value(a) + Value(c));
      ValueNext(Add32(a, c));
    }
  }

  lemma DoubleBits(a: bv32)
    ensures a << 1 == a + a
  {
  }

  lemma ValueSub(a: bv32, b: bv32)
    ensures Value(a - b) == (Value(a) + TWO32 - Value(b)) % TWO32
  {
    hide Value;
    ValueAdd(a - b, b);
  }

  // ---- shifts and masks

  function Double32(w: bv32): bv32 {
    w << 1
  }

  function Half32(w: bv32): bv32 {
    w >> 1
  }

  lemma ValueDouble(w: bv32)
    ensures Value(Double32(w)) == 2 * Value(w) % TWO32
  {
    hide Value;
    DoubleBits(w);
    ValueAdd(w, w);
  }

  lemma HalfBits(w: bv32) returns (low: bv32)
    ensures (low == 0 || low == 1) && w == Add32(Add32(Half32(w), Half32(w)), low) && Byte(Half32(w), 3) < 128
  {
    low := w & 1;
  }

  lemma ValueHalf(w: bv32)
    ensures Value(Half32(w)) == Value(w) / 2
  {
    hide Value, Add32, Byte, Half32;
    var h := Half32(w);
    var low := HalfBits(w);
    Small(h);
    Zero();
    One();
    ValueAdd(h, h);
    ValueAdd(Add32(h, h), low);
  }

  lemma Small(w: bv32)
    requires Byte(w, 3) < 128
    ensures Value(w) < 0x8000_0000
  {
    hide Byte;
  }

  function And32(a: bv32, b: bv32): bv32 {
    a & b
  }

  /** The two lowest bits. */
  lemma ValueLowTwo(w: bv32)
    ensures Value(And32(w, 3)) == Value(w) % 4
  {
    hide Byte, Index, And32, FromDigits;
    var v := And32(w, 3);
    LowTwoDigits(w, v);
    LowDigit(Index(Byte(w, 0)), Index(Byte(w, 1)), Index(Byte(w, 2)), Index(Byte(w, 3)));
    LowDigit(Index(Byte(v, 0)), Index(Byte(v, 1)), Index(Byte(v, 2)), Index(Byte(v, 3)));
  }

  lemma LowTwoDigits(w: bv32, v: bv32)
    requires v == And32(w, 3)
    ensures Index(Byte(v, 0)) == Index(Byte(w, 0)) % 4
    ensures Index(Byte(v, 1)) == 0 && Index(Byte(v, 2)) == 0 && Index(Byte(v, 3)) == 0
  {
    hide Byte, Index, And32;
    LowTwoBytes(w);
    LowTwo(Byte(w, 0));
    Least();
  }

  lemma LowDigit(b0: nat, b1: nat, b2: nat, b3: nat)
    requires b0 < 256 && b1 < 256 && b2 < 256 && b3 < 256
    ensures FromDigits(b0, b1, b2, b3) % 4 == b0 % 4
    ensures b1 == b2 == b3 == 0 ==> FromDigits(b0, b1, b2, b3) == b0
  {
  }

  lemma LowTwoBytes(w: bv32)
    ensures var v := And32(w, 3); Byte(v, 0) == Byte(w, 0) & 3 && Byte(v, 1) == 0 && Byte(v, 2) == 0 && Byte(v, 3) == 0
  {
  }

  lemma LowTwo(b: bv8)
    ensures Index(b & 3) == Index(b) % 4
  {
  }
}
