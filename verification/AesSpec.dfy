/** The AES block cipher and its inverse as sections 5.1, 5.2 and 5.3 of FIPS 197 define them.
    A state is four columns; the byte in row r of a column is byte r of its little-endian word. */
module AesSpec {
  import opened Gf8
  import opened Arithmetic
  import opened Words

  type State = s: seq<bv32> | |s| == 4 witness [0, 0, 0, 0]

  // ---- SubBytes (5.1.1) and its inverse (5.3.2)

  function Rotl8(b: bv8, n: nat): bv8
    requires 0 < n < 8
  {
    (b << n) | (b >> (8 - n))
  }

  /** Bit i of the result is b_i + b_(i+4) + b_(i+5) + b_(i+6) + b_(i+7) + c_i, indices modulo 8, c = 0x63. */
  function Affine(b: bv8): bv8 {
    b ^ Rotl8(b, 1) ^ Rotl8(b, 2) ^ Rotl8(b, 3) ^ Rotl8(b, 4) ^ 0x63
  }

  function InvAffine(b: bv8): bv8 {
    Rotl8(b, 1) ^ Rotl8(b, 3) ^ Rotl8(b, 6) ^ 0x05
  }

  lemma InvAffineAffine(b: bv8)
    ensures InvAffine(Affine(b)) == b
  {
  }

  lemma AffineInvAffine(b: bv8)
    ensures Affine(InvAffine(b)) == b
  {
  }

  ghost function SBox(b: bv8): bv8 {
    Affine(Inverse(b))
  }

  ghost function InvSBox(b: bv8): bv8 {
    Inverse(InvAffine(b))
  }

  lemma SBoxInverse(b: bv8)
    ensures InvSBox(SBox(b)) == b && SBox(InvSBox(b)) == b
  {
    hide Affine, InvAffine, Inverse;
    InvAffineAffine(Inverse(b));
    InverseInvolution(b);
    InverseInvolution(InvAffine(b));
    AffineInvAffine(b);
  }

  // ---- MixColumns (5.1.3) and its inverse (5.3.3), on one column

  function Sum4(a: bv8, b: bv8, c: bv8, d: bv8): bv8 {
    Xor(Xor(Xor(a, b), c), d)
  }

  /** One column of MixColumns or of its inverse: the circulant matrix with first row m0 m1 m2 m3 times the column. */
  function Circulant(m0: bv8, m1: bv8, m2: bv8, m3: bv8, w: bv32): bv32 {
    var a, b, c, d := Byte(w, 0), Byte(w, 1), Byte(w, 2), Byte(w, 3);
    Pack(Sum4(Mul(m0, a), Mul(m1, b), Mul(m2, c), Mul(m3, d)),
         Sum4(Mul(m3, a), Mul(m0, b), Mul(m1, c), Mul(m2, d)),
         Sum4(Mul(m2, a), Mul(m3, b), Mul(m0, c), Mul(m1, d)),
         Sum4(Mul(m1, a), Mul(m2, b), Mul(m3, c), Mul(m0, d)))
  }

  function MixColumn(w: bv32): bv32 {
    Circulant(2, 3, 1, 1, w)
  }

  function InvMixColumn(w: bv32): bv32 {
    Circulant(14, 11, 13, 9, w)
  }

  lemma Sum4Xor(a: bv8, b: bv8, c: bv8, d: bv8, e: bv8, f: bv8, g: bv8, h: bv8)
    ensures Sum4(Xor(a, e), Xor(b, f), Xor(c, g), Xor(d, h)) == Xor(Sum4(a, b, c, d), Sum4(e, f, g, h))
  {
    hide Xor;
    XorSwap(a, e, b, f);
    XorSwap(Xor(a, b), Xor(e, f), c, g);
    XorSwap(Xor(Xor(a, b), c), Xor(Xor(e, f), g), d, h);
  }

  lemma MulRight(m: bv8, a: bv8, b: bv8)
    ensures Mul(m, Xor(a, b)) == Xor(Mul(m, a), Mul(m, b))
  {
    hide Xor, MulBits;
    MulCommutes(m, Xor(a, b)); MulCommutes(m, a); MulCommutes(m, b);
    MulBitsLinear(8, a, b, m);
  }

  lemma RowLinear(m0: bv8, m1: bv8, m2: bv8, m3: bv8, x: bv32, y: bv32)
    ensures Sum4(Mul(m0, Byte(Xor32(x, y), 0)), Mul(m1, Byte(Xor32(x, y), 1)), Mul(m2, Byte(Xor32(x, y), 2)),
                 Mul(m3, Byte(Xor32(x, y), 3)))
         == Xor(Sum4(Mul(m0, Byte(x, 0)), Mul(m1, Byte(x, 1)), Mul(m2, Byte(x, 2)), Mul(m3, Byte(x, 3))),
                Sum4(Mul(m0, Byte(y, 0)), Mul(m1, Byte(y, 1)), Mul(m2, Byte(y, 2)), Mul(m3, Byte(y, 3))))
  {
    hide *;
    ByteXor(x, y, 0); ByteXor(x, y, 1); ByteXor(x, y, 2); ByteXor(x, y, 3);
    MulRight(m0, Byte(x, 0), Byte(y, 0)); MulRight(m1, Byte(x, 1), Byte(y, 1));
    MulRight(m2, Byte(x, 2), Byte(y, 2)); MulRight(m3, Byte(x, 3), Byte(y, 3));
    Sum4Xor(Mul(m0, Byte(x, 0)), Mul(m1, Byte(x, 1)), Mul(m2, Byte(x, 2)), Mul(m3, Byte(x, 3)),
            Mul(m0, Byte(y, 0)), Mul(m1, Byte(y, 1)), Mul(m2, Byte(y, 2)), Mul(m3, Byte(y, 3)));
  }

  /** MixColumns and its inverse are linear. */
  lemma CirculantLinear(m0: bv8, m1: bv8, m2: bv8, m3: bv8, x: bv32, y: bv32)
    ensures Circulant(m0, m1, m2, m3, Xor32(x, y)) == Xor32(Circulant(m0, m1, m2, m3, x), Circulant(m0, m1, m2, m3, y))
  {
    hide Xor, Xor32, Mul, Byte, Pack, Sum4;
    RowLinear(m0, m1, m2, m3, x, y);
    RowLinear(m3, m0, m1, m2, x, y);
    RowLinear(m2, m3, m0, m1, x, y);
    RowLinear(m1, m2, m3, m0, x, y);
    var a0, a1, a2, a3 := Byte(x, 0), Byte(x, 1), Byte(x, 2), Byte(x, 3);
    var b0, b1, b2, b3 := Byte(y, 0), Byte(y, 1), Byte(y, 2), Byte(y, 3);
    PackXor(Sum4(Mul(m0, a0), Mul(m1, a1), Mul(m2, a2), Mul(m3, a3)),
            Sum4(Mul(m3, a0), Mul(m0, a1), Mul(m1, a2), Mul(m2, a3)),
            Sum4(Mul(m2, a0), Mul(m3, a1), Mul(m0, a2), Mul(m1, a3)),
            Sum4(Mul(m1, a0), Mul(m2, a1), Mul(m3, a2), Mul(m0, a3)),
            Sum4(Mul(m0, b0), Mul(m1, b1), Mul(m2, b2), Mul(m3, b3)),
            Sum4(Mul(m3, b0), Mul(m0, b1), Mul(m1, b2), Mul(m2, b3)),
            Sum4(Mul(m2, b0), Mul(m3, b1), Mul(m0, b2), Mul(m1, b3)),
            Sum4(Mul(m1, b0), Mul(m2, b1), Mul(m3, b2), Mul(m0, b3)));
  }

  function RotateBytes(w: bv32): bv32 {
    Pack(Byte(w, 3), Byte(w, 0), Byte(w, 1), Byte(w, 2))
  }

  lemma Sum4Rotate(a: bv8, b: bv8, c: bv8, d: bv8)
    ensures Sum4(d, a, b, c) == Sum4(a, b, c, d)
  {
    hide Xor;
    XorLaws(d, a, 0); XorLaws(Xor(a, d), b, c); XorLaws(a, d, Xor(b, c)); XorLaws(d, Xor(b, c), 0);
    XorLaws(a, b, c); XorLaws(a, Xor(b, c), d);
  }

  lemma CirculantRotate(m0: bv8, m1: bv8, m2: bv8, m3: bv8, w: bv32)
    ensures Circulant(m0, m1, m2, m3, RotateBytes(w)) == RotateBytes(Circulant(m0, m1, m2, m3, w))
  {
    hide Xor, Xor32, Mul, Byte, Pack, Sum4;
    var a, b, c, d := Byte(w, 0), Byte(w, 1), Byte(w, 2), Byte(w, 3);
    PackBytes(d, a, b, c);
    PackBytes(Sum4(Mul(m0, a), Mul(m1, b), Mul(m2, c), Mul(m3, d)),
              Sum4(Mul(m3, a), Mul(m0, b), Mul(m1, c), Mul(m2, d)),
              Sum4(Mul(m2, a), Mul(m3, b), Mul(m0, c), Mul(m1, d)),
              Sum4(Mul(m1, a), Mul(m2, b), Mul(m3, c), Mul(m0, d)));
    Sum4Rotate(Mul(m1, a), Mul(m2, b), Mul(m3, c), Mul(m0, d));
    Sum4Rotate(Mul(m0, a), Mul(m1, b), Mul(m2, c), Mul(m3, d));
    Sum4Rotate(Mul(m3, a), Mul(m0, b), Mul(m1, c), Mul(m2, d));
    Sum4Rotate(Mul(m2, a), Mul(m3, b), Mul(m0, c), Mul(m1, d));
  }

  lemma PlaceBytes(b: bv8)
    ensures Byte(Place(0, b), 0) == b && Byte(Place(0, b), 1) == 0 && Byte(Place(0, b), 2) == 0
    ensures Byte(Place(0, b), 3) == 0
    ensures Place(0, b) == Pack(b, 0, 0, 0) && Place(1, b) == Pack(0, b, 0, 0)
    ensures Place(2, b) == Pack(0, 0, b, 0) && Place(3, b) == Pack(0, 0, 0, b)
  {
    PlaceZero();
  }

  lemma PlaceZero()
    ensures Place(0, 0) == 0 && Place(1, 0) == 0 && Place(2, 0) == 0 && Place(3, 0) == 0
  {
  }

  lemma PlaceRotates(b: bv8)
    ensures RotateBytes(Place(0, b)) == Place(1, b)
    ensures RotateBytes(Place(1, b)) == Place(2, b)
    ensures RotateBytes(Place(2, b)) == Place(3, b)
  {
    hide Pack, Place, Byte;
    PlaceBytes(b);
    PackBytes(b, 0, 0, 0); PackBytes(0, b, 0, 0); PackBytes(0, 0, b, 0);
  }

  /** The first column of a circulant matrix, times a byte. */
  lemma CirculantPlace(m0: bv8, m1: bv8, m2: bv8, m3: bv8, b: bv8)
    ensures Circulant(m0, m1, m2, m3, Place(0, b)) == Pack(Mul(m0, b), Mul(m3, b), Mul(m2, b), Mul(m1, b))
  {
    assert forall x: bv8 :: Sum4(x, 0, 0, 0) == x;
    hide Xor, Xor32, Mul, Byte, Pack, Sum4, Place;
    PlaceBytes(b);
    MulByZero(m0); MulByZero(m1); MulByZero(m2); MulByZero(m3);
  }

  lemma MulByZero(m: bv8)
    ensures Mul(m, 0) == 0
  {
    hide MulBits;
    MulZero(8, m);
  }

  // ---- Dot products of the rows of one matrix with the first column of the other.

  lemma InverseRow0(b: bv8)
    ensures Sum4(Mul(14, Mul(2, b)), Mul(11, b), Mul(13, b), Mul(9, Mul(3, b))) == b
  {
    hide Mul;
    MulSmall(b); MulFourteen(XTime(b)); MulEleven(b); MulThirteen(b); MulNine(Mul3(b));
  }

  lemma InverseRow1(b: bv8)
    ensures Sum4(Mul(9, Mul(2, b)), Mul(14, b), Mul(11, b), Mul(13, Mul(3, b))) == 0
  {
    hide Mul;
    MulSmall(b); MulNine(XTime(b)); MulFourteen(b); MulEleven(b); MulThirteen(Mul3(b));
  }

  lemma InverseRow2(b: bv8)
    ensures Sum4(Mul(13, Mul(2, b)), Mul(9, b), Mul(14, b), Mul(11, Mul(3, b))) == 0
  {
    hide Mul;
    MulSmall(b); MulThirteen(XTime(b)); MulNine(b); MulFourteen(b); MulEleven(Mul3(b));
  }

  lemma InverseRow3(b: bv8)
    ensures Sum4(Mul(11, Mul(2, b)), Mul(13, b), Mul(9, b), Mul(14, Mul(3, b))) == 0
  {
    hide Mul;
    MulSmall(b); MulEleven(XTime(b)); MulThirteen(b); MulNine(b); MulFourteen(Mul3(b));
  }

  lemma ForwardRow0(b: bv8)
    ensures Sum4(Mul(2, Mul(14, b)), Mul(3, Mul(9, b)), Mul(13, b), Mul(11, b)) == b
  {
    hide Mul;
    MulFourteen(b); MulNine(b); MulThirteen(b); MulEleven(b); MulSmall(Mul(14, b)); MulSmall(Mul(9, b));
  }

  lemma ForwardRow1(b: bv8)
    ensures Sum4(Mul(14, b), Mul(2, Mul(9, b)), Mul(3, Mul(13, b)), Mul(11, b)) == 0
  {
    hide Mul;
    MulFourteen(b); MulNine(b); MulThirteen(b); MulEleven(b); MulSmall(Mul(9, b)); MulSmall(Mul(13, b));
  }

  lemma ForwardRow2(b: bv8)
    ensures Sum4(Mul(14, b), Mul(9, b), Mul(2, Mul(13, b)), Mul(3, Mul(11, b))) == 0
  {
    hide Mul;
    MulFourteen(b); MulNine(b); MulThirteen(b); MulEleven(b); MulSmall(Mul(13, b)); MulSmall(Mul(11, b));
  }

  lemma ForwardRow3(b: bv8)
    ensures Sum4(Mul(3, Mul(14, b)), Mul(9, b), Mul(13, b), Mul(2, Mul(11, b))) == 0
  {
    hide Mul;
    MulFourteen(b); MulNine(b); MulThirteen(b); MulEleven(b); MulSmall(Mul(14, b)); MulSmall(Mul(11, b));
  }

  lemma InvMixMixFirst(b: bv8)
    ensures InvMixColumn(MixColumn(Place(0, b))) == Place(0, b)
  {
    hide Xor, Xor32, Mul, Byte, Pack, Sum4, Place;
    CirculantPlace(2, 3, 1, 1, b);
    MulSmall(b);
    PackBytes(Mul(2, b), b, b, Mul(3, b));
    InverseRow0(b); InverseRow1(b); InverseRow2(b); InverseRow3(b);
    PlaceBytes(b);
  }

  lemma MixInvMixFirst(b: bv8)
    ensures MixColumn(InvMixColumn(Place(0, b))) == Place(0, b)
  {
    hide Xor, Xor32, Mul, Byte, Pack, Sum4, Place;
    CirculantPlace(14, 11, 13, 9, b);
    MulSmall(Mul(14, b)); MulSmall(Mul(9, b)); MulSmall(Mul(13, b)); MulSmall(Mul(11, b));
    PackBytes(Mul(14, b), Mul(9, b), Mul(13, b), Mul(11, b));
    ForwardRow0(b); ForwardRow1(b); ForwardRow2(b); ForwardRow3(b);
    PlaceBytes(b);
  }

  lemma InvMixMixPlace(n: nat, b: bv8)
    requires n < 4
    ensures InvMixColumn(MixColumn(Place(n, b))) == Place(n, b)
    ensures MixColumn(InvMixColumn(Place(n, b))) == Place(n, b)
  {
    hide Circulant, Place, RotateBytes;
    if n == 0 {
      InvMixMixFirst(b);
      MixInvMixFirst(b);
    } else {
      InvMixMixPlace(n - 1, b);
      PlaceRotates(b);
      var w := Place(n - 1, b);
      CirculantRotate(2, 3, 1, 1, w);
      CirculantRotate(14, 11, 13, 9, MixColumn(w));
      CirculantRotate(14, 11, 13, 9, w);
      CirculantRotate(2, 3, 1, 1, InvMixColumn(w));
    }
  }

  /** A linear map of a column is the sum of its values on the four bytes. */
  lemma CirculantPack(m0: bv8, m1: bv8, m2: bv8, m3: bv8, x: bv32, y: bv32, z: bv32, w: bv32)
    ensures Circulant(m0, m1, m2, m3, Xor32(Xor32(Xor32(x, y), z), w))
         == Xor32(Xor32(Xor32(Circulant(m0, m1, m2, m3, x), Circulant(m0, m1, m2, m3, y)),
                        Circulant(m0, m1, m2, m3, z)), Circulant(m0, m1, m2, m3, w))
  {
    hide *;
    CirculantLinear(m0, m1, m2, m3, Xor32(Xor32(x, y), z), w);
    CirculantLinear(m0, m1, m2, m3, Xor32(x, y), z);
    CirculantLinear(m0, m1, m2, m3, x, y);
  }

  /** MixColumns and its inverse undo each other on every column. */
  lemma MixInverse(w: bv32)
    ensures InvMixColumn(MixColumn(w)) == w
    ensures MixColumn(InvMixColumn(w)) == w
  {
    hide Circulant, Place, Xor32, Byte;
    PackOfBytes(w);
    var b0, b1, b2, b3 := Byte(w, 0), Byte(w, 1), Byte(w, 2), Byte(w, 3);
    var p0, p1, p2, p3 := Place(0, b0), Place(1, b1), Place(2, b2), Place(3, b3);
    InvMixMixPlace(0, b0); InvMixMixPlace(1, b1); InvMixMixPlace(2, b2); InvMixMixPlace(3, b3);
    CirculantPack(2, 3, 1, 1, p0, p1, p2, p3);
    CirculantPack(14, 11, 13, 9, MixColumn(p0), MixColumn(p1), MixColumn(p2), MixColumn(p3));
    CirculantPack(14, 11, 13, 9, p0, p1, p2, p3);
    CirculantPack(2, 3, 1, 1, InvMixColumn(p0), InvMixColumn(p1), InvMixColumn(p2), InvMixColumn(p3));
  }

  // ---- the rounds

  ghost function SubBytes(s: State): State {
    hide SubWord;
    [SubWord(s[0]), SubWord(s[1]), SubWord(s[2]), SubWord(s[3])]
  }

  ghost function SubWord(w: bv32): bv32 {
    Pack(SBox(Byte(w, 0)), SBox(Byte(w, 1)), SBox(Byte(w, 2)), SBox(Byte(w, 3)))
  }

  ghost function InvSubBytes(s: State): State {
    hide InvSubWord;
    [InvSubWord(s[0]), InvSubWord(s[1]), InvSubWord(s[2]), InvSubWord(s[3])]
  }

  ghost function InvSubWord(w: bv32): bv32 {
    Pack(InvSBox(Byte(w, 0)), InvSBox(Byte(w, 1)), InvSBox(Byte(w, 2)), InvSBox(Byte(w, 3)))
  }

  /** Row r moves r columns to the left (5.1.2). */
  function ShiftRows(s: State): State {
    [Pack(Byte(s[0], 0), Byte(s[1], 1), Byte(s[2], 2), Byte(s[3], 3)),
     Pack(Byte(s[1], 0), Byte(s[2], 1), Byte(s[3], 2), Byte(s[0], 3)),
     Pack(Byte(s[2], 0), Byte(s[3], 1), Byte(s[0], 2), Byte(s[1], 3)),
     Pack(Byte(s[3], 0), Byte(s[0], 1), Byte(s[1], 2), Byte(s[2], 3))]
  }

  /** Row r moves r columns to the right (5.3.1). */
  function InvShiftRows(s: State): State {
    [Pack(Byte(s[0], 0), Byte(s[3], 1), Byte(s[2], 2), Byte(s[1], 3)),
     Pack(Byte(s[1], 0), Byte(s[0], 1), Byte(s[3], 2), Byte(s[2], 3)),
     Pack(Byte(s[2], 0), Byte(s[1], 1), Byte(s[0], 2), Byte(s[3], 3)),
     Pack(Byte(s[3], 0), Byte(s[2], 1), Byte(s[1], 2), Byte(s[0], 3))]
  }

  function MixColumns(s: State): State {
    hide MixColumn;
    [MixColumn(s[0]), MixColumn(s[1]), MixColumn(s[2]), MixColumn(s[3])]
  }

  function InvMixColumns(s: State): State {
    hide InvMixColumn;
    [InvMixColumn(s[0]), InvMixColumn(s[1]), InvMixColumn(s[2]), InvMixColumn(s[3])]
  }

  function AddRoundKey(s: State, k: State): State {
    [Xor32(s[0], k[0]), Xor32(s[1], k[1]), Xor32(s[2], k[2]), Xor32(s[3], k[3])]
  }

  /** The state after round r of the cipher, rounds 1 to |keys| - 2 being the ones with MixColumns (5.1). */
  ghost function Rounds(s: State, keys: seq<State>, r: nat): State
    requires r < |keys|
  {
    if r == 0 then AddRoundKey(s, keys[0])
    else AddRoundKey(MixColumns(ShiftRows(SubBytes(Rounds(s, keys, r - 1)))), keys[r])
  }

  ghost function Cipher(s: State, keys: seq<State>): State
    requires |keys| >= 2
  {
    var last := |keys| - 1;
    AddRoundKey(ShiftRows(SubBytes(Rounds(s, keys, last - 1))), keys[last])
  }

  /** The state of the inverse cipher (5.3) just before the InvShiftRows that takes back round r + 1. */
  ghost function InvRoundInput(s: State, keys: seq<State>, r: nat): State
    requires r < |keys| - 1
    decreases |keys| - r, 0
  {
    if r == |keys| - 2 then AddRoundKey(s, keys[|keys| - 1])
    else InvMixColumns(AddRoundKey(InvRounds(s, keys, r + 1), keys[r + 1]))
  }

  ghost function InvRounds(s: State, keys: seq<State>, r: nat): State
    requires r < |keys| - 1
    decreases |keys| - r, 1
  {
    InvSubBytes(InvShiftRows(InvRoundInput(s, keys, r)))
  }

  ghost function InvCipher(s: State, keys: seq<State>): State
    requires |keys| >= 2
  {
    AddRoundKey(InvRounds(s, keys, 0), keys[0])
  }

  lemma ShiftRowsInverse(s: State)
    ensures InvShiftRows(ShiftRows(s)) == s && ShiftRows(InvShiftRows(s)) == s
  {
    hide Pack, Byte;
    PackBytes(Byte(s[0], 0), Byte(s[1], 1), Byte(s[2], 2), Byte(s[3], 3));
    PackBytes(Byte(s[1], 0), Byte(s[2], 1), Byte(s[3], 2), Byte(s[0], 3));
    PackBytes(Byte(s[2], 0), Byte(s[3], 1), Byte(s[0], 2), Byte(s[1], 3));
    PackBytes(Byte(s[3], 0), Byte(s[0], 1), Byte(s[1], 2), Byte(s[2], 3));
    PackBytes(Byte(s[0], 0), Byte(s[3], 1), Byte(s[2], 2), Byte(s[1], 3));
    PackBytes(Byte(s[1], 0), Byte(s[0], 1), Byte(s[3], 2), Byte(s[2], 3));
    PackBytes(Byte(s[2], 0), Byte(s[1], 1), Byte(s[0], 2), Byte(s[3], 3));
    PackBytes(Byte(s[3], 0), Byte(s[2], 1), Byte(s[1], 2), Byte(s[0], 3));
    PackOfBytes(s[0]); PackOfBytes(s[1]); PackOfBytes(s[2]); PackOfBytes(s[3]);
  }

  lemma SubWordInverse(w: bv32)
    ensures InvSubWord(SubWord(w)) == w && SubWord(InvSubWord(w)) == w
  {
    hide Pack, Byte, SBox, InvSBox;
    var b0, b1, b2, b3 := Byte(w, 0), Byte(w, 1), Byte(w, 2), Byte(w, 3);
    PackOfBytes(w);
    PackBytes(SBox(b0), SBox(b1), SBox(b2), SBox(b3));
    PackBytes(InvSBox(b0), InvSBox(b1), InvSBox(b2), InvSBox(b3));
    SBoxInverse(b0); SBoxInverse(b1); SBoxInverse(b2); SBoxInverse(b3);
  }

  lemma SubBytesInverse(s: State)
    ensures InvSubBytes(SubBytes(s)) == s && SubBytes(InvSubBytes(s)) == s
  {
    hide SubWord, InvSubWord;
    SubWordInverse(s[0]); SubWordInverse(s[1]); SubWordInverse(s[2]); SubWordInverse(s[3]);
  }

  lemma MixColumnsInverse(s: State)
    ensures InvMixColumns(MixColumns(s)) == s && MixColumns(InvMixColumns(s)) == s
  {
    hide MixColumn, InvMixColumn;
    MixInverse(s[0]); MixInverse(s[1]); MixInverse(s[2]); MixInverse(s[3]);
  }

  lemma AddRoundKeyInverse(s: State, k: State)
    ensures AddRoundKey(AddRoundKey(s, k), k) == s
  {
    hide Xor32;
    Xor32Cancel(s[0], k[0]); Xor32Cancel(s[1], k[1]); Xor32Cancel(s[2], k[2]); Xor32Cancel(s[3], k[3]);
  }

  lemma {:induction false} InvRoundsOfCipher(s: State, keys: seq<State>, r: nat)
    requires r < |keys| - 1
    ensures InvRounds(Cipher(s, keys), keys, r) == Rounds(s, keys, r)
    decreases |keys| - r
  {
    hide SubBytes, InvSubBytes, ShiftRows, InvShiftRows, MixColumns, InvMixColumns, AddRoundKey;
    var last := |keys| - 1;
    var t := Rounds(s, keys, r);
    ShiftRowsInverse(SubBytes(t));
    SubBytesInverse(t);
    if r == last - 1 {
      AddRoundKeyInverse(ShiftRows(SubBytes(t)), keys[last]);
    } else {
      InvRoundsOfCipher(s, keys, r + 1);
      AddRoundKeyInverse(MixColumns(ShiftRows(SubBytes(t))), keys[r + 1]);
      MixColumnsInverse(ShiftRows(SubBytes(t)));
    }
  }

  lemma {:induction false} RoundsOfInvCipher(s: State, keys: seq<State>, r: nat)
    requires r < |keys| - 1
    ensures Rounds(InvCipher(s, keys), keys, r) == InvRounds(s, keys, r)
  {
    hide SubBytes, InvSubBytes, ShiftRows, InvShiftRows, MixColumns, InvMixColumns, AddRoundKey;
    if r == 0 {
      AddRoundKeyInverse(InvRounds(s, keys, 0), keys[0]);
    } else {
      RoundsOfInvCipher(s, keys, r - 1);
      var t := AddRoundKey(InvRounds(s, keys, r), keys[r]);
      SubBytesInverse(InvShiftRows(InvMixColumns(t)));
      ShiftRowsInverse(InvMixColumns(t));
      MixColumnsInverse(t);
      AddRoundKeyInverse(InvRounds(s, keys, r), keys[r]);
    }
  }

  /** The cipher and the inverse cipher undo each other, whatever the round keys are. */
  lemma CipherInverse(s: State, keys: seq<State>)
    requires |keys| >= 2
    ensures InvCipher(Cipher(s, keys), keys) == s
    ensures Cipher(InvCipher(s, keys), keys) == s
  {
    hide SubBytes, InvSubBytes, ShiftRows, InvShiftRows, MixColumns, InvMixColumns, AddRoundKey;
    var last := |keys| - 1;
    InvRoundsOfCipher(s, keys, 0);
    AddRoundKeyInverse(s, keys[0]);
    RoundsOfInvCipher(s, keys, last - 1);
    var t := AddRoundKey(s, keys[last]);
    SubBytesInverse(InvShiftRows(t));
    ShiftRowsInverse(t);
    AddRoundKeyInverse(s, keys[last]);
  }

  // ---- key expansion (5.2)

  /** The round constants: powers of x. */
  function XPow(n: nat): bv8 {
    if n == 0 then 1 else XTime(XPow(n - 1))
  }

  /** The first ten of them, as words (section 5.2). */
  const RCON: seq<bv32> := [0x01, 0x02, 0x04, 0x08, 0x10, 0x20, 0x40, 0x80, 0x1b, 0x36]

  function Rcon(j: nat): bv32
    requires j < 10
  {
    RCON[j]
  }

  lemma RoundConstants(j: nat)
    requires j < 10
    ensures Place(0, XPow(j)) == Rcon(j)
  {
    assert XPow(2) == 0x04;
    assert XPow(4) == 0x10;
    assert XPow(6) == 0x40;
    assert XPow(8) == 0x1b;
    assert XPow(9) == 0x36;
  }

  function RotWord(w: bv32): bv32 {
    Pack(Byte(w, 1), Byte(w, 2), Byte(w, 3), Byte(w, 0))
  }

  /** What is added to the word Nk places back, from the word before. */
  ghost function ScheduleCore(nk: nat, i: nat, t: bv32): bv32
    requires nk > 0 && i / nk >= 1
  {
    hide *;
    if i % nk == 0 then Xor32(SubWord(RotWord(t)), Place(0, XPow(i / nk - 1)))
    else if nk > 6 && i % nk == 4 then SubWord(t)
    else t
  }

  /** Word i of the expanded key. */
  ghost function ExpandedWord(key: seq<bv32>, i: nat): bv32
    requires |key| > 0
  {
    hide Xor32, ScheduleCore;
    if i < |key| then key[i]
    else
      ModStep(i, |key|);
      Xor32(ScheduleCore(|key|, i, ExpandedWord(key, i - 1)), ExpandedWord(key, i - |key|))
  }

  /** The Nr + 1 round keys of a key of Nk words, Nr being Nk + 6. */
  ghost function KeySchedule(key: seq<bv32>): (keys: seq<State>)
    requires |key| > 0
    ensures |keys| == |key| + 7
    ensures forall r, j | 0 <= r < |keys| && 0 <= j < 4 :: keys[r][j] == ExpandedWord(key, 4 * r + j)
  {
    seq(|key| + 7, r requires 0 <= r < |key| + 7 =>
      [ExpandedWord(key, 4 * r), ExpandedWord(key, 4 * r + 1), ExpandedWord(key, 4 * r + 2),
       ExpandedWord(key, 4 * r + 3)])
  }
}
