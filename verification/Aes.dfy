/** aes.c: the key schedules, and the table-driven block operations, against FIPS 197. */
module Aes {
  import opened ByteValues
  import opened Gf8
  import opened AesSpec
  import opened AesTables
  import opened Arithmetic
  import opened Words

  // ---- imix_col: the inverse of MixColumns on a packed word

  function StarX(x: bv32): bv32 {
    ((x & 0x7f7f7f7f) << 1) ^ (((x & 0x80808080) >> 7) * 0x1b)
  }

  function Rotr32(x: bv32, n: nat): bv32
    requires n == 8 || n == 16 || n == 24
  {
    if n == 8 then (x >> 8) | (x << 24) else if n == 16 then (x >> 16) | (x << 16) else (x >> 24) | (x << 8)
  }

  function ImixCol(x: bv32): bv32 {
    var u := StarX(x);
    var v := StarX(u);
    var w := StarX(v);
    var t := Xor32(w, x);
    Xor32(Xor32(Xor32(u, v), w),
          Xor32(Xor32(Rotr32(Xor32(u, t), 8), Rotr32(Xor32(v, t), 16)), Rotr32(t, 24)))
  }

  lemma StarXByte0(x: bv32)
    ensures Byte(StarX(x), 0) == XTime(Byte(x, 0))
  {
  }

  lemma StarXByte1(x: bv32)
    ensures Byte(StarX(x), 1) == XTime(Byte(x, 1))
  {
  }

  lemma StarXByte2(x: bv32)
    ensures Byte(StarX(x), 2) == XTime(Byte(x, 2))
  {
  }

  lemma StarXByte3(x: bv32)
    ensures Byte(StarX(x), 3) == XTime(Byte(x, 3))
  {
  }

  lemma StarXByte(x: bv32, n: nat)
    requires n < 4
    ensures Byte(StarX(x), n) == XTime(Byte(x, n))
  {
    hide *;
    StarXByte0(x); StarXByte1(x); StarXByte2(x); StarXByte3(x);
  }

  lemma Rotr8Bytes(x: bv32)
    ensures Byte(Rotr32(x, 8), 0) == Byte(x, 1) && Byte(Rotr32(x, 8), 1) == Byte(x, 2)
    ensures Byte(Rotr32(x, 8), 2) == Byte(x, 3) && Byte(Rotr32(x, 8), 3) == Byte(x, 0)
  {
  }

  lemma Rotr16Bytes(x: bv32)
    ensures Byte(Rotr32(x, 16), 0) == Byte(x, 2) && Byte(Rotr32(x, 16), 1) == Byte(x, 3)
    ensures Byte(Rotr32(x, 16), 2) == Byte(x, 0) && Byte(Rotr32(x, 16), 3) == Byte(x, 1)
  {
  }

  lemma Rotr24Bytes(x: bv32)
    ensures Byte(Rotr32(x, 24), 0) == Byte(x, 3) && Byte(Rotr32(x, 24), 1) == Byte(x, 0)
    ensures Byte(Rotr32(x, 24), 2) == Byte(x, 1) && Byte(Rotr32(x, 24), 3) == Byte(x, 2)
  {
  }

  lemma RotrByte(x: bv32, n: nat)
    requires n < 4
    ensures Byte(Rotr32(x, 8), n) == Byte(x, (n + 1) % 4)
    ensures Byte(Rotr32(x, 16), n) == Byte(x, (n + 2) % 4)
    ensures Byte(Rotr32(x, 24), n) == Byte(x, (n + 3) % 4)
  {
    hide *;
    Rotr8Bytes(x); Rotr16Bytes(x); Rotr24Bytes(x);
  }

  lemma MulSums(b: bv8)
    ensures Mul(14, b) == Xor(Xor(XTime(b), XTime(XTime(b))), XTime(XTime(XTime(b))))
    ensures Mul(9, b) == Xor(XTime(XTime(XTime(b))), b)
    ensures Mul(11, b) == Xor(XTime(b), Xor(XTime(XTime(XTime(b))), b))
    ensures Mul(13, b) == Xor(XTime(XTime(b)), Xor(XTime(XTime(XTime(b))), b))
  {
    hide Mul;
    MulNine(b); MulEleven(b); MulThirteen(b); MulFourteen(b);
  }

  lemma Sum4Regroup(a: bv8, b: bv8, c: bv8, d: bv8)
    ensures Xor(a, Xor(Xor(b, c), d)) == Sum4(a, b, c, d)
  {
    hide Xor;
    XorLaws(a, Xor(b, c), d);
    XorLaws(a, b, c);
  }

  /** The bytes of the words imix_col rotates and sums, as multiples of the bytes of its argument. */
  lemma ImixTerms(x: bv32, n: nat)
    requires n < 4
    ensures var u, v, w := StarX(x), StarX(StarX(x)), StarX(StarX(StarX(x)));
            && Byte(Xor32(Xor32(u, v), w), n) == Mul(14, Byte(x, n))
            && Byte(Xor32(u, Xor32(w, x)), n) == Mul(11, Byte(x, n))
            && Byte(Xor32(v, Xor32(w, x)), n) == Mul(13, Byte(x, n))
            && Byte(Xor32(w, x), n) == Mul(9, Byte(x, n))
  {
    hide *;
    var u, v, w := StarX(x), StarX(StarX(x)), StarX(StarX(StarX(x)));
    StarXBytes(x, n);
    MulSums(Byte(x, n));
    ByteXor(u, v, n); ByteXor(Xor32(u, v), w, n);
    ByteXor(w, x, n); ByteXor(u, Xor32(w, x), n); ByteXor(v, Xor32(w, x), n);
  }

  lemma XorByteSum(a: bv32, b: bv32, c: bv32, d: bv32, n: nat)
    requires n < 4
    ensures Byte(Xor32(a, Xor32(Xor32(b, c), d)), n) == Sum4(Byte(a, n), Byte(b, n), Byte(c, n), Byte(d, n))
  {
    hide *;
    ByteXor(a, Xor32(Xor32(b, c), d), n); ByteXor(Xor32(b, c), d, n); ByteXor(b, c, n);
    Sum4Regroup(Byte(a, n), Byte(b, n), Byte(c, n), Byte(d, n));
  }

  lemma ImixColByte(x: bv32, n: nat)
    requires n < 4
    ensures Byte(ImixCol(x), n)
         == Sum4(Mul(14, Byte(x, n)), Mul(11, Byte(x, (n + 1) % 4)), Mul(13, Byte(x, (n + 2) % 4)),
                 Mul(9, Byte(x, (n + 3) % 4)))
  {
    hide Xor, Xor32, Byte, StarX, Mul, Rotr32, Sum4;
    var u, v, w := StarX(x), StarX(StarX(x)), StarX(StarX(StarX(x)));
    var t := Xor32(w, x);
    XorByteSum(Xor32(Xor32(u, v), w), Rotr32(Xor32(u, t), 8), Rotr32(Xor32(v, t), 16), Rotr32(t, 24), n);
    RotrByte(Xor32(u, t), n); RotrByte(Xor32(v, t), n); RotrByte(t, n);
    ImixTerms(x, n); ImixTerms(x, (n + 1) % 4); ImixTerms(x, (n + 2) % 4); ImixTerms(x, (n + 3) % 4);
  }

  lemma StarXBytes(x: bv32, n: nat)
    requires n < 4
    ensures var b := Byte(x, n);
            && Byte(StarX(x), n) == XTime(b)
            && Byte(StarX(StarX(x)), n) == XTime(XTime(b))
            && Byte(StarX(StarX(StarX(x))), n) == XTime(XTime(XTime(b)))
  {
    hide *;
    StarXByte(x, n);
    StarXByte(StarX(x), n);
    StarXByte(StarX(StarX(x)), n);
  }

  /** imix_col applies the inverse of MixColumns to one column. */
  lemma ImixColIsInverse(x: bv32)
    ensures ImixCol(x) == InvMixColumn(x)
  {
    hide Mul, Byte, Pack, Sum4, ImixCol;
    PackOfBytes(ImixCol(x));
    ImixColByte(x, 0); ImixColByte(x, 1); ImixColByte(x, 2); ImixColByte(x, 3);
    var a, b, c, d := Byte(x, 0), Byte(x, 1), Byte(x, 2), Byte(x, 3);
    Sum4Rotate(Mul(14, b), Mul(11, c), Mul(13, d), Mul(9, a));
    Sum4Rotate(Mul(14, c), Mul(11, d), Mul(13, a), Mul(9, b));
    Sum4Rotate(Mul(9, b), Mul(14, c), Mul(11, d), Mul(13, a));
    Sum4Rotate(Mul(14, d), Mul(11, a), Mul(13, b), Mul(9, c));
    Sum4Rotate(Mul(9, c), Mul(14, d), Mul(11, a), Mul(13, b));
    Sum4Rotate(Mul(13, b), Mul(9, c), Mul(14, d), Mul(11, a));
  }

  // ---- the macros that look words up in the tables

  /** ls_box: the S-box on the four bytes of a word. */
  function LsBox(tab: Tables, x: bv32): (r: bv32)
    requires tab.Filled()
    reads tab.rcoTab, tab.ftTab, tab.flTab, tab.itTab, tab.ilTab
    ensures r == SubWord(x)
  {
    hide Index, Byte, Place, SBox, InvSBox, Xor32, MixColumn, InvMixColumn, Tables.MixFilled, Tables.RconFilled;
    tab.Entries(Byte(x, 0), 0); tab.Entries(Byte(x, 1), 1); tab.Entries(Byte(x, 2), 2); tab.Entries(Byte(x, 3), 3);
    Xor32(Xor32(Xor32(tab.flTab[0, Index(Byte(x, 0))], tab.flTab[1, Index(Byte(x, 1))]),
                tab.flTab[2, Index(Byte(x, 2))]), tab.flTab[3, Index(Byte(x, 3))])
  }

  /** f_rl: the four words of the state enter at rows 0 to 3. */
  function ForwardLast(tab: Tables, w0: bv32, w1: bv32, w2: bv32, w3: bv32, k: bv32): (r: bv32)
    requires tab.Filled()
    reads tab.rcoTab, tab.ftTab, tab.flTab, tab.itTab, tab.ilTab
    ensures r == Xor32(Pack(SBox(Byte(w0, 0)), SBox(Byte(w1, 1)), SBox(Byte(w2, 2)), SBox(Byte(w3, 3))), k)
  {
    hide Index, Byte, Place, SBox, InvSBox, Xor32, MixColumn, InvMixColumn, Tables.MixFilled, Tables.RconFilled;
    tab.Entries(Byte(w0, 0), 0); tab.Entries(Byte(w1, 1), 1); tab.Entries(Byte(w2, 2), 2); tab.Entries(Byte(w3, 3), 3);
    Xor32(Xor32(Xor32(Xor32(tab.flTab[0, Index(Byte(w0, 0))], tab.flTab[1, Index(Byte(w1, 1))]),
                      tab.flTab[2, Index(Byte(w2, 2))]), tab.flTab[3, Index(Byte(w3, 3))]), k)
  }

  /** f_rn: the same with MixColumns folded into the tables. */
  function ForwardRound(tab: Tables, w0: bv32, w1: bv32, w2: bv32, w3: bv32, k: bv32): (r: bv32)
    requires tab.Filled()
    reads tab.rcoTab, tab.ftTab, tab.flTab, tab.itTab, tab.ilTab
    ensures r == Xor32(MixColumn(Pack(SBox(Byte(w0, 0)), SBox(Byte(w1, 1)), SBox(Byte(w2, 2)), SBox(Byte(w3, 3)))), k)
  {
    hide Index, Byte, Place, SBox, InvSBox, Xor32, Circulant, Tables.MixFilled, Tables.RconFilled;
    tab.Entries(Byte(w0, 0), 0); tab.Entries(Byte(w1, 1), 1); tab.Entries(Byte(w2, 2), 2); tab.Entries(Byte(w3, 3), 3);
    CirculantPack(2, 3, 1, 1, Place(0, SBox(Byte(w0, 0))), Place(1, SBox(Byte(w1, 1))),
                  Place(2, SBox(Byte(w2, 2))), Place(3, SBox(Byte(w3, 3))));
    Xor32(Xor32(Xor32(Xor32(tab.ftTab[0, Index(Byte(w0, 0))], tab.ftTab[1, Index(Byte(w1, 1))]),
                      tab.ftTab[2, Index(Byte(w2, 2))]), tab.ftTab[3, Index(Byte(w3, 3))]), k)
  }

  /** i_rl. */
  function InverseLast(tab: Tables, w0: bv32, w1: bv32, w2: bv32, w3: bv32, k: bv32): (r: bv32)
    requires tab.Filled()
    reads tab.rcoTab, tab.ftTab, tab.flTab, tab.itTab, tab.ilTab
    ensures r == Xor32(Pack(InvSBox(Byte(w0, 0)), InvSBox(Byte(w1, 1)), InvSBox(Byte(w2, 2)), InvSBox(Byte(w3, 3))), k)
  {
    hide Index, Byte, Place, SBox, InvSBox, Xor32, MixColumn, InvMixColumn, Tables.MixFilled, Tables.RconFilled;
    tab.Entries(Byte(w0, 0), 0); tab.Entries(Byte(w1, 1), 1); tab.Entries(Byte(w2, 2), 2); tab.Entries(Byte(w3, 3), 3);
    Xor32(Xor32(Xor32(Xor32(tab.ilTab[0, Index(Byte(w0, 0))], tab.ilTab[1, Index(Byte(w1, 1))]),
                      tab.ilTab[2, Index(Byte(w2, 2))]), tab.ilTab[3, Index(Byte(w3, 3))]), k)
  }

  /** i_rn: the fused inverse tables. */
  function InverseRound(tab: Tables, w0: bv32, w1: bv32, w2: bv32, w3: bv32, k: bv32): (r: bv32)
    requires tab.Filled()
    reads tab.rcoTab, tab.ftTab, tab.flTab, tab.itTab, tab.ilTab
    ensures r == Xor32(InvMixColumn(Pack(InvSBox(Byte(w0, 0)), InvSBox(Byte(w1, 1)), InvSBox(Byte(w2, 2)),
                                         InvSBox(Byte(w3, 3)))), k)
  {
    hide Index, Byte, Place, SBox, InvSBox, Xor32, Circulant, Tables.MixFilled, Tables.RconFilled;
    tab.Entries(Byte(w0, 0), 0); tab.Entries(Byte(w1, 1), 1); tab.Entries(Byte(w2, 2), 2); tab.Entries(Byte(w3, 3), 3);
    CirculantPack(14, 11, 13, 9, Place(0, InvSBox(Byte(w0, 0))), Place(1, InvSBox(Byte(w1, 1))),
                  Place(2, InvSBox(Byte(w2, 2))), Place(3, InvSBox(Byte(w3, 3))));
    Xor32(Xor32(Xor32(Xor32(tab.itTab[0, Index(Byte(w0, 0))], tab.itTab[1, Index(Byte(w1, 1))]),
                      tab.itTab[2, Index(Byte(w2, 2))]), tab.itTab[3, Index(Byte(w3, 3))]), k)
  }

  lemma ShiftRowsOfSubBytes(s: State)
    ensures ShiftRows(SubBytes(s)) ==
      [Pack(SBox(Byte(s[0], 0)), SBox(Byte(s[1], 1)), SBox(Byte(s[2], 2)), SBox(Byte(s[3], 3))),
       Pack(SBox(Byte(s[1], 0)), SBox(Byte(s[2], 1)), SBox(Byte(s[3], 2)), SBox(Byte(s[0], 3))),
       Pack(SBox(Byte(s[2], 0)), SBox(Byte(s[3], 1)), SBox(Byte(s[0], 2)), SBox(Byte(s[1], 3))),
       Pack(SBox(Byte(s[3], 0)), SBox(Byte(s[0], 1)), SBox(Byte(s[1], 2)), SBox(Byte(s[2], 3)))]
  {
    hide Byte, Pack, SBox;
    SubWordBytes(s[0]); SubWordBytes(s[1]); SubWordBytes(s[2]); SubWordBytes(s[3]);
  }

  lemma SubWordBytes(w: bv32)
    ensures Byte(SubWord(w), 0) == SBox(Byte(w, 0)) && Byte(SubWord(w), 1) == SBox(Byte(w, 1))
    ensures Byte(SubWord(w), 2) == SBox(Byte(w, 2)) && Byte(SubWord(w), 3) == SBox(Byte(w, 3))
  {
    hide Byte, Pack, SBox;
    PackBytes(SBox(Byte(w, 0)), SBox(Byte(w, 1)), SBox(Byte(w, 2)), SBox(Byte(w, 3)));
  }

  lemma InvSubBytesOfInvShiftRows(s: State)
    ensures InvSubBytes(InvShiftRows(s)) ==
      [Pack(InvSBox(Byte(s[0], 0)), InvSBox(Byte(s[3], 1)), InvSBox(Byte(s[2], 2)), InvSBox(Byte(s[1], 3))),
       Pack(InvSBox(Byte(s[1], 0)), InvSBox(Byte(s[0], 1)), InvSBox(Byte(s[3], 2)), InvSBox(Byte(s[2], 3))),
       Pack(InvSBox(Byte(s[2], 0)), InvSBox(Byte(s[1], 1)), InvSBox(Byte(s[0], 2)), InvSBox(Byte(s[3], 3))),
       Pack(InvSBox(Byte(s[3], 0)), InvSBox(Byte(s[2], 1)), InvSBox(Byte(s[1], 2)), InvSBox(Byte(s[0], 3)))]
  {
    hide Byte, Pack, InvSBox;
    PackBytes(Byte(s[0], 0), Byte(s[3], 1), Byte(s[2], 2), Byte(s[1], 3));
    PackBytes(Byte(s[1], 0), Byte(s[0], 1), Byte(s[3], 2), Byte(s[2], 3));
    PackBytes(Byte(s[2], 0), Byte(s[1], 1), Byte(s[0], 2), Byte(s[3], 3));
    PackBytes(Byte(s[3], 0), Byte(s[2], 1), Byte(s[1], 2), Byte(s[0], 3));
  }

  /** The round key enters the equivalent inverse cipher after InvMixColumns, transformed by it (5.3.5). */
  lemma InvMixColumnsOfAddRoundKey(s: State, k: State)
    ensures InvMixColumns(AddRoundKey(s, k)) == AddRoundKey(InvMixColumns(s), InvMixColumns(k))
  {
    hide Circulant, Xor32;
    CirculantLinear(14, 11, 13, 9, s[0], k[0]);
    CirculantLinear(14, 11, 13, 9, s[1], k[1]);
    CirculantLinear(14, 11, 13, 9, s[2], k[2]);
    CirculantLinear(14, 11, 13, 9, s[3], k[3]);
  }

  lemma RotrIsRotWord(w: bv32)
    ensures Rotr32(w, 8) == RotWord(w)
  {
    hide Byte, Pack, Rotr32;
    RotrByte(w, 0); RotrByte(w, 1); RotrByte(w, 2); RotrByte(w, 3);
    PackOfBytes(Rotr32(w, 8));
  }

  /** Where in the schedule the words of block i lie. */
  lemma BlockIndex(nk: nat, i: nat, j: nat)
    requires j < nk
    ensures nk * (i + 1) == nk * i + nk
    ensures (nk * (i + 1) + j) / nk == i + 1 && (nk * (i + 1) + j) % nk == j
  {
    assert nk * (i + 1) == (i + 1) * nk;
    DivModUnique(nk * (i + 1) + j, nk, i + 1, j);
  }

  /** struct aes_ctx. The arrays E and D of 60 words are adjacent, E at 0 and D at 60: for a 32-byte key the last
      expansion block runs four words past the end of E, into D, which is filled afterwards. */
  class AesCtx {
    var keyLength: nat
    const words: array<bv32>

    constructor ()
      ensures words.Length == 120 && fresh(words)
    {
      words := new bv32[120];
      keyLength := 0;
    }

    /** The words up to n are the expansion of the key. */
    ghost predicate Expanded(key: seq<bv32>, n: nat)
      requires words.Length == 120 && |key| > 0
      reads words
    {
      n <= 120 && forall i | 0 <= i < n :: words[i] == ExpandedWord(key, i)
    }

    /** What aes_set_key leaves: the expanded key in E, and in D the round keys of the equivalent inverse cipher. */
    ghost predicate Scheduled(key: seq<bv32>)
      reads this, words
    {
      && words.Length == 120
      && |key| in {4, 6, 8} && keyLength == 4 * |key|
      && Expanded(key, keyLength + 28)
      && (forall i | 0 <= i < 4 :: words[60 + i] == words[i])
      && (forall i | 4 <= i < keyLength + 24 :: words[60 + i] == InvMixColumn(words[i]))
    }

    /** aes_set_key. A key of any other length is refused and changes nothing. */
    method SetKey(tab: Tables, inKey: seq<bv8>) returns (ok: bool)
      requires tab.Filled() && words.Length == 120 && words != tab.rcoTab
      modifies this, words
      ensures ok <==> |inKey| in {16, 24, 32}
      ensures !ok ==> keyLength == old(keyLength) && words[..] == old(words[..])
      ensures ok ==> Scheduled(WordsIn(inKey))
    {
      if |inKey| != 16 && |inKey| != 24 && |inKey| != 32 {
        return false;
      }
      keyLength := |inKey|;
      var key := WordsIn(inKey);
      hide *;
      Expand(tab, key);
      label expanded:
      InvertKeys();
      ScheduleComplete@expanded(key);
      return true;
    }

    /** Copies the key words into E and expands them. */
    method Expand(tab: Tables, key: seq<bv32>)
      requires tab.Filled() && words.Length == 120 && words != tab.rcoTab
      requires |key| in {4, 6, 8}
      modifies words
      ensures Expanded(key, 4 * |key| + 28)
    {
      hide ExpandedWord, Tables.MixFilled, Tables.RconFilled;
      var nk := |key|;
      var i := 0;
      while i < nk
        invariant 0 <= i <= nk
        invariant forall j | 0 <= j < i :: words[j] == key[j]
        invariant tab.Filled()
      {
        words[i] := key[i];
        i := i + 1;
      }
      FirstWords(key);
      var t := words[nk - 1];
      var n := if nk == 4 then 10 else if nk == 6 then 8 else 7;
      i := 0;
      while i < n
        invariant 0 <= i <= n
        invariant Expanded(key, nk * (i + 1)) && t == ExpandedWord(key, nk * (i + 1) - 1)
        invariant tab.Filled()
      {
        t := ExpandBlock(tab, key, nk, i, t);
        i := i + 1;
      }
    }

    /** The decryption schedule in D from the encryption schedule in E. */
    method InvertKeys()
      requires words.Length == 120 && 16 <= keyLength <= 32
      modifies words
      ensures words[..60] == old(words[..60])
      ensures words[60..64] == words[..4]
      ensures forall j | 4 <= j < keyLength + 24 :: words[60 + j] == InvMixColumn(words[j])
    {
      hide *;
      words[60], words[61], words[62], words[63] := words[0], words[1], words[2], words[3];
      var i := 4;
      while i < keyLength + 24
        invariant 4 <= i <= keyLength + 24
        invariant words[..60] == old(words[..60])
        invariant words[60..64] == words[..4]
        invariant forall j | 4 <= j < i :: words[60 + j] == InvMixColumn(words[j])
      {
        ImixColIsInverse(words[i]);
        words[60 + i] := ImixCol(words[i]);
        i := i + 1;
      }
    }

    twostate lemma ScheduleComplete(key: seq<bv32>)
      requires words.Length == 120
      requires |key| in {4, 6, 8} && keyLength == 4 * |key| && old(Expanded(key, 4 * |key| + 28))
      requires words[..60] == old(words[..60]) && words[60..64] == words[..4]
      requires forall j | 4 <= j < keyLength + 24 :: words[60 + j] == InvMixColumn(words[j])
      ensures Scheduled(key)
    {
      hide ExpandedWord, InvMixColumn;
      forall j | 0 <= j < keyLength + 28
        ensures words[j] == ExpandedWord(key, j)
      {
        assert words[..60][j] == old(words[..60])[j];
      }
      assert forall j | 0 <= j < 4 :: words[60 + j] == words[60..64][j] && words[j] == words[..4][j];
    }

    ghost predicate RoundBuffers(tab: Tables, bo: array<bv32>, bi: array<bv32>) {
      bo.Length == 4 && bi.Length == 4 && bo != bi && bo != words && bi != words && bo != tab.rcoTab && bi != tab.rcoTab
    }

    /** The four assignments of f_nround. */
    method ForwardWords(tab: Tables, bo: array<bv32>, bi: array<bv32>, kp: nat, ghost s: State, ghost k: State)
      requires tab.Filled() && words.Length == 120 && RoundBuffers(tab, bo, bi)
      requires kp + 4 <= 120 && words[kp..kp + 4] == k && bi[..] == s
      modifies bo
      ensures bo[..] == AddRoundKey(MixColumns(ShiftRows(SubBytes(s))), k)
    {
      hide Xor32, SBox, Pack, Byte, MixColumn, ShiftRows, SubBytes, Tables.Filled, ForwardRound;
      ShiftRowsOfSubBytes(s);
      bo[0] := ForwardRound(tab, bi[0], bi[1], bi[2], bi[3], words[kp]);
      bo[1] := ForwardRound(tab, bi[1], bi[2], bi[3], bi[0], words[kp + 1]);
      bo[2] := ForwardRound(tab, bi[2], bi[3], bi[0], bi[1], words[kp + 2]);
      bo[3] := ForwardRound(tab, bi[3], bi[0], bi[1], bi[2], words[kp + 3]);
    }

    /** f_lround: the last round, without MixColumns. */
    method ForwardLRound(tab: Tables, bo: array<bv32>, bi: array<bv32>, kp: nat, ghost s: State, ghost k: State)
      requires tab.Filled() && words.Length == 120 && RoundBuffers(tab, bo, bi)
      requires kp + 4 <= 120 && words[kp..kp + 4] == k && bi[..] == s
      modifies bo
      ensures bo[..] == AddRoundKey(ShiftRows(SubBytes(s)), k)
    {
      hide Xor32, SBox, Pack, Byte, ShiftRows, SubBytes, Tables.Filled, ForwardLast;
      ShiftRowsOfSubBytes(s);
      bo[0] := ForwardLast(tab, bi[0], bi[1], bi[2], bi[3], words[kp]);
      bo[1] := ForwardLast(tab, bi[1], bi[2], bi[3], bi[0], words[kp + 1]);
      bo[2] := ForwardLast(tab, bi[2], bi[3], bi[0], bi[1], words[kp + 2]);
      bo[3] := ForwardLast(tab, bi[3], bi[0], bi[1], bi[2], words[kp + 3]);
    }

    /** The four assignments of i_nround. */
    method InverseWords(tab: Tables, bo: array<bv32>, bi: array<bv32>, kp: nat, ghost s: State, ghost d: State)
      requires tab.Filled() && words.Length == 120 && RoundBuffers(tab, bo, bi)
      requires kp + 4 <= 60 && words[60 + kp..64 + kp] == d && bi[..] == s
      modifies bo
      ensures bo[..] == AddRoundKey(InvMixColumns(InvSubBytes(InvShiftRows(s))), d)
    {
      hide Xor32, InvSBox, Pack, Byte, InvMixColumn, InvShiftRows, InvSubBytes, Tables.Filled, InverseRound;
      InvSubBytesOfInvShiftRows(s);
      bo[0] := InverseRound(tab, bi[0], bi[3], bi[2], bi[1], words[60 + kp]);
      bo[1] := InverseRound(tab, bi[1], bi[0], bi[3], bi[2], words[61 + kp]);
      bo[2] := InverseRound(tab, bi[2], bi[1], bi[0], bi[3], words[62 + kp]);
      bo[3] := InverseRound(tab, bi[3], bi[2], bi[1], bi[0], words[63 + kp]);
    }

    /** i_lround. */
    method InverseLRound(tab: Tables, bo: array<bv32>, bi: array<bv32>, kp: nat, ghost s: State, ghost d: State)
      requires tab.Filled() && words.Length == 120 && RoundBuffers(tab, bo, bi)
      requires kp + 4 <= 60 && words[60 + kp..64 + kp] == d && bi[..] == s
      modifies bo
      ensures bo[..] == AddRoundKey(InvSubBytes(InvShiftRows(s)), d)
    {
      hide Xor32, InvSBox, Pack, Byte, InvShiftRows, InvSubBytes, Tables.Filled, InverseLast;
      InvSubBytesOfInvShiftRows(s);
      bo[0] := InverseLast(tab, bi[0], bi[3], bi[2], bi[1], words[60 + kp]);
      bo[1] := InverseLast(tab, bi[1], bi[0], bi[3], bi[2], words[61 + kp]);
      bo[2] := InverseLast(tab, bi[2], bi[1], bi[0], bi[3], words[62 + kp]);
      bo[3] := InverseLast(tab, bi[3], bi[2], bi[1], bi[0], words[63 + kp]);
    }

    lemma ScheduledSize(key: seq<bv32>)
      requires Scheduled(key)
      ensures |key| in {4, 6, 8} && keyLength == 4 * |key| && words.Length == 120
    {
    }

    lemma Buffers(tab: Tables, b0: array<bv32>, b1: array<bv32>)
      requires b0.Length == 4 && b1.Length == 4 && b0 != b1 && words !in {b0, b1} && tab.rcoTab !in {b0, b1}
      ensures RoundBuffers(tab, b0, b1) && RoundBuffers(tab, b1, b0)
    {
    }

    lemma ScheduledKeys(key: seq<bv32>, r: nat)
      requires Scheduled(key) && r < |key| + 7
      ensures words[4 * r..4 * r + 4] == KeySchedule(key)[r]
      ensures r == 0 ==> words[60..64] == KeySchedule(key)[0]
      ensures 1 <= r < |key| + 6 ==> words[60 + 4 * r..64 + 4 * r] == InvMixColumns(KeySchedule(key)[r])
    {
      hide ExpandedWord, InvMixColumn;
      var k := KeySchedule(key)[r];
      assert forall j | 0 <= j < 4 :: words[4 * r + j] == k[j];
      assert words[4 * r..4 * r + 4] == k;
    }

    /** r rounds of the cipher are done: the state is in b0 and the next round key at kp. */
    ghost predicate ForwardState(tab: Tables, b0: array<bv32>, b1: array<bv32>, kp: nat, key: seq<bv32>, s: State,
                                 r: nat)
      reads this, words, b0, tab.rcoTab, tab.ftTab, tab.flTab, tab.itTab, tab.ilTab
    {
      && tab.Filled() && Scheduled(key) && RoundBuffers(tab, b0, b1)
      && kp == 4 * (r + 1) && r < |key| + 6
      && b0[..] == Rounds(s, KeySchedule(key), r)
    }

    /** f_nround: one round of the cipher with the key at kp, from bi to bo. */
    method ForwardNRound(tab: Tables, bo: array<bv32>, bi: array<bv32>, kp: nat, ghost key: seq<bv32>, ghost s: State,
                         ghost r: nat)
      returns (kp': nat)
      requires ForwardState(tab, bi, bo, kp, key, s, r) && r + 1 < |key| + 6
      modifies bo
      ensures ForwardState(tab, bo, bi, kp', key, s, r + 1) && kp' == kp + 4
    {
      hide Rounds, AddRoundKey, SubBytes, ShiftRows, MixColumns, Tables.Filled, KeySchedule, Scheduled;
      ScheduledSize(key);
      ScheduledKeys(key, r + 1);
      NextRound(s, KeySchedule(key), r);
      ForwardWords(tab, bo, bi, kp, Rounds(s, KeySchedule(key), r), KeySchedule(key)[r + 1]);
      kp' := kp + 4;
    }

    /** The input block plus the four key words at kp. */
    method AddKeyWords(b: array<bv32>, s: State, kp: nat, ghost k: State)
      requires words.Length == 120 && b.Length == 4 && b != words
      requires kp + 4 <= 120 && words[kp..kp + 4] == k
      modifies b
      ensures b[..] == AddRoundKey(s, k)
    {
      hide Xor32;
      b[0] := Xor32(s[0], words[kp]);
      b[1] := Xor32(s[1], words[kp + 1]);
      b[2] := Xor32(s[2], words[kp + 2]);
      b[3] := Xor32(s[3], words[kp + 3]);
    }

    method ForwardStart(tab: Tables, b0: array<bv32>, b1: array<bv32>, ghost key: seq<bv32>, s: State)
      requires tab.Filled() && Scheduled(key) && RoundBuffers(tab, b0, b1)
      modifies b0
      ensures ForwardState(tab, b0, b1, 4, key, s, 0)
    {
      hide Rounds, AddRoundKey, Tables.Filled, KeySchedule, Scheduled;
      ScheduledSize(key);
      ScheduledKeys(key, 0);
      FirstRound(s, KeySchedule(key));
      AddKeyWords(b0, s, 0, KeySchedule(key)[0]);
    }

    method ForwardEnd(tab: Tables, bo: array<bv32>, bi: array<bv32>, kp: nat, ghost key: seq<bv32>, ghost s: State,
                      ghost r: nat)
      requires ForwardState(tab, bi, bo, kp, key, s, r) && r + 1 == |key| + 6
      modifies bo
      ensures bo[..] == Cipher(s, KeySchedule(key))
    {
      hide Rounds, AddRoundKey, SubBytes, ShiftRows, MixColumns, Tables.Filled, KeySchedule, Scheduled;
      ScheduledSize(key);
      ScheduledKeys(key, r + 1);
      ForwardLRound(tab, bo, bi, kp, Rounds(s, KeySchedule(key), r), KeySchedule(key)[r + 1]);
    }

    /** Two rounds leave the state in b0 again. */
    method ForwardPair(tab: Tables, b0: array<bv32>, b1: array<bv32>, kp: nat, ghost key: seq<bv32>, ghost s: State,
                       ghost r: nat)
      returns (kp': nat)
      requires ForwardState(tab, b0, b1, kp, key, s, r) && r + 2 < |key| + 6
      modifies b0, b1
      ensures ForwardState(tab, b0, b1, kp', key, s, r + 2) && kp' == kp + 8
    {
      hide *;
      kp' := ForwardNRound(tab, b1, b0, kp, key, s, r);
      kp' := ForwardNRound(tab, b0, b1, kp', key, s, r + 1);
    }

    /** aes_encrypt computes the cipher of FIPS 197. */
    method Encrypt(tab: Tables, ghost key: seq<bv32>, block: seq<bv8>) returns (out: seq<bv8>)
      requires tab.Filled() && Scheduled(key)
      requires |block| == 16
      ensures out == BytesOut(Cipher(WordsIn(block), KeySchedule(key)))
    {
      hide *;
      ScheduledSize(key);
      var x: State := WordsIn(block);
      var b0, b1 := new bv32[4], new bv32[4];
      Buffers(tab, b0, b1);
      ForwardStart(tab, b0, b1, key, x);
      var kp := 4;
      ghost var r := 0;
      if keyLength > 24 {
        kp := ForwardPair(tab, b0, b1, kp, key, x, r);
        r := r + 2;
      }
      if keyLength > 16 {
        kp := ForwardPair(tab, b0, b1, kp, key, x, r);
        r := r + 2;
      }
      kp := ForwardPair(tab, b0, b1, kp, key, x, r);
      kp := ForwardPair(tab, b0, b1, kp, key, x, r + 2);
      kp := ForwardPair(tab, b0, b1, kp, key, x, r + 4);
      kp := ForwardPair(tab, b0, b1, kp, key, x, r + 6);
      kp := ForwardNRound(tab, b1, b0, kp, key, x, r + 8);
      ForwardEnd(tab, b0, b1, kp, key, x, r + 9);
      out := BytesOut(b0[..]);
    }

    /** The equivalent inverse cipher is about to take back round r + 1: its state is in b0. */
    ghost predicate InverseState(tab: Tables, b0: array<bv32>, b1: array<bv32>, kp: int, key: seq<bv32>, s: State,
                                 r: nat)
      reads this, words, b0, tab.rcoTab, tab.ftTab, tab.flTab, tab.itTab, tab.ilTab
    {
      && tab.Filled() && Scheduled(key) && RoundBuffers(tab, b0, b1)
      && kp == 4 * r && r < |key| + 6
      && b0[..] == InvRoundInput(s, KeySchedule(key), r)
    }

    method InverseStart(tab: Tables, b0: array<bv32>, b1: array<bv32>, ghost key: seq<bv32>, s: State)
      requires tab.Filled() && Scheduled(key) && RoundBuffers(tab, b0, b1)
      modifies b0
      ensures InverseState(tab, b0, b1, keyLength + 20, key, s, |key| + 5)
    {
      hide InvRoundInput, AddRoundKey, InvMixColumns, Tables.Filled, KeySchedule, Scheduled;
      ScheduledSize(key);
      ScheduledKeys(key, |key| + 6);
      FirstInvRound(s, KeySchedule(key));
      AddKeyWords(b0, s, keyLength + 24, KeySchedule(key)[|key| + 6]);
    }

    /** i_nround: one round of the equivalent inverse cipher with the transformed key at kp, from bi to bo. */
    method InverseNRound(tab: Tables, bo: array<bv32>, bi: array<bv32>, kp: nat, ghost key: seq<bv32>, ghost s: State,
                         ghost r: nat)
      returns (kp': nat)
      requires InverseState(tab, bi, bo, kp, key, s, r) && r > 0
      modifies bo
      ensures InverseState(tab, bo, bi, kp', key, s, r - 1) && kp' == kp - 4
    {
      hide InvRoundInput, AddRoundKey, InvSubBytes, InvShiftRows, InvMixColumns, Tables.Filled, KeySchedule, Scheduled;
      ScheduledSize(key);
      ScheduledKeys(key, r);
      NextInvRound(s, KeySchedule(key), r);
      InverseWords(tab, bo, bi, kp, InvRoundInput(s, KeySchedule(key), r), InvMixColumns(KeySchedule(key)[r]));
      kp' := kp - 4;
    }

    method InverseEnd(tab: Tables, bo: array<bv32>, bi: array<bv32>, kp: nat, ghost key: seq<bv32>, ghost s: State)
      requires InverseState(tab, bi, bo, kp, key, s, 0)
      modifies bo
      ensures bo[..] == InvCipher(s, KeySchedule(key))
    {
      hide InvRoundInput, AddRoundKey, InvSubBytes, InvShiftRows, InvMixColumns, Tables.Filled, KeySchedule, Scheduled;
      ScheduledSize(key);
      ScheduledKeys(key, 0);
      InverseLRound(tab, bo, bi, kp, InvRoundInput(s, KeySchedule(key), 0), KeySchedule(key)[0]);
    }

    /** Two rounds leave the state in b0 again. */
    method InversePair(tab: Tables, b0: array<bv32>, b1: array<bv32>, kp: nat, ghost key: seq<bv32>, ghost s: State,
                       ghost r: nat)
      returns (kp': nat)
      requires InverseState(tab, b0, b1, kp, key, s, r) && r > 1
      modifies b0, b1
      ensures InverseState(tab, b0, b1, kp', key, s, r - 2) && kp' == kp - 8
    {
      hide *;
      kp' := InverseNRound(tab, b1, b0, kp, key, s, r);
      kp' := InverseNRound(tab, b0, b1, kp', key, s, r - 1);
    }

    /** aes_decrypt, with its transformed keys and fused tables, computes the inverse cipher of FIPS 197. */
    method Decrypt(tab: Tables, ghost key: seq<bv32>, block: seq<bv8>) returns (out: seq<bv8>)
      requires tab.Filled() && Scheduled(key)
      requires |block| == 16
      ensures out == BytesOut(InvCipher(WordsIn(block), KeySchedule(key)))
    {
      hide *;
      ScheduledSize(key);
      var x: State := WordsIn(block);
      var b0, b1 := new bv32[4], new bv32[4];
      Buffers(tab, b0, b1);
      InverseStart(tab, b0, b1, key, x);
      var kp := keyLength + 20;
      ghost var r := |key| + 5;
      if keyLength > 24 {
        kp := InversePair(tab, b0, b1, kp, key, x, r);
        r := r - 2;
      }
      if keyLength > 16 {
        kp := InversePair(tab, b0, b1, kp, key, x, r);
        r := r - 2;
      }
      kp := InversePair(tab, b0, b1, kp, key, x, r);
      kp := InversePair(tab, b0, b1, kp, key, x, r - 2);
      kp := InversePair(tab, b0, b1, kp, key, x, r - 4);
      kp := InversePair(tab, b0, b1, kp, key, x, r - 6);
      kp := InverseNRound(tab, b1, b0, kp, key, x, r - 8);
      InverseEnd(tab, b0, b1, kp, key, x);
      out := BytesOut(b0[..]);
    }

    /** loop4, loop6 and loop8: one block of key words from the one before. */
    method ExpandBlock(tab: Tables, ghost key: seq<bv32>, nk: nat, i: nat, t0: bv32) returns (t: bv32)
      requires tab.Filled() && words.Length == 120 && words != tab.rcoTab
      requires nk in {4, 6, 8} && |key| == nk && i < 10 && nk * (i + 1) + nk <= 64
      requires Expanded(key, nk * (i + 1)) && t0 == ExpandedWord(key, nk * (i + 1) - 1)
      modifies words
      ensures Expanded(key, nk * (i + 2)) && t == ExpandedWord(key, nk * (i + 2) - 1)
    {
      hide *;
      var base := nk * i;
      assert nk * (i + 1) == base + nk && nk * (i + 2) == base + 2 * nk;
      t := ExpandFirst(tab, key, nk, i, base, t0);
      var j := 1;
      while j < nk
        invariant 1 <= j <= nk
        invariant tab.Filled()
        invariant Expanded(key, base + nk + j) && t == ExpandedWord(key, base + nk + j - 1)
      {
        t := ExpandNext(tab, key, nk, i, base, j, t);
        j := j + 1;
      }
    }

    method ExpandFirst(tab: Tables, ghost key: seq<bv32>, nk: nat, i: nat, base: nat, t0: bv32) returns (t: bv32)
      requires tab.Filled() && words.Length == 120 && words != tab.rcoTab
      requires nk in {4, 6, 8} && |key| == nk && i < 10 && base == nk * i && base + 2 * nk <= 64
      requires Expanded(key, base + nk) && t0 == ExpandedWord(key, base + nk - 1)
      modifies words
      ensures tab.Filled() && Expanded(key, base + nk + 1) && t == ExpandedWord(key, base + nk)
    {
      hide Xor32, Rotr32, RotWord, SubWord, Place, ExpandedWord, Tables.MixFilled, LsBox;
      ExpandHead(key, i, base);
      RotrIsRotWord(t0);
      t := Rotr32(t0, 8);
      t := Xor32(LsBox(tab, t), tab.rcoTab[i]);
      t := Xor32(t, words[base]);
      words[base + nk] := t;
    }

    method ExpandNext(tab: Tables, ghost key: seq<bv32>, nk: nat, ghost i: nat, base: nat, j: nat, t0: bv32)
      returns (t: bv32)
      requires tab.Filled() && words.Length == 120 && words != tab.rcoTab
      requires nk in {4, 6, 8} && |key| == nk && base == nk * i && base + 2 * nk <= 64 && 1 <= j < nk
      requires Expanded(key, base + nk + j) && t0 == ExpandedWord(key, base + nk + j - 1)
      modifies words
      ensures tab.Filled() && Expanded(key, base + nk + j + 1) && t == ExpandedWord(key, base + nk + j)
    {
      hide Xor32, SubWord, ExpandedWord, Tables.MixFilled, Tables.RconFilled, LsBox;
      ExpandTail(key, i, base, j);
      if nk == 8 && j == 4 {
        Xor32Commutes(words[base + j], LsBox(tab, t0));
        t := Xor32(words[base + j], LsBox(tab, t0));
      } else {
        t := Xor32(t0, words[base + j]);
      }
      words[base + nk + j] := t;
    }
  }

  lemma ExpandHead(key: seq<bv32>, i: nat, base: nat)
    requires |key| > 0 && base == |key| * i
    ensures ExpandedWord(key, base + |key|) == Xor32(
      Xor32(SubWord(RotWord(ExpandedWord(key, base + |key| - 1))), Place(0, XPow(i))), ExpandedWord(key, base))
  {
    hide Xor32, SubWord, RotWord, Place, ExpandedWord;
    BlockIndex(|key|, i, 0);
    ExpandStep(key, base + |key|);
  }

  /** The words of the expanded key that the round constants go into: the first after the key, and every Nk-th. */
  lemma ConstantWords(key: seq<bv32>, j: nat, base: nat)
    requires |key| > 0 && j < 10 && base == |key| * j
    ensures ExpandedWord(key, base + |key|) == Xor32(
      Xor32(SubWord(RotWord(ExpandedWord(key, base + |key| - 1))), Rcon(j)), ExpandedWord(key, base))
  {
    hide *;
    ExpandHead(key, j, base);
    RoundConstants(j);
  }

  lemma ExpandTail(key: seq<bv32>, i: nat, base: nat, j: nat)
    requires |key| > 0 && base == |key| * i && 1 <= j < |key|
    ensures ExpandedWord(key, base + |key| + j) == Xor32(
      if |key| > 6 && j == 4 then SubWord(ExpandedWord(key, base + |key| + j - 1))
      else ExpandedWord(key, base + |key| + j - 1),
      ExpandedWord(key, base + j))
  {
    hide Xor32, SubWord, RotWord, Place, ExpandedWord;
    BlockIndex(|key|, i, j);
    ExpandStep(key, base + |key| + j);
  }

  lemma FirstRound(s: State, keys: seq<State>)
    requires |keys| > 0
    ensures Rounds(s, keys, 0) == AddRoundKey(s, keys[0])
  {
    hide AddRoundKey;
  }

  lemma NextRound(s: State, keys: seq<State>, r: nat)
    requires r + 1 < |keys|
    ensures Rounds(s, keys, r + 1) == AddRoundKey(MixColumns(ShiftRows(SubBytes(Rounds(s, keys, r)))), keys[r + 1])
  {
    hide AddRoundKey, MixColumns, ShiftRows, SubBytes;
  }

  lemma FirstInvRound(s: State, keys: seq<State>)
    requires |keys| >= 2
    ensures InvRoundInput(s, keys, |keys| - 2) == AddRoundKey(s, keys[|keys| - 1])
  {
    hide AddRoundKey, InvMixColumns;
  }

  /** One round of the equivalent inverse cipher, with the round key transformed. */
  lemma NextInvRound(s: State, keys: seq<State>, r: nat)
    requires 1 <= r < |keys| - 1
    ensures InvRoundInput(s, keys, r - 1)
         == AddRoundKey(InvMixColumns(InvSubBytes(InvShiftRows(InvRoundInput(s, keys, r)))), InvMixColumns(keys[r]))
  {
    hide AddRoundKey, InvMixColumns, InvShiftRows, InvSubBytes;
    InvMixColumnsOfAddRoundKey(InvRounds(s, keys, r), keys[r]);
  }

  lemma FirstWords(key: seq<bv32>)
    requires |key| > 0
    ensures forall i | 0 <= i < |key| :: ExpandedWord(key, i) == key[i]
  {
    hide Xor32, ScheduleCore;
  }

  lemma ExpandStep(key: seq<bv32>, i: nat)
    requires |key| > 0 && i / |key| >= 1 && i >= |key|
    ensures ExpandedWord(key, i)
         == Xor32(ScheduleCore(|key|, i, ExpandedWord(key, i - 1)), ExpandedWord(key, i - |key|))
  {
    hide Xor32, ScheduleCore;
  }

  /** What aes_encrypt and aes_decrypt compute with the key words key, by their contracts. */
  ghost function EncryptBlock(key: seq<bv32>, block: seq<bv8>): (out: seq<bv8>)
    requires |key| > 0 && |block| == 16
    ensures |out| == 16
  {
    BytesOut(Cipher(WordsIn(block), KeySchedule(key)))
  }

  ghost function DecryptBlock(key: seq<bv32>, block: seq<bv8>): (out: seq<bv8>)
    requires |key| > 0 && |block| == 16
    ensures |out| == 16
  {
    BytesOut(InvCipher(WordsIn(block), KeySchedule(key)))
  }

  /** For every key and every block, decryption undoes encryption and encryption undoes decryption. */
  lemma AesRoundTrip(key: seq<bv32>, block: seq<bv8>)
    requires |key| > 0 && |block| == 16
    ensures DecryptBlock(key, EncryptBlock(key, block)) == block
    ensures EncryptBlock(key, DecryptBlock(key, block)) == block
  {
    hide WordsIn, BytesOut, Cipher, InvCipher, KeySchedule;
    var keys := KeySchedule(key);
    var s: State := WordsIn(block);
    WordsOfBytes(Cipher(s, keys));
    WordsOfBytes(InvCipher(s, keys));
    CipherInverse(s, keys);
    BytesOfWords(block);
  }

  /** The code on itself: what aes_encrypt makes of a block under a key, aes_decrypt turns back, for every key that
      aes_set_key accepts. */
  method EncryptDecrypt(tab: Tables, ctx: AesCtx, inKey: seq<bv8>, block: seq<bv8>) returns (ok: bool, back: seq<bv8>)
    requires tab.Filled() && ctx.words.Length == 120 && ctx.words != tab.rcoTab && |block| == 16
    modifies ctx, ctx.words
    ensures ok <==> |inKey| in {16, 24, 32}
    ensures ok ==> back == block
  {
    hide *;
    ok := ctx.SetKey(tab, inKey);
    back := [];
    if ok {
      KeyWords(inKey);
      ghost var key := WordsIn(inKey);
      var out := ctx.Encrypt(tab, key, block);
      EncryptBlockIs(key, block);
      back := ctx.Decrypt(tab, key, out);
      EncryptBlockIs(key, out);
      AesRoundTrip(key, block);
    }
  }

  lemma KeyWords(inKey: seq<bv8>)
    requires |inKey| in {16, 24, 32}
    ensures |inKey| % 4 == 0 && |WordsIn(inKey)| > 0
  {
  }

  lemma EncryptBlockIs(key: seq<bv32>, block: seq<bv8>)
    requires |key| > 0 && |block| == 16
    ensures EncryptBlock(key, block) == BytesOut(Cipher(WordsIn(block), KeySchedule(key)))
    ensures DecryptBlock(key, block) == BytesOut(InvCipher(WordsIn(block), KeySchedule(key)))
  {
  }
}
