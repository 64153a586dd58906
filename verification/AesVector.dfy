/** The known answer of appendix C.1 of FIPS 197, which crypto/tcrypt.h has too, round by round. */
module AesVector {
  import opened Words
  import opened Gf8
  import opened AesSpec
  import opened Aes

  // ---- products and the S-box at given bytes

  function Horner(a: bv8, b: bv8, rest: bv8): bv8 {
    Xor(LowBit(a, b), XTime(rest))
  }

  /** The product, unrolled. */
  function Times(a: bv8, b: bv8): bv8 {
    var a1 := Half(a); var a2 := Half(a1); var a3 := Half(a2); var a4 := Half(a3);
    Horner(a, b, Horner(a1, b, Horner(a2, b, Horner(a3, b, High(a4, b)))))
  }

  function High(a: bv8, b: bv8): bv8 {
    var a1 := Half(a); var a2 := Half(a1); var a3 := Half(a2);
    Horner(a, b, Horner(a1, b, Horner(a2, b, Horner(a3, b, 0))))
  }

  lemma TimesIs(a: bv8, b: bv8)
    ensures Mul(a, b) == Times(a, b)
  {
    hide MulBits, Xor, LowBit, XTime, Half;
    var a1 := Half(a);
    var a2 := Half(a1);
    var a3 := Half(a2);
    var a4 := Half(a3);
    var a5 := Half(a4);
    var a6 := Half(a5);
    var a7 := Half(a6);
    MulBitsUnfold(8, a, b);
    MulBitsUnfold(7, a1, b);
    MulBitsUnfold(6, a2, b);
    MulBitsUnfold(5, a3, b);
    MulBitsUnfold(4, a4, b);
    MulBitsUnfold(3, a5, b);
    MulBitsUnfold(2, a6, b);
    MulBitsUnfold(1, a7, b);
    MulNone(Half(a7), b);
  }

  lemma MulNone(a: bv8, b: bv8)
    ensures MulBits(0, a, b) == 0
  {
  }

  predicate Inverts(b: bv8, v: bv8) {
    if b == 0 then v == 0 else Times(b, v) == 1
  }

  lemma SBoxAt(b: bv8, v: bv8)
    requires Inverts(b, v)
    ensures SBox(b) == Affine(v)
  {
    hide Affine, Mul, Times, Inverse;
    TimesIs(b, v);
    InverseUnique(b, v);
  }

  /** SubWord at a word, given the inverses of its bytes. */
  lemma SubAt(w: bv32, v: bv32, sub: bv32)
    requires Inverts(Byte(w, 0), Byte(v, 0)) && Inverts(Byte(w, 1), Byte(v, 1))
    requires Inverts(Byte(w, 2), Byte(v, 2)) && Inverts(Byte(w, 3), Byte(v, 3))
    requires sub == Pack(Affine(Byte(v, 0)), Affine(Byte(v, 1)), Affine(Byte(v, 2)), Affine(Byte(v, 3)))
    ensures SubWord(w) == sub
  {
    hide Affine, Pack, Byte, Inverts, SBox;
    SBoxAt(Byte(w, 0), Byte(v, 0));
    SBoxAt(Byte(w, 1), Byte(v, 1));
    SBoxAt(Byte(w, 2), Byte(v, 2));
    SBoxAt(Byte(w, 3), Byte(v, 3));
  }

  // ---- the key schedule

  ghost predicate Expanded(key: seq<bv32>, r: nat, k0: bv32, k1: bv32, k2: bv32, k3: bv32)
    requires |key| > 0
  {
    && ExpandedWord(key, 4 * r) == k0 && ExpandedWord(key, 4 * r + 1) == k1
    && ExpandedWord(key, 4 * r + 2) == k2 && ExpandedWord(key, 4 * r + 3) == k3
  }

  lemma NextKey(key: seq<bv32>, r: nat, k0: bv32, k1: bv32, k2: bv32, k3: bv32, rcon: bv8, sub: bv32,
                l0: bv32, l1: bv32, l2: bv32, l3: bv32)
    requires |key| == 4 && Expanded(key, r, k0, k1, k2, k3) && XPow(r) == rcon && SubWord(RotWord(k3)) == sub
    requires l0 == Xor32(Xor32(sub, Place(0, rcon)), k0) && l1 == Xor32(l0, k1) && l2 == Xor32(l1, k2)
    requires l3 == Xor32(l2, k3)
    ensures Expanded(key, r + 1, l0, l1, l2, l3) && XPow(r + 1) == XTime(rcon)
  {
    hide Xor32, ExpandedWord, SubWord, RotWord, Place, XTime;
    ExpandHead(key, r, 4 * r);
    ExpandTail(key, r, 4 * r, 1);
    ExpandTail(key, r, 4 * r, 2);
    ExpandTail(key, r, 4 * r, 3);
    assert 4 * (r + 1) == 4 * r + 4;
  }

  lemma FirstKey(key: seq<bv32>)
    requires |key| == 4
    ensures Expanded(key, 0, key[0], key[1], key[2], key[3]) && XPow(0) == 1
  {
    hide ExpandedWord;
    FirstWords(key);
  }

  // ---- the rounds

  function Mixed(w: bv32): bv32 {
    var a, b, c, d := Byte(w, 0), Byte(w, 1), Byte(w, 2), Byte(w, 3);
    Pack(Sum4(XTime(a), Mul3(b), c, d), Sum4(a, XTime(b), Mul3(c), d), Sum4(a, b, XTime(c), Mul3(d)),
         Sum4(Mul3(a), b, c, XTime(d)))
  }

  lemma MixedIs(w: bv32)
    ensures MixColumn(w) == Mixed(w)
  {
    hide Mul, XTime, Mul3, Pack, Byte, Sum4;
    MulSmall(Byte(w, 0));
    MulSmall(Byte(w, 1));
    MulSmall(Byte(w, 2));
    MulSmall(Byte(w, 3));
  }

  ghost predicate At(s: State, keys: seq<State>, r: nat, t0: bv32, t1: bv32, t2: bv32, t3: bv32) {
    && r < |keys| && Rounds(s, keys, r)[0] == t0 && Rounds(s, keys, r)[1] == t1
    && Rounds(s, keys, r)[2] == t2 && Rounds(s, keys, r)[3] == t3
  }

  function Column(a: bv32, b: bv32, c: bv32, d: bv32): bv32 {
    Pack(Byte(a, 0), Byte(b, 1), Byte(c, 2), Byte(d, 3))
  }

  lemma NextState(s: State, keys: seq<State>, r: nat, t0: bv32, t1: bv32, t2: bv32, t3: bv32,
                  u0: bv32, u1: bv32, u2: bv32, u3: bv32)
    requires r + 1 < |keys| && At(s, keys, r, t0, t1, t2, t3)
    requires SubWord(t0) == u0 && SubWord(t1) == u1 && SubWord(t2) == u2 && SubWord(t3) == u3
    ensures At(s, keys, r + 1, Xor32(Mixed(Column(u0, u1, u2, u3)), keys[r + 1][0]),
               Xor32(Mixed(Column(u1, u2, u3, u0)), keys[r + 1][1]),
               Xor32(Mixed(Column(u2, u3, u0, u1)), keys[r + 1][2]),
               Xor32(Mixed(Column(u3, u0, u1, u2)), keys[r + 1][3]))
  {
    hide Xor32, SubWord, Byte, Pack, Mixed, MixColumn, Rounds;
    MixedIs(Column(u0, u1, u2, u3));
    MixedIs(Column(u1, u2, u3, u0));
    MixedIs(Column(u2, u3, u0, u1));
    MixedIs(Column(u3, u0, u1, u2));
    NextRound(s, keys, r);
  }

  lemma Keys1To5(key: seq<bv32>)
    requires |key| == 4 && Expanded(key, 0, 0x03020100, 0x07060504, 0x0b0a0908, 0x0f0e0d0c) && XPow(0) == 0x01
    ensures Expanded(key, 1, 0xfd74aad6, 0xfa72afd2, 0xf178a6da, 0xfe76abd6)
    ensures Expanded(key, 2, 0x0bcf92b6, 0xf1bd3d64, 0x00c59bbe, 0xfeb33068)
    ensures Expanded(key, 3, 0x4e74ffb6, 0xbfc9c2d2, 0xbf0c596c, 0x41bf6904)
    ensures Expanded(key, 4, 0xbcf7f747, 0x033e3595, 0xbc326cf9, 0xfd8d05fd)
    ensures Expanded(key, 5, 0xe8a3aa3c, 0xeb9d9fa9, 0x57aff350, 0xaa22f6ad)
    ensures XPow(5) == 0x20
  {
    hide Expanded, SubWord;
    SubAt(0x0c0f0e0d, 0xb0c7e5e1, 0xfe76abd7);
    NextKey(key, 0, 0x03020100, 0x07060504, 0x0b0a0908, 0x0f0e0d0c, 0x01, 0xfe76abd7, 0xfd74aad6, 0xfa72afd2,
            0xf178a6da, 0xfe76abd6);
    SubAt(0xd6fe76ab, 0xe241ba4a, 0xf6bb3862);
    NextKey(key, 1, 0xfd74aad6, 0xfa72afd2, 0xf178a6da, 0xfe76abd6, 0x02, 0xf6bb3862, 0x0bcf92b6, 0xf1bd3d64,
            0x00c59bbe, 0xfeb33068);
    SubAt(0x68feb330, 0xf441ef2c, 0x45bb6d04);
    NextKey(key, 2, 0x0bcf92b6, 0xf1bd3d64, 0x00c59bbe, 0xfeb33068, 0x04, 0x45bb6d04, 0x4e74ffb6, 0xbfc9c2d2,
            0xbf0c596c, 0x41bf6904);
    SubAt(0x0441bf69, 0xcbfe5747, 0xf28308f9);
    NextKey(key, 3, 0x4e74ffb6, 0xbfc9c2d2, 0xbf0c596c, 0x41bf6904, 0x08, 0xf28308f9, 0xbcf7f747, 0x033e3595,
            0xbc326cf9, 0xfd8d05fd);
    SubAt(0xfdfd8d05, 0x1a1a0252, 0x54545d6b);
    NextKey(key, 4, 0xbcf7f747, 0x033e3595, 0xbc326cf9, 0xfd8d05fd, 0x10, 0x54545d6b, 0xe8a3aa3c, 0xeb9d9fa9,
            0x57aff350, 0xaa22f6ad);
  }

  lemma Keys6To10(key: seq<bv32>)
    requires |key| == 4 && Expanded(key, 5, 0xe8a3aa3c, 0xeb9d9fa9, 0x57aff350, 0xaa22f6ad) && XPow(5) == 0x20
    ensures Expanded(key, 6, 0x7d0f395e, 0x9692a6f7, 0xc13d55a7, 0x6b1fa30a)
    ensures Expanded(key, 7, 0x1a70f914, 0x8ce25fe3, 0x4ddf0a44, 0x26c0a94e)
    ensures Expanded(key, 8, 0x35874347, 0xb9651ca4, 0xf4ba16e0, 0xd27abfae)
    ensures Expanded(key, 9, 0xd1329954, 0x685785f0, 0x9ced9310, 0x4e972cbe)
    ensures Expanded(key, 10, 0x7f1d1113, 0x174a94e3, 0x8ba707f3, 0xc5302b4d)
    ensures XPow(10) == 0x6c
  {
    hide Expanded, SubWord;
    SubAt(0xadaa22f6, 0xe7125a03, 0x95ac9342);
    NextKey(key, 5, 0xe8a3aa3c, 0xeb9d9fa9, 0x57aff350, 0xaa22f6ad, 0x20, 0x95ac9342, 0x7d0f395e, 0x9692a6f7,
            0xc13d55a7, 0x6b1fa30a);
    SubAt(0x0a6b1fa3, 0x29dfb2c3, 0x677fc00a);
    NextKey(key, 6, 0x7d0f395e, 0x9692a6f7, 0xc13d55a7, 0x6b1fa30a, 0x40, 0x677fc00a, 0x1a70f914, 0x8ce25fe3,
            0x4ddf0a44, 0x26c0a94e);
    SubAt(0x4e26c0a9, 0xe9a80bc8, 0x2ff7bad3);
    NextKey(key, 7, 0x1a70f914, 0x8ce25fe3, 0x4ddf0a44, 0x26c0a94e, 0x80, 0x2ff7bad3, 0x35874347, 0xb9651ca4,
            0xf4ba16e0, 0xd27abfae);
    SubAt(0xaed27abf, 0xd2aed057, 0xe4b5da08);
    NextKey(key, 8, 0x35874347, 0xb9651ca4, 0xf4ba16e0, 0xd27abfae, 0x1b, 0xe4b5da08, 0xd1329954, 0x685785f0,
            0x9ced9310, 0x4e972cbe);
    SubAt(0xbe4e972c, 0x86e97230, 0xae2f8871);
    NextKey(key, 9, 0xd1329954, 0x685785f0, 0x9ced9310, 0x4e972cbe, 0x36, 0xae2f8871, 0x7f1d1113, 0x174a94e3,
            0x8ba707f3, 0xc5302b4d);
  }

  lemma Round1(s: State, keys: seq<State>)
    requires |keys| == 11 && At(s, keys, 0, 0x30201000, 0x70605040, 0xb0a09080, 0xf0e0d0c0)
    requires keys[1] == [0xfd74aad6, 0xfa72afd2, 0xf178a6da, 0xfe76abd6]
    ensures At(s, keys, 1, 0xe810d889, 0x68ce5a85, 0xd843182d, 0xe48f12cb)
  {
    hide At, SubWord;
    SubAt(0x30201000, 0x2c3a7400, 0x04b7ca63);
    SubAt(0x70605040, 0x7916ed1d, 0x51d05309);
    SubAt(0xb0a09080, 0x0cfbde83, 0xe7e060cd);
    SubAt(0xf0e0d0c0, 0x5bb17a0b, 0x8ce170ba);
    NextState(s, keys, 0, 0x30201000, 0x70605040, 0xb0a09080, 0xf0e0d0c0, 0x04b7ca63, 0x51d05309, 0xe7e060cd,
              0x8ce170ba);
  }

  lemma Round2(s: State, keys: seq<State>)
    requires |keys| == 11 && At(s, keys, 1, 0xe810d889, 0x68ce5a85, 0xd843182d, 0xe48f12cb)
    requires keys[2] == [0x0bcf92b6, 0xf1bd3d64, 0x00c59bbe, 0xfeb33068]
    ensures At(s, keys, 2, 0x8f591549, 0xa0d7e555, 0xfa94cada, 0xf7630a1f)
  {
    hide At, SubWord;
    SubAt(0xe810d889, 0x0874949e, 0x9bca61a7);
    SubAt(0x68ce5a85, 0xf4ac2273, 0x458bbe97);
    SubAt(0xd843182d, 0x94675844, 0x611aadd8);
    SubAt(0xe48f12cb, 0xc6a4aa04, 0x6973c91f);
    NextState(s, keys, 1, 0xe810d889, 0x68ce5a85, 0xd843182d, 0xe48f12cb, 0x9bca61a7, 0x458bbe97, 0x611aadd8,
              0x6973c91f);
  }

  lemma Round3(s: State, keys: seq<State>)
    requires |keys| == 11 && At(s, keys, 2, 0x8f591549, 0xa0d7e555, 0xfa94cada, 0xf7630a1f)
    requires keys[3] == [0x4e74ffb6, 0xbfc9c2d2, 0xbf0c596c, 0x41bf6904]
    ensures At(s, keys, 3, 0x286a63fa, 0xc939b325, 0x318a6640, 0x174d2457)
  {
    hide At, SubWord;
    SubAt(0x8f591549, 0xa43e2b64, 0x73cb593b);
    SubAt(0xa0d7e555, 0xfbea0e24, 0xe00ed9fc);
    SubAt(0xfa94cada, 0x7dd853c4, 0x2d227457);
    SubAt(0xf7630a1f, 0x8cd329b2, 0x68fb67c0);
    NextState(s, keys, 2, 0x8f591549, 0xa0d7e555, 0xfa94cada, 0xf7630a1f, 0x73cb593b, 0xe00ed9fc, 0x2d227457,
              0x68fb67c0);
  }

  lemma Round4(s: State, keys: seq<State>)
    requires |keys| == 11 && At(s, keys, 3, 0x286a63fa, 0xc939b325, 0x318a6640, 0x174d2457)
    requires keys[4] == [0xbcf7f747, 0x033e3595, 0xbc326cf9, 0xfd8d05fd]
    ensures At(s, keys, 4, 0x23407224, 0xfab36669, 0x3275d26e, 0x6c5b4288)
  {
    hide At, SubWord;
    SubAt(0x286a63fa, 0xc191d37d, 0x3402fb2d);
    SubAt(0xc939b325, 0x2735ef4d, 0xdd126d3f);
    SubAt(0x318a6640, 0x4595361d, 0xc77e3309);
    SubAt(0x174d2457, 0x5f2555bf, 0xf0e3365b);
    NextState(s, keys, 3, 0x286a63fa, 0xc939b325, 0x318a6640, 0x174d2457, 0x3402fb2d, 0xdd126d3f, 0xc77e3309,
              0xf0e3365b);
  }

  lemma Round5(s: State, keys: seq<State>)
    requires |keys| == 11 && At(s, keys, 4, 0x23407224, 0xfab36669, 0x3275d26e, 0x6c5b4288)
    requires keys[5] == [0xe8a3aa3c, 0xeb9d9fa9, 0x57aff350, 0xaa22f6ad]
    ensures At(s, keys, 5, 0xbc7716c8, 0x3bc97a9b, 0x92790225, 0x961926b0)
  {
    hide At, SubWord;
    SubAt(0x23407224, 0xf11d9755, 0x26094036);
    SubAt(0xfab36669, 0x7def3647, 0x2d6d33f9);
    SubAt(0x3275d26e, 0x92b5ae21, 0x239db59f);
    SubAt(0x6c5b4288, 0x33f0379b, 0x50392cc4);
    NextState(s, keys, 4, 0x23407224, 0xfab36669, 0x3275d26e, 0x6c5b4288, 0x26094036, 0x2d6d33f9, 0x239db59f,
              0x50392cc4);
  }

  lemma Round6(s: State, keys: seq<State>)
    requires |keys| == 11 && At(s, keys, 5, 0xbc7716c8, 0x3bc97a9b, 0x92790225, 0x961926b0)
    requires keys[6] == [0x7d0f395e, 0x9692a6f7, 0xc13d55a7, 0x6b1fa30a]
    ensures At(s, keys, 6, 0x09e12fc6, 0xc3ed5ef7, 0x5d3979cc, 0x5dcff984)
  {
    hide At, SubWord;
    SubAt(0xbc7716c8, 0xbd3c60a9, 0x65f547e8);
    SubAt(0x3bc97a9b, 0x6f27d088, 0xe2ddda14);
    SubAt(0x92790225, 0x32708d4d, 0x4fb6773f);
    SubAt(0x961926b0, 0x843fa80c, 0x90d4f7e7);
    NextState(s, keys, 5, 0xbc7716c8, 0x3bc97a9b, 0x92790225, 0x961926b0, 0x65f547e8, 0xe2ddda14, 0x4fb6773f,
              0x90d4f7e7);
  }

  lemma Round7(s: State, keys: seq<State>)
    requires |keys| == 11 && At(s, keys, 6, 0x09e12fc6, 0xc3ed5ef7, 0x5d3979cc, 0x5dcff984)
    requires keys[7] == [0x1a70f914, 0x8ce25fe3, 0x4ddf0a44, 0x26c0a94e]
    ensures At(s, keys, 7, 0x0f6c87d1, 0x0a30c479, 0xad9455b4, 0x1ff46fd6)
  {
    hide At, SubWord;
    SubAt(0x09e12fc6, 0x4f0dc2e4, 0x01f815b4);
    SubAt(0xc3ed5ef7, 0xa350618c, 0x2e555868);
    SubAt(0x5d3979cc, 0xec35701b, 0x4c12b64b);
    SubAt(0x5dcff984, 0xece69c96, 0x4c8a995f);
    NextState(s, keys, 6, 0x09e12fc6, 0xc3ed5ef7, 0x5d3979cc, 0x5dcff984, 0x01f815b4, 0x2e555868, 0x4c12b64b,
              0x4c8a995f);
  }

  lemma Round8(s: State, keys: seq<State>)
    requires |keys| == 11 && At(s, keys, 7, 0x0f6c87d1, 0x0a30c479, 0xad9455b4, 0x1ff46fd6)
    requires keys[8] == [0x35874347, 0xb9651ca4, 0xf4ba16e0, 0xd27abfae]
    ensures At(s, keys, 8, 0xd2bae3fd, 0xd7d0e505, 0x4e964735, 0xf137fef1)
  {
    hide At, SubWord;
    SubAt(0x0f6c87d1, 0xc7335607, 0x7650173e);
    SubAt(0x0a30c479, 0x292cda70, 0x67041cb6);
    SubAt(0xad9455b4, 0xe7d82411, 0x9522fc8d);
    SubAt(0x1ff46fd6, 0xb2683be2, 0xc0bfa8f6);
    NextState(s, keys, 7, 0x0f6c87d1, 0x0a30c479, 0xad9455b4, 0x1ff46fd6, 0x7650173e, 0x67041cb6, 0x9522fc8d,
              0xc0bfa8f6);
  }

  lemma Round9(s: State, keys: seq<State>)
    requires |keys| == 11 && At(s, keys, 8, 0xd2bae3fd, 0xd7d0e505, 0x4e964735, 0xf137fef1)
    requires keys[9] == [0xd1329954, 0x685785f0, 0x9ced9310, 0x4e972cbe]
    ensures At(s, keys, 9, 0x3d7c6ebd, 0x9e77b5f2, 0x6e21610b, 0x89b6108b)
  {
    hide At, SubWord;
    SubAt(0xd2bae3fd, 0xae76eb1a, 0xb5f41154);
    SubAt(0xd7d0e505, 0xea7a0e52, 0x0e70d96b);
    SubAt(0x4e964735, 0xe9846939, 0x2f90a096);
    SubAt(0xf137fef1, 0x23424123, 0xa19abba1);
    NextState(s, keys, 8, 0xd2bae3fd, 0xd7d0e505, 0x4e964735, 0xf137fef1, 0xb5f41154, 0x0e70d96b, 0x2f90a096,
              0xa19abba1);
  }

  lemma LastState(s: State, keys: seq<State>)
    requires |keys| == 11 && At(s, keys, 9, 0x3d7c6ebd, 0x9e77b5f2, 0x6e21610b, 0x89b6108b)
    requires keys[10] == [0x7f1d1113, 0x174a94e3, 0x8ba707f3, 0xc5302b4d]
    ensures Cipher(s, keys) == [0xd8e0c469, 0x30047b6a, 0x80b7cdd8, 0x5ac5b470]
  {
    hide Rounds, SubWord;
    SubAt(0x3d7c6ebd, 0xbba121bc, 0x27109f7a);
    SubAt(0x9e77b5f2, 0x893c7538, 0x0bf5d589);
    SubAt(0x6e21610b, 0x216e5ec0, 0x9ffdef2b);
    SubAt(0x89b6108b, 0x9e7874d9, 0xa74eca3d);
  }

  lemma RoundKeys(key: seq<bv32>, r: nat, k0: bv32, k1: bv32, k2: bv32, k3: bv32)
    requires |key| == 4 && r < 11 && Expanded(key, r, k0, k1, k2, k3)
    ensures KeySchedule(key)[r] == [k0, k1, k2, k3]
  {
    hide ExpandedWord;
  }

  lemma FirstState(s: State, keys: seq<State>)
    requires |keys| == 11 && s == [0x33221100, 0x77665544, 0xbbaa9988, 0xffeeddcc]
    requires keys[0] == [0x03020100, 0x07060504, 0x0b0a0908, 0x0f0e0d0c]
    ensures At(s, keys, 0, 0x30201000, 0x70605040, 0xb0a09080, 0xf0e0d0c0)
  {
  }

  lemma Schedule(key: seq<bv32>)
    requires key == [0x03020100, 0x07060504, 0x0b0a0908, 0x0f0e0d0c]
    ensures KeySchedule(key)[0] == [0x03020100, 0x07060504, 0x0b0a0908, 0x0f0e0d0c]
    ensures KeySchedule(key)[1] == [0xfd74aad6, 0xfa72afd2, 0xf178a6da, 0xfe76abd6]
    ensures KeySchedule(key)[2] == [0x0bcf92b6, 0xf1bd3d64, 0x00c59bbe, 0xfeb33068]
    ensures KeySchedule(key)[3] == [0x4e74ffb6, 0xbfc9c2d2, 0xbf0c596c, 0x41bf6904]
    ensures KeySchedule(key)[4] == [0xbcf7f747, 0x033e3595, 0xbc326cf9, 0xfd8d05fd]
    ensures KeySchedule(key)[5] == [0xe8a3aa3c, 0xeb9d9fa9, 0x57aff350, 0xaa22f6ad]
    ensures KeySchedule(key)[6] == [0x7d0f395e, 0x9692a6f7, 0xc13d55a7, 0x6b1fa30a]
    ensures KeySchedule(key)[7] == [0x1a70f914, 0x8ce25fe3, 0x4ddf0a44, 0x26c0a94e]
    ensures KeySchedule(key)[8] == [0x35874347, 0xb9651ca4, 0xf4ba16e0, 0xd27abfae]
    ensures KeySchedule(key)[9] == [0xd1329954, 0x685785f0, 0x9ced9310, 0x4e972cbe]
    ensures KeySchedule(key)[10] == [0x7f1d1113, 0x174a94e3, 0x8ba707f3, 0xc5302b4d]
  {
    hide Expanded, KeySchedule, XPow;
    FirstKey(key);
    Keys1To5(key);
    Keys6To10(key);
    RoundKeys(key, 0, 0x03020100, 0x07060504, 0x0b0a0908, 0x0f0e0d0c);
    RoundKeys(key, 1, 0xfd74aad6, 0xfa72afd2, 0xf178a6da, 0xfe76abd6);
    RoundKeys(key, 2, 0x0bcf92b6, 0xf1bd3d64, 0x00c59bbe, 0xfeb33068);
    RoundKeys(key, 3, 0x4e74ffb6, 0xbfc9c2d2, 0xbf0c596c, 0x41bf6904);
    RoundKeys(key, 4, 0xbcf7f747, 0x033e3595, 0xbc326cf9, 0xfd8d05fd);
    RoundKeys(key, 5, 0xe8a3aa3c, 0xeb9d9fa9, 0x57aff350, 0xaa22f6ad);
    RoundKeys(key, 6, 0x7d0f395e, 0x9692a6f7, 0xc13d55a7, 0x6b1fa30a);
    RoundKeys(key, 7, 0x1a70f914, 0x8ce25fe3, 0x4ddf0a44, 0x26c0a94e);
    RoundKeys(key, 8, 0x35874347, 0xb9651ca4, 0xf4ba16e0, 0xd27abfae);
    RoundKeys(key, 9, 0xd1329954, 0x685785f0, 0x9ced9310, 0x4e972cbe);
    RoundKeys(key, 10, 0x7f1d1113, 0x174a94e3, 0x8ba707f3, 0xc5302b4d);
  }

  lemma Ciphertext(key: seq<bv32>, s: State)
    requires key == [0x03020100, 0x07060504, 0x0b0a0908, 0x0f0e0d0c]
    requires s == [0x33221100, 0x77665544, 0xbbaa9988, 0xffeeddcc]
    ensures Cipher(s, KeySchedule(key)) == [0xd8e0c469, 0x30047b6a, 0x80b7cdd8, 0x5ac5b470]
  {
    hide KeySchedule, At, Cipher;
    var keys := KeySchedule(key);
    Schedule(key);
    FirstState(s, keys);
    Round1(s, keys);
    Round2(s, keys);
    Round3(s, keys);
    Round4(s, keys);
    Round5(s, keys);
    Round6(s, keys);
    Round7(s, keys);
    Round8(s, keys);
    Round9(s, keys);
    LastState(s, keys);
  }

  /** The key 00 01 .. 0f and the block 00 11 .. ff. */
  lemma Fips197Vector(key: seq<bv8>, block: seq<bv8>, out: seq<bv8>)
    requires key == [0x00, 0x01, 0x02, 0x03, 0x04, 0x05, 0x06, 0x07, 0x08, 0x09, 0x0a, 0x0b, 0x0c, 0x0d, 0x0e, 0x0f]
    requires block == [0x00, 0x11, 0x22, 0x33, 0x44, 0x55, 0x66, 0x77, 0x88, 0x99, 0xaa, 0xbb, 0xcc, 0xdd, 0xee, 0xff]
    requires out == [0x69, 0xc4, 0xe0, 0xd8, 0x6a, 0x7b, 0x04, 0x30, 0xd8, 0xcd, 0xb7, 0x80, 0x70, 0xb4, 0xc5, 0x5a]
    ensures EncryptBlock(WordsIn(key), block) == out
  {
    hide Cipher, KeySchedule, WordsIn, BytesOut;
    FourWords(key);
    FourWords(block);
    FourWords(out);
    Ciphertext(WordsIn(key), WordsIn(block));
    BytesOfWords(out);
  }
}
