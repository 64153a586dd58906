/** The known answers of crypto/tcrypt.h for TEA and XTEA, round by round. */
module TeaVectors {
  import opened Words
  import opened WordValues
  import opened Tea

  /** The rounds from s on, seen after i turns of the loop. */
  ghost predicate Seen(c: Variant, k: KeyWords, s: Half, i: nat, y: bv32, z: bv32, sum: bv32) {
    HalfAt(y, z) == Rounds(c, Values(k), i, s) && Value(sum) == SumAt(i)
  }

  lemma TeaNext(k: KeyWords, s: Half, i: nat, y: bv32, z: bv32, sum: bv32, y': bv32, z': bv32, sum': bv32)
    requires Seen(Variant.Tea, k, s, i, y, z, sum) && sum' == Add32(sum, 0x9e3779b9)
    requires y' == Add32(y, TeaTerm(z, k[0], k[1], sum')) && z' == Add32(z, TeaTerm(y', k[2], k[3], sum'))
    ensures Seen(Variant.Tea, k, s, i + 1, y', z', sum')
  {
    hide Value, Add32, TeaTerm, SumAt, Round, Rounds;
    NextSum(i, sum);
    TeaTurn(k, i, y, z, sum');
    NextRound(Variant.Tea, Values(k), i, s);
  }

  /** The key word that XTEA takes. */
  function Pick(k: KeyWords, w: bv32): bv32 {
    var n := And32(w, 3); if n == 0 then k[0] else if n == 1 then k[1] else if n == 2 then k[2] else k[3]
  }

  lemma PickIs(k: KeyWords, w: bv32)
    ensures k[Low(w)] == Pick(k, w)
  {
    hide Value, And32;
    LowTwoBits(w);
    Zero();
    One();
    Two();
    Three();
  }

  lemma LowTwoBits(w: bv32)
    ensures And32(w, 3) == 0 || And32(w, 3) == 1 || And32(w, 3) == 2 || And32(w, 3) == 3
  {
  }

  lemma Two()
    ensures Value(2) == 2
  {
  }

  lemma Three()
    ensures Value(3) == 3
  {
  }

  lemma XteaNext(k: KeyWords, s: Half, i: nat, y: bv32, z: bv32, sum: bv32, y': bv32, z': bv32, sum': bv32)
    requires Seen(Xtea, k, s, i, y, z, sum) && sum' == Add32(sum, 0x9e3779b9)
    requires y' == Add32(y, XteaTerm(z, Pick(k, sum), sum))
    requires z' == Add32(z, XteaTerm(y', Pick(k, Shr11(sum')), sum'))
    ensures Seen(Xtea, k, s, i + 1, y', z', sum')
  {
    hide Value, Add32, XteaTerm, SumAt, Round, Rounds, Low, Shr11, Pick;
    NextSum(i, sum);
    PickIs(k, sum);
    PickIs(k, Shr11(sum'));
    XteaTurn(k, i, y, z, sum, sum');
    NextRound(Xtea, Values(k), i, s);
  }

  /** The words before the first round, and the bytes after the last. */
  lemma Begin(c: Variant, k: KeyWords, src: seq<bv8>, y: bv32, z: bv32)
    requires |src| == 8 && y == Pack(src[0], src[1], src[2], src[3]) && z == Pack(src[4], src[5], src[6], src[7])
    ensures Seen(c, k, HalfOf(src), 0, y, z, 0)
  {
    hide Value, Pack, SumAt, FromDigits, Rounds;
    FirstSum();
    NoRounds(c, Values(k), HalfOf(src));
    ValueOfPack(src[0], src[1], src[2], src[3]);
    ValueOfPack(src[4], src[5], src[6], src[7]);
  }

  lemma End(c: Variant, k: KeyWords, src: seq<bv8>, y: bv32, z: bv32, sum: bv32)
    requires |src| == 8 && Seen(c, k, HalfOf(src), ROUNDS, y, z, sum)
    ensures Encrypted(c, Values(k), src) == U32Out(y) + U32Out(z)
  {
    hide Value, U32Out, SumAt, Rounds, WordOut, HalfOf;
  }

  lemma TeaZeroVectorFirstHalf(k: KeyWords, s: Half)
    requires k == [0x00000000, 0x00000000, 0x00000000, 0x00000000]
    requires Seen(Variant.Tea, k, s, 0, 0x00000000, 0x00000000, 0x00000000)
    ensures Seen(Variant.Tea, k, s, 16, 0xa889f798, 0x182d8083, 0xe3779b90)
  {
    hide Seen;
    TeaNext(k, s, 0, 0x00000000, 0x00000000, 0x00000000, 0x9e3779b9, 0xdbe8d32f, 0x9e3779b9);
    TeaNext(k, s, 1, 0x9e3779b9, 0xdbe8d32f, 0x9e3779b9, 0x3e3d2c81, 0x747811b6, 0x3c6ef372);
    TeaNext(k, s, 2, 0x3e3d2c81, 0x747811b6, 0x3c6ef372, 0x4979d18d, 0x266efa9a, 0xdaa66d2b);
    TeaNext(k, s, 3, 0x4979d18d, 0x266efa9a, 0xdaa66d2b, 0x420a1097, 0xbec5a929, 0x78dde6e4);
    TeaNext(k, s, 4, 0x420a1097, 0xbec5a929, 0x78dde6e4, 0x7e81c6b6, 0x3d44eb2f, 0x1715609d);
    TeaNext(k, s, 5, 0x7e81c6b6, 0x3d44eb2f, 0x1715609d, 0xa5b716e2, 0x42a412de, 0xb54cda56);
    TeaNext(k, s, 6, 0xa5b716e2, 0x42a412de, 0xb54cda56, 0x6433827d, 0x3a52802d, 0x5384540f);
    TeaNext(k, s, 7, 0x6433827d, 0x3a52802d, 0x5384540f, 0xed285da1, 0x455b33c1, 0xf1bbcdc8);
    TeaNext(k, s, 8, 0xed285da1, 0x455b33c1, 0xf1bbcdc8, 0x6ffffc6d, 0x48ceae9e, 0x8ff34781);
    TeaNext(k, s, 9, 0x6ffffc6d, 0x48ceae9e, 0x8ff34781, 0x6855efb9, 0x596b92bc, 0x2e2ac13a);
    TeaNext(k, s, 10, 0x6855efb9, 0x596b92bc, 0x2e2ac13a, 0x1a15aab3, 0xa169767f, 0xcc623af3);
    TeaNext(k, s, 11, 0x1a15aab3, 0xa169767f, 0xcc623af3, 0x39b4b21b, 0xe0325966, 0x6a99b4ac);
    TeaNext(k, s, 12, 0x39b4b21b, 0xe0325966, 0x6a99b4ac, 0x26dc357b, 0x238b2f61, 0x08d12e65);
    TeaNext(k, s, 13, 0x26dc357b, 0x238b2f61, 0x08d12e65, 0x1a19ad8f, 0x83f36f92, 0xa708a81e);
    TeaNext(k, s, 14, 0x1a19ad8f, 0x83f36f92, 0xa708a81e, 0x0c34a0c4, 0x1652db6f, 0x454021d7);
    TeaNext(k, s, 15, 0x0c34a0c4, 0x1652db6f, 0x454021d7, 0xa889f798, 0x182d8083, 0xe3779b90);
  }

  lemma TeaZeroVectorSecondHalf(k: KeyWords, s: Half)
    requires k == [0x00000000, 0x00000000, 0x00000000, 0x00000000]
    requires Seen(Variant.Tea, k, s, 16, 0xa889f798, 0x182d8083, 0xe3779b90)
    ensures Seen(Variant.Tea, k, s, 32, 0x41ea3a0a, 0x94baa940, 0xc6ef3720)
  {
    hide Seen;
    TeaNext(k, s, 16, 0xa889f798, 0x182d8083, 0xe3779b90, 0xc44fe990, 0x1f4f9918, 0x81af1549);
    TeaNext(k, s, 17, 0xc44fe990, 0x1f4f9918, 0x81af1549, 0x8f85aee2, 0x729a97cb, 0x1fe68f02);
    TeaNext(k, s, 18, 0x8f85aee2, 0x729a97cb, 0x1fe68f02, 0xaa0ab76a, 0x406e7b09, 0xbe1e08bb);
    TeaNext(k, s, 19, 0xaa0ab76a, 0x406e7b09, 0xbe1e08bb, 0x4231f59f, 0xfff82958, 0x5c558274);
    TeaNext(k, s, 20, 0x4231f59f, 0xfff82958, 0x5c558274, 0x452a66ee, 0x6f308824, 0xfa8cfc2d);
    TeaNext(k, s, 21, 0x452a66ee, 0x6f308824, 0xfa8cfc2d, 0x3cb05ef9, 0x8ec541dc, 0x98c475e6);
    TeaNext(k, s, 22, 0x3cb05ef9, 0x8ec541dc, 0x98c475e6, 0x6a9365ae, 0x9ab2d65c, 0x36fbef9f);
    TeaNext(k, s, 23, 0x6a9365ae, 0x9ab2d65c, 0x36fbef9f, 0x2ab23274, 0xf046037b, 0xd5336958);
    TeaNext(k, s, 24, 0x2ab23274, 0xf046037b, 0xd5336958, 0x8b05139b, 0x3aaceafb, 0x736ae311);
    TeaNext(k, s, 25, 0x8b05139b, 0x3aaceafb, 0x736ae311, 0x7259a2bd, 0xe0a0043d, 0x11a25cca);
    TeaNext(k, s, 26, 0x7259a2bd, 0xe0a0043d, 0x11a25cca, 0x0fd63bee, 0x234d218b, 0xafd9d683);
    TeaNext(k, s, 27, 0x0fd63bee, 0x234d218b, 0xafd9d683, 0x546c3c69, 0x096a4d61, 0x4e11503c);
    TeaNext(k, s, 28, 0x546c3c69, 0x096a4d61, 0x4e11503c, 0xb7c8cf96, 0xe68d73f8, 0xec48c9f5);
    TeaNext(k, s, 29, 0xb7c8cf96, 0xe68d73f8, 0xec48c9f5, 0xd6b7b34f, 0xf386f38f, 0x8a8043ae);
    TeaNext(k, s, 30, 0xd6b7b34f, 0xf386f38f, 0x8a8043ae, 0xfa8572e9, 0x804528e6, 0x28b7bd67);
    TeaNext(k, s, 31, 0xfa8572e9, 0x804528e6, 0x28b7bd67, 0x41ea3a0a, 0x94baa940, 0xc6ef3720);
  }

  lemma TeaZeroVector(k: KeyWords, src: seq<bv8>)
    requires src == [0x00, 0x00, 0x00, 0x00, 0x00, 0x00, 0x00, 0x00]
    requires k == [0x00000000, 0x00000000, 0x00000000, 0x00000000]
    ensures Encrypted(Variant.Tea, Values(k), src) == [0x0a, 0x3a, 0xea, 0x41, 0x40, 0xa9, 0xba, 0x94]
  {
    hide Encrypted, Seen, Values, HalfOf;
    Begin(Variant.Tea, k, src, 0x00000000, 0x00000000);
    TeaZeroVectorFirstHalf(k, HalfOf(src));
    TeaZeroVectorSecondHalf(k, HalfOf(src));
    End(Variant.Tea, k, src, 0x41ea3a0a, 0x94baa940, 0xc6ef3720);
  }

  lemma TeaVectorFirstHalf(k: KeyWords, s: Half)
    requires k == [0x6805022b, 0x76491406, 0x260e5d77, 0x4378286c]
    requires Seen(Variant.Tea, k, s, 0, 0x74736574, 0x2e656d20, 0x00000000)
    ensures Seen(Variant.Tea, k, s, 16, 0xf68e23af, 0x86dc27f9, 0xe3779b90)
  {
    hide Seen;
    TeaNext(k, s, 0, 0x74736574, 0x2e656d20, 0x00000000, 0x69ee7311, 0xb87d6b69, 0x9e3779b9);
    TeaNext(k, s, 1, 0x69ee7311, 0xb87d6b69, 0x9e3779b9, 0xd1298c12, 0x37bb8148, 0x3c6ef372);
    TeaNext(k, s, 2, 0xd1298c12, 0x37bb8148, 0x3c6ef372, 0x5b0394da, 0xdd796d48, 0xdaa66d2b);
    TeaNext(k, s, 3, 0x5b0394da, 0xdd796d48, 0xdaa66d2b, 0x6ffbf2d1, 0x6965c878, 0x78dde6e4);
    TeaNext(k, s, 4, 0x6ffbf2d1, 0x6965c878, 0x78dde6e4, 0x778ad5c8, 0xc095b900, 0x1715609d);
    TeaNext(k, s, 5, 0x778ad5c8, 0xc095b900, 0x1715609d, 0xf05a967b, 0x858001e9, 0xb54cda56);
    TeaNext(k, s, 6, 0xf05a967b, 0x858001e9, 0xb54cda56, 0x53cef7d1, 0x09383336, 0x5384540f);
    TeaNext(k, s, 7, 0x53cef7d1, 0x09383336, 0x5384540f, 0xcbbdd8bb, 0x1e7c8bcb, 0xf1bbcdc8);
    TeaNext(k, s, 8, 0xcbbdd8bb, 0x1e7c8bcb, 0xf1bbcdc8, 0x625c6eae, 0x1d8e8164, 0x8ff34781);
    TeaNext(k, s, 9, 0x625c6eae, 0x1d8e8164, 0x8ff34781, 0xdebe4192, 0x7503ef87, 0x2e2ac13a);
    TeaNext(k, s, 10, 0xdebe4192, 0x7503ef87, 0x2e2ac13a, 0x5f9324f5, 0xe7c52243, 0xcc623af3);
    TeaNext(k, s, 11, 0x5f9324f5, 0xe7c52243, 0xcc623af3, 0x2b21f2a1, 0xf10c3b0e, 0x6a99b4ac);
    TeaNext(k, s, 12, 0x2b21f2a1, 0xf10c3b0e, 0x6a99b4ac, 0x27e6a247, 0xc1844743, 0x08d12e65);
    TeaNext(k, s, 13, 0x27e6a247, 0xc1844743, 0x08d12e65, 0xbc7751c1, 0x892ba9e5, 0xa708a81e);
    TeaNext(k, s, 14, 0xbc7751c1, 0x892ba9e5, 0xa708a81e, 0x0abd6c53, 0x67026928, 0x454021d7);
    TeaNext(k, s, 15, 0x0abd6c53, 0x67026928, 0x454021d7, 0xf68e23af, 0x86dc27f9, 0xe3779b90);
  }

  lemma TeaVectorSecondHalf(k: KeyWords, s: Half)
    requires k == [0x6805022b, 0x76491406, 0x260e5d77, 0x4378286c]
    requires Seen(Variant.Tea, k, s, 16, 0xf68e23af, 0x86dc27f9, 0xe3779b90)
    ensures Seen(Variant.Tea, k, s, 32, 0x6a2a5d77, 0x0992cef6, 0xc6ef3720)
  {
    hide Seen;
    TeaNext(k, s, 16, 0xf68e23af, 0x86dc27f9, 0xe3779b90, 0x9dc16d6b, 0xdc0fad3d, 0x81af1549);
    TeaNext(k, s, 17, 0x9dc16d6b, 0xdc0fad3d, 0x81af1549, 0x4be1e616, 0xa643a990, 0x1fe68f02);
    TeaNext(k, s, 18, 0x4be1e616, 0xa643a990, 0x1fe68f02, 0x1f06fe48, 0x356ed03a, 0xbe1e08bb);
    TeaNext(k, s, 19, 0x1f06fe48, 0x356ed03a, 0xbe1e08bb, 0x77c9dc2a, 0x66f3d9fe, 0x5c558274);
    TeaNext(k, s, 20, 0x77c9dc2a, 0x66f3d9fe, 0x5c558274, 0x470ca31f, 0xf9e577ad, 0xfa8cfc2d);
    TeaNext(k, s, 21, 0x470ca31f, 0xf9e577ad, 0xfa8cfc2d, 0x31fa51ca, 0xc3efbf0a, 0x98c475e6);
    TeaNext(k, s, 22, 0x31fa51ca, 0xc3efbf0a, 0x98c475e6, 0x537e1f66, 0x558e04bf, 0x36fbef9f);
    TeaNext(k, s, 23, 0x537e1f66, 0x558e04bf, 0x36fbef9f, 0xe64fc38d, 0xcfb120e9, 0xd5336958);
    TeaNext(k, s, 24, 0xe64fc38d, 0xcfb120e9, 0xd5336958, 0x431d51d9, 0x74ab7e00, 0x736ae311);
    TeaNext(k, s, 25, 0x431d51d9, 0x74ab7e00, 0x736ae311, 0x903ca8f0, 0x44a9627e, 0x11a25cca);
    TeaNext(k, s, 26, 0x903ca8f0, 0x44a9627e, 0x11a25cca, 0xceb2f503, 0x6b0608b3, 0xafd9d683);
    TeaNext(k, s, 27, 0xceb2f503, 0x6b0608b3, 0xafd9d683, 0xa7868702, 0x8e5b4ec0, 0x4e11503c);
    TeaNext(k, s, 28, 0xa7868702, 0x8e5b4ec0, 0x4e11503c, 0xf52c9fe4, 0x60e80dc5, 0xec48c9f5);
    TeaNext(k, s, 29, 0xf52c9fe4, 0x60e80dc5, 0xec48c9f5, 0xd9ea7b60, 0x4b83de03, 0x8a8043ae);
    TeaNext(k, s, 30, 0xd9ea7b60, 0x4b83de03, 0x8a8043ae, 0x06c6c727, 0x4a2df3cf, 0x28b7bd67);
    TeaNext(k, s, 31, 0x06c6c727, 0x4a2df3cf, 0x28b7bd67, 0x6a2a5d77, 0x0992cef6, 0xc6ef3720);
  }

  lemma TeaVector(k: KeyWords, src: seq<bv8>)
    requires src == [0x74, 0x65, 0x73, 0x74, 0x20, 0x6d, 0x65, 0x2e]
    requires k == [0x6805022b, 0x76491406, 0x260e5d77, 0x4378286c]
    ensures Encrypted(Variant.Tea, Values(k), src) == [0x77, 0x5d, 0x2a, 0x6a, 0xf6, 0xce, 0x92, 0x09]
  {
    hide Encrypted, Seen, Values, HalfOf;
    Begin(Variant.Tea, k, src, 0x74736574, 0x2e656d20);
    TeaVectorFirstHalf(k, HalfOf(src));
    TeaVectorSecondHalf(k, HalfOf(src));
    End(Variant.Tea, k, src, 0x6a2a5d77, 0x0992cef6, 0xc6ef3720);
  }

  lemma XteaVectorFirstHalf(k: KeyWords, s: Half)
    requires k == [0x6805022b, 0x76491406, 0x260e5d77, 0x4378286c]
    requires Seen(Xtea, k, s, 0, 0x74736574, 0x2e656d20, 0x00000000)
    ensures Seen(Xtea, k, s, 16, 0x7e820283, 0x8926410d, 0xe3779b90)
  {
    hide Seen;
    XteaNext(k, s, 0, 0x74736574, 0x2e656d20, 0x00000000, 0xf203ce28, 0x05bf4a0e, 0x9e3779b9);
    XteaNext(k, s, 1, 0xf203ce28, 0x05bf4a0e, 0x9e3779b9, 0x5fae7095, 0x87a8a640, 0x3c6ef372);
    XteaNext(k, s, 2, 0x5fae7095, 0x87a8a640, 0x3c6ef372, 0xc03a4470, 0x1e3378c4, 0xdaa66d2b);
    XteaNext(k, s, 3, 0xc03a4470, 0x1e3378c4, 0xdaa66d2b, 0xac0d9a51, 0x20c2c166, 0x78dde6e4);
    XteaNext(k, s, 4, 0xac0d9a51, 0x20c2c166, 0x78dde6e4, 0x795bc469, 0x8d8d0138, 0x1715609d);
    XteaNext(k, s, 5, 0x795bc469, 0x8d8d0138, 0x1715609d, 0x66f9b59d, 0x11672deb, 0xb54cda56);
    XteaNext(k, s, 6, 0x66f9b59d, 0x11672deb, 0xb54cda56, 0x482df2b0, 0xd3bd76b6, 0x5384540f);
    XteaNext(k, s, 7, 0x482df2b0, 0xd3bd76b6, 0x5384540f, 0x4929beaa, 0x936ba573, 0xf1bbcdc8);
    XteaNext(k, s, 8, 0x4929beaa, 0x936ba573, 0xf1bbcdc8, 0x462033ab, 0x257656f5, 0x8ff34781);
    XteaNext(k, s, 9, 0x462033ab, 0x257656f5, 0x8ff34781, 0xbd3d370c, 0xf6cde8ce, 0x2e2ac13a);
    XteaNext(k, s, 10, 0xbd3d370c, 0xf6cde8ce, 0x2e2ac13a, 0x279ba21d, 0x9ec6a6e8, 0xcc623af3);
    XteaNext(k, s, 11, 0x279ba21d, 0x9ec6a6e8, 0xcc623af3, 0xa654c25b, 0xf220fef8, 0x6a99b4ac);
    XteaNext(k, s, 12, 0xa654c25b, 0xf220fef8, 0x6a99b4ac, 0xccb1f751, 0xfa45e6dc, 0x08d12e65);
    XteaNext(k, s, 13, 0xccb1f751, 0xfa45e6dc, 0x08d12e65, 0xd91c1706, 0x85ad4ad2, 0xa708a81e);
    XteaNext(k, s, 14, 0xd91c1706, 0x85ad4ad2, 0xa708a81e, 0x80ca1ebf, 0xbbe4476a, 0x454021d7);
    XteaNext(k, s, 15, 0x80ca1ebf, 0xbbe4476a, 0x454021d7, 0x7e820283, 0x8926410d, 0xe3779b90);
  }

  lemma XteaVectorSecondHalf(k: KeyWords, s: Half)
    requires k == [0x6805022b, 0x76491406, 0x260e5d77, 0x4378286c]
    requires Seen(Xtea, k, s, 16, 0x7e820283, 0x8926410d, 0xe3779b90)
    ensures Seen(Xtea, k, s, 32, 0x35eb3e82, 0xc3d9dddc, 0xc6ef3720)
  {
    hide Seen;
    XteaNext(k, s, 16, 0x7e820283, 0x8926410d, 0xe3779b90, 0xe7060223, 0x8d35c80f, 0x81af1549);
    XteaNext(k, s, 17, 0xe7060223, 0x8d35c80f, 0x81af1549, 0x411f221f, 0x76736212, 0x1fe68f02);
    XteaNext(k, s, 18, 0x411f221f, 0x76736212, 0x1fe68f02, 0x354926d6, 0xcd4bc8db, 0xbe1e08bb);
    XteaNext(k, s, 19, 0x354926d6, 0xcd4bc8db, 0xbe1e08bb, 0xbeede398, 0x0332838e, 0x5c558274);
    XteaNext(k, s, 20, 0xbeede398, 0x0332838e, 0x5c558274, 0xb98b94b9, 0x27272bc3, 0xfa8cfc2d);
    XteaNext(k, s, 21, 0xb98b94b9, 0x27272bc3, 0xfa8cfc2d, 0x80cc061b, 0x6e03feb7, 0x98c475e6);
    XteaNext(k, s, 22, 0x80cc061b, 0x6e03feb7, 0x98c475e6, 0x80f1e368, 0xa570d94f, 0x36fbef9f);
    XteaNext(k, s, 23, 0x80f1e368, 0xa570d94f, 0x36fbef9f, 0xaa1b54de, 0x3fc7c221, 0xd5336958);
    XteaNext(k, s, 24, 0xaa1b54de, 0x3fc7c221, 0xd5336958, 0xfa971e83, 0xe07012a2, 0x736ae311);
    XteaNext(k, s, 25, 0xfa971e83, 0xe07012a2, 0x736ae311, 0x03fdcef1, 0x760aceb0, 0x11a25cca);
    XteaNext(k, s, 26, 0x03fdcef1, 0x760aceb0, 0x11a25cca, 0xf4d17c57, 0x41d3258d, 0xafd9d683);
    XteaNext(k, s, 27, 0xf4d17c57, 0x41d3258d, 0xafd9d683, 0x459159cd, 0xce9aa313, 0x4e11503c);
    XteaNext(k, s, 28, 0x459159cd, 0xce9aa313, 0x4e11503c, 0x1e01334f, 0x1810ef3d, 0xec48c9f5);
    XteaNext(k, s, 29, 0x1e01334f, 0x1810ef3d, 0xec48c9f5, 0x0a70e2c6, 0xa8643e46, 0x8a8043ae);
    XteaNext(k, s, 30, 0x0a70e2c6, 0xa8643e46, 0x8a8043ae, 0xd66483b7, 0x4baac4ef, 0x28b7bd67);
    XteaNext(k, s, 31, 0xd66483b7, 0x4baac4ef, 0x28b7bd67, 0x35eb3e82, 0xc3d9dddc, 0xc6ef3720);
  }

  lemma XteaVector(k: KeyWords, src: seq<bv8>)
    requires src == [0x74, 0x65, 0x73, 0x74, 0x20, 0x6d, 0x65, 0x2e]
    requires k == [0x6805022b, 0x76491406, 0x260e5d77, 0x4378286c]
    ensures Encrypted(Xtea, Values(k), src) == [0x82, 0x3e, 0xeb, 0x35, 0xdc, 0xdd, 0xd9, 0xc3]
  {
    hide Encrypted, Seen, Values, HalfOf;
    Begin(Xtea, k, src, 0x74736574, 0x2e656d20);
    XteaVectorFirstHalf(k, HalfOf(src));
    XteaVectorSecondHalf(k, HalfOf(src));
    End(Xtea, k, src, 0x35eb3e82, 0xc3d9dddc, 0xc6ef3720);
  }
}
