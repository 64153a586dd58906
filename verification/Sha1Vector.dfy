/** The known answer of crypto/tcrypt.h for SHA-1 and the message "abc", step by step. */
module Sha1Vector {
  import opened Words
  import opened Streaming
  import opened Sha1Transform
  import opened Sha1

  /** The words of the schedule from t on. */
  ghost predicate Scheduled(block: seq<bv32>, t: nat, ws: seq<bv32>)
    requires |block| == 16
  {
    forall j | 0 <= j < |ws| :: W(block, t + j) == ws[j]
  }

  ghost predicate Seen(block: seq<bv32>, s0: Regs, t: nat, s: Regs)
    requires |block| == 16
  {
    Steps(block, t, s0) == s
  }

  /** One step of the answer. */
  lemma Next(block: seq<bv32>, s0: Regs, t: nat, word: bv32, s: Regs, a: bv32)
    requires |block| == 16 && Seen(block, s0, t, s) && word == W(block, t)
    requires a == Temp(Rol(s.a, 5), F(t, s.b, s.c, s.d), s.e, word, K(t))
    ensures Seen(block, s0, t + 1, Regs(a, s.a, Rol(s.b, 30), s.c, s.d))
  {
    hide W, Rol, Temp, F;
    OneMore(block, t, s0, Regs(a, s.a, Rol(s.b, 30), s.c, s.d));
  }

  lemma NextWord(block: seq<bv32>, t: nat, word: bv32, w3: bv32, w8: bv32, w14: bv32, w16: bv32)
    requires |block| == 16 && t >= 16 && W(block, t - 3) == w3 && W(block, t - 8) == w8
    requires W(block, t - 14) == w14 && W(block, t - 16) == w16
    requires word == Rol(Xor32(Xor32(Xor32(w3, w8), w14), w16), 1)
    ensures W(block, t) == word
  {
    hide Rol, Xor32;
  }

  lemma Sixteen(block: seq<bv32>, t: nat, ws: seq<bv32>)
    requires |block| == 16 && |ws| == 16 && Scheduled(block, t, ws)
    ensures W(block, t) == ws[0] && W(block, t + 1) == ws[1] && W(block, t + 2) == ws[2] && W(block, t + 3) == ws[3]
    ensures W(block, t + 4) == ws[4] && W(block, t + 5) == ws[5] && W(block, t + 6) == ws[6]
    ensures W(block, t + 7) == ws[7] && W(block, t + 8) == ws[8] && W(block, t + 9) == ws[9]
    ensures W(block, t + 10) == ws[10] && W(block, t + 11) == ws[11] && W(block, t + 12) == ws[12]
    ensures W(block, t + 13) == ws[13] && W(block, t + 14) == ws[14] && W(block, t + 15) == ws[15]
  {
    hide W;
    assert W(block, t + 0) == ws[0];
  }

  lemma WordsFrom16(block: seq<bv32>, ws: seq<bv32>, ws': seq<bv32>)
    requires |block| == 16 && |ws| == 16 && Scheduled(block, 0, ws)
    requires ws == [0x61626380, 0x00000000, 0x00000000, 0x00000000, 0x00000000, 0x00000000, 0x00000000, 0x00000000,
                    0x00000000, 0x00000000, 0x00000000, 0x00000000, 0x00000000, 0x00000000, 0x00000000, 0x00000018]
    requires ws' == ws[8..] + [0xc2c4c700, 0x00000000, 0x00000030, 0x85898e01, 0x00000000,
                               0x00000060, 0x0b131c03, 0x00000030]
    ensures Scheduled(block, 8, ws')
  {
    hide W;
    Sixteen(block, 0, ws);
    NextWord(block, 16, 0xc2c4c700, 0x00000000, 0x00000000, 0x00000000, 0x61626380);
    NextWord(block, 17, 0x00000000, 0x00000000, 0x00000000, 0x00000000, 0x00000000);
    NextWord(block, 18, 0x00000030, 0x00000018, 0x00000000, 0x00000000, 0x00000000);
    NextWord(block, 19, 0x85898e01, 0xc2c4c700, 0x00000000, 0x00000000, 0x00000000);
    NextWord(block, 20, 0x00000000, 0x00000000, 0x00000000, 0x00000000, 0x00000000);
    NextWord(block, 21, 0x00000060, 0x00000030, 0x00000000, 0x00000000, 0x00000000);
    NextWord(block, 22, 0x0b131c03, 0x85898e01, 0x00000000, 0x00000000, 0x00000000);
    NextWord(block, 23, 0x00000030, 0x00000000, 0x00000018, 0x00000000, 0x00000000);
  }

  lemma WordsFrom24(block: seq<bv32>, ws: seq<bv32>, ws': seq<bv32>)
    requires |block| == 16 && |ws| == 16 && Scheduled(block, 8, ws)
    requires ws == [0x00000000, 0x00000000, 0x00000000, 0x00000000, 0x00000000, 0x00000000, 0x00000000, 0x00000018,
                    0xc2c4c700, 0x00000000, 0x00000030, 0x85898e01, 0x00000000, 0x00000060, 0x0b131c03, 0x00000030]
    requires ws' == ws[8..] + [0x85898ec1, 0x16263806, 0x00000000, 0x00000180, 0x2c4c700c,
                               0x000000f0, 0x93afb507, 0x5898e048]
    ensures Scheduled(block, 16, ws')
  {
    hide W;
    Sixteen(block, 8, ws);
    NextWord(block, 24, 0x85898ec1, 0x00000060, 0xc2c4c700, 0x00000000, 0x00000000);
    NextWord(block, 25, 0x16263806, 0x0b131c03, 0x00000000, 0x00000000, 0x00000000);
    NextWord(block, 26, 0x00000000, 0x00000030, 0x00000030, 0x00000000, 0x00000000);
    NextWord(block, 27, 0x00000180, 0x85898ec1, 0x85898e01, 0x00000000, 0x00000000);
    NextWord(block, 28, 0x2c4c700c, 0x16263806, 0x00000000, 0x00000000, 0x00000000);
    NextWord(block, 29, 0x000000f0, 0x00000000, 0x00000060, 0x00000018, 0x00000000);
    NextWord(block, 30, 0x93afb507, 0x00000180, 0x0b131c03, 0xc2c4c700, 0x00000000);
    NextWord(block, 31, 0x5898e048, 0x2c4c700c, 0x00000030, 0x00000000, 0x00000018);
  }

  lemma Words32(block: seq<bv32>, ws: seq<bv32>, ws': seq<bv32>)
    requires |block| == 16 && Scheduled(block, 16, ws)
    requires ws == [0xc2c4c700, 0x00000000, 0x00000030, 0x85898e01, 0x00000000, 0x00000060, 0x0b131c03, 0x00000030,
                    0x85898ec1, 0x16263806, 0x00000000, 0x00000180, 0x2c4c700c, 0x000000f0, 0x93afb507, 0x5898e048]
    requires ws' == [0x8e9a9202, 0x00000600, 0xb131c0f0, 0x16263bc6, 0x4ebed41e, 0x626380a1, 0x16263806, 0x000018c0,
                     0xd2e138c4, 0x00000f00, 0x3afb5079, 0x898e04e5, 0xe2ba3c2b, 0x000060c0, 0x053a37cd, 0x74458547]
    ensures Scheduled(block, 32, ws')
  {
    hide W;
    Sixteen(block, 16, ws);
    NextWord(block, 32, 0x8e9a9202, 0x000000f0, 0x85898ec1, 0x00000030, 0xc2c4c700);
    NextWord(block, 33, 0x00000600, 0x93afb507, 0x16263806, 0x85898e01, 0x00000000);
    NextWord(block, 34, 0xb131c0f0, 0x5898e048, 0x00000000, 0x00000000, 0x00000030);
    NextWord(block, 35, 0x16263bc6, 0x8e9a9202, 0x00000180, 0x00000060, 0x85898e01);
    NextWord(block, 36, 0x4ebed41e, 0x00000600, 0x2c4c700c, 0x0b131c03, 0x00000000);
    NextWord(block, 37, 0x626380a1, 0xb131c0f0, 0x000000f0, 0x00000030, 0x00000060);
    NextWord(block, 38, 0x16263806, 0x16263bc6, 0x93afb507, 0x85898ec1, 0x0b131c03);
    NextWord(block, 39, 0x000018c0, 0x4ebed41e, 0x5898e048, 0x16263806, 0x00000030);
    NextWord(block, 40, 0xd2e138c4, 0x626380a1, 0x8e9a9202, 0x00000000, 0x85898ec1);
    NextWord(block, 41, 0x00000f00, 0x16263806, 0x00000600, 0x00000180, 0x16263806);
    NextWord(block, 42, 0x3afb5079, 0x000018c0, 0xb131c0f0, 0x2c4c700c, 0x00000000);
    NextWord(block, 43, 0x898e04e5, 0xd2e138c4, 0x16263bc6, 0x000000f0, 0x00000180);
    NextWord(block, 44, 0xe2ba3c2b, 0x00000f00, 0x4ebed41e, 0x93afb507, 0x2c4c700c);
    NextWord(block, 45, 0x000060c0, 0x3afb5079, 0x626380a1, 0x5898e048, 0x000000f0);
    NextWord(block, 46, 0x053a37cd, 0x898e04e5, 0x16263806, 0x8e9a9202, 0x93afb507);
    NextWord(block, 47, 0x74458547, 0xe2ba3c2b, 0x000018c0, 0x00000600, 0x5898e048);
  }

  lemma Words48(block: seq<bv32>, ws: seq<bv32>, ws': seq<bv32>)
    requires |block| == 16 && Scheduled(block, 32, ws)
    requires ws == [0x8e9a9202, 0x00000600, 0xb131c0f0, 0x16263bc6, 0x4ebed41e, 0x626380a1, 0x16263806, 0x000018c0,
                    0xd2e138c4, 0x00000f00, 0x3afb5079, 0x898e04e5, 0xe2ba3c2b, 0x000060c0, 0x053a37cd, 0x74458547]
    requires ws' == [0xda9415ed, 0x26380a16, 0x626383a1, 0x4ebf54de, 0x3835b44b, 0x0000f600, 0x1e84c7a3, 0x98e04d98,
                     0x651d16a0, 0x62658ca1, 0x458544d6, 0x44584cb7, 0x7ba06619, 0x6380aea2, 0x0ae55269, 0x627b49a1]
    ensures Scheduled(block, 48, ws')
  {
    hide W;
    Sixteen(block, 32, ws);
    NextWord(block, 48, 0xda9415ed, 0x000060c0, 0xd2e138c4, 0xb131c0f0, 0x8e9a9202);
    NextWord(block, 49, 0x26380a16, 0x053a37cd, 0x00000f00, 0x16263bc6, 0x00000600);
    NextWord(block, 50, 0x626383a1, 0x74458547, 0x3afb5079, 0x4ebed41e, 0xb131c0f0);
    NextWord(block, 51, 0x4ebf54de, 0xda9415ed, 0x898e04e5, 0x626380a1, 0x16263bc6);
    NextWord(block, 52, 0x3835b44b, 0x26380a16, 0xe2ba3c2b, 0x16263806, 0x4ebed41e);
    NextWord(block, 53, 0x0000f600, 0x626383a1, 0x000060c0, 0x000018c0, 0x626380a1);
    NextWord(block, 54, 0x1e84c7a3, 0x4ebf54de, 0x053a37cd, 0xd2e138c4, 0x16263806);
    NextWord(block, 55, 0x98e04d98, 0x3835b44b, 0x74458547, 0x00000f00, 0x000018c0);
    NextWord(block, 56, 0x651d16a0, 0x0000f600, 0xda9415ed, 0x3afb5079, 0xd2e138c4);
    NextWord(block, 57, 0x62658ca1, 0x1e84c7a3, 0x26380a16, 0x898e04e5, 0x00000f00);
    NextWord(block, 58, 0x458544d6, 0x98e04d98, 0x626383a1, 0xe2ba3c2b, 0x3afb5079);
    NextWord(block, 59, 0x44584cb7, 0x651d16a0, 0x4ebf54de, 0x000060c0, 0x898e04e5);
    NextWord(block, 60, 0x7ba06619, 0x62658ca1, 0x3835b44b, 0x053a37cd, 0xe2ba3c2b);
    NextWord(block, 61, 0x6380aea2, 0x458544d6, 0x0000f600, 0x74458547, 0x000060c0);
    NextWord(block, 62, 0x0ae55269, 0x44584cb7, 0x1e84c7a3, 0xda9415ed, 0x053a37cd);
    NextWord(block, 63, 0x627b49a1, 0x7ba06619, 0x98e04d98, 0x26380a16, 0x74458547);
  }

  lemma Words64(block: seq<bv32>, ws: seq<bv32>, ws': seq<bv32>)
    requires |block| == 16 && Scheduled(block, 48, ws)
    requires ws == [0xda9415ed, 0x26380a16, 0x626383a1, 0x4ebf54de, 0x3835b44b, 0x0000f600, 0x1e84c7a3, 0x98e04d98,
                    0x651d16a0, 0x62658ca1, 0x458544d6, 0x44584cb7, 0x7ba06619, 0x6380aea2, 0x0ae55269, 0x627b49a1]
    requires ws' == [0x7cd45c9d, 0x000f0000, 0xfb50753a, 0xec6765e8, 0xba3c2be2, 0x0060c000, 0x3a37cd05, 0x458546f4,
                     0xb8599dd6, 0x380a1a26, 0x01e02203, 0xe7cc3456, 0xe6e60b69, 0x00f60a00, 0x5795ef4f, 0x822e0879]
    ensures Scheduled(block, 64, ws')
  {
    hide W;
    Sixteen(block, 48, ws);
    NextWord(block, 64, 0x7cd45c9d, 0x6380aea2, 0x651d16a0, 0x626383a1, 0xda9415ed);
    NextWord(block, 65, 0x000f0000, 0x0ae55269, 0x62658ca1, 0x4ebf54de, 0x26380a16);
    NextWord(block, 66, 0xfb50753a, 0x627b49a1, 0x458544d6, 0x3835b44b, 0x626383a1);
    NextWord(block, 67, 0xec6765e8, 0x7cd45c9d, 0x44584cb7, 0x0000f600, 0x4ebf54de);
    NextWord(block, 68, 0xba3c2be2, 0x000f0000, 0x7ba06619, 0x1e84c7a3, 0x3835b44b);
    NextWord(block, 69, 0x0060c000, 0xfb50753a, 0x6380aea2, 0x98e04d98, 0x0000f600);
    NextWord(block, 70, 0x3a37cd05, 0xec6765e8, 0x0ae55269, 0x651d16a0, 0x1e84c7a3);
    NextWord(block, 71, 0x458546f4, 0xba3c2be2, 0x627b49a1, 0x62658ca1, 0x98e04d98);
    NextWord(block, 72, 0xb8599dd6, 0x0060c000, 0x7cd45c9d, 0x458544d6, 0x651d16a0);
    NextWord(block, 73, 0x380a1a26, 0x3a37cd05, 0x000f0000, 0x44584cb7, 0x62658ca1);
    NextWord(block, 74, 0x01e02203, 0x458546f4, 0xfb50753a, 0x7ba06619, 0x458544d6);
    NextWord(block, 75, 0xe7cc3456, 0xb8599dd6, 0xec6765e8, 0x6380aea2, 0x44584cb7);
    NextWord(block, 76, 0xe6e60b69, 0x380a1a26, 0xba3c2be2, 0x0ae55269, 0x7ba06619);
    NextWord(block, 77, 0x00f60a00, 0x01e02203, 0x0060c000, 0x627b49a1, 0x6380aea2);
    NextWord(block, 78, 0x5795ef4f, 0xe7cc3456, 0x3a37cd05, 0x7cd45c9d, 0x0ae55269);
    NextWord(block, 79, 0x822e0879, 0xe6e60b69, 0x458546f4, 0x000f0000, 0x627b49a1);
  }

  lemma Steps0(block: seq<bv32>, s0: Regs, ws: seq<bv32>)
    requires |block| == 16 && Seen(block, s0, 0, Regs(0x67452301, 0xefcdab89, 0x98badcfe, 0x10325476, 0xc3d2e1f0))
    requires Scheduled(block, 0, ws) && ws == [0x61626380, 0x00000000, 0x00000000, 0x00000000, 0x00000000, 0x00000000,
                                            0x00000000, 0x00000000, 0x00000000, 0x00000000, 0x00000000, 0x00000000,
                                            0x00000000, 0x00000000, 0x00000000, 0x00000018]
    ensures Seen(block, s0, 16, Regs(0x20bdd62f, 0x196bee77, 0x644a3da5, 0x1181ed99, 0x18c623f9))
  {
    hide Steps, Seen, W;
    Sixteen(block, 0, ws);
    Next(block, s0, 0, 0x61626380, Regs(0x67452301, 0xefcdab89, 0x98badcfe, 0x10325476, 0xc3d2e1f0), 0x0116fc33);
    Next(block, s0, 1, 0x00000000, Regs(0x0116fc33, 0x67452301, 0x7bf36ae2, 0x98badcfe, 0x10325476), 0x8990536d);
    Next(block, s0, 2, 0x00000000, Regs(0x8990536d, 0x0116fc33, 0x59d148c0, 0x7bf36ae2, 0x98badcfe), 0xa1390f08);
    Next(block, s0, 3, 0x00000000, Regs(0xa1390f08, 0x8990536d, 0xc045bf0c, 0x59d148c0, 0x7bf36ae2), 0xcdd8e11b);
    Next(block, s0, 4, 0x00000000, Regs(0xcdd8e11b, 0xa1390f08, 0x626414db, 0xc045bf0c, 0x59d148c0), 0xcfd499de);
    Next(block, s0, 5, 0x00000000, Regs(0xcfd499de, 0xcdd8e11b, 0x284e43c2, 0x626414db, 0xc045bf0c), 0x3fc7ca40);
    Next(block, s0, 6, 0x00000000, Regs(0x3fc7ca40, 0xcfd499de, 0xf3763846, 0x284e43c2, 0x626414db), 0x993e30c1);
    Next(block, s0, 7, 0x00000000, Regs(0x993e30c1, 0x3fc7ca40, 0xb3f52677, 0xf3763846, 0x284e43c2), 0x9e8c07d4);
    Next(block, s0, 8, 0x00000000, Regs(0x9e8c07d4, 0x993e30c1, 0x0ff1f290, 0xb3f52677, 0xf3763846), 0x4b6ae328);
    Next(block, s0, 9, 0x00000000, Regs(0x4b6ae328, 0x9e8c07d4, 0x664f8c30, 0x0ff1f290, 0xb3f52677), 0x8351f929);
    Next(block, s0, 10, 0x00000000, Regs(0x8351f929, 0x4b6ae328, 0x27a301f5, 0x664f8c30, 0x0ff1f290), 0xfbda9e89);
    Next(block, s0, 11, 0x00000000, Regs(0xfbda9e89, 0x8351f929, 0x12dab8ca, 0x27a301f5, 0x664f8c30), 0x63188fe4);
    Next(block, s0, 12, 0x00000000, Regs(0x63188fe4, 0xfbda9e89, 0x60d47e4a, 0x12dab8ca, 0x27a301f5), 0x4607b664);
    Next(block, s0, 13, 0x00000000, Regs(0x4607b664, 0x63188fe4, 0x7ef6a7a2, 0x60d47e4a, 0x12dab8ca), 0x9128f695);
    Next(block, s0, 14, 0x00000000, Regs(0x9128f695, 0x4607b664, 0x18c623f9, 0x7ef6a7a2, 0x60d47e4a), 0x196bee77);
    Next(block, s0, 15, 0x00000018, Regs(0x196bee77, 0x9128f695, 0x1181ed99, 0x18c623f9, 0x7ef6a7a2), 0x20bdd62f);
  }

  lemma Steps16(block: seq<bv32>, s0: Regs, ws: seq<bv32>)
    requires |block| == 16 && Seen(block, s0, 16, Regs(0x20bdd62f, 0x196bee77, 0x644a3da5, 0x1181ed99, 0x18c623f9))
    requires Scheduled(block, 16, ws) && ws == [0xc2c4c700, 0x00000000, 0x00000030, 0x85898e01, 0x00000000,
                                            0x00000060, 0x0b131c03, 0x00000030, 0x85898ec1, 0x16263806, 0x00000000,
                                            0x00000180, 0x2c4c700c, 0x000000f0, 0x93afb507, 0x5898e048]
    ensures Seen(block, s0, 32, Regs(0x3b845d33, 0x1267b407, 0x717eebd7, 0xa0dc2d4b, 0xd2aa1365))
  {
    hide Steps, Seen, W;
    Sixteen(block, 16, ws);
    Next(block, s0, 16, 0xc2c4c700, Regs(0x20bdd62f, 0x196bee77, 0x644a3da5, 0x1181ed99, 0x18c623f9), 0x4e925823);
    Next(block, s0, 17, 0x00000000, Regs(0x4e925823, 0x20bdd62f, 0xc65afb9d, 0x644a3da5, 0x1181ed99), 0x82aa6728);
    Next(block, s0, 18, 0x00000030, Regs(0x82aa6728, 0x4e925823, 0xc82f758b, 0xc65afb9d, 0x644a3da5), 0xdc64901d);
    Next(block, s0, 19, 0x85898e01, Regs(0xdc64901d, 0x82aa6728, 0xd3a49608, 0xc82f758b, 0xc65afb9d), 0xfd9e1d7d);
    Next(block, s0, 20, 0x00000000, Regs(0xfd9e1d7d, 0xdc64901d, 0x20aa99ca, 0xd3a49608, 0xc82f758b), 0x1a37b0ca);
    Next(block, s0, 21, 0x00000060, Regs(0x1a37b0ca, 0xfd9e1d7d, 0x77192407, 0x20aa99ca, 0xd3a49608), 0x33a23bfc);
    Next(block, s0, 22, 0x0b131c03, Regs(0x33a23bfc, 0x1a37b0ca, 0x7f67875f, 0x77192407, 0x20aa99ca), 0x21283486);
    Next(block, s0, 23, 0x00000030, Regs(0x21283486, 0x33a23bfc, 0x868dec32, 0x7f67875f, 0x77192407), 0xd541f12d);
    Next(block, s0, 24, 0x85898ec1, Regs(0xd541f12d, 0x21283486, 0x0ce88eff, 0x868dec32, 0x7f67875f), 0xc7567dc6);
    Next(block, s0, 25, 0x16263806, Regs(0xc7567dc6, 0xd541f12d, 0x884a0d21, 0x0ce88eff, 0x868dec32), 0x48413ba4);
    Next(block, s0, 26, 0x00000000, Regs(0x48413ba4, 0xc7567dc6, 0x75507c4b, 0x884a0d21, 0x0ce88eff), 0xbe35fbd5);
    Next(block, s0, 27, 0x00000180, Regs(0xbe35fbd5, 0x48413ba4, 0xb1d59f71, 0x75507c4b, 0x884a0d21), 0x4aa84d97);
    Next(block, s0, 28, 0x2c4c700c, Regs(0x4aa84d97, 0xbe35fbd5, 0x12104ee9, 0xb1d59f71, 0x75507c4b), 0x8370b52e);
    Next(block, s0, 29, 0x000000f0, Regs(0x8370b52e, 0x4aa84d97, 0x6f8d7ef5, 0x12104ee9, 0xb1d59f71), 0xc5fbaf5d);
    Next(block, s0, 30, 0x93afb507, Regs(0xc5fbaf5d, 0x8370b52e, 0xd2aa1365, 0x6f8d7ef5, 0x12104ee9), 0x1267b407);
    Next(block, s0, 31, 0x5898e048, Regs(0x1267b407, 0xc5fbaf5d, 0xa0dc2d4b, 0xd2aa1365, 0x6f8d7ef5), 0x3b845d33);
  }

  lemma Steps32(block: seq<bv32>, s0: Regs, ws: seq<bv32>)
    requires |block| == 16 && Seen(block, s0, 32, Regs(0x3b845d33, 0x1267b407, 0x717eebd7, 0xa0dc2d4b, 0xd2aa1365))
    requires Scheduled(block, 32, ws) && ws == [0x8e9a9202, 0x00000600, 0xb131c0f0, 0x16263bc6, 0x4ebed41e,
                                            0x626380a1, 0x16263806, 0x000018c0, 0xd2e138c4, 0x00000f00, 0x3afb5079,
                                            0x898e04e5, 0xe2ba3c2b, 0x000060c0, 0x053a37cd, 0x74458547]
    ensures Seen(block, s0, 48, Regs(0xbead02ca, 0xa01b846c, 0x8714787c, 0x503ca382, 0xfb86c6ab))
  {
    hide Steps, Seen, W;
    Sixteen(block, 32, ws);
    Next(block, s0, 32, 0x8e9a9202, Regs(0x3b845d33, 0x1267b407, 0x717eebd7, 0xa0dc2d4b, 0xd2aa1365), 0x046faa0a);
    Next(block, s0, 33, 0x00000600, Regs(0x046faa0a, 0x3b845d33, 0xc499ed01, 0x717eebd7, 0xa0dc2d4b), 0x2c0ebc11);
    Next(block, s0, 34, 0xb131c0f0, Regs(0x2c0ebc11, 0x046faa0a, 0xcee1174c, 0xc499ed01, 0x717eebd7), 0x21796ad4);
    Next(block, s0, 35, 0x16263bc6, Regs(0x21796ad4, 0x2c0ebc11, 0x811bea82, 0xcee1174c, 0xc499ed01), 0xdcbbb0cb);
    Next(block, s0, 36, 0x4ebed41e, Regs(0xdcbbb0cb, 0x21796ad4, 0x4b03af04, 0x811bea82, 0xcee1174c), 0x0f511fd8);
    Next(block, s0, 37, 0x626380a1, Regs(0x0f511fd8, 0xdcbbb0cb, 0x085e5ab5, 0x4b03af04, 0x811bea82), 0xdc63973f);
    Next(block, s0, 38, 0x16263806, Regs(0xdc63973f, 0x0f511fd8, 0xf72eec32, 0x085e5ab5, 0x4b03af04), 0x4c986405);
    Next(block, s0, 39, 0x000018c0, Regs(0x4c986405, 0xdc63973f, 0x03d447f6, 0xf72eec32, 0x085e5ab5), 0x32de1cba);
    Next(block, s0, 40, 0xd2e138c4, Regs(0x32de1cba, 0x4c986405, 0xf718e5cf, 0x03d447f6, 0xf72eec32), 0xfc87dedf);
    Next(block, s0, 41, 0x00000f00, Regs(0xfc87dedf, 0x32de1cba, 0x53261901, 0xf718e5cf, 0x03d447f6), 0x970a0d5c);
    Next(block, s0, 42, 0x3afb5079, Regs(0x970a0d5c, 0xfc87dedf, 0x8cb7872e, 0x53261901, 0xf718e5cf), 0x7f193dc5);
    Next(block, s0, 43, 0x898e04e5, Regs(0x7f193dc5, 0x970a0d5c, 0xff21f7b7, 0x8cb7872e, 0x53261901), 0xee1b1aaf);
    Next(block, s0, 44, 0xe2ba3c2b, Regs(0xee1b1aaf, 0x7f193dc5, 0x25c28357, 0xff21f7b7, 0x8cb7872e), 0x40f28e09);
    Next(block, s0, 45, 0x000060c0, Regs(0x40f28e09, 0xee1b1aaf, 0x5fc64f71, 0x25c28357, 0xff21f7b7), 0x1c51e1f2);
    Next(block, s0, 46, 0x053a37cd, Regs(0x1c51e1f2, 0x40f28e09, 0xfb86c6ab, 0x5fc64f71, 0x25c28357), 0xa01b846c);
    Next(block, s0, 47, 0x74458547, Regs(0xa01b846c, 0x1c51e1f2, 0x503ca382, 0xfb86c6ab, 0x5fc64f71), 0xbead02ca);
  }

  lemma Steps48(block: seq<bv32>, s0: Regs, ws: seq<bv32>)
    requires |block| == 16 && Seen(block, s0, 48, Regs(0xbead02ca, 0xa01b846c, 0x8714787c, 0x503ca382, 0xfb86c6ab))
    requires Scheduled(block, 48, ws) && ws == [0xda9415ed, 0x26380a16, 0x626383a1, 0x4ebf54de, 0x3835b44b,
                                            0x0000f600, 0x1e84c7a3, 0x98e04d98, 0x651d16a0, 0x62658ca1, 0x458544d6,
                                            0x44584cb7, 0x7ba06619, 0x6380aea2, 0x0ae55269, 0x627b49a1]
    ensures Seen(block, s0, 64, Regs(0x6b61c9e1, 0xb66c020b, 0x9523272c, 0xf5d5b051, 0x8fd4b796))
  {
    hide Steps, Seen, W;
    Sixteen(block, 48, ws);
    Next(block, s0, 48, 0xda9415ed, Regs(0xbead02ca, 0xa01b846c, 0x8714787c, 0x503ca382, 0xfb86c6ab), 0xbaf39337);
    Next(block, s0, 49, 0x26380a16, Regs(0xbaf39337, 0xbead02ca, 0x2806e11b, 0x8714787c, 0x503ca382), 0x120731c5);
    Next(block, s0, 50, 0x626383a1, Regs(0x120731c5, 0xbaf39337, 0xafab40b2, 0x2806e11b, 0x8714787c), 0x641db2ce);
    Next(block, s0, 51, 0x4ebf54de, Regs(0x641db2ce, 0x120731c5, 0xeebce4cd, 0xafab40b2, 0x2806e11b), 0x3847ad66);
    Next(block, s0, 52, 0x3835b44b, Regs(0x3847ad66, 0x641db2ce, 0x4481cc71, 0xeebce4cd, 0xafab40b2), 0xe490436d);
    Next(block, s0, 53, 0x0000f600, Regs(0xe490436d, 0x3847ad66, 0x99076cb3, 0x4481cc71, 0xeebce4cd), 0x27e9f1d8);
    Next(block, s0, 54, 0x1e84c7a3, Regs(0x27e9f1d8, 0xe490436d, 0x8e11eb59, 0x99076cb3, 0x4481cc71), 0x7b71f76d);
    Next(block, s0, 55, 0x98e04d98, Regs(0x7b71f76d, 0x27e9f1d8, 0x792410db, 0x8e11eb59, 0x99076cb3), 0x5e6456af);
    Next(block, s0, 56, 0x651d16a0, Regs(0x5e6456af, 0x7b71f76d, 0x09fa7c76, 0x792410db, 0x8e11eb59), 0xc846093f);
    Next(block, s0, 57, 0x62658ca1, Regs(0xc846093f, 0x5e6456af, 0x5edc7ddb, 0x09fa7c76, 0x792410db), 0xd262ff50);
    Next(block, s0, 58, 0x458544d6, Regs(0xd262ff50, 0xc846093f, 0xd79915ab, 0x5edc7ddb, 0x09fa7c76), 0x09d785fd);
    Next(block, s0, 59, 0x44584cb7, Regs(0x09d785fd, 0xd262ff50, 0xf211824f, 0xd79915ab, 0x5edc7ddb), 0x3f52de5a);
    Next(block, s0, 60, 0x7ba06619, Regs(0x3f52de5a, 0x09d785fd, 0x3498bfd4, 0xf211824f, 0xd79915ab), 0xd756c147);
    Next(block, s0, 61, 0x6380aea2, Regs(0xd756c147, 0x3f52de5a, 0x4275e17f, 0x3498bfd4, 0xf211824f), 0x548c9cb2);
    Next(block, s0, 62, 0x0ae55269, Regs(0x548c9cb2, 0xd756c147, 0x8fd4b796, 0x4275e17f, 0x3498bfd4), 0xb66c020b);
    Next(block, s0, 63, 0x627b49a1, Regs(0xb66c020b, 0x548c9cb2, 0xf5d5b051, 0x8fd4b796, 0x4275e17f), 0x6b61c9e1);
  }

  lemma Steps64(block: seq<bv32>, s0: Regs, ws: seq<bv32>)
    requires |block| == 16 && Seen(block, s0, 64, Regs(0x6b61c9e1, 0xb66c020b, 0x9523272c, 0xf5d5b051, 0x8fd4b796))
    requires Scheduled(block, 64, ws) && ws == [0x7cd45c9d, 0x000f0000, 0xfb50753a, 0xec6765e8, 0xba3c2be2,
                                            0x0060c000, 0x3a37cd05, 0x458546f4, 0xb8599dd6, 0x380a1a26, 0x01e02203,
                                            0xe7cc3456, 0xe6e60b69, 0x00f60a00, 0x5795ef4f, 0x822e0879]
    ensures Seen(block, s0, 80, Regs(0x42541b35, 0x5738d5e1, 0x21834873, 0x681e6df6, 0xd8fdf6ad))
  {
    hide Steps, Seen, W;
    Sixteen(block, 64, ws);
    Next(block, s0, 64, 0x7cd45c9d, Regs(0x6b61c9e1, 0xb66c020b, 0x9523272c, 0xf5d5b051, 0x8fd4b796), 0x19dfa7ac);
    Next(block, s0, 65, 0x000f0000, Regs(0x19dfa7ac, 0x6b61c9e1, 0xed9b0082, 0x9523272c, 0xf5d5b051), 0x101655f9);
    Next(block, s0, 66, 0xfb50753a, Regs(0x101655f9, 0x19dfa7ac, 0x5ad87278, 0xed9b0082, 0x9523272c), 0x0c3df2b4);
    Next(block, s0, 67, 0xec6765e8, Regs(0x0c3df2b4, 0x101655f9, 0x0677e9eb, 0x5ad87278, 0xed9b0082), 0x78dd4d2b);
    Next(block, s0, 68, 0xba3c2be2, Regs(0x78dd4d2b, 0x0c3df2b4, 0x4405957e, 0x0677e9eb, 0x5ad87278), 0x497093c0);
    Next(block, s0, 69, 0x0060c000, Regs(0x497093c0, 0x78dd4d2b, 0x030f7cad, 0x4405957e, 0x0677e9eb), 0x3f2588c2);
    Next(block, s0, 70, 0x3a37cd05, Regs(0x3f2588c2, 0x497093c0, 0xde37534a, 0x030f7cad, 0x4405957e), 0xc199f8c7);
    Next(block, s0, 71, 0x458546f4, Regs(0xc199f8c7, 0x3f2588c2, 0x125c24f0, 0xde37534a, 0x030f7cad), 0x39859de7);
    Next(block, s0, 72, 0xb8599dd6, Regs(0x39859de7, 0xc199f8c7, 0x8fc96230, 0x125c24f0, 0xde37534a), 0xedb42de4);
    Next(block, s0, 73, 0x380a1a26, Regs(0xedb42de4, 0x39859de7, 0xf0667e31, 0x8fc96230, 0x125c24f0), 0x11793f6f);
    Next(block, s0, 74, 0x01e02203, Regs(0x11793f6f, 0xedb42de4, 0xce616779, 0xf0667e31, 0x8fc96230), 0x5ee76897);
    Next(block, s0, 75, 0xe7cc3456, Regs(0x5ee76897, 0x11793f6f, 0x3b6d0b79, 0xce616779, 0xf0667e31), 0x63f7dab7);
    Next(block, s0, 76, 0xe6e60b69, Regs(0x63f7dab7, 0x5ee76897, 0xc45e4fdb, 0x3b6d0b79, 0xce616779), 0xa079b7d9);
    Next(block, s0, 77, 0x00f60a00, Regs(0xa079b7d9, 0x63f7dab7, 0xd7b9da25, 0xc45e4fdb, 0x3b6d0b79), 0x860d21cc);
    Next(block, s0, 78, 0x5795ef4f, Regs(0x860d21cc, 0xa079b7d9, 0xd8fdf6ad, 0xd7b9da25, 0xc45e4fdb), 0x5738d5e1);
    Next(block, s0, 79, 0x822e0879, Regs(0x5738d5e1, 0x860d21cc, 0x681e6df6, 0xd8fdf6ad, 0xd7b9da25), 0x42541b35);
  }

  lemma Nothing(block: seq<bv32>, s0: Regs)
    requires |block| == 16
    ensures Seen(block, s0, 0, s0)
  {
  }

  function Abc(): Bytes {
    [0x61, 0x62, 0x63]
  }

  lemma AbcBytes(p: Bytes)
    requires p == Padded(Abc(), BigEndian(24, 8))
    ensures |p| == 64 && p[..4] == [0x61, 0x62, 0x63, 0x80] && p[63] == 0x18
    ensures forall j | 4 <= j < 63 :: p[j] == 0
  {
    LengthBytes();
    hide BigEndian;
    assert ZeroCount(3) == 52;
    hide ZeroCount;
    var l := BigEndian(24, 8);
    assert p == Abc() + [0x80] + Zeros(52) + l;
    assert forall j | 4 <= j < 56 :: p[j] == Zeros(52)[j - 4];
    assert forall j | 56 <= j < 64 :: p[j] == l[j - 56];
  }

  lemma LengthBytes()
    ensures BigEndian(24, 8) == [0, 0, 0, 0, 0, 0, 0, 0x18]
  {
    assert BigEndian(0, 4) == [0, 0, 0, 0];
    assert BigEndian(0, 7) == [0, 0, 0, 0, 0, 0, 0];
  }

  lemma AbcWords(p: Bytes)
    requires p == Padded(Abc(), BigEndian(24, 8))
    ensures |p| == 64 && BlockWords(p) == [0x61626380, 0, 0, 0, 0, 0, 0, 0, 0, 0, 0, 0, 0, 0, 0, 0x18]
  {
    AbcBytes(p);
    hide Padded;
    var w := BlockWords(p);
    assert p[0] == p[..4][0] && p[1] == p[..4][1] && p[2] == p[..4][2] && p[3] == p[..4][3];
    assert w[0] == 0x61626380;
    assert w[15] == 0x18;
    assert forall i | 1 <= i < 15 :: w[i] == Pack(p[4 * i + 3], p[4 * i + 2], p[4 * i + 1], p[4 * i]);
    assert Pack(0, 0, 0, 0) == 0;
  }

  lemma FirstWords(block: seq<bv32>)
    requires |block| == 16
    ensures Scheduled(block, 0, block)
  {
  }

  lemma AbcSteps(block: seq<bv32>, s0: Regs)
    requires block == [0x61626380, 0, 0, 0, 0, 0, 0, 0, 0, 0, 0, 0, 0, 0, 0, 0x18]
    requires s0 == Regs(0x67452301, 0xefcdab89, 0x98badcfe, 0x10325476, 0xc3d2e1f0)
    ensures Seen(block, s0, 80, Regs(0x42541b35, 0x5738d5e1, 0x21834873, 0x681e6df6, 0xd8fdf6ad))
  {
    hide Seen, Scheduled;
    var w8: seq<bv32> := [0x00000000, 0x00000000, 0x00000000, 0x00000000, 0x00000000, 0x00000000, 0x00000000,
                        0x00000018, 0xc2c4c700, 0x00000000, 0x00000030, 0x85898e01, 0x00000000, 0x00000060,
                        0x0b131c03, 0x00000030];
    var w16: seq<bv32> := [0xc2c4c700, 0x00000000, 0x00000030, 0x85898e01, 0x00000000, 0x00000060, 0x0b131c03,
                        0x00000030, 0x85898ec1, 0x16263806, 0x00000000, 0x00000180, 0x2c4c700c, 0x000000f0,
                        0x93afb507, 0x5898e048];
    var w32: seq<bv32> := [0x8e9a9202, 0x00000600, 0xb131c0f0, 0x16263bc6, 0x4ebed41e, 0x626380a1, 0x16263806,
                        0x000018c0, 0xd2e138c4, 0x00000f00, 0x3afb5079, 0x898e04e5, 0xe2ba3c2b, 0x000060c0,
                        0x053a37cd, 0x74458547];
    var w48: seq<bv32> := [0xda9415ed, 0x26380a16, 0x626383a1, 0x4ebf54de, 0x3835b44b, 0x0000f600, 0x1e84c7a3,
                        0x98e04d98, 0x651d16a0, 0x62658ca1, 0x458544d6, 0x44584cb7, 0x7ba06619, 0x6380aea2,
                        0x0ae55269, 0x627b49a1];
    var w64: seq<bv32> := [0x7cd45c9d, 0x000f0000, 0xfb50753a, 0xec6765e8, 0xba3c2be2, 0x0060c000, 0x3a37cd05,
                        0x458546f4, 0xb8599dd6, 0x380a1a26, 0x01e02203, 0xe7cc3456, 0xe6e60b69, 0x00f60a00,
                        0x5795ef4f, 0x822e0879];
    FirstWords(block);
    Nothing(block, s0);
    Steps0(block, s0, block);
    WordsFrom16(block, block, w8);
    WordsFrom24(block, w8, w16);
    Steps16(block, s0, w16);
    Words32(block, w16, w32);
    Steps32(block, s0, w32);
    Words48(block, w32, w48);
    Steps48(block, s0, w48);
    Words64(block, w48, w64);
    Steps64(block, s0, w64);
  }

  /** The digest of "abc". */
  lemma AbcVector()
    ensures Sha1Of(Abc()) == [0xa9, 0x99, 0x3e, 0x36, 0x47, 0x06, 0x81, 0x6a, 0xba, 0x3e,
                              0x25, 0x71, 0x78, 0x50, 0xc2, 0x6c, 0x9c, 0xd0, 0xd8, 0x9d]
  {
    hide BigEndian, Compressed, Byte, Padded;
    var p := Padded(Abc(), BigEndian(24, 8));
    assert Wrap64(8 * 3) == 24;
    AbcCompressed(p);
    var h: HashWords := [0xa9993e36, 0x4706816a, 0xba3e2571, 0x7850c26c, 0x9cd0d89d];
    OneBlock(Compressed, 64, INIT, p, []);
    NoBlock(Compressed, 64, h, []);
    assert p + [] == p;
    AbcOut(h);
  }

  lemma AbcCompressed(p: Bytes)
    requires p == Padded(Abc(), BigEndian(24, 8))
    ensures |p| == 64 && Compressed(INIT, p) == [0xa9993e36, 0x4706816a, 0xba3e2571, 0x7850c26c, 0x9cd0d89d]
  {
    hide BigEndian, Padded, BlockWords, Steps;
    AbcWords(p);
    AbcSteps(BlockWords(p), Regs(INIT[0], INIT[1], INIT[2], INIT[3], INIT[4]));
  }

  lemma AbcOut(h: HashWords)
    requires h == [0xa9993e36, 0x4706816a, 0xba3e2571, 0x7850c26c, 0x9cd0d89d]
    ensures BigEndianWords(h) == [0xa9, 0x99, 0x3e, 0x36, 0x47, 0x06, 0x81, 0x6a, 0xba, 0x3e,
                                  0x25, 0x71, 0x78, 0x50, 0xc2, 0x6c, 0x9c, 0xd0, 0xd8, 0x9d]
  {
    assert h[..4][..3] == h[..3] && h[..3][..2] == h[..2] && h[..2][..1] == h[..1] && h[..1][..0] == [];
    assert BigEndianWords(h[..1]) == [0xa9, 0x99, 0x3e, 0x36];
    assert BigEndianWords(h[..2]) == BigEndianWords(h[..1]) + [0x47, 0x06, 0x81, 0x6a];
    assert BigEndianWords(h[..3]) == BigEndianWords(h[..2]) + [0xba, 0x3e, 0x25, 0x71];
    assert BigEndianWords(h[..4]) == BigEndianWords(h[..3]) + [0x78, 0x50, 0xc2, 0x6c];
  }
}
