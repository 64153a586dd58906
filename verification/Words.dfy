/** Bytes and little-endian 32-bit words. Exclusive or and sum are named functions so that proofs can leave their bits
    alone. */
module Words {
  /** Exclusive or of bytes. */
  function Xor(a: bv8, b: bv8): bv8 {
    a ^ b
  }

  lemma XorLaws(a: bv8, b: bv8, c: bv8)
    ensures Xor(a, b) == Xor(b, a)
    ensures Xor(Xor(a, b), c) == Xor(a, Xor(b, c))
    ensures Xor(a, 0) == a && Xor(a, a) == 0
  {
  }

  lemma XorSwap(p: bv8, q: bv8, r: bv8, s: bv8)
    ensures Xor(Xor(p, q), Xor(r, s)) == Xor(Xor(p, r), Xor(q, s))
  {
    hide *;
    XorLaws(p, q, Xor(r, s));
    XorLaws(q, r, s);
    XorLaws(r, q, s);
    XorLaws(p, r, Xor(q, s));
  }

  function Xor32(a: bv32, b: bv32): bv32 {
    a ^ b
  }

  function Add32(a: bv32, b: bv32): bv32 {
    a + b
  }

  function Byte(w: bv32, n: nat): bv8
    requires n < 4
  {
    if n == 0 then (w & 0xff) as bv8
    else if n == 1 then ((w >> 8) & 0xff) as bv8
    else if n == 2 then ((w >> 16) & 0xff) as bv8
    else (w >> 24) as bv8
  }

  function Place(n: nat, b: bv8): bv32
    requires n < 4
  {
    if n == 0 then b as bv32
    else if n == 1 then (b as bv32) << 8
    else if n == 2 then (b as bv32) << 16
    else (b as bv32) << 24
  }

  function Pack(b0: bv8, b1: bv8, b2: bv8, b3: bv8): bv32 {
    Xor32(Xor32(Xor32(Place(0, b0), Place(1, b1)), Place(2, b2)), Place(3, b3))
  }

  /** Four bytes or-ed into a word. */
  function OrBytes(b0: bv8, b1: bv8, b2: bv8, b3: bv8): bv32 {
    (b0 as bv32) | ((b1 as bv32) << 8) | ((b2 as bv32) << 16) | ((b3 as bv32) << 24)
  }

  lemma OrIsPack(b0: bv8, b1: bv8, b2: bv8, b3: bv8)
    ensures OrBytes(b0, b1, b2, b3) == Pack(b0, b1, b2, b3)
  {
  }

  lemma Xor32Commutes(a: bv32, b: bv32)
    ensures Xor32(a, b) == Xor32(b, a)
    ensures Xor32(a, 0) == a && Xor32(a, a) == 0
  {
    assert a ^ b == b ^ a;
  }

  lemma Xor32Assoc(a: bv32, b: bv32, c: bv32)
    ensures Xor32(Xor32(a, b), c) == Xor32(a, Xor32(b, c))
  {
    assert (a ^ b) ^ c == a ^ (b ^ c);
    var x, y := Xor32(a, b), Xor32(b, c);
    assert x ^ c == a ^ y;
  }

  /** Adding the same key twice takes it away again. */
  lemma Xor32Cancel(a: bv32, k: bv32)
    ensures Xor32(Xor32(a, k), k) == a
  {
    hide Xor32;
    Xor32Assoc(a, k, k);
    Xor32Commutes(k, k);
    Xor32Commutes(a, 0);
  }

  lemma PackBytes(b0: bv8, b1: bv8, b2: bv8, b3: bv8)
    ensures Byte(Pack(b0, b1, b2, b3), 0) == b0 && Byte(Pack(b0, b1, b2, b3), 1) == b1
    ensures Byte(Pack(b0, b1, b2, b3), 2) == b2 && Byte(Pack(b0, b1, b2, b3), 3) == b3
  {
  }

  lemma PackOfBytes(w: bv32)
    ensures Pack(Byte(w, 0), Byte(w, 1), Byte(w, 2), Byte(w, 3)) == w
  {
  }

  lemma ByteXor(a: bv32, b: bv32, n: nat)
    requires n < 4
    ensures Byte(Xor32(a, b), n) == Xor(Byte(a, n), Byte(b, n))
  {
    if n == 0 {
      assert ((a ^ b) & 0xff) as bv8 == (a & 0xff) as bv8 ^ (b & 0xff) as bv8;
    } else if n == 1 {
      assert (((a ^ b) >> 8) & 0xff) as bv8 == ((a >> 8) & 0xff) as bv8 ^ ((b >> 8) & 0xff) as bv8;
    } else if n == 2 {
      assert (((a ^ b) >> 16) & 0xff) as bv8 == ((a >> 16) & 0xff) as bv8 ^ ((b >> 16) & 0xff) as bv8;
    } else {
      assert ((a ^ b) >> 24) as bv8 == (a >> 24) as bv8 ^ (b >> 24) as bv8;
    }
  }

  lemma PackXor(a0: bv8, a1: bv8, a2: bv8, a3: bv8, b0: bv8, b1: bv8, b2: bv8, b3: bv8)
    ensures Pack(Xor(a0, b0), Xor(a1, b1), Xor(a2, b2), Xor(a3, b3))
         == Xor32(Pack(a0, a1, a2, a3), Pack(b0, b1, b2, b3))
  {
    hide Pack, Xor32, Xor, Byte;
    var x, y := Pack(a0, a1, a2, a3), Pack(b0, b1, b2, b3);
    PackBytes(a0, a1, a2, a3);
    PackBytes(b0, b1, b2, b3);
    ByteXor(x, y, 0); ByteXor(x, y, 1); ByteXor(x, y, 2); ByteXor(x, y, 3);
    PackOfBytes(Xor32(x, y));
  }

  /** u32_in on the 4 * n bytes of a key or a block, and u32_out. */
  function WordsIn(b: seq<bv8>): (w: seq<bv32>)
    requires |b| % 4 == 0
    ensures |w| == |b| / 4
  {
    if b == [] then [] else [Pack(b[0], b[1], b[2], b[3])] + WordsIn(b[4..])
  }

  function BytesOut(s: seq<bv32>): (b: seq<bv8>)
    ensures |b| == 4 * |s|
  {
    if s == [] then [] else [Byte(s[0], 0), Byte(s[0], 1), Byte(s[0], 2), Byte(s[0], 3)] + BytesOut(s[1..])
  }

  lemma {:induction false} WordsOfBytes(s: seq<bv32>)
    ensures WordsIn(BytesOut(s)) == s
  {
    hide Byte, Pack;
    if s != [] {
      WordsOfBytes(s[1..]);
      PackOfBytes(s[0]);
      assert BytesOut(s)[4..] == BytesOut(s[1..]);
    }
  }

  lemma {:induction false} BytesOfWords(b: seq<bv8>)
    requires |b| % 4 == 0
    ensures BytesOut(WordsIn(b)) == b
  {
    hide Byte, Pack;
    if b != [] {
      BytesOfWords(b[4..]);
      PackBytes(b[0], b[1], b[2], b[3]);
      assert b == b[..4] + b[4..];
    }
  }

  /** The words of sixteen bytes. */
  lemma FourWords(b: seq<bv8>)
    requires |b| == 16
    ensures WordsIn(b) == [Pack(b[0], b[1], b[2], b[3]), Pack(b[4], b[5], b[6], b[7]), Pack(b[8], b[9], b[10], b[11]),
                           Pack(b[12], b[13], b[14], b[15])]
  {
    hide Pack;
    assert b[4..][4..] == b[8..] && b[8..][4..] == b[12..] && b[12..][4..] == [];
    assert WordsIn(b[12..]) == [Pack(b[12], b[13], b[14], b[15])];
    assert WordsIn(b[8..]) == [Pack(b[8], b[9], b[10], b[11])] + WordsIn(b[12..]);
    assert WordsIn(b[4..]) == [Pack(b[4], b[5], b[6], b[7])] + WordsIn(b[8..]);
  }
}
