/** Hashing a message block by block: the one-shot definition that the buffered digests refine, and padding. */
module Streaming {
  import opened Arithmetic
  import opened ByteValues
  import opened Words

  type Bytes = seq<bv8>
  type HashWords = seq<bv32>
  /** A compression function over a hash state. */
  type Compress<!H> = (H, Bytes) -> H

  const TWO64: nat := 0x1_0000_0000_0000_0000

  /** The compression folded over the whole blocks of m. */
  function Blocks<H>(f: Compress<H>, n: nat, h: H, m: Bytes): H
    requires n > 0
    decreases |m|
  {
    if |m| < n then h else Blocks(f, n, f(h, m[..n]), m[n..])
  }

  /** What of m does not fill a block. */
  function Tail(n: nat, m: Bytes): (t: Bytes)
    requires n > 0
    ensures |t| == |m| % n
  {
    m[|m| - |m| % n..]
  }

  lemma TailDrop(n: nat, m: Bytes)
    requires 0 < n <= |m|
    ensures Tail(n, m) == Tail(n, m[n..])
  {
    ModStep(|m|, n);
  }

  lemma TailShort(n: nat, m: Bytes)
    requires |m| < n
    ensures Tail(n, m) == m
  {
    DivModUnique(|m|, n, 0, |m|);
  }

  /** A message continued: the fold goes on from what is left of the first part. */
  lemma {:induction false} Continue<H>(f: Compress<H>, n: nat, h: H, a: Bytes, b: Bytes)
    requires n > 0
    ensures Blocks(f, n, h, a + b) == Blocks(f, n, Blocks(f, n, h, a), Tail(n, a) + b)
    ensures Tail(n, a + b) == Tail(n, Tail(n, a) + b)
    decreases |a|
  {
    if |a| < n {
      TailShort(n, a);
    } else {
      TailDrop(n, a);
      TailDrop(n, a + b);
      assert (a + b)[..n] == a[..n] && (a + b)[n..] == a[n..] + b;
      Continue(f, n, f(h, a[..n]), a[n..], b);
    }
  }

  /** One whole block more. */
  lemma OneBlock<H>(f: Compress<H>, n: nat, h: H, x: Bytes, rest: Bytes)
    requires |x| == n > 0
    ensures Blocks(f, n, h, x + rest) == Blocks(f, n, f(h, x), rest) && Tail(n, x + rest) == Tail(n, rest)
  {
    assert (x + rest)[..n] == x && (x + rest)[n..] == rest;
    TailDrop(n, x + rest);
  }

  lemma NoBlock<H>(f: Compress<H>, n: nat, h: H, rest: Bytes)
    requires |rest| < n
    ensures Blocks(f, n, h, rest) == h && Tail(n, rest) == rest
  {
    TailShort(n, rest);
  }

  // ---- numbers as bytes

  /** What a 64-bit counter holds. */
  function Wrap64(n: nat): (w: nat)
    ensures w < TWO64
  {
    n % TWO64
  }

  lemma Wrap64Add(a: nat, b: nat)
    ensures Wrap64(Wrap64(a) + b) == Wrap64(a + b)
  {
  }

  /** The low k bytes of v, least significant first. */
  function LittleEndian(v: nat, k: nat): (b: Bytes)
    ensures |b| == k
  {
    if k == 0 then [] else [ToByte(v % 256)] + LittleEndian(v / 256, k - 1)
  }

  /** The low k bytes of v, most significant first. */
  function BigEndian(v: nat, k: nat): (b: Bytes)
    ensures |b| == k
  {
    if k == 0 then [] else BigEndian(v / 256, k - 1) + [ToByte(v % 256)]
  }

  function Pow256(k: nat): (p: nat)
    ensures p > 0
  {
    if k == 0 then 1 else 256 * Pow256(k - 1)
  }

  lemma Pow256Of4()
    ensures Pow256(4) == TWO32
  {
    assert Pow256(1) == 256;
    assert Pow256(2) == 0x1_0000;
    assert Pow256(3) == 0x100_0000;
  }

  /** A number made of two parts is written as its parts. */
  lemma {:induction false} EndianSplit(hi: nat, lo: nat, a: nat, b: nat)
    requires lo < Pow256(a)
    ensures LittleEndian(hi * Pow256(a) + lo, a + b) == LittleEndian(lo, a) + LittleEndian(hi, b)
    ensures BigEndian(hi * Pow256(a) + lo, a + b) == BigEndian(hi, b) + BigEndian(lo, a)
    decreases a
  {
    hide ToByte;
    if a == 0 {
      assert hi * Pow256(a) + lo == hi;
    } else {
      var v, p := hi * Pow256(a) + lo, Pow256(a - 1);
      assert v == (hi * p + lo / 256) * 256 + lo % 256 by {
        assert hi * (256 * p) == (hi * p) * 256;
      }
      DivModUnique(v, 256, hi * p + lo / 256, lo % 256);
      EndianSplit(hi, lo / 256, a - 1, b);
      UnfoldEndian(v, a + b);
      UnfoldEndian(lo, a);
    }
  }

  lemma UnfoldEndian(v: nat, k: nat)
    requires k > 0
    ensures LittleEndian(v, k) == [ToByte(v % 256)] + LittleEndian(v / 256, k - 1)
    ensures BigEndian(v, k) == BigEndian(v / 256, k - 1) + [ToByte(v % 256)]
  {
  }

  function Zeros(k: nat): (z: Bytes)
    ensures |z| == k
  {
    seq(k, _ => 0)
  }

  /** The zero bytes after the 0x80 byte: enough to leave eight bytes to the end of a block of 64. */
  function ZeroCount(len: nat): (z: nat)
    ensures z < 64 && (len + 1 + z + 8) % 64 == 0
  {
    (119 - len % 64) % 64
  }

  /** The padding of section 3.1 of RFC 1321, section 4 of RFC 3174 and section 5.1.1 of FIPS 180-2, with the eight
      length bytes of section 3.2 of RFC 1321 or its counterparts. */
  function Padded(m: Bytes, length: Bytes): (p: Bytes)
    requires |length| == 8
    ensures |p| % 64 == 0
  {
    m + [0x80] + Zeros(ZeroCount(|m|)) + length
  }

  /** memcpy of data into a buffer whose first at bytes are head. */
  method CopyIn(buf: array<bv8>, at: nat, data: Bytes, ghost head: Bytes)
    requires at + |data| <= buf.Length && buf[..at] == head
    modifies buf
    ensures buf[..at + |data|] == head + data
  {
    ghost var was := buf[..];
    forall i | 0 <= i < |data| {
      buf[at + i] := data[i];
    }
    forall i | 0 <= i < at + |data|
      ensures buf[i] == (head + data)[i]
    {
      if i < at {
        assert buf[i] == was[i] == was[..at][i];
      } else {
        assert buf[at + (i - at)] == data[i - at];
      }
    }
  }

  // ---- how far an update has come

  /** The fold over fed is the fold from h over rest. */
  ghost predicate Feeding<H>(f: Compress<H>, n: nat, h0: H, fed: Bytes, h: H, rest: Bytes)
    requires n > 0
  {
    Blocks(f, n, h0, fed) == Blocks(f, n, h, rest) && Tail(n, fed) == Tail(n, rest)
  }

  lemma FeedStart<H>(f: Compress<H>, n: nat, h0: H, msg: Bytes, data: Bytes)
    requires n > 0
    ensures Feeding(f, n, h0, msg + data, Blocks(f, n, h0, msg), Tail(n, msg) + data)
  {
    Continue(f, n, h0, msg, data);
  }

  lemma FeedBlock<H>(f: Compress<H>, n: nat, h0: H, fed: Bytes, h: H, x: Bytes, rest: Bytes)
    requires n > 0 && Feeding(f, n, h0, fed, h, x + rest) && |x| == n
    ensures Feeding(f, n, h0, fed, f(h, x), rest)
  {
    OneBlock(f, n, h, x, rest);
  }

  lemma FeedEnd<H>(f: Compress<H>, n: nat, h0: H, fed: Bytes, h: H, rest: Bytes)
    requires n > 0 && Feeding(f, n, h0, fed, h, rest) && |rest| < n
    ensures Blocks(f, n, h0, fed) == h && Tail(n, fed) == rest && |fed| % n == |rest|
  {
    NoBlock(f, n, h, rest);
  }

  // ---- the counters and the padding of the SHA digests

  /** Words written out most significant byte first. */
  function BigEndianWords(s: HashWords): Bytes {
    if s == [] then []
    else
      var t := s[|s| - 1];
      BigEndianWords(s[..|s| - 1]) + [Byte(t, 3), Byte(t, 2), Byte(t, 1), Byte(t, 0)]
  }

  lemma BitCountMod64(m: Bytes)
    ensures Wrap64(8 * |m|) / 8 % 64 == |Tail(64, m)| == |m| % 64
  {
    var n := |m|;
    var q, r := n / 0x2000_0000_0000_0000, n % 0x2000_0000_0000_0000;
    DivModUnique(8 * n, TWO64, q, 8 * r);
    DivModUnique(n, 64, q * 0x80_0000_0000_0000 + r / 64, r % 64);
  }

  /** A position at a block boundary, with j bytes before the data, does not overflow 32 bits when a block is added,
      unless the data itself does. */
  lemma NoOverflow(i: nat, j: nat, len: nat)
    requires (i + j) % 64 == 0 && i <= len && j + len < TWO32
    ensures (i + 63) % TWO32 == i + 63
  {
    assert i + j <= TWO32 - 64;
    DivModUnique(i + 63, TWO32, 0, i + 63);
  }

  /** Where the sum of position and length does overflow, it looks like one that fits the buffer, though the data does
      not; and the last boundary within the data plus a block looks like one before its end. */
  lemma Overrun(j: nat, len: nat)
    requires j < 64 && len < TWO32 && j + len >= TWO32
    ensures (j + len) % TWO32 <= 63 < j + len
    ensures TWO32 - j <= len && (TWO32 - j + 63) % TWO32 < len
  {
    DivModUnique(j + len, TWO32, 1, j + len - TWO32);
    DivModUnique(TWO32 - j + 63, TWO32, 1, 63 - j);
  }

  /** Whatever the length of a call, the low bits of the counter are right. */
  lemma IndexAfter(count: nat, n: nat, len: nat)
    requires count / 8 % 64 == n % 64
    ensures Wrap64(count + 8 * len % TWO32) / 8 % 64 == (n + len) % 64
  {
    var k := len % 0x2000_0000;
    DivModUnique(8 * len, TWO32, len / 0x2000_0000, 8 * k);
    LowBits(count, 8 * k);
    SameIndex(count / 8, n, k, len);
  }

  lemma LowBits(count: nat, add: nat)
    requires add % 8 == 0
    ensures Wrap64(count + add) / 8 % 64 == (count / 8 + add / 8) % 64
  {
    var v := count + add;
    var q, r := v / TWO64, v % TWO64;
    assert v / 8 == q * 0x2000_0000_0000_0000 + r / 8;
    DivModUnique(v / 8, 64, q * 0x80_0000_0000_0000 + r / 8 / 64, r / 8 % 64);
  }

  lemma SameIndex(a: nat, n: nat, k: nat, len: nat)
    requires a % 64 == n % 64 && k == len % 0x2000_0000
    ensures (a + k) % 64 == (n + len) % 64
  {
  }

  /** len << 3 in 32 bits: a call is counted exactly if and only if it is of less than 2^29 bytes. */
  lemma AddBits(n: nat, len: nat)
    requires len < TWO32
    ensures Wrap64(Wrap64(8 * n) + 8 * len % TWO32) == Wrap64(8 * (n + len)) <==> len < 0x2000_0000
  {
    var lost, r := 8 * len / TWO32, 8 * len % TWO32;
    Wrap64Add(8 * n, r);
    if len < 0x2000_0000 {
      DivModUnique(8 * len, TWO32, 0, 8 * len);
    } else {
      assert 0 < lost < 8;
      Wrap64Differs(8 * n + r, lost * TWO32);
    }
  }

  lemma Wrap64Differs(a: nat, d: nat)
    requires 0 < d < TWO64
    ensures Wrap64(a) != Wrap64(a + d)
  {
  }

  lemma PadLength(n: nat, index: nat, padlen: nat)
    requires index == n % 64 && padlen == if index < 56 then 56 - index else (64 + 56) - index
    ensures 1 <= padlen <= 64 && padlen == 1 + ZeroCount(n)
  {
  }

  lemma Assemble(m: Bytes, padlen: nat, bits: Bytes)
    requires 1 <= padlen <= 64 && padlen == 1 + ZeroCount(|m|) && |bits| == 8
    ensures (m + ([0x80] + Zeros(63))[..padlen]) + bits == Padded(m, bits)
  {
    assert ([0x80] + Zeros(63))[..padlen] == [0x80] + Zeros(ZeroCount(|m|));
  }
}
