/** crypto/md5.c: the buffering and padding of MD5; md5_transform is a parameter. */
module Md5 {
  import opened Arithmetic
  import opened Words
  import opened Streaming

  const INIT: HashWords := [0x67452301, 0xefcdab89, 0x98badcfe, 0x10325476]

  /** The initial state is the bytes 01 23 .. ef and back again (section 3.3 of RFC 1321). */
  lemma InitialBytes(b: Bytes)
    requires b == [0x01, 0x23, 0x45, 0x67, 0x89, 0xab, 0xcd, 0xef, 0xfe, 0xdc, 0xba, 0x98, 0x76, 0x54, 0x32, 0x10]
    ensures BytesOut(INIT) == b
  {
    hide BytesOut, WordsIn;
    FourWords(b);
    BytesOfWords(b);
  }

  /** RFC 1321 over a compression function: the padded message, with its length in bits as eight bytes, least
      significant first (sections 3.1 and 3.2), and the state written out least significant byte first (section 3.5). */
  function Md5Of(transform: Compress<HashWords>, m: Bytes): Bytes {
    BytesOut(Blocks(transform, 64, INIT, Padded(m, LittleEndian(Wrap64(8 * |m|), 8))))
  }

  lemma CountMod64(m: Bytes)
    ensures Wrap64(|m|) % 64 == |Tail(64, m)|
  {
    var n := |m|;
    var q, r := n / TWO64, n % TWO64;
    assert n == (q * 0x400_0000_0000_0000 + r / 64) * 64 + r % 64;
    DivModUnique(n, 64, q * 0x400_0000_0000_0000 + r / 64, r % 64);
  }

  /** block[14] = byte_count << 3 and block[15] = byte_count >> 29, each cut to 32 bits, are the low and the high half
      of the bit count. */
  lemma LengthWords(n: nat)
    ensures LittleEndian(Wrap64(8 * n), 8) == LengthBytes(Wrap64(n))
  {
    var c := n % TWO64;
    var a, b := c / 0x2000_0000, c % 0x2000_0000;
    var a1, a0 := a / TWO32, a % TWO32;
    DivModUnique(8 * c, TWO32, a, 8 * b);
    DivModUnique(8 * n, TWO64, 8 * (n / TWO64) + a1, a0 * TWO32 + 8 * b);
    Pow256Of4();
    EndianSplit(a0, 8 * b, 4, 4);
  }

  /** The last two words of the last block, as md5_final computes them. */
  function LengthBytes(byteCount: nat): (b: Bytes)
    ensures |b| == 8
  {
    LittleEndian(8 * byteCount % TWO32, 4) + LittleEndian(byteCount / 0x2000_0000 % TWO32, 4)
  }

  /** struct md5_ctx. The words of block are little-endian, so it is kept as its bytes. msg is what has been fed. */
  class Md5Ctx {
    const transform: Compress<HashWords>
    const block: array<bv8>
    var hash: HashWords
    var byteCount: nat
    ghost var msg: Bytes

    ghost predicate Valid()
      reads this, block
    {
      && block.Length == 64
      && byteCount == Wrap64(|msg|)
      && hash == Blocks(transform, 64, INIT, msg)
      && |Tail(64, msg)| < 64 && block[..|Tail(64, msg)|] == Tail(64, msg)
    }

    /** md5_init. */
    constructor (transform: Compress<HashWords>)
      ensures Valid() && msg == [] && this.transform == transform && fresh(block)
    {
      this.transform := transform;
      block := new bv8[64];
      hash := INIT;
      byteCount := 0;
      msg := [];
    }

    /** md5_update: however the message is cut into calls, the context stands for all that has been fed. */
    method Update(data: Bytes)
      requires Valid() && |data| < TWO32
      modifies this, block
      ensures Valid() && msg == old(msg) + data
    {
      hide Feeding, Blocks, Tail, Wrap64;
      CountMod64(msg);
      Wrap64Add(|msg|, |data|);
      ghost var fed, tail := msg + data, Tail(64, msg);
      FeedStart(transform, 64, INIT, msg, data);
      var avail := 64 - byteCount % 64;
      byteCount := Wrap64(byteCount + |data|);
      msg := fed;
      if avail > |data| {
        CopyIn(block, 64 - avail, data, tail);
        FeedEnd(transform, 64, INIT, fed, hash, tail + data);
        return;
      }
      CopyIn(block, 64 - avail, data[..avail], tail);
      assert tail + data == (tail + data[..avail]) + data[avail..] && block[..64] == block[..];
      FeedBlock(transform, 64, INIT, fed, hash, block[..], data[avail..]);
      hash := transform(hash, block[..]);
      var pos := BlockLoop(data, avail, fed);
      CopyIn(block, 0, data[pos..], []);
      assert [] + data[pos..] == data[pos..];
      FeedEnd(transform, 64, INIT, fed, hash, data[pos..]);
    }

    /** The loop of md5_update. */
    method BlockLoop(data: Bytes, avail: nat, ghost fed: Bytes) returns (pos: nat)
      requires avail <= |data| && block.Length == 64 && Feeding(transform, 64, INIT, fed, hash, data[avail..])
      modifies this`hash, block
      ensures pos <= |data| < pos + 64 && Feeding(transform, 64, INIT, fed, hash, data[pos..])
    {
      hide Feeding;
      pos := avail;
      while |data| - pos >= 64
        invariant avail <= pos <= |data|
        invariant Feeding(transform, 64, INIT, fed, hash, data[pos..])
      {
        CopyIn(block, 0, data[pos..pos + 64], []);
        assert block[..] == block[..64] == data[pos..pos + 64];
        assert data[pos..] == data[pos..pos + 64] + data[pos + 64..];
        FeedBlock(transform, 64, INIT, fed, hash, block[..], data[pos + 64..]);
        hash := transform(hash, block[..]);
        pos := pos + 64;
      }
    }

    /** md5_final: the digest is that of the whole message. */
    method Final() returns (out: Bytes)
      requires Valid()
      modifies this, block
      ensures out == Md5Of(transform, old(msg))
    {
      hide Feeding, Blocks, Tail, LengthBytes, Wrap64, LittleEndian, Zeros;
      CountMod64(msg);
      LengthWords(|msg|);
      ghost var length, tail := LengthBytes(byteCount), Tail(64, msg);
      ghost var rest := [0x80] + Zeros(ZeroCount(|msg|)) + length;
      ghost var fed := Padded(msg, length);
      assert fed == msg + rest;
      FeedStart(transform, 64, INIT, msg, rest);
      var offset := byteCount % 64;
      CopyIn(block, offset, [0x80], tail);
      var p, padding := offset + 1, 56 - (offset + 1);
      ghost var head := tail + [0x80];
      if padding < 0 {
        CopyIn(block, p, Zeros(padding + 8), head);
        TwoBlocks(tail, rest, length, |msg|);
        assert block[..] == block[..64];
        FeedBlock(transform, 64, INIT, fed, hash, block[..], Zeros(56) + length);
        hash := transform(hash, block[..]);
        p, padding, head := 0, 56, [];
      } else {
        OneBlockLeft(tail, rest, length, |msg|);
      }
      CopyIn(block, p, Zeros(padding), head);
      CopyIn(block, 56, LengthBytes(byteCount), head + Zeros(padding));
      assert [] + Zeros(56) == Zeros(56) && block[..64] == block[..] && block[..] + [] == block[..];
      FeedBlock(transform, 64, INIT, fed, hash, block[..], []);
      hash := transform(hash, block[..]);
      FeedEnd(transform, 64, INIT, fed, hash, []);
      out := BytesOut(hash);
    }
  }

  lemma TwoBlocks(tail: Bytes, rest: Bytes, length: Bytes, n: nat)
    requires |length| == 8 && |tail| == n % 64 && n % 64 >= 56 && rest == [0x80] + Zeros(ZeroCount(n)) + length
    ensures tail + rest == (tail + [0x80] + Zeros(63 - n % 64)) + (Zeros(56) + length)
  {
  }

  lemma OneBlockLeft(tail: Bytes, rest: Bytes, length: Bytes, n: nat)
    requires |length| == 8 && |tail| == n % 64 && n % 64 < 56 && rest == [0x80] + Zeros(ZeroCount(n)) + length
    ensures tail + rest == tail + [0x80] + Zeros(55 - n % 64) + length
  {
  }
}
