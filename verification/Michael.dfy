/** crypto/michael_mic.c: the Michael message integrity code. */
module Michael {
  import opened Words
  import opened Streaming

  function Rotl(v: bv32, bits: nat): bv32
    requires 0 < bits < 32
  {
    (v << bits) | (v >> (32 - bits))
  }

  function Rotr(v: bv32, bits: nat): bv32
    requires 0 < bits < 32
  {
    (v >> bits) | (v << (32 - bits))
  }

  function XSwap(v: bv32): bv32 {
    ((v & 0x00ff00ff) << 8) | ((v & 0xff00ff00) >> 8)
  }

  /** michael_block. */
  function Block(l0: bv32, r0: bv32): HashWords {
    var r1 := Xor32(r0, Rotl(l0, 17));
    var l1 := Add32(l0, r1);
    var r2 := Xor32(r1, XSwap(l1));
    var l2 := Add32(l1, r2);
    var r3 := Xor32(r2, Rotl(l2, 3));
    var l3 := Add32(l2, r3);
    var r4 := Xor32(r3, Rotr(l3, 2));
    [Add32(l3, r4), r4]
  }

  /** One word of the message. */
  function Step(h: HashWords, x: Bytes): (h': HashWords) {
    if |h| != 2 || |x| != 4 then h else Block(Xor32(h[0], Pack(x[0], x[1], x[2], x[3])), h[1])
  }

  /** The message, a byte 0x5a, and from four to seven zero bytes, to a multiple of four. */
  function MichaelPadded(m: Bytes): (p: Bytes)
    ensures |p| % 4 == 0
  {
    m + [0x5a] + Zeros(7 - |m| % 4)
  }

  /** The code of a message under a key. */
  function MichaelOf(key: HashWords, m: Bytes): Bytes {
    BytesOut(Blocks(Step, 4, key, MichaelPadded(m)))
  }

  /** get_le32. */
  function GetLe32(p: Bytes): bv32
    requires |p| == 4
  {
    OrBytes(p[0], p[1], p[2], p[3])
  }

  lemma GetLe32IsPack(p: Bytes)
    requires |p| == 4
    ensures GetLe32(p) == Pack(p[0], p[1], p[2], p[3])
  {
    OrIsPack(p[0], p[1], p[2], p[3]);
  }

  function Last1(b0: bv8): (w: bv32)
    ensures w == Pack(b0, 0x5a, 0, 0)
  {
    (b0 as bv32) | 0x5a00
  }

  function Last2(b0: bv8, b1: bv8): (w: bv32)
    ensures w == Pack(b0, b1, 0x5a, 0)
  {
    (b0 as bv32) | ((b1 as bv32) << 8) | 0x5a0000
  }

  function Last3(b0: bv8, b1: bv8, b2: bv8): (w: bv32)
    ensures w == Pack(b0, b1, b2, 0x5a)
  {
    (b0 as bv32) | ((b1 as bv32) << 8) | ((b2 as bv32) << 16) | 0x5a000000
  }

  lemma Last0()
    ensures Pack(0x5a, 0, 0, 0) == 0x5a
  {
  }

  /** What michael_final adds to l for the last bytes of the message. */
  function LastWord(data: Bytes): bv32
    requires |data| < 4
  {
    match |data|
    case 0 => 0x5a
    case 1 => Last1(data[0])
    case 2 => Last2(data[0], data[1])
    case _ => Last3(data[0], data[1], data[2])
  }

  lemma LastWordIs(data: Bytes, x: Bytes)
    requires |data| < 4 && x == data + [0x5a] + Zeros(3 - |data|)
    ensures LastWord(data) == Pack(x[0], x[1], x[2], x[3])
  {
    hide Pack, Last1, Last2, Last3;
    Last0();
    assert forall i | |data| < i < 4 :: x[i] == 0;
    assert x[|data|] == 0x5a;
  }

  lemma ZeroWord(l: bv32)
    ensures Xor32(l, Pack(0, 0, 0, 0)) == l
  {
  }

  /** struct michael_mic_ctx. msg is what has been fed since michael_init, key the state then. */
  class MichaelCtx {
    const pending: array<bv8>
    var pendingLen: nat
    var l: bv32
    var r: bv32
    ghost var msg: Bytes
    ghost var key: HashWords

    ghost predicate Valid()
      reads this, pending
    {
      && pending.Length == 4 && |key| == 2
      && [l, r] == Blocks(Step, 4, key, msg)
      && pendingLen == |Tail(4, msg)| < 4 && pending[..pendingLen] == Tail(4, msg)
    }

    constructor ()
      ensures pending.Length == 4 && fresh(pending)
    {
      pending := new bv8[4];
      pendingLen := 0;
    }

    /** michael_setkey: a key has eight bytes. */
    method SetKey(k: Bytes) returns (ret: int)
      modifies this`l, this`r
      ensures ret == if |k| == 8 then 0 else -22
      ensures ret == 0 ==> BytesOut([l, r]) == k
      ensures ret != 0 ==> l == old(l) && r == old(r)
    {
      if |k| != 8 {
        return -22;
      }
      hide Pack, Byte, GetLe32;
      GetLe32IsPack(k[..4]);
      GetLe32IsPack(k[4..]);
      l := GetLe32(k[..4]);
      r := GetLe32(k[4..]);
      PackBytes(k[0], k[1], k[2], k[3]);
      PackBytes(k[4], k[5], k[6], k[7]);
      assert [l, r][1..] == [r] && [r][1..] == [];
      return 0;
    }

    /** michael_init. */
    method Init()
      requires pending.Length == 4
      modifies this`pendingLen, this`msg, this`key
      ensures Valid() && msg == [] && key == [l, r]
    {
      hide Blocks, Tail, Step;
      pendingLen := 0;
      msg := [];
      key := [l, r];
      NoBlock(Step, 4, key, msg);
    }

    method Absorb(x: Bytes, ghost h: HashWords)
      requires |x| == 4 && h == [l, r]
      modifies this`l, this`r
      ensures [l, r] == Step(h, x)
    {
      hide Block, Pack, GetLe32;
      GetLe32IsPack(x);
      BlockTwo(Xor32(l, GetLe32(x)), r);
      var b := Block(Xor32(l, GetLe32(x)), r);
      l, r := b[0], b[1];
    }

    /** michael_update: however the message is cut into calls, the context stands for all that has been fed. */
    method Update(data: Bytes)
      requires Valid()
      modifies this, pending
      ensures Valid() && msg == old(msg) + data && key == old(key)
    {
      hide Feeding, Blocks, Tail, Step;
      ghost var fed, tail, was := msg + data, Tail(4, msg), [l, r];
      FeedStart(Step, 4, key, msg, data);
      var pos := 0;
      msg := fed;
      if pendingLen > 0 {
        var flen := 4 - pendingLen;
        if flen > |data| {
          flen := |data|;
        }
        CopyIn(pending, pendingLen, data[..flen], tail);
        pendingLen := pendingLen + flen;
        pos := flen;
        assert tail + data == (tail + data[..flen]) + data[flen..];
        if pendingLen < 4 {
          assert data[..flen] == data;
          FeedEnd(Step, 4, key, fed, was, tail + data);
          return;
        }
        assert pending[..4] == pending[..];
        FeedBlock(Step, 4, key, fed, was, pending[..], data[flen..]);
        Absorb(pending[..], was);
        pendingLen := 0;
      } else {
        assert tail == [] && [] + data == data && data[0..] == data;
      }
      pos := WordLoop(data, pos, fed);
      if |data| - pos > 0 {
        pendingLen := |data| - pos;
        CopyIn(pending, 0, data[pos..], []);
      }
      assert [] + data[pos..] == data[pos..];
      FeedEnd(Step, 4, key, fed, [l, r], data[pos..]);
      assert pending[..pendingLen] == data[pos..];
    }

    /** The loop of michael_update. */
    method WordLoop(data: Bytes, start: nat, ghost fed: Bytes) returns (pos: nat)
      requires start <= |data| && Feeding(Step, 4, key, fed, [l, r], data[start..])
      modifies this`l, this`r
      ensures pos <= |data| < pos + 4 && Feeding(Step, 4, key, fed, [l, r], data[pos..])
    {
      hide Feeding, Step;
      pos := start;
      while |data| - pos >= 4
        invariant pos <= |data|
        invariant Feeding(Step, 4, key, fed, [l, r], data[pos..])
      {
        assert data[pos..] == data[pos..pos + 4] + data[pos + 4..];
        ghost var was := [l, r];
        FeedBlock(Step, 4, key, fed, was, data[pos..pos + 4], data[pos + 4..]);
        Absorb(data[pos..pos + 4], was);
        pos := pos + 4;
      }
    }

    /** michael_final: the code is that of the whole message. */
    method Final() returns (out: Bytes)
      requires Valid()
      modifies this
      ensures out == MichaelOf(old(key), old(msg))
    {
      hide Feeding, Blocks, Tail, Step, Block, Zeros, Pack, LastWord;
      ghost var tail, h0 := Tail(4, msg), [l, r];
      ghost var rest, fed := [0x5a] + Zeros(7 - |msg| % 4), MichaelPadded(msg);
      assert fed == msg + rest;
      FeedStart(Step, 4, key, msg, rest);
      ghost var x := tail + [0x5a] + Zeros(3 - pendingLen);
      assert tail + rest == x + Zeros(4) by { ZerosSplit(3 - pendingLen); }
      LastWordIs(tail, x);
      var b := Block(Xor32(l, LastWord(pending[..pendingLen])), r);
      StepIs(h0, x);
      FeedBlock(Step, 4, key, fed, h0, x, Zeros(4));
      ghost var h1 := b;
      BlockTwo(Xor32(l, LastWord(pending[..pendingLen])), r);
      l, r := b[0], b[1];
      assert h1 == [l, r];
      b := Block(l, r);
      StepZero(h1);
      assert Zeros(4) + [] == Zeros(4);
      FeedBlock(Step, 4, key, fed, h1, Zeros(4), []);
      FeedEnd(Step, 4, key, fed, b, []);
      BlockTwo(l, r);
      l, r := b[0], b[1];
      assert b == [l, r];
      out := BytesOut([l, r]);
    }
  }

  lemma BlockTwo(l: bv32, r: bv32)
    ensures |Block(l, r)| == 2
  {
  }

  lemma ZerosSplit(k: nat)
    ensures Zeros(k + 4) == Zeros(k) + Zeros(4)
  {
  }

  lemma StepIs(h: HashWords, x: Bytes)
    requires |h| == 2 && |x| == 4
    ensures Step(h, x) == Block(Xor32(h[0], Pack(x[0], x[1], x[2], x[3])), h[1])
  {
  }

  lemma StepZero(h: HashWords)
    requires |h| == 2
    ensures Step(h, Zeros(4)) == Block(h[0], h[1])
  {
    hide Pack, Xor32;
    ZeroWord(h[0]);
  }

  // ---- what the block function mixes

  /** xswap exchanges the bytes of each half. */
  lemma SwappedBytes(v: bv32)
    ensures Byte(XSwap(v), 0) == Byte(v, 1) && Byte(XSwap(v), 1) == Byte(v, 0)
    ensures Byte(XSwap(v), 2) == Byte(v, 3) && Byte(XSwap(v), 3) == Byte(v, 2)
  {
  }

  /** The block function, with what is in l and r after each line. */
  lemma BlockBy(l0: bv32, r0: bv32, r1: bv32, l1: bv32, r2: bv32, l2: bv32, r3: bv32, l3: bv32, r4: bv32)
    requires r1 == Xor32(r0, Rotl(l0, 17)) && l1 == Add32(l0, r1) && r2 == Xor32(r1, XSwap(l1)) && l2 == Add32(l1, r2)
    requires r3 == Xor32(r2, Rotl(l2, 3)) && l3 == Add32(l2, r3) && r4 == Xor32(r3, Rotr(l3, 2))
    ensures Block(l0, r0) == [Add32(l3, r4), r4]
  {
    hide Rotl, Rotr, XSwap, Xor32, Add32;
  }

  /** One word of a known answer. */
  lemma Known(h: HashWords, l: bv32, x: Bytes, rest: Bytes, h': HashWords)
    requires |h| == 2 && |x| == 4 && l == Xor32(h[0], Pack(x[0], x[1], x[2], x[3])) && h' == Block(l, h[1])
    ensures Blocks(Step, 4, h, x + rest) == Blocks(Step, 4, h', rest)
  {
    hide Blocks, Block, Pack;
    StepIs(h, x);
    OneBlock(Step, 4, h, x, rest);
  }

  /** The known answers of crypto/tcrypt.h for the empty message and for "Michael". */
  lemma EmptyVector()
    ensures MichaelOf([0, 0], []) == [0x82, 0x92, 0x5c, 0x1c, 0xa1, 0xd1, 0x30, 0xb8]
  {
    hide Blocks, Block;
    var x, y: Bytes := [0x5a, 0, 0, 0], [0, 0, 0, 0];
    assert MichaelPadded([]) == x + (y + []);
    BlockBy(0x0000005a, 0x00000000, 0x00b40000, 0x00b4005a, 0xb4b45a00, 0xb5685a5a, 0x1ff688d5, 0xd55ee32f, 0xeaa1301e);
    BlockBy(0xc000134d, 0xeaa1301e, 0xcc3ab01e, 0x8c3ac36b, 0xf6b6dbdd, 0x82f19f48, 0xe13a2199, 0x642bc0e1, 0xb830d1a1);
    Known([0, 0], 0x5a, x, y + [], [0xc000134d, 0xeaa1301e]);
    Known([0xc000134d, 0xeaa1301e], 0xc000134d, y, [], [0x1c5c9282, 0xb830d1a1]);
    NoBlock(Step, 4, [0x1c5c9282, 0xb830d1a1], []);
    TwoWords(0x1c5c9282, 0xb830d1a1);
  }

  lemma TwoWords(l: bv32, r: bv32)
    ensures BytesOut([l, r])
         == [Byte(l, 0), Byte(l, 1), Byte(l, 2), Byte(l, 3), Byte(r, 0), Byte(r, 1), Byte(r, 2), Byte(r, 3)]
  {
    hide Byte;
    assert [l, r][1..] == [r] && [r][1..] == [];
  }

  lemma NameVector()
    ensures MichaelOf([0x05105ed5, 0x86891210], [0x4d, 0x69, 0x63, 0x68, 0x61, 0x65, 0x6c])
         == [0x0a, 0x94, 0x2b, 0x12, 0x4e, 0xca, 0xa5, 0x46]
  {
    hide Blocks, Block;
    var x, y, z: Bytes := [0x4d, 0x69, 0x63, 0x68], [0x61, 0x65, 0x6c, 0x5a], [0, 0, 0, 0];
    assert MichaelPadded([0x4d, 0x69, 0x63, 0x68, 0x61, 0x65, 0x6c]) == x + (y + (z + []));
    BlockBy(0x6d733798, 0x86891210, 0xe9b9c8f6, 0x572d008e, 0xc4ee46f6, 0x1c1b4784, 0x24347ad6, 0x404fc25a, 0xb4278a40);
    BlockBy(0xae1b29fb, 0xb4278a40, 0xe7d0d676, 0x95ec0071, 0x0b45a776, 0xa131a7e7, 0x02c8984b, 0xa3fa4032, 0xaa360847);
    BlockBy(0x4e304879, 0xaa360847, 0x3ac49427, 0x88f4dca0, 0xce4c34fb, 0x5741119b, 0x7444b821, 0xcb85c9bc, 0x46a5ca4e);
    Known([0x05105ed5, 0x86891210], 0x6d733798, x, y + (z + []), [0xf4774c9a, 0xb4278a40]);
    Known([0xf4774c9a, 0xb4278a40], 0xae1b29fb, y, z + [], [0x4e304879, 0xaa360847]);
    Known([0x4e304879, 0xaa360847], 0x4e304879, z, [], [0x122b940a, 0x46a5ca4e]);
    NoBlock(Step, 4, [0x122b940a, 0x46a5ca4e], []);
    TwoWords(0x122b940a, 0x46a5ca4e);
  }
}
