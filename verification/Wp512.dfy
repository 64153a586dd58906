/** crypto/wp512.c: the bit buffer, the 256-bit counter and the padding of Whirlpool; wp512_process_buffer is a
    parameter. */
module Wp512 {
  import opened Arithmetic
  import opened ByteValues
  import opened Streaming

  const BLOCK: nat := 64
  const LENGTH_BYTES: nat := 32

  /** The bytes whose number of bits no longer fits 32 bits. */
  const MOST: nat := 0x2000_0000

  // ---- the counter

  /** A number of byte-sized digits, most significant first. */
  function Value(s: seq<int>): int {
    if s == [] then 0 else Value(s[..|s| - 1]) * 256 + s[|s| - 1]
  }

  predicate Digits(s: seq<int>) {
    forall i | 0 <= i < |s| :: 0 <= s[i] < 256
  }

  lemma {:induction false} ValueUpdate(s: seq<int>, i: nat, v: int)
    requires i < |s|
    ensures Value(s[i := v]) == Value(s) + (v - s[i]) * Pow256(|s| - 1 - i)
  {
    var n, t := |s| - 1, s[i := v];
    if i == n {
      assert t[..n] == s[..n];
      assert Pow256(0) == 1;
    } else {
      assert t[..n] == s[..n][i := v];
      ValueUpdate(s[..n], i, v);
      assert (v - s[i]) * Pow256(n - 1 - i) * 256 == (v - s[i]) * Pow256(n - i);
    }
  }

  lemma {:induction false} ValueBound(s: seq<int>)
    requires Digits(s)
    ensures 0 <= Value(s) < Pow256(|s|)
  {
    if s != [] {
      var n := |s| - 1;
      ValueBound(s[..n]);
      assert Pow256(n + 1) == 256 * Pow256(n);
    }
  }

  function ToBytes(s: seq<int>): (b: Bytes)
    requires Digits(s)
    ensures |b| == |s|
  {
    seq(|s|, i requires 0 <= i < |s| => ToByte(s[i]))
  }

  lemma {:induction false} ValueBytes(s: seq<int>)
    requires Digits(s)
    ensures Value(s) >= 0 && ToBytes(s) == BigEndian(Value(s), |s|)
  {
    ValueBound(s);
    if s != [] {
      var n := |s| - 1;
      ValueBound(s[..n]);
      ValueBytes(s[..n]);
      DivModUnique(Value(s), 256, Value(s[..n]), s[n]);
      UnfoldEndian(Value(s), n + 1);
      assert ToBytes(s) == ToBytes(s[..n]) + [ToByte(s[n])];
    }
  }

  /** What the 256-bit counter holds. */
  function Wrap256(n: nat): nat {
    n % Pow256(LENGTH_BYTES)
  }

  /** The loop that adds to the counter. */
  method CountBits(bitLength: array<int>, bits: nat)
    requires bitLength.Length == LENGTH_BYTES && Digits(bitLength[..])
    modifies bitLength
    ensures Digits(bitLength[..]) && Value(old(bitLength[..])) >= 0
    ensures Value(bitLength[..]) == Wrap256(Value(old(bitLength[..])) + bits)
  {
    hide Wrap256, Value, Pow256;
    PowZero();
    ghost var total := Value(bitLength[..]) + bits;
    ValueBound(bitLength[..]);
    var i: int, carry: nat, value: nat := LENGTH_BYTES - 1, 0, bits;
    while i >= 0 && (carry != 0 || value != 0)
      invariant -1 <= i < LENGTH_BYTES && Digits(bitLength[..])
      invariant Value(bitLength[..]) + (carry + value) * Pow256(LENGTH_BYTES - 1 - i) == total
      decreases i
    {
      ghost var was := bitLength[..];
      var sum := carry + bitLength[i] + value % 256;
      bitLength[i] := sum % 256;
      AddDigit(was, i, carry, value, sum, total);
      assert bitLength[..] == was[i := sum % 256];
      carry, value, i := sum / 256, value / 256, i - 1;
    }
    CounterEnd(bitLength[..], carry + value, i, total);
  }

  lemma AddDigit(was: seq<int>, i: nat, carry: nat, value: nat, sum: int, total: int)
    requires i < |was| == LENGTH_BYTES && Digits(was) && sum == carry + was[i] + value % 256
    requires Value(was) + (carry + value) * Pow256(LENGTH_BYTES - 1 - i) == total
    ensures Digits(was[i := sum % 256])
    ensures Value(was[i := sum % 256]) + (sum / 256 + value / 256) * Pow256(LENGTH_BYTES - i) == total
  {
    hide Pow256, Value;
    ValueUpdate(was, i, sum % 256);
    var p, q, d := Pow256(LENGTH_BYTES - 1 - i), sum / 256 + value / 256, sum % 256 - was[i];
    assert Pow256(LENGTH_BYTES - i) == 256 * p by { PowStep(LENGTH_BYTES - i); }
    assert d + 256 * q == carry + value;
    Distribute(d, q, p);
  }

  lemma PowZero()
    ensures Pow256(0) == 1
  {
  }

  lemma PowStep(k: nat)
    requires k > 0
    ensures Pow256(k) == 256 * Pow256(k - 1)
  {
  }

  lemma Distribute(d: int, q: int, p: int)
    ensures d * p + q * (256 * p) == (d + 256 * q) * p
  {
  }

  lemma CounterEnd(s: seq<int>, left: nat, i: int, total: int)
    requires |s| == LENGTH_BYTES && Digits(s) && -1 <= i < LENGTH_BYTES && (i == -1 || left == 0)
    requires Value(s) + left * Pow256(LENGTH_BYTES - 1 - i) == total
    ensures total >= 0 && Value(s) == Wrap256(total)
  {
    hide Pow256, Value;
    ValueBound(s);
    var p := Pow256(LENGTH_BYTES);
    if i == -1 {
      DivModUnique(total, p, left, Value(s));
    } else {
      assert left * Pow256(LENGTH_BYTES - 1 - i) == 0;
      DivModUnique(total, p, 0, Value(s));
    }
  }

  // ---- the buffer

  type State = seq<bv64>

  lemma BitsFed(n: nat)
    requires n < TWO32
    ensures 8 * n % TWO32 == 8 * (n % MOST) && 8 * n % TWO32 / 8 == n % MOST && n % MOST <= n
  {
    DivModUnique(8 * n, TWO32, n / MOST, 8 * (n % MOST));
  }

  /** What of a call the 32-bit count of bits covers: all but whole multiples of 2^29 bytes. */
  function Counted(source: Bytes): Bytes {
    source[..|source| % MOST]
  }

  lemma AllFed(msg: Bytes, source: Bytes)
    ensures msg + Counted(source) == msg + source <==> |source| < MOST
  {
    if |source| < MOST {
      assert Counted(source) == source;
    } else {
      assert |msg + Counted(source)| < |msg + source|;
    }
  }

  const INIT: State := [0, 0, 0, 0, 0, 0, 0, 0]

  /** Hashing begins with zeros. */
  lemma ZeroStart()
    ensures INIT == seq(8, _ => 0)
  {
  }

  /** The next eight bits of the source, out of two bytes, of which gap bits are not used. */
  function SourceBits(x: bv8, y: bv8, gap: nat): bv32
    requires gap < 8
  {
    (((x as bv32) << gap) & 0xff) | (((y as bv32) & 0xff) >> (8 - gap))
  }

  /** The part of b that goes to the current byte of the buffer, and the part that goes to the next. */
  function High(b: bv32, rem: nat): bv8
    requires rem < 8
  {
    ((b >> rem) & 0xff) as bv8
  }

  function Low(b: bv32, rem: nat): bv8
    requires rem < 8
  {
    ((b << (8 - rem)) & 0xff) as bv8
  }

  function Or8(a: bv8, b: bv8): bv8 {
    a | b
  }

  /** With whole bytes on both sides the shifts move nothing. */
  lemma WholeBytes(x: bv8, y: bv8)
    ensures SourceBits(x, y, 0) == x as bv32
  {
  }

  lemma WholeByteParts(x: bv8)
    ensures High(x as bv32, 0) == x && Low(x as bv32, 0) == 0 && Or8(0, x) == x
    ensures LastBits(x, 0) == x as bv32
  {
  }

  /** The bits of the last byte of the source. */
  function LastBits(x: bv8, gap: nat): bv32
    requires gap < 8
  {
    ((x as bv32) << gap) & 0xff
  }

  /** The zero bytes after the 0x80 byte: enough to leave 32 bytes to the end of a block. */
  function WpZeros(len: nat): (z: nat)
    ensures z < 64 && (len + 1 + z + 32) % 64 == 0
  {
    (95 - len % 64) % 64
  }

  /** The padding of Whirlpool: a 1 bit, zeros to an odd multiple of 256 bits, and the bit count as 256 bits. */
  function WpPadded(m: Bytes): (p: Bytes)
    ensures |p| % 64 == 0
  {
    hide BigEndian, Wrap256, WpZeros, Zeros;
    m + [0x80] + Zeros(WpZeros(|m|)) + BigEndian(Wrap256(8 * |m|), LENGTH_BYTES)
  }

  /** A word most significant byte first. */
  function WordBytes(w: bv64): Bytes {
    [(w >> 56) as bv8, ((w >> 48) & 0xff) as bv8, ((w >> 40) & 0xff) as bv8, ((w >> 32) & 0xff) as bv8,
     ((w >> 24) & 0xff) as bv8, ((w >> 16) & 0xff) as bv8, ((w >> 8) & 0xff) as bv8, (w & 0xff) as bv8]
  }

  lemma WordOfBytes(w: bv64)
    ensures var b := WordBytes(w);
            w == (b[0] as bv64 << 56) | (b[1] as bv64 << 48) | (b[2] as bv64 << 40) | (b[3] as bv64 << 32)
               | (b[4] as bv64 << 24) | (b[5] as bv64 << 16) | (b[6] as bv64 << 8) | (b[7] as bv64)
  {
  }

  function StateBytes(s: State): Bytes {
    if s == [] then [] else StateBytes(s[..|s| - 1]) + WordBytes(s[|s| - 1])
  }

  function WhirlpoolOf(process: Compress<State>, m: Bytes): Bytes {
    StateBytes(Blocks(process, 64, INIT, WpPadded(m)))
  }

  /** One byte more: it joins the tail, or completes a block. */
  lemma OneByte(f: Compress<State>, h: State, fed: Bytes, x: bv8)
    requires h == Blocks(f, 64, INIT, fed) && |Tail(64, fed)| < 64
    ensures |Tail(64, fed)| < 63 ==>
              Blocks(f, 64, INIT, fed + [x]) == h && Tail(64, fed + [x]) == Tail(64, fed) + [x]
    ensures |Tail(64, fed)| == 63 ==>
              Blocks(f, 64, INIT, fed + [x]) == f(h, Tail(64, fed) + [x]) && Tail(64, fed + [x]) == []
  {
    hide Blocks, Tail, Feeding;
    var t := Tail(64, fed) + [x];
    FeedStart(f, 64, INIT, fed, [x]);
    if |t| == 64 {
      assert t + [] == t;
      FeedBlock(f, 64, INIT, fed + [x], h, t, []);
      FeedEnd(f, 64, INIT, fed + [x], f(h, t), []);
    } else {
      FeedEnd(f, 64, INIT, fed + [x], h, t);
    }
  }

  /** struct wp512_ctx. msg is what has been fed. */
  class Wp512Ctx {
    const process: Compress<State>
    const bitLength: array<int>
    const buffer: array<bv8>
    var bufferBits: nat
    var bufferPos: nat
    var hash: State
    ghost var msg: Bytes

    /** The buffer and the hash stand for fed; the byte that is filled next is zero. */
    ghost predicate Holds(fed: Bytes)
      reads this`bufferBits, this`bufferPos, this`hash, buffer
    {
      && buffer.Length == 64
      && bufferPos == |Tail(64, fed)| < 64 && bufferBits == 8 * bufferPos
      && buffer[..bufferPos] == Tail(64, fed) && buffer[bufferPos] == 0
      && hash == Blocks(process, 64, INIT, fed)
    }

    ghost predicate Valid()
      reads this, buffer, bitLength
    {
      && Holds(msg)
      && bitLength.Length == LENGTH_BYTES && Digits(bitLength[..]) && Value(bitLength[..]) == Wrap256(8 * |msg|)
    }

    /** The current byte of the buffer is complete: if it was the last, the buffer is processed. */
    method Advance()
      requires buffer.Length == 64 && bufferPos < 64 && bufferBits == 8 * (bufferPos + 1)
      modifies this`bufferBits, this`bufferPos, this`hash
      ensures bufferPos == (if old(bufferPos) == 63 then 0 else old(bufferPos) + 1) && bufferBits == 8 * bufferPos
      ensures hash == if old(bufferPos) == 63 then process(old(hash), buffer[..]) else old(hash)
    {
      bufferPos := bufferPos + 1;
      if bufferBits == BLOCK * 8 {
        hash := process(hash, buffer[..]);
        bufferBits, bufferPos := 0, 0;
      }
    }

    /** The loop body of wp512_update for the bits b, which are the byte x. */
    method PutByte(b: bv32, bufferRem: nat, ghost fed: Bytes, ghost x: bv8)
      requires Holds(fed) && bufferRem == 0 && b == x as bv32
      modifies this`bufferBits, this`bufferPos, this`hash, buffer
      ensures Holds(fed + [x])
    {
      WholeByteParts(x);
      OneByte(process, hash, fed, x);
      hide Blocks, Tail, High, Low, Or8;
      ghost var t := Tail(64, fed);
      ghost var pos := bufferPos;
      buffer[bufferPos] := Or8(buffer[bufferPos], High(b, bufferRem));
      assert buffer[..pos] == t && buffer[pos] == x;
      assert buffer[..pos + 1] == t + [x];
      assert pos == 63 ==> buffer[..] == t + [x];
      bufferBits := bufferBits + 8 - bufferRem;
      Advance();
      buffer[bufferPos] := Low(b, bufferRem);
      bufferBits := bufferBits + bufferRem;
      assert pos < 63 ==> buffer[..pos + 1] == t + [x];
    }

    /** wp512_init. */
    constructor (process: Compress<State>)
      ensures Valid() && msg == [] && this.process == process && fresh(buffer) && fresh(bitLength)
    {
      hide Pow256, Wrap256, Value, Blocks, Tail;
      this.process := process;
      bitLength := new int[LENGTH_BYTES](_ => 0);
      buffer := new bv8[BLOCK];
      bufferBits, bufferPos := 0, 0;
      hash := INIT;
      msg := [];
      new;
      buffer[0] := 0;
      NoBlock(process, 64, INIT, []);
      ZeroCounter(bitLength[..]);
    }

    /** wp512_update: however the message is cut into calls, the context stands for all that has been fed. The length in
        bits has 32 bits, so that of 2^29 bytes or more only what is left after whole multiples of 2^29 is fed. */
    method Update(source: Bytes)
      requires Valid() && |source| < TWO32
      modifies this, buffer, bitLength
      ensures Valid() && msg == old(msg) + Counted(source)
      ensures msg == old(msg) + source <==> |source| < MOST
    {
      hide Wrap256, Value, Pow256, Blocks, Tail;
      var bitsLen := 8 * |source| % TWO32;
      BitsFed(|source|);
      var fed := source[..bitsLen / 8];
      CountBits(bitLength, bitsLen);
      Wrap256Add(8 * |msg|, bitsLen);
      PutAll(fed, bitsLen, msg);
      msg := msg + fed;
      AllFed(old(msg), source);
    }

    /** The part of wp512_update after the counter, with the bytes the count of bits covers. */
    method PutAll(source: Bytes, bits: nat, ghost before: Bytes)
      requires Holds(before) && bits == 8 * |source|
      modifies this`bufferBits, this`bufferPos, this`hash, buffer
      ensures Holds(before + source)
    {
      hide Holds, SourceBits;
      var sourcePos, bitsLen := 0, bits;
      var sourceGap := (8 - bitsLen % 8) % 8;
      var bufferRem := bufferBits % 8;
      AtBoundary(before);
      assert before + source[..0] == before;
      while bitsLen > 8
        invariant sourcePos <= |source| && bitsLen == 8 * (|source| - sourcePos)
        invariant Holds(before + source[..sourcePos])
      {
        var b := SourceBits(source[sourcePos], source[sourcePos + 1], sourceGap);
        WholeBytes(source[sourcePos], source[sourcePos + 1]);
        PutByte(b, bufferRem, before + source[..sourcePos], source[sourcePos]);
        OneMore(before, source, sourcePos);
        bitsLen := bitsLen - 8;
        sourcePos := sourcePos + 1;
      }
      LastByte(source, sourcePos, sourceGap, bufferRem, bitsLen, before + source[..sourcePos]);
      if sourcePos < |source| {
        OneMore(before, source, sourcePos);
      }
      assert source[..|source|] == source;
    }

    /** wp512_final: the digest is that of the whole message. */
    method Final() returns (out: Bytes)
      requires Valid()
      modifies this, buffer
      ensures out == WhirlpoolOf(process, old(msg))
    {
      hide Pow256, Wrap256, Value, Blocks, Tail, Feeding, Zeros, BigEndian, WpZeros, StateBytes;
      ghost var tail, count := Tail(64, msg), BigEndian(Wrap256(8 * |msg|), LENGTH_BYTES);
      ValueBytes(bitLength[..]);
      ghost var rest, fed := [0x80] + Zeros(WpZeros(|msg|)) + count, WpPadded(msg);
      assert fed == msg + rest;
      TailZeros(msg);
      FeedStart(process, 64, INIT, msg, rest);
      FinalBlocks(tail, rest, fed, count);
      FeedEnd(process, 64, INIT, fed, hash, []);
      out := Output(hash);
    }

    /** The padding and the last one or two blocks. */
    method FinalBlocks(ghost tail: Bytes, ghost rest: Bytes, ghost fed: Bytes, ghost count: Bytes)
      requires buffer.Length == 64 && bufferPos == |tail| < 64 && bufferBits == 8 * bufferPos
      requires buffer[..bufferPos] == tail && buffer[bufferPos] == 0
      requires bitLength.Length == LENGTH_BYTES && Digits(bitLength[..]) && ToBytes(bitLength[..]) == count
      requires rest == [0x80] + Zeros(WpZeros(bufferPos)) + count && Feeding(process, 64, INIT, fed, hash, tail + rest)
      modifies this`hash, this`bufferPos, buffer
      ensures Feeding(process, 64, INIT, fed, hash, [])
    {
      hide Feeding, Zeros, Or8, WpZeros, ToBytes, StopByte;
      ghost var pos := bufferPos;
      StopBit(bufferBits);
      buffer[bufferPos] := Or8(buffer[bufferPos], StopByte(bufferBits % 8));
      assert buffer[..pos + 1] == tail + [0x80];
      bufferPos := bufferPos + 1;
      if bufferPos > BLOCK - LENGTH_BYTES {
        CopyIn(buffer, bufferPos, Zeros(BLOCK - bufferPos), tail + [0x80]);
        TwoWpBlocks(tail, rest, count);
        assert buffer[..] == buffer[..64];
        FeedBlock(process, 64, INIT, fed, hash, buffer[..], Zeros(32) + count);
        hash := process(hash, buffer[..]);
        bufferPos := 0;
        assert [] + Zeros(32) == Zeros(32);
        LengthBlock([], fed, count);
      } else {
        OneWpBlock(tail, rest, count);
        LengthBlock(tail + [0x80], fed, count);
      }
    }

    /** The last block: zeros to its second half, and the bit count. */
    method LengthBlock(ghost head: Bytes, ghost fed: Bytes, ghost count: Bytes)
      requires buffer.Length == 64 && bufferPos == |head| <= 32 && buffer[..bufferPos] == head
      requires bitLength.Length == LENGTH_BYTES && Digits(bitLength[..]) && ToBytes(bitLength[..]) == count
      requires Feeding(process, 64, INIT, fed, hash, head + Zeros(32 - |head|) + count)
      modifies this`hash, this`bufferPos, buffer
      ensures Feeding(process, 64, INIT, fed, hash, [])
    {
      hide Feeding, Zeros, ToBytes;
      CopyIn(buffer, bufferPos, Zeros((BLOCK - LENGTH_BYTES) - bufferPos), head);
      CopyIn(buffer, BLOCK - LENGTH_BYTES, ToBytes(bitLength[..]), head + Zeros((BLOCK - LENGTH_BYTES) - bufferPos));
      assert buffer[..64] == buffer[..] && buffer[..] + [] == buffer[..];
      bufferPos := BLOCK - LENGTH_BYTES;
      FeedBlock(process, 64, INIT, fed, hash, buffer[..], []);
      hash := process(hash, buffer[..]);
    }

    lemma AtBoundary(fed: Bytes)
      requires Holds(fed)
      ensures bufferBits % 8 == 0
    {
    }

    /** The end of wp512_update, with at most one byte left. */
    method LastByte(source: Bytes, sourcePos: nat, sourceGap: nat, bufferRem: nat, bits: nat, ghost fed: Bytes)
      requires Holds(fed) && sourceGap == 0 && bufferRem == 0 && bits == 8 * (|source| - sourcePos) <= 8
      requires sourcePos <= |source|
      modifies this`bufferBits, this`bufferPos, this`hash, buffer
      ensures Holds(if sourcePos < |source| then fed + [source[sourcePos]] else fed)
    {
      if bits > 0 {
        EndByte(source[sourcePos], sourceGap, bufferRem, bits, fed);
      } else {
        assert bufferRem + bits < 8;
        bufferBits := bufferBits + bits;
      }
    }

    /** The end of wp512_update with one byte left. */
    method EndByte(x: bv8, sourceGap: nat, bufferRem: nat, bits: nat, ghost fed: Bytes)
      requires Holds(fed) && sourceGap == 0 && bufferRem == 0 && bits == 8
      modifies this`bufferBits, this`bufferPos, this`hash, buffer
      ensures Holds(fed + [x])
    {
      WholeByteParts(x);
      OneByte(process, hash, fed, x);
      hide Blocks, Tail, High, Low, Or8, LastBits;
      ghost var t := Tail(64, fed);
      ghost var pos := bufferPos;
      var b := LastBits(x, sourceGap);
      buffer[bufferPos] := Or8(buffer[bufferPos], High(b, bufferRem));
      assert buffer[..pos] == t && buffer[pos] == x;
      assert buffer[..pos + 1] == t + [x];
      assert pos == 63 ==> buffer[..] == t + [x];
      // bufferRem + bits is not below 8
      bufferBits := bufferBits + 8 - bufferRem;
      Advance();
      buffer[bufferPos] := Low(b, bufferRem);
      bufferBits := bufferBits + (bits - (8 - bufferRem));
      assert pos < 63 ==> buffer[..pos + 1] == t + [x];
    }
  }

  function StopByte(rem: nat): bv8
    requires rem < 8
  {
    (0x80 as bv8) >> rem
  }

  lemma StopBit(bits: nat)
    requires bits % 8 == 0
    ensures Or8(0, StopByte(bits % 8)) == 0x80
  {
  }

  lemma TwoWpBlocks(tail: Bytes, rest: Bytes, count: Bytes)
    requires 32 <= |tail| < 64 && |count| == 32 && rest == [0x80] + Zeros(WpZeros(|tail|)) + count
    ensures tail + rest == (tail + [0x80] + Zeros(63 - |tail|)) + (Zeros(32) + count)
  {
  }

  lemma OneWpBlock(tail: Bytes, rest: Bytes, count: Bytes)
    requires |tail| < 32 && |count| == 32 && rest == [0x80] + Zeros(WpZeros(|tail|)) + count
    ensures tail + rest == tail + [0x80] + Zeros(31 - |tail|) + count
  {
  }

  lemma TailZeros(m: Bytes)
    ensures WpZeros(|Tail(64, m)|) == WpZeros(|m|)
  {
  }

  /** The loop that writes the digest out. */
  method Output(hash: State) returns (out: Bytes)
    ensures out == StateBytes(hash)
  {
    hide StateBytes, WordBytes;
    out := [];
    NoStateBytes();
    for i := 0 to |hash|
      invariant out == StateBytes(hash[..i])
    {
      MoreStateBytes(hash, i);
      out := out + WordBytes(hash[i]);
    }
    assert hash[..|hash|] == hash;
  }

  lemma NoStateBytes()
    ensures StateBytes([]) == []
  {
  }

  lemma MoreStateBytes(s: State, i: nat)
    requires i < |s|
    ensures StateBytes(s[..i + 1]) == StateBytes(s[..i]) + WordBytes(s[i])
  {
    assert s[..i + 1][..i] == s[..i];
  }

  lemma OneMore(before: Bytes, source: Bytes, i: nat)
    requires i < |source|
    ensures before + source[..i] + [source[i]] == before + source[..i + 1]
  {
    assert source[..i + 1] == source[..i] + [source[i]];
  }

  lemma Wrap256Add(a: nat, b: nat)
    ensures Wrap256(a) >= 0 && Wrap256(Wrap256(a) + b) == Wrap256(a + b)
  {
    hide Pow256;
    var p := Pow256(LENGTH_BYTES);
    var q, r := (a % p + b) / p, (a % p + b) % p;
    assert a + b == (a / p) * p + a % p + b;
    assert (a / p + q) * p == (a / p) * p + q * p;
    DivModUnique(a + b, p, a / p + q, r);
  }

  lemma ZeroCounter(s: seq<int>)
    requires |s| == LENGTH_BYTES && forall i | 0 <= i < |s| :: s[i] == 0
    ensures Digits(s) && Value(s) == Wrap256(8 * 0)
  {
    hide Pow256;
    ZeroValue(s);
    DivModUnique(0, Pow256(LENGTH_BYTES), 0, 0);
  }

  lemma {:induction false} ZeroValue(s: seq<int>)
    requires forall i | 0 <= i < |s| :: s[i] == 0
    ensures Value(s) == 0
  {
    if s != [] {
      ZeroValue(s[..|s| - 1]);
    }
  }
}
