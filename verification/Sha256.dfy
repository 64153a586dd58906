/** crypto/sha256.c: the buffering and padding of SHA-256; sha256_transform is a parameter. */
module Sha256 {
  import opened Arithmetic
  import opened Words
  import opened WordValues
  import opened Streaming

  const INIT: HashWords := [0x6a09e667, 0xbb67ae85, 0x3c6ef372, 0xa54ff53a, 0x510e527f, 0x9b05688c, 0x1f83d9ab,
                            0x5be0cd19]

  /** w is the first 32 bits of the fractional part of the square root of n, whose whole part is given. */
  predicate RootBits(w: bv32, whole: nat, n: nat) {
    var x := whole * TWO32 + Value(w); x * x <= n * TWO64 < (x + 1) * (x + 1)
  }

  /** The initial state, from the first eight primes (section 5.3.2 of FIPS 180-2). */
  lemma InitialRoots()
    ensures RootBits(INIT[0], 1, 2) && RootBits(INIT[1], 1, 3) && RootBits(INIT[2], 2, 5) && RootBits(INIT[3], 2, 7)
    ensures RootBits(INIT[4], 3, 11) && RootBits(INIT[5], 3, 13) && RootBits(INIT[6], 4, 17) && RootBits(INIT[7], 4, 19)
  {
    hide Value;
    RootValues0();
    RootValues2();
    RootValues4();
    RootValues6();
  }

  lemma RootValues0()
    ensures Value(0x6a09e667) == 0x6a09e667 && Value(0xbb67ae85) == 0xbb67ae85
  {
  }

  lemma RootValues2()
    ensures Value(0x3c6ef372) == 0x3c6ef372 && Value(0xa54ff53a) == 0xa54ff53a
  {
  }

  lemma RootValues4()
    ensures Value(0x510e527f) == 0x510e527f && Value(0x9b05688c) == 0x9b05688c
  {
  }

  lemma RootValues6()
    ensures Value(0x1f83d9ab) == 0x1f83d9ab && Value(0x5be0cd19) == 0x5be0cd19
  {
  }

  /** The message padded, with the given length, as section 5.1.1 of FIPS 180-2 says, the blocks processed in turn, and
      the state written out most significant byte first. */
  function PaddedHash(transform: Compress<HashWords>, m: Bytes, bits: nat): Bytes {
    BigEndianWords(Blocks(transform, 64, INIT, Padded(m, BigEndian(bits, 8))))
  }

  /** FIPS 180-2 over a compression function, where the length is that of the message in bits. */
  function Sha256Of(transform: Compress<HashWords>, m: Bytes): Bytes {
    PaddedHash(transform, m, Wrap64(8 * |m|))
  }

  /** The two words of the bit counter. */
  function Counter(low: nat, high: nat): nat {
    high * TWO32 + low
  }

  /** The counter after a call of any length, as sha256_update computes it. */
  function Counted(low: nat, high: nat, len: nat): nat {
    var add := 8 * len % TWO32;
    var low' := (low + add) % TWO32;
    Counter(low', if low' < add then (high + 1 + len / 0x2000_0000) % TWO32 else high)
  }

  /** It is exact if and only if the call is of less than 2^29 bytes or the low word overflows: the high part of the
      length is added only together with a carry. */
  lemma CountedExactly(low: nat, high: nat, len: nat)
    requires low < TWO32 && high < TWO32 && len < TWO32
    ensures Counted(low, high, len) == Wrap64(Counter(low, high) + 8 * len)
            <==> len < 0x2000_0000 || low + 8 * len % TWO32 >= TWO32
  {
    var k, add := len / 0x2000_0000, 8 * len % TWO32;
    DivModUnique(8 * len, TWO32, k, 8 * (len % 0x2000_0000));
    if low + add >= TWO32 {
      WithCarry(low, high, k, add);
    } else {
      WithoutCarry(low, high, k, add);
    }
    hide Counter, Wrap64;
  }

  lemma WithCarry(low: nat, high: nat, k: nat, add: nat)
    requires low < TWO32 && add < TWO32 && low + add >= TWO32
    ensures (low + add) % TWO32 == low + add - TWO32 < add
    ensures Counter(low + add - TWO32, (high + 1 + k) % TWO32) == Wrap64(Counter(low, high) + (k * TWO32 + add))
  {
    DivModUnique(low + add, TWO32, 1, low + add - TWO32);
    HighWord(Counter(low, high) + (k * TWO32 + add), high + 1 + k, low + add - TWO32);
  }

  lemma WithoutCarry(low: nat, high: nat, k: nat, add: nat)
    requires low + add < TWO32 && high < TWO32 && k < 8
    ensures (low + add) % TWO32 == low + add >= add
    ensures Counter(low + add, high) == Wrap64(Counter(low, high) + (k * TWO32 + add)) <==> k == 0
  {
    DivModUnique(low + add, TWO32, 0, low + add);
    HighWord(Counter(low, high) + (k * TWO32 + add), high + k, low + add);
    if high + k >= TWO32 {
      DivModUnique(high + k, TWO32, 1, high + k - TWO32);
    } else {
      DivModUnique(high + k, TWO32, 0, high + k);
    }
  }

  lemma HighWord(v: nat, high: nat, low: nat)
    requires v == high * TWO32 + low && low < TWO32
    ensures Wrap64(v) == high % TWO32 * TWO32 + low
  {
    DivModUnique(v, TWO64, high / TWO32, high % TWO32 * TWO32 + low);
  }

  /** The low word alone tells how much of a block is buffered. */
  lemma LowWordIndex(low: nat, high: nat)
    requires low < TWO32
    ensures Counter(low, high) / 8 % 64 == low / 8 % 64
  {
    var v := Counter(low, high);
    DivModUnique(v, 8, high * 0x2000_0000 + low / 8, low % 8);
    DivModUnique(v / 8, 64, high * 0x80_0000 + low / 8 / 64, low / 8 % 64);
  }

  /** Whatever the length of a call, the low word is right. */
  lemma LowWordAfter(low: nat, n: nat, len: nat)
    requires low < TWO32 && low / 8 % 64 == n % 64
    ensures (low + 8 * len % TWO32) % TWO32 / 8 % 64 == (n + len) % 64
  {
    var add, sum := 8 * len % TWO32, low + 8 * len % TWO32;
    IndexAfter(low, n, len);
    DivModUnique(sum, TWO64, 0, sum);
    LowWordIndex(sum % TWO32, sum / TWO32);
    assert Counter(sum % TWO32, sum / TWO32) == sum;
  }

  lemma CounterBytes(low: nat, high: nat)
    requires low < TWO32
    ensures BigEndian(high, 4) + BigEndian(low, 4) == BigEndian(Counter(low, high), 8)
  {
    Pow256Of4();
    EndianSplit(high, low, 4, 4);
  }

  /** struct sha256_ctx. msg is what has been fed. */
  class Sha256Ctx {
    const transform: Compress<HashWords>
    const buf: array<bv8>
    var low: nat
    var high: nat
    var state: HashWords
    ghost var msg: Bytes

    /** The message is where it should be; its length may have been miscounted. */
    ghost predicate Holding()
      reads this, buf
    {
      && buf.Length == 64
      && low < TWO32 && high < TWO32 && low / 8 % 64 == |msg| % 64
      && state == Blocks(transform, 64, INIT, msg)
      && |Tail(64, msg)| < 64 && buf[..|Tail(64, msg)|] == Tail(64, msg)
    }

    ghost predicate Valid()
      reads this, buf
    {
      Holding() && Counter(low, high) == Wrap64(8 * |msg|)
    }

    /** sha256_init. */
    constructor (transform: Compress<HashWords>)
      ensures Valid() && msg == [] && this.transform == transform && fresh(buf)
    {
      this.transform := transform;
      buf := new bv8[64];
      low, high := 0, 0;
      state := INIT;
      msg := [];
    }

    /** sha256_update: however the message is cut into calls, the context stands for all that has been fed; the count of
        its bits stays right exactly as long as every call is of less than 2^29 bytes or makes the low word overflow. */
    method Update(data: Bytes)
      requires Holding() && |msg| % 64 + |data| < TWO32
      modifies this, buf
      ensures Holding() && msg == old(msg) + data
      ensures Counter(low, high) == Counted(old(low), old(high), |data|)
      ensures old(Valid()) ==> (Valid() <==> |data| < 0x2000_0000 || old(low) + 8 * |data| % TWO32 >= TWO32)
    {
      hide Feeding, Blocks, Tail, Wrap64, Counter, Counted;
      BitCountMod64(msg);
      LowWordAfter(low, |msg|, |data|);
      CountedExactly(low, high, |data|);
      Wrap64Add(8 * |msg|, 8 * |data|);
      ghost var fed, tail := msg + data, Tail(64, msg);
      FeedStart(transform, 64, INIT, msg, data);
      var index := low / 8 % 64;
      CountBits(|data|);
      msg := fed;
      var partLen := 64 - index;
      var i := 0;
      ghost var head := tail;
      if |data| >= partLen {
        CopyIn(buf, index, data[..partLen], tail);
        assert tail + data == (tail + data[..partLen]) + data[partLen..] && buf[..64] == buf[..];
        FeedBlock(transform, 64, INIT, fed, state, buf[..], data[partLen..]);
        state := transform(state, buf[..]);
        i := BlockLoop(data, partLen, index, fed);
        index, head := 0, [];
      }
      CopyIn(buf, index, data[i..], head);
      assert head + data[i..] == if i == 0 then tail + data else data[i..];
      FeedEnd(transform, 64, INIT, fed, state, head + data[i..]);
    }

    method CountBits(len: nat)
      requires low < TWO32 && high < TWO32 && len < TWO32
      modifies this`low, this`high
      ensures low == (old(low) + 8 * len % TWO32) % TWO32 && high < TWO32
      ensures Counter(low, high) == Counted(old(low), old(high), len)
    {
      var add := 8 * len % TWO32;
      low := (low + add) % TWO32;
      if low < add {
        high := (high + 1 + len / 0x2000_0000) % TWO32;
      }
    }

    /** The loop of sha256_update. */
    method BlockLoop(data: Bytes, start: nat, ghost j: nat, ghost fed: Bytes) returns (i: nat)
      requires (start + j) % 64 == 0 && j + |data| < TWO32
      requires 0 < start <= |data| && Feeding(transform, 64, INIT, fed, state, data[start..])
      modifies this`state
      ensures 0 < i <= |data| < i + 64 && Feeding(transform, 64, INIT, fed, state, data[i..])
    {
      hide Feeding;
      i := start;
      NoOverflow(i, j, |data|);
      while (i + 63) % TWO32 < |data|
        invariant 0 < i <= |data| && (i + j) % 64 == 0 && (i + 63) % TWO32 == i + 63
        invariant Feeding(transform, 64, INIT, fed, state, data[i..])
      {
        assert data[i..] == data[i..i + 64] + data[i + 64..];
        FeedBlock(transform, 64, INIT, fed, state, data[i..i + 64], data[i + 64..]);
        state := transform(state, data[i..i + 64]);
        i := i + 64;
        NoOverflow(i, j, |data|);
      }
    }

    /** sha256_final: the digest is that of the whole message, with the length that was counted. */
    method Final() returns (out: Bytes)
      requires Holding()
      modifies this, buf
      ensures out == PaddedHash(transform, old(msg), Counter(old(low), old(high)))
      ensures old(Valid()) ==> out == Sha256Of(transform, old(msg))
    {
      hide Blocks, Tail, Wrap64, BigEndian, Zeros, Counter;
      ghost var m := msg;
      CounterBytes(low, high);
      var bits := BigEndian(high, 4) + BigEndian(low, 4);
      var index := low / 8 % 64;
      var padLen := if index < 56 then 56 - index else (64 + 56) - index;
      PadLength(|msg|, index, padLen);
      var padding := [0x80] + Zeros(63);
      Update(padding[..padLen]);
      Update(bits);
      Assemble(m, padLen, bits);
      out := [];
      for i := 0 to |state|
        invariant out == BigEndianWords(state[..i])
      {
        var t := state[i];
        assert state[..i + 1][..i] == state[..i];
        out := out + [Byte(t, 3), Byte(t, 2), Byte(t, 1), Byte(t, 0)];
      }
      assert state[..|state|] == state;
    }
  }
}
