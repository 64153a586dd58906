/** crypto/sha1.c: the buffering and padding of SHA-1. */
module Sha1 {
  import opened Arithmetic
  import opened Words
  import opened Streaming
  import opened Sha1Transform

  const INIT: HashWords := [0x67452301, 0xEFCDAB89, 0x98BADCFE, 0x10325476, 0xC3D2E1F0]

  /** The message padded with the given length, as eight bytes, most significant first (section 4 of RFC 3174), the
      blocks processed in turn (section 6.1) and the state written out most significant byte first. */
  function PaddedHash(m: Bytes, bits: nat): Bytes {
    BigEndianWords(Blocks(Compressed, 64, INIT, Padded(m, BigEndian(bits, 8))))
  }

  /** RFC 3174, where the length is that of the message in bits. */
  function Sha1Of(m: Bytes): Bytes {
    PaddedHash(m, Wrap64(8 * |m|))
  }

  /** The bit count tells where the data goes in the buffer, before a call and after it. */
  lemma CountsOn(count: nat, msg: Bytes, data: Bytes)
    requires count / 8 % 64 == |msg| % 64 && |msg| % 64 + |data| < TWO32
    ensures count / 8 % 64 == |Tail(64, msg)| < 64
    ensures (count / 8 % 64 + |data|) % TWO32 == |Tail(64, msg)| + |data|
    ensures Wrap64(count + 8 * |data| % TWO32) / 8 % 64 == |msg + data| % 64
    ensures count == Wrap64(8 * |msg|) ==>
              (Wrap64(count + 8 * |data| % TWO32) == Wrap64(8 * |msg + data|) <==> |data| < 0x2000_0000)
  {
    BitCountMod64(msg);
    AddBits(|msg|, |data|);
    IndexAfter(count, |msg|, |data|);
    hide Wrap64, Tail;
    DivModUnique(count / 8 % 64 + |data|, TWO32, 0, count / 8 % 64 + |data|);
  }

  /** struct sha1_ctx. msg is what has been fed. */
  class Sha1Ctx {
    const buffer: array<bv8>
    var count: nat
    var state: HashWords
    ghost var msg: Bytes

    /** The message is where it should be; its length may have been miscounted. */
    ghost predicate Holding()
      reads this, buffer
    {
      && buffer.Length == 64
      && count < TWO64 && count / 8 % 64 == |msg| % 64
      && state == Blocks(Compressed, 64, INIT, msg) && |state| == 5
      && |Tail(64, msg)| < 64 && buffer[..|Tail(64, msg)|] == Tail(64, msg)
    }

    ghost predicate Valid()
      reads this, buffer
    {
      Holding() && count == Wrap64(8 * |msg|)
    }

    /** sha1_init. */
    constructor ()
      ensures Valid() && msg == [] && fresh(buffer)
    {
      buffer := new bv8[64];
      count := 0;
      state := INIT;
      msg := [];
    }

    /** sha1_update: however the message is cut into calls, the context stands for all that has been fed; the count of
        its bits stays right exactly as long as no call is of 2^29 bytes or more. */
    method Update(data: Bytes)
      requires Holding() && |msg| % 64 + |data| < TWO32
      modifies this, buffer
      ensures Holding() && msg == old(msg) + data
      ensures count == Wrap64(old(count) + 8 * |data| % TWO32)
      ensures old(Valid()) ==> (Valid() <==> |data| < 0x2000_0000)
    {
      hide Feeding, Blocks, Tail, Wrap64, Compressed;
      CountsOn(count, msg, data);
      ghost var fed, tail := msg + data, Tail(64, msg);
      FeedStart(Compressed, 64, INIT, msg, data);
      var j := count / 8 % 64;
      count := Wrap64(count + 8 * |data| % TWO32);
      msg := fed;
      var i := 0;
      ghost var head := tail;
      if (j + |data|) % TWO32 > 63 {
        i := FillAndLoop(data, j, tail, fed);
        j, head := 0, [];
      }
      CopyIn(buffer, j, data[i..], head);
      assert head + data[i..] == if i == 0 then tail + data else data[i..];
      FeedEnd(Compressed, 64, INIT, fed, state, head + data[i..]);
    }

    /** The block that was begun, and the loop over those that follow. */
    method FillAndLoop(data: Bytes, j: nat, ghost tail: Bytes, ghost fed: Bytes) returns (i: nat)
      requires buffer.Length == 64 && |tail| == j < 64 <= j + |data| < TWO32 && buffer[..j] == tail
      requires |state| == 5 && Feeding(Compressed, 64, INIT, fed, state, tail + data)
      modifies this`state, buffer
      ensures 0 < i <= |data| < i + 64 && |state| == 5 && Feeding(Compressed, 64, INIT, fed, state, data[i..])
    {
      hide Feeding, Compressed;
      i := 64 - j;
      CopyIn(buffer, j, data[..i], tail);
      assert tail + data == (tail + data[..i]) + data[i..] && buffer[..64] == buffer[..];
      FeedBlock(Compressed, 64, INIT, fed, state, buffer[..], data[i..]);
      state := Transform(state, buffer[..]);
      i := BlockLoop(data, i, j, fed);
    }

    /** The loop of sha1_update. */
    method BlockLoop(data: Bytes, start: nat, ghost j: nat, ghost fed: Bytes) returns (i: nat)
      requires (start + j) % 64 == 0 && j + |data| < TWO32
      requires 0 < start <= |data| && |state| == 5 && Feeding(Compressed, 64, INIT, fed, state, data[start..])
      modifies this`state
      ensures 0 < i <= |data| < i + 64 && |state| == 5 && Feeding(Compressed, 64, INIT, fed, state, data[i..])
    {
      hide Feeding, Compressed;
      i := start;
      NoOverflow(i, j, |data|);
      while (i + 63) % TWO32 < |data|
        invariant 0 < i <= |data| && |state| == 5 && (i + j) % 64 == 0 && (i + 63) % TWO32 == i + 63
        invariant Feeding(Compressed, 64, INIT, fed, state, data[i..])
      {
        assert data[i..] == data[i..i + 64] + data[i + 64..];
        FeedBlock(Compressed, 64, INIT, fed, state, data[i..i + 64], data[i + 64..]);
        state := Transform(state, data[i..i + 64]);
        i := i + 64;
        NoOverflow(i, j, |data|);
      }
    }

    /** sha1_final: the digest is that of the whole message, with the length that was counted. */
    method Final() returns (out: Bytes)
      requires Holding()
      modifies this, buffer
      ensures out == PaddedHash(old(msg), old(count))
      ensures old(Valid()) ==> out == Sha1Of(old(msg))
    {
      hide Blocks, Tail, Wrap64, Compressed, BigEndian, Zeros;
      ghost var m := msg;
      BitCountMod64(msg);
      var bits := BigEndian(count, 8);
      var index := count / 8 % 64;
      var padlen := if index < 56 then 56 - index else (64 + 56) - index;
      PadLength(|msg|, index, padlen);
      var padding := [0x80] + Zeros(63);
      Update(padding[..padlen]);
      Update(bits);
      Assemble(m, padlen, bits);
      out := [];
      for i := 0 to 5
        invariant out == BigEndianWords(state[..i])
      {
        var t := state[i];
        assert state[..i + 1][..i] == state[..i];
        out := out + [Byte(t, 3), Byte(t, 2), Byte(t, 1), Byte(t, 0)];
      }
      assert state[..5] == state;
    }
  }
}
