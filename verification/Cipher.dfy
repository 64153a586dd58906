/** cipher.c: the loop that runs a block cipher over a source and a destination scatterlist, a block at a time, using
    the bytes where they lie when a block does not cross a page and copying through a scratch block when it does. */
module Cipher {
  import opened Words
  import opened Arithmetic
  import opened BlockModes
  import opened ScatterWalk

  /** Where a block of the source or destination is reached: in its page, or in the scratch block. */
  datatype Ptr = InPage(a: nat) | Scratch

  function Peek(mem: seq<bv8>, tmp: seq<bv8>, p: Ptr, bs: nat): (x: Block)
    requires if p.InPage? then p.a + bs <= |mem| else |tmp| == bs
    ensures |x| == bs
  {
    if p.InPage? then mem[p.a..p.a + bs] else tmp
  }

  /** Memory after a block has been stored through p. */
  function Poked(mem: seq<bv8>, p: Ptr, x: Block): (m: seq<bv8>)
    requires p.InPage? ==> p.a + |x| <= |mem|
    ensures |m| == |mem|
  {
    if p.InPage? then mem[..p.a] + x + mem[p.a + |x|..] else mem
  }

  method Store(mem: array<bv8>, tmp: array<bv8>, p: Ptr, x: Block)
    requires mem != tmp && tmp.Length == |x| && (p.InPage? ==> p.a + |x| <= mem.Length)
    modifies mem, tmp
    ensures mem[..] == Poked(old(mem[..]), p, x)
    ensures tmp[..] == if p.InPage? then old(tmp[..]) else x
  {
    if p.InPage? {
      forall i | 0 <= i < |x| {
        mem[p.a + i] := x[i];
      }
    } else {
      forall i | 0 <= i < |x| {
        tmp[i] := x[i];
      }
    }
  }

  /** Exclusive or of four bytes taken as one 32-bit word. */
  function XorQuad(a: Block, b: Block): (c: Block)
    requires |a| == |b| == 4
    ensures c == XorBlock(a, b)
  {
    var x, y := Pack(a[0], a[1], a[2], a[3]), Pack(b[0], b[1], b[2], b[3]);
    var z := Xor32(x, y);
    XorQuadBytes(a, b);
    [Byte(z, 0), Byte(z, 1), Byte(z, 2), Byte(z, 3)]
  }

  lemma XorQuadBytes(a: Block, b: Block)
    requires |a| == |b| == 4
    ensures var z := Xor32(Pack(a[0], a[1], a[2], a[3]), Pack(b[0], b[1], b[2], b[3]));
            forall i | 0 <= i < 4 :: Byte(z, i) == Xor(a[i], b[i])
  {
    hide *;
    var x, y := Pack(a[0], a[1], a[2], a[3]), Pack(b[0], b[1], b[2], b[3]);
    PackBytes(a[0], a[1], a[2], a[3]);
    PackBytes(b[0], b[1], b[2], b[3]);
    ByteXor(x, y, 0); ByteXor(x, y, 1); ByteXor(x, y, 2); ByteXor(x, y, 3);
  }

  lemma XorBlockSplit(a: Block, b: Block, k: nat)
    requires |a| == |b| && k <= |a|
    ensures XorBlock(a, b) == XorBlock(a[..k], b[..k]) + XorBlock(a[k..], b[k..])
  {
    hide Xor;
  }

  function Xor64(a: Block, b: Block): (c: Block)
    requires |a| == |b| == 8
    ensures c == XorBlock(a, b)
  {
    hide XorQuad, XorBlock;
    XorBlockSplit(a, b, 4);
    XorQuad(a[..4], b[..4]) + XorQuad(a[4..], b[4..])
  }

  /** cit_xor_block: xor_64 for blocks of 8 bytes, xor_128 for blocks of 16. */
  function XorWords(a: Block, b: Block): (c: Block)
    requires |a| == |b| && (|a| == 8 || |a| == 16)
    ensures c == XorBlock(a, b)
  {
    hide Xor64, XorBlock;
    XorBlockSplit(a, b, 8);
    if |a| == 8 then Xor64(a, b) else Xor64(a[..8], b[..8]) + Xor64(a[8..], b[8..])
  }

  /** The source and the destination block are the same bytes, and then in_place says so, or have none in common. */
  predicate Apart(dst: Ptr, src: Ptr, bs: nat, inPlace: bool) {
    && (inPlace ==> dst.InPage? && dst == src)
    && (dst.InPage? && src.InPage? && !inPlace ==> dst.a + bs <= src.a || src.a + bs <= dst.a)
  }

  predicate PtrOk(p: Ptr, size: nat, bs: nat) {
    p.InPage? ==> p.a + bs <= size
  }

  lemma PeekAfter(mem: seq<bv8>, tmp: seq<bv8>, tmpDst: seq<bv8>, dst: Ptr, src: Ptr, x: Block, inPlace: bool)
    requires |tmp| == |x| == |tmpDst| && PtrOk(dst, |mem|, |x|) && PtrOk(src, |mem|, |x|)
    requires Apart(dst, src, |x|, inPlace)
    ensures Peek(Poked(mem, dst, x), if dst.InPage? then tmpDst else x, dst, |x|) == x
    ensures !inPlace ==> Peek(Poked(mem, dst, x), tmp, src, |x|) == Peek(mem, tmp, src, |x|)
  {
  }

  lemma PokedTwice(mem: seq<bv8>, p: Ptr, x: Block, y: Block)
    requires |x| == |y| && PtrOk(p, |mem|, |x|)
    ensures Poked(Poked(mem, p, x), p, y) == Poked(mem, p, y)
  {
  }

  method SetIv(iv: array<bv8>, x: Block)
    requires iv.Length == |x|
    modifies iv
    ensures iv[..] == x
  {
    forall i | 0 <= i < |x| {
      iv[i] := x[i];
    }
  }

  /** The buffers of one call of crypt: they are different objects and hold one block each. */
  predicate Buffers(mem: array<bv8>, tmpSrc: array<bv8>, tmpDst: array<bv8>, iv: array?<bv8>, bs: nat) {
    && mem != tmpSrc && mem != tmpDst && tmpSrc != tmpDst && iv != mem && iv != tmpSrc && iv != tmpDst
    && tmpSrc.Length == tmpDst.Length == bs && (iv != null ==> iv.Length == bs)
  }

  method CbcEncryptBlock(mem: array<bv8>, tmpSrc: array<bv8>, tmpDst: array<bv8>, dst: Ptr, src: Ptr,
                         fn: Block -> Block, iv: array<bv8>, inPlace: bool, ghost x: Block, ghost v: Block)
    requires Buffers(mem, tmpSrc, tmpDst, iv, |x|) && BlockFn(fn, |x|) && |v| == |x| && (|x| == 8 || |x| == 16)
    requires PtrOk(dst, mem.Length, |x|) && PtrOk(src, mem.Length, |x|) && Apart(dst, src, |x|, inPlace)
    requires x == Peek(mem[..], tmpSrc[..], src, |x|) && iv[..] == v
    modifies mem, tmpDst, iv
    ensures mem[..] == Poked(old(mem[..]), dst, StepOut(CbcEncrypt, fn, v, x))
    ensures !dst.InPage? ==> tmpDst[..] == StepOut(CbcEncrypt, fn, v, x)
    ensures iv[..] == StepIv(CbcEncrypt, fn, v, x)
  {
    hide XorBlock, BlockFn, XorWords, Peek, Poked, Apart;
    var bs := tmpSrc.Length;
    SetIv(iv, XorWords(iv[..], Peek(mem[..], tmpSrc[..], src, bs)));
    ghost var out, m0, t0 := StepOut(CbcEncrypt, fn, v, x), mem[..], tmpDst[..];
    PeekAfter(m0, tmpSrc[..], t0, dst, src, out, inPlace);
    Store(mem, tmpDst, dst, fn(iv[..]));
    SetIv(iv, Peek(mem[..], tmpDst[..], dst, bs));
  }

  method CbcDecryptInPlace(mem: array<bv8>, tmpSrc: array<bv8>, tmpDst: array<bv8>, dst: Ptr, src: Ptr,
                           fn: Block -> Block, iv: array<bv8>, ghost x: Block, ghost v: Block)
    requires Buffers(mem, tmpSrc, tmpDst, iv, |x|) && BlockFn(fn, |x|) && |v| == |x| && (|x| == 8 || |x| == 16)
    requires PtrOk(dst, mem.Length, |x|) && PtrOk(src, mem.Length, |x|) && Apart(dst, src, |x|, true)
    requires x == Peek(mem[..], tmpSrc[..], src, |x|) && iv[..] == v
    modifies mem, tmpDst, iv
    ensures mem[..] == Poked(old(mem[..]), dst, StepOut(CbcDecrypt, fn, v, x))
    ensures !dst.InPage? ==> tmpDst[..] == StepOut(CbcDecrypt, fn, v, x)
    ensures iv[..] == StepIv(CbcDecrypt, fn, v, x)
  {
    hide XorBlock, BlockFn, XorWords, Peek, Poked;
    var bs := tmpSrc.Length;
    BlockFnSize(fn, x);
    var stack := fn(Peek(mem[..], tmpSrc[..], src, bs));
    stack := XorWords(stack, iv[..]);
    SetIv(iv, Peek(mem[..], tmpSrc[..], src, bs));
    Store(mem, tmpDst, dst, stack);
  }

  method CbcDecryptApart(mem: array<bv8>, tmpSrc: array<bv8>, tmpDst: array<bv8>, dst: Ptr, src: Ptr,
                         fn: Block -> Block, iv: array<bv8>, ghost x: Block, ghost v: Block)
    requires Buffers(mem, tmpSrc, tmpDst, iv, |x|) && BlockFn(fn, |x|) && |v| == |x| && (|x| == 8 || |x| == 16)
    requires PtrOk(dst, mem.Length, |x|) && PtrOk(src, mem.Length, |x|) && Apart(dst, src, |x|, false)
    requires x == Peek(mem[..], tmpSrc[..], src, |x|) && iv[..] == v
    modifies mem, tmpDst, iv
    ensures mem[..] == Poked(old(mem[..]), dst, StepOut(CbcDecrypt, fn, v, x))
    ensures !dst.InPage? ==> tmpDst[..] == StepOut(CbcDecrypt, fn, v, x)
    ensures iv[..] == StepIv(CbcDecrypt, fn, v, x)
  {
    hide XorBlock, BlockFn, XorWords, Peek, Poked, Apart;
    var bs := tmpSrc.Length;
    BlockFnSize(fn, x);
    ghost var out, m0, t0 := StepOut(CbcDecrypt, fn, v, x), mem[..], tmpDst[..];
    PeekAfter(m0, tmpSrc[..], t0, dst, src, fn(x), false);
    PeekAfter(m0, tmpSrc[..], t0, dst, src, out, false);
    PokedTwice(m0, dst, fn(x), out);
    Store(mem, tmpDst, dst, fn(Peek(mem[..], tmpSrc[..], src, bs)));
    Store(mem, tmpDst, dst, XorWords(Peek(mem[..], tmpDst[..], dst, bs), iv[..]));
    SetIv(iv, Peek(mem[..], tmpSrc[..], src, bs));
  }

  /** cbc_process and ecb_process: out is what the block of the destination holds afterwards. Without an initialisation
      vector cbc_process leaves it as it is. */
  method Process(mem: array<bv8>, tmpSrc: array<bv8>, tmpDst: array<bv8>, dst: Ptr, src: Ptr, fn: Block -> Block,
                 mode: Mode, iv: array?<bv8>, inPlace: bool, ghost x: Block, ghost v: Block) returns (ghost out: Block)
    requires Buffers(mem, tmpSrc, tmpDst, iv, |x|) && BlockFn(fn, |x|) && |v| == |x|
    requires mode != Ecb ==> |x| == 8 || |x| == 16
    requires PtrOk(dst, mem.Length, |x|) && PtrOk(src, mem.Length, |x|) && Apart(dst, src, |x|, inPlace)
    requires x == Peek(mem[..], tmpSrc[..], src, |x|) && (iv != null ==> iv[..] == v)
    modifies mem, tmpDst, iv
    ensures |out| == |x| && mem[..] == Poked(old(mem[..]), dst, out)
    ensures !dst.InPage? ==> tmpDst[..] == out
    ensures mode == Ecb || iv != null ==> out == StepOut(mode, fn, v, x)
    ensures iv != null ==> iv[..] == StepIv(mode, fn, v, x)
  {
    hide XorBlock, BlockFn, Apart, StepIv, StepOut;
    var bs := tmpSrc.Length;
    if mode == Ecb {
      EcbStep(fn, v, x);
      out := fn(x);
      Store(mem, tmpDst, dst, fn(Peek(mem[..], tmpSrc[..], src, bs)));
    } else if iv == null {
      out := Peek(mem[..], tmpDst[..], dst, bs);
    } else {
      out := StepOut(mode, fn, v, x);
      if mode == CbcEncrypt {
        CbcEncryptBlock(mem, tmpSrc, tmpDst, dst, src, fn, iv, inPlace, x, v);
      } else if inPlace {
        CbcDecryptInPlace(mem, tmpSrc, tmpDst, dst, src, fn, iv, x, v);
      } else {
        CbcDecryptApart(mem, tmpSrc, tmpDst, dst, src, fn, iv, x, v);
      }
    }
  }

  lemma EcbStep(fn: Block -> Block, v: Block, x: Block)
    requires BlockFn(fn, |x|) && |v| == |x|
    ensures StepOut(Ecb, fn, v, x) == fn(x) && |fn(x)| == |x| && StepIv(Ecb, fn, v, x) == v
  {
  }

  /** The two lists name the same bytes in the same order, or have no byte in common. */
  predicate SameOrApart(src: seq<nat>, dst: seq<nat>) {
    src == dst || forall i, j | 0 <= i < |src| && 0 <= j < |dst| :: src[i] != dst[j]
  }

  /** When a block is used in its page, its addresses are the bytes there. */
  lemma DirectAddrs(w: Walk, size: nat, addrs: seq<nat>)
    requires w.Valid(size) && w.data == Addr(w.page, w.offset) && |addrs| <= w.lenThisPage && addrs <= w.Rest()
    ensures addrs == Range(w.data, |addrs|) && w.data + |addrs| <= size
  {
    hide Addrs;
    assert addrs == w.Rest()[..|addrs|] == Range(w.data, w.lenThisSegment)[..|addrs|];
  }

  lemma RangesApart(a: nat, b: nat, n: nat)
    requires n > 0 && SameOrApart(Range(a, n), Range(b, n))
    ensures a == b || a + n <= b || b + n <= a
  {
    var r, s := Range(a, n), Range(b, n);
    if a <= b < a + n {
      assert r[b - a] == s[0] && r[0] == a;
    }
    if b <= a < b + n {
      assert s[a - b] == r[0] && s[0] == b;
    }
  }

  lemma PokedIsScattered(m: seq<bv8>, a: nat, x: Block)
    requires a + |x| <= |m|
    ensures Scattered(m, Poked(m, InPage(a), x), Range(a, |x|), x)
  {
    var r, m' := Range(a, |x|), Poked(m, InPage(a), x);
    assert forall i | 0 <= i < |x| :: m'[a + i] == x[i];
    hide Poked;
    assert forall i | 0 <= i < |r| :: r[i] == a + i;
    hide Range;
    forall b | 0 <= b < |m| && b !in r
      ensures m'[b] == m[b]
    {
      PokedOutside(m, a, x, b);
    }
  }

  lemma PokedOutside(m: seq<bv8>, a: nat, x: Block, b: nat)
    requires a + |x| <= |m| && b < |m| && b !in Range(a, |x|)
    ensures Poked(m, InPage(a), x)[b] == m[b]
  {
    RangeMember(a, |x|, b);
  }

  lemma PeekIsGathered(m: seq<bv8>, tmp: Block, a: nat, n: nat)
    requires a + n <= |m|
    ensures Peek(m, tmp, InPage(a), n) == Gather(m, Range(a, n))
  {
  }

  /** scatterwalk_whichbuf. */
  method WhichBuf(w: Walk, bs: nat, ghost size: nat, ghost addrs: seq<nat>) returns (p: Ptr)
    requires w.Valid(size) && w.data == Addr(w.page, w.offset) && bs > 0 && |addrs| == bs && addrs <= w.Rest()
    ensures PtrOk(p, size, bs)
    ensures p.InPage? ==> p.a == w.data && bs <= w.lenThisPage && addrs == Range(p.a, bs) && w.offset < PAGE_SIZE
  {
    if w.Direct(bs) {
      DirectAddrs(w, size, addrs);
      p := InPage(w.data);
    } else {
      p := Scratch;
    }
  }

  /** scatterwalk_samebuf answers rightly: it finds a block that is encrypted where it lies. */
  lemma SameBuf(src: Ptr, dst: Ptr, pageIn: nat, offsetIn: nat, pageOut: nat, offsetOut: nat, bs: nat)
    requires src.InPage? ==> src.a == Addr(pageIn, offsetIn) && offsetIn < PAGE_SIZE
    requires dst.InPage? ==> dst.a == Addr(pageOut, offsetOut) && offsetOut < PAGE_SIZE
    requires bs > 0 && (src.InPage? && dst.InPage? ==> SameOrApart(Range(src.a, bs), Range(dst.a, bs)))
    ensures Apart(dst, src, bs, pageIn == pageOut && offsetIn == offsetOut && src.InPage? && dst.InPage?)
  {
    if src.InPage? && dst.InPage? {
      RangesApart(src.a, dst.a, bs);
    }
  }

  ghost predicate StepDone(m0: seq<bv8>, m: seq<bv8>, fn: Block -> Block, mode: Mode, chained: bool, v: Block,
                           v': Block, sb: seq<nat>, db: seq<nat>, out: Block)
    requires BlockFn(fn, |sb|) && |v| == |sb| && InMemory(sb, |m0|)
  {
    && Scattered(m0, m, db, out)
    && (chained ==> out == StepOut(mode, fn, v, Gather(m0, sb)) && v' == StepIv(mode, fn, v, Gather(m0, sb)))
  }

  /** The first half of a turn: both blocks are located, and the source block is copied to tmpSrc if it has to be. */
  method Fetch(mem: array<bv8>, tmpSrc: array<bv8>, walkIn: Walk, walkOut: Walk, ghost sb: seq<nat>, ghost db: seq<nat>)
    returns (dst: Ptr, src: Ptr, inPlace: bool)
    requires mem != tmpSrc && tmpSrc.Length == |sb| == |db| > 0 && walkIn != walkOut && SameOrApart(sb, db)
    requires walkIn.Valid(mem.Length) && sb <= walkIn.Rest()
    requires walkOut.Valid(mem.Length) && db <= walkOut.Rest()
    requires InMemory(sb, mem.Length)
    modifies mem, tmpSrc, walkIn, walkOut`data
    ensures mem[..] == old(mem[..])
    ensures PtrOk(src, mem.Length, |sb|) && PtrOk(dst, mem.Length, |sb|) && Apart(dst, src, |sb|, inPlace)
    ensures Gather(mem[..], sb) == Peek(mem[..], tmpSrc[..], src, |sb|)
    ensures walkIn.Valid(mem.Length) && old(walkIn.Rest()) == sb + walkIn.Rest()
    ensures walkOut.data == Addr(walkOut.page, walkOut.offset)
    ensures dst.InPage? ==> db == Range(dst.a, |db|) && |db| <= walkOut.lenThisPage
  {
    hide Walk.Rest, Walk.Valid, Gather, SameOrApart, Peek, Apart, Range;
    var bs := tmpSrc.Length;
    walkIn.Map();
    walkOut.Map();
    src := WhichBuf(walkIn, bs, mem.Length, sb);
    dst := WhichBuf(walkOut, bs, mem.Length, db);
    inPlace := walkIn.page == walkOut.page && walkIn.offset == walkOut.offset && src.InPage? && dst.InPage?;
    SameBuf(src, dst, walkIn.page, walkIn.offset, walkOut.page, walkOut.offset, bs);
    walkIn.CopyChunks(mem, tmpSrc, bs, false, src.InPage?, sb);
    Fetched(mem[..], tmpSrc[..], src, sb);
  }

  /** One turn of the loop of crypt: the block at sb is processed into the block at db. */
  method CryptBlock(mem: array<bv8>, tmpSrc: array<bv8>, tmpDst: array<bv8>, walkIn: Walk, walkOut: Walk,
                    fn: Block -> Block, mode: Mode, iv: array?<bv8>, more: nat, ghost sb: seq<nat>, ghost db: seq<nat>,
                    ghost v: Block) returns (ghost out: Block, ghost v': Block)
    requires Buffers(mem, tmpSrc, tmpDst, iv, |sb|) && BlockFn(fn, |sb|) && |v| == |sb| == |db| && walkIn != walkOut
    requires mode != Ecb ==> |sb| == 8 || |sb| == 16
    requires walkIn.Valid(mem.Length) && sb <= walkIn.Rest() && (more > 0 ==> |sb| < |walkIn.Rest()|)
    requires walkOut.Valid(mem.Length) && db <= walkOut.Rest() && (more > 0 ==> |db| < |walkOut.Rest()|)
    requires Distinct(db) && SameOrApart(sb, db) && (iv != null ==> iv[..] == v)
    requires InMemory(sb, mem.Length) && InMemory(db, mem.Length)
    modifies mem, tmpSrc, tmpDst, iv, walkIn, walkOut
    ensures walkIn.Valid(mem.Length) && old(walkIn.Rest()) == sb + walkIn.Rest()
    ensures walkOut.Valid(mem.Length) && old(walkOut.Rest()) == db + walkOut.Rest()
    ensures StepDone(old(mem[..]), mem[..], fn, mode, mode == Ecb || iv != null, v, v', sb, db, out)
    ensures |v'| == |v| && (iv != null ==> iv[..] == v')
  {
    hide Walk.Rest, Walk.Valid, Scattered, Gather, Distinct, SameOrApart, BlockFn, StepOut, StepIv, Peek, Poked, Apart,
         Range;
    ghost var m0 := mem[..];
    var dst, src, inPlace := Fetch(mem, tmpSrc, walkIn, walkOut, sb, db);
    ghost var x := Gather(m0, sb);
    out := Process(mem, tmpSrc, tmpDst, dst, src, fn, mode, iv, inPlace, x, v);
    v' := if mode == Ecb || iv != null then StepIv(mode, fn, v, x) else v;
    walkIn.Done(more, mem.Length);
    ghost var m1 := mem[..];
    walkOut.CopyChunks(mem, tmpDst, tmpDst.Length, true, dst.InPage?, db);
    Delivered(m0, m1, mem[..], dst, out, db);
    walkOut.Done(more, mem.Length);
  }

  /** What the source block holds after copychunks. */
  lemma Fetched(m: seq<bv8>, tmp: Block, src: Ptr, sb: seq<nat>)
    requires forall i | 0 <= i < |sb| :: sb[i] < |m|
    requires if src.InPage? then src.a + |sb| <= |m| && sb == Range(src.a, |sb|) else tmp == Gather(m, sb)
    ensures |tmp| == |sb| || src.InPage?
    ensures Peek(m, tmp, src, |sb|) == Gather(m, sb)
  {
    if src.InPage? {
      PeekIsGathered(m, tmp, src.a, |sb|);
    }
  }

  /** What the destination holds after copychunks. */
  lemma Delivered(m0: seq<bv8>, m1: seq<bv8>, m2: seq<bv8>, dst: Ptr, out: Block, db: seq<nat>)
    requires |out| == |db| && PtrOk(dst, |m0|, |out|) && m1 == Poked(m0, dst, out)
    requires if dst.InPage? then db == Range(dst.a, |out|) && m2 == m1 else Scattered(m1, m2, db, out)
    ensures Scattered(m0, m2, db, out)
  {
    if dst.InPage? {
      PokedIsScattered(m0, dst.a, out);
    }
  }

  /** What crypt asks of its two lists: they lie in memory and hold nbytes bytes, the destination names no byte twice,
      and it is the source itself, however it is cut into segments, or has no byte in common with it. */
  predicate ListsOk(dst: seq<Segment>, src: seq<Segment>, nbytes: nat, size: nat) {
    && ListOk(dst, size) && ListOk(src, size) && nbytes <= |Addrs(dst)| && nbytes <= |Addrs(src)|
    && Distinct(Addrs(dst)[..nbytes]) && SameOrApart(Addrs(src)[..nbytes], Addrs(dst)[..nbytes])
  }

  /** Memory m and chaining value v' after the first k bytes. */
  ghost predicate Progress(m0: seq<bv8>, m: seq<bv8>, fn: Block -> Block, mode: Mode, chained: bool, v: Block,
                           v': Block, ss: seq<nat>, ds: seq<nat>, out: seq<bv8>)
    requires BlockFn(fn, |v|) && InMemory(ss, |m0|)
  {
    && Scattered(m0, m, ds, out) && |v'| == |v|
    && (chained ==> out == FlatOut(mode, fn, v, Gather(m0, ss)) && v' == FlatIv(mode, fn, v, Gather(m0, ss)))
  }

  lemma ScatteredMore(m0: seq<bv8>, m1: seq<bv8>, m2: seq<bv8>, ds: seq<nat>, db: seq<nat>, a: seq<bv8>, b: seq<bv8>)
    requires Scattered(m0, m1, ds, a) && Scattered(m1, m2, db, b) && Distinct(ds + db)
    ensures Scattered(m0, m2, ds + db, a + b)
  {
    var addrs, data := ds + db, a + b;
    forall i | 0 <= i < |addrs|
      ensures addrs[i] < |m0| && m2[addrs[i]] == data[i]
    {
      if i < |ds| {
        assert forall j | 0 <= j < |db| :: addrs[|ds| + j] == db[j];
        assert addrs[i] == ds[i] && ds[i] !in db;
      } else {
        assert addrs[i] == db[i - |ds|];
      }
    }
  }

  /** A block of the source still holds what it held before the call. */
  lemma StillThere(m0: seq<bv8>, m: seq<bv8>, ss: seq<nat>, ds: seq<nat>, sb: seq<nat>, db: seq<nat>, out: seq<bv8>)
    requires |ss| == |ds| && |sb| == |db| && InMemory(sb, |m0|)
    requires Scattered(m0, m, ds, out) && Distinct(ds + db) && SameOrApart(ss + sb, ds + db)
    ensures InMemory(sb, |m|) && Gather(m, sb) == Gather(m0, sb)
  {
    var s, d := ss + sb, ds + db;
    forall i | 0 <= i < |sb|
      ensures sb[i] !in ds
    {
      assert s[|ss| + i] == sb[i];
      assert forall j | 0 <= j < |ds| :: d[j] == ds[j];
    }
  }

  lemma GatherConcat(m: seq<bv8>, a: seq<nat>, b: seq<nat>)
    requires InMemory(a, |m|) && InMemory(b, |m|)
    ensures InMemory(a + b, |m|) && Gather(m, a + b) == Gather(m, a) + Gather(m, b)
  {
  }

  lemma ProgressMore(m0: seq<bv8>, m1: seq<bv8>, m2: seq<bv8>, fn: Block -> Block, mode: Mode, chained: bool, v: Block,
                     v1: Block, v2: Block, ss: seq<nat>, ds: seq<nat>, sb: seq<nat>, db: seq<nat>, out: seq<bv8>,
                     x: Block)
    requires BlockFn(fn, |v|) && |ss| == |ds| && |sb| == |db| == |v| == |v1| == |v2| && |ss| % |v| == 0
    requires InMemory(ss, |m0|) && InMemory(sb, |m0|) && InMemory(sb, |m1|)
    requires Distinct(ds + db) && SameOrApart(ss + sb, ds + db)
    requires Progress(m0, m1, fn, mode, chained, v, v1, ss, ds, out)
    requires StepDone(m1, m2, fn, mode, chained, v1, v2, sb, db, x)
    ensures InMemory(ss + sb, |m0|) && Progress(m0, m2, fn, mode, chained, v, v2, ss + sb, ds + db, out + x)
  {
    hide Scattered, Distinct, SameOrApart, BlockFn, FlatOut, FlatIv, StepOut, StepIv, Gather;
    ScatteredMore(m0, m1, m2, ds, db, out, x);
    StillThere(m0, m1, ss, ds, sb, db, out);
    GatherConcat(m0, ss, sb);
    FlatAppend(mode, fn, v, Gather(m0, ss), Gather(m0, sb));
  }

  lemma BlockAddrs(ss: seq<nat>, ds: seq<nat>, size: nat, k: nat, bs: nat)
    requires k + bs <= |ss| == |ds| && Distinct(ds) && SameOrApart(ss, ds) && InMemory(ss, size) && InMemory(ds, size)
    ensures ss[..k] + ss[k..k + bs] == ss[..k + bs] && ds[..k] + ds[k..k + bs] == ds[..k + bs]
    ensures Distinct(ds[k..k + bs]) && SameOrApart(ss[k..k + bs], ds[k..k + bs])
    ensures Distinct(ds[..k + bs]) && SameOrApart(ss[..k + bs], ds[..k + bs])
    ensures InMemory(ss[k..k + bs], size) && InMemory(ds[k..k + bs], size) && InMemory(ss[..k], size)
  {
  }

  /** What is left of a list after k of its bytes, and its next block. */
  lemma NextBlock(all: seq<nat>, rest: seq<nat>, k: nat, bs: nat, n: nat)
    requires k + bs <= n <= |all| && rest == all[k..]
    ensures all[..n][k..k + bs] <= rest && rest[bs..] == all[k + bs..]
    ensures n - k - bs > 0 ==> bs < |rest|
  {
  }

  lemma AfterBlock(rest: seq<nat>, b: seq<nat>, rest': seq<nat>)
    requires rest == b + rest'
    ensures rest' == rest[|b|..]
  {
  }

  lemma PrefixInMemory(segs: seq<Segment>, size: nat, n: nat)
    requires ListOk(segs, size) && n <= |Addrs(segs)|
    ensures InMemory(Addrs(segs)[..n], size) && (n > 0 ==> |segs| > 0)
  {
    AddrsInMemory(segs, size);
  }

  /** The loop of crypt. */
  method CryptLoop(mem: array<bv8>, walkIn: Walk, walkOut: Walk, nbytes: nat, bsize: nat, fn: Block -> Block,
                   mode: Mode, iv: array?<bv8>, ghost allIn: seq<nat>, ghost allOut: seq<nat>, ghost v: Block)
    returns (ghost out: seq<bv8>, ghost v': Block)
    requires BlockFn(fn, bsize) && |v| == bsize && (mode != Ecb ==> bsize == 8 || bsize == 16)
    requires walkIn != walkOut && iv != mem && (iv != null ==> iv.Length == bsize && iv[..] == v)
    requires nbytes > 0 && nbytes % bsize == 0 && nbytes <= |allIn| && nbytes <= |allOut|
    requires walkIn.Valid(mem.Length) && walkIn.Rest() == allIn && walkOut.Valid(mem.Length) && walkOut.Rest() == allOut
    requires Distinct(allOut[..nbytes]) && SameOrApart(allIn[..nbytes], allOut[..nbytes])
    requires InMemory(allIn[..nbytes], mem.Length) && InMemory(allOut[..nbytes], mem.Length)
    modifies mem, iv, walkIn, walkOut
    ensures iv != null ==> iv[..] == v'
    ensures Progress(old(mem[..]), mem[..], fn, mode, mode == Ecb || iv != null, v, v', allIn[..nbytes],
                     allOut[..nbytes], out)
  {
    hide Walk.Rest, Walk.Valid, Progress, Distinct, SameOrApart, BlockFn, InMemory;
    var tmpSrc, tmpDst := new bv8[bsize], new bv8[bsize];
    ghost var m0, k, ss, ds := mem[..], 0, allIn[..nbytes], allOut[..nbytes];
    var left := nbytes;
    out, v' := [], v;
    NoProgress(m0, fn, mode, mode == Ecb || iv != null, v);
    assert ss[..0] == [] && ds[..0] == [];
    while true
      invariant 0 <= k && k + left == nbytes && left > 0 && left % bsize == 0 && k % bsize == 0
      invariant walkIn.Valid(mem.Length) && walkIn.Rest() == allIn[k..]
      invariant walkOut.Valid(mem.Length) && walkOut.Rest() == allOut[k..]
      invariant |v'| == bsize && (iv != null ==> iv[..] == v')
      invariant InMemory(ss[..k], |m0|)
      invariant Progress(m0, mem[..], fn, mode, mode == Ecb || iv != null, v, v', ss[..k], ds[..k], out)
      decreases left
    {
      SmallRemainder(left, bsize);
      ModStep(left, bsize);
      ModStep(k + bsize, bsize);
      left := left - bsize;
      out, v' := Turn(mem, tmpSrc, tmpDst, walkIn, walkOut, fn, mode, iv, left, allIn, allOut, v, v', m0, k, nbytes,
                      out);
      k := k + bsize;
      if left == 0 {
        assert ss[..k] == ss && ds[..k] == ds;
        return;
      }
    }
  }

  /** One turn of the loop in terms of the whole message. */
  method Turn(mem: array<bv8>, tmpSrc: array<bv8>, tmpDst: array<bv8>, walkIn: Walk, walkOut: Walk, fn: Block -> Block,
              mode: Mode, iv: array?<bv8>, more: nat, ghost allIn: seq<nat>, ghost allOut: seq<nat>, ghost v: Block,
              ghost v1: Block, ghost m0: seq<bv8>, ghost k: nat, ghost n: nat, ghost out1: seq<bv8>)
    returns (ghost out: seq<bv8>, ghost v': Block)
    requires Buffers(mem, tmpSrc, tmpDst, iv, |v|) && BlockFn(fn, |v|) && walkIn != walkOut && |v1| == |v|
    requires (mode != Ecb ==> |v| == 8 || |v| == 16) && (iv != null ==> iv[..] == v1)
    requires k % |v| == 0 && k + |v| + more == n && n <= |allIn| && n <= |allOut| && |m0| == mem.Length
    requires walkIn.Valid(mem.Length) && walkIn.Rest() == allIn[k..]
    requires walkOut.Valid(mem.Length) && walkOut.Rest() == allOut[k..]
    requires Distinct(allOut[..n]) && SameOrApart(allIn[..n], allOut[..n])
    requires InMemory(allIn[..n], |m0|) && InMemory(allOut[..n], |m0|) && InMemory(allIn[..n][..k], |m0|)
    requires Progress(m0, mem[..], fn, mode, mode == Ecb || iv != null, v, v1, allIn[..n][..k], allOut[..n][..k], out1)
    modifies mem, tmpSrc, tmpDst, iv, walkIn, walkOut
    ensures walkIn.Valid(mem.Length) && walkIn.Rest() == allIn[k + |v|..]
    ensures walkOut.Valid(mem.Length) && walkOut.Rest() == allOut[k + |v|..]
    ensures InMemory(allIn[..n][..k + |v|], |m0|) && |v'| == |v| && (iv != null ==> iv[..] == v')
    ensures Progress(m0, mem[..], fn, mode, mode == Ecb || iv != null, v, v',
                     allIn[..n][..k + |v|], allOut[..n][..k + |v|], out)
  {
    hide *;
    ghost var ss, ds, bs, m1, x := allIn[..n], allOut[..n], |v|, mem[..], [];
    ghost var sb, db := ss[k..k + bs], ds[k..k + bs];
    BlockAddrs(ss, ds, mem.Length, k, bs);
    NextBlock(allIn, walkIn.Rest(), k, bs, n);
    NextBlock(allOut, walkOut.Rest(), k, bs, n);
    x, v' := CryptBlock(mem, tmpSrc, tmpDst, walkIn, walkOut, fn, mode, iv, more, sb, db, v1);
    ProgressMore(m0, m1, mem[..], fn, mode, mode == Ecb || iv != null, v, v1, v', ss[..k], ds[..k], sb, db, out1, x);
    AfterBlock(allIn[k..], sb, walkIn.Rest());
    AfterBlock(allOut[k..], db, walkOut.Rest());
    out := out1 + x;
  }

  lemma NoProgress(m: seq<bv8>, fn: Block -> Block, mode: Mode, chained: bool, v: Block)
    requires BlockFn(fn, |v|)
    ensures InMemory([], |m|) && Progress(m, m, fn, mode, chained, v, v, [], [], [])
  {
  }

  /** crypt. The error is reported before anything is touched. Otherwise the destination bytes, and no others, are
      rewritten to out; and out is the message in the mode asked for, whatever the cutting into segments and pages and
      whether or not the message lies where it is written, unless cbc_process has no initialisation vector. */
  method Crypt(mem: array<bv8>, dst: seq<Segment>, src: seq<Segment>, nbytes: nat, bsize: nat, fn: Block -> Block,
               mode: Mode, iv: array?<bv8>, ghost v: Block) returns (r: int, badBlockLen: bool, ghost out: seq<bv8>)
    requires BlockFn(fn, bsize) && |v| == bsize && (mode != Ecb ==> bsize == 8 || bsize == 16)
    requires iv != mem && (iv != null ==> iv.Length == bsize && iv[..] == v)
    requires nbytes > 0 && nbytes % bsize == 0 ==> ListsOk(dst, src, nbytes, mem.Length)
    modifies mem, iv
    ensures badBlockLen == (nbytes % bsize != 0) && r == (if badBlockLen then -22 else 0)
    ensures nbytes == 0 || badBlockLen ==> mem[..] == old(mem[..]) && (iv != null ==> iv[..] == old(iv[..]))
    ensures nbytes > 0 && !badBlockLen ==> InMemory(Addrs(src)[..nbytes], mem.Length)
    ensures nbytes > 0 && !badBlockLen ==> Scattered(old(mem[..]), mem[..], Addrs(dst)[..nbytes], out)
    ensures nbytes > 0 && !badBlockLen && (mode == Ecb || iv != null) ==>
              out == FlatOut(mode, fn, v, Gather(old(mem[..]), Addrs(src)[..nbytes]))
    ensures nbytes > 0 && !badBlockLen && iv != null ==>
              iv[..] == FlatIv(mode, fn, v, Gather(old(mem[..]), Addrs(src)[..nbytes]))
    ensures nbytes > 0 && !badBlockLen && iv != null ==> bsize <= nbytes == |out|
    ensures nbytes > 0 && !badBlockLen && iv != null ==>
              iv[..] == LastCipherBlock(mode, v, Gather(old(mem[..]), Addrs(src)[..nbytes]), out)
  {
    hide Walk.Rest, Walk.Valid, Distinct, SameOrApart, BlockFn, FlatOut, FlatIv, Scattered, Gather, Addrs;
    badBlockLen, out := false, [];
    if nbytes == 0 {
      return 0, badBlockLen, out;
    }
    if nbytes % bsize != 0 {
      badBlockLen := true;
      return -22, badBlockLen, out;
    }
    PrefixInMemory(src, mem.Length, nbytes);
    PrefixInMemory(dst, mem.Length, nbytes);
    ghost var v';
    var walkIn := new Walk(src, mem.Length);
    var walkOut := new Walk(dst, mem.Length);
    ghost var data := Gather(mem[..], Addrs(src)[..nbytes]);
    GatherLength(mem[..], Addrs(src)[..nbytes]);
    FlatIvIsLast(mode, fn, v, data);
    out, v' := CryptLoop(mem, walkIn, walkOut, nbytes, bsize, fn, mode, iv, Addrs(src), Addrs(dst), v);
    return 0, badBlockLen, out;
  }

  lemma GatherLength(m: seq<bv8>, addrs: seq<nat>)
    requires InMemory(addrs, |m|)
    ensures |Gather(m, addrs)| == |addrs|
  {
  }

  lemma ScatteredGathers(m: seq<bv8>, m': seq<bv8>, addrs: seq<nat>, data: seq<bv8>)
    requires Scattered(m, m', addrs, data)
    ensures InMemory(addrs, |m'|) && Gather(m', addrs) == data
  {
  }

  /** Two calls of crypt, the second undoing the first: the message encrypted from one list to another, the ciphertext
      possibly cut into other segments before it is decrypted to a further list, comes back as it was. Any of the lists
      may be the one it is written from. */
  method EncryptThenDecrypt(mem: array<bv8>, plain: seq<Segment>, cipher: seq<Segment>, cipher': seq<Segment>,
                            back: seq<Segment>, nbytes: nat, bsize: nat, fn: Block -> Block, fn': Block -> Block,
                            mode: Mode, mode': Mode, iv: array<bv8>, iv': array<bv8>)
    requires iv.Length == iv'.Length == bsize && iv != mem && iv' != mem && iv != iv' && iv[..] == iv'[..]
    requires Undoes(mode, fn, mode', fn', bsize) && (mode != Ecb ==> bsize == 8 || bsize == 16)
    requires nbytes > 0 && BlockFn(fn, bsize) && nbytes % bsize == 0
    requires ListsOk(cipher, plain, nbytes, mem.Length) && ListsOk(back, cipher', nbytes, mem.Length)
    requires Addrs(cipher')[..nbytes] == Addrs(cipher)[..nbytes]
    modifies mem, iv, iv'
    ensures InMemory(Addrs(plain)[..nbytes], mem.Length) && InMemory(Addrs(back)[..nbytes], mem.Length)
    ensures Gather(mem[..], Addrs(back)[..nbytes]) == Gather(old(mem[..]), Addrs(plain)[..nbytes])
    ensures iv'[..] == iv[..]
  {
    PrefixInMemory(plain, mem.Length, nbytes);
    PrefixInMemory(back, mem.Length, nbytes);
    hide Distinct, SameOrApart, BlockFn, FlatOut, FlatIv, Scattered, Gather, Addrs, ListsOk, Undoes, InMemory;
    UndoesSizes(mode, fn, mode', fn', bsize);
    ghost var v, m0 := iv[..], mem[..];
    ghost var message := Gather(m0, Addrs(plain)[..nbytes]);
    var _, _, out := Crypt(mem, cipher, plain, nbytes, bsize, fn, mode, iv, v);
    ScatteredGathers(m0, mem[..], Addrs(cipher)[..nbytes], out);
    ghost var m1 := mem[..];
    var _, _, out' := Crypt(mem, back, cipher', nbytes, bsize, fn', mode', iv', v);
    ScatteredGathers(m1, mem[..], Addrs(back)[..nbytes], out');
    FlatRoundTrip(mode, fn, mode', fn', v, message);
  }
}
