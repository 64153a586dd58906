/** crypto/hmac.c: HMAC over any digest, in memory shared by the key, the result and the text. */
module Hmac {
  import opened Words
  import opened ScatterWalk
  import opened Streaming
  import opened Digest

  function XorWith(x: Bytes, c: bv8): (y: Bytes)
    ensures |y| == |x|
  {
    seq(|x|, i requires 0 <= i < |x| => Xor(x[i], c))
  }

  /** The key as section 2 of RFC 2104 prepares it: hashed if it is longer than a block, and filled up with zeros. */
  function BlockKey(hash: Bytes -> Bytes, blockSize: nat, key: Bytes): Bytes {
    var k := if |key| > blockSize then hash(key) else key;
    k + Zeros(if |k| < blockSize then blockSize - |k| else 0)
  }

  /** Section 2 of RFC 2104: H(K XOR opad, H(K XOR ipad, text)). */
  function HmacOf(hash: Bytes -> Bytes, blockSize: nat, key: Bytes, text: Bytes): Bytes {
    var k := BlockKey(hash, blockSize, key);
    hash(XorWith(k, 0x5c) + hash(XorWith(k, 0x36) + text))
  }

  /** The n bytes at an address. */
  function At(m: Bytes, at: nat, n: nat): (x: Bytes)
    requires at + n <= |m|
    ensures |x| == n
  {
    m[at..at + n]
  }

  /** virt_to_page and offset_in_page. */
  function SegmentAt(at: nat, length: nat): (s: Segment)
    ensures Addr(s.page, s.offset) == at && s.offset < PAGE_SIZE && s.length == length
  {
    Segment(at / PAGE_SIZE, at % PAGE_SIZE, length)
  }

  lemma ContentsAt(m: Bytes, at: nat, n: nat)
    requires at + n <= |m| && |m| % PAGE_SIZE == 0
    ensures ListOk([SegmentAt(at, n)], |m|) && InMemory(Addrs([SegmentAt(at, n)]), |m|)
    ensures Contents(m, [SegmentAt(at, n)]) == At(m, at, n)
  {
    var s := SegmentAt(at, n);
    assert [s][1..] == [];
    assert Addrs([s]) == Range(at, n) + [];
  }

  /** Two stretches of memory have no byte in common. */
  predicate Apart(a: nat, n: nat, b: nat, k: nat) {
    a + n <= b || b + k <= a
  }

  lemma WrittenAt(m: Bytes, at: nat, data: Bytes, b: nat, k: nat)
    requires at + |data| <= |m| && b + k <= |m|
    ensures At(Written(m, at, data), at, |data|) == data
    ensures Apart(at, |data|, b, k) ==> At(Written(m, at, data), b, k) == At(m, b, k)
    ensures b == at && k >= |data| ==> At(Written(m, at, data), b, k) == data + At(m, b, k)[|data|..]
  {
  }

  /** m' differs from m at most in the n bytes at a and the k bytes at b. */
  predicate SameOutside(m: Bytes, m': Bytes, a: nat, n: nat, b: nat, k: nat) {
    |m'| == |m| && forall i | 0 <= i < |m| && !(a <= i < a + n) && !(b <= i < b + k) :: m'[i] == m[i]
  }

  predicate Avoids(addrs: seq<nat>, a: nat, n: nat) {
    forall i | 0 <= i < |addrs| :: !(a <= addrs[i] < a + n)
  }

  lemma SameContents(m: Bytes, m': Bytes, sg: seq<Segment>, a: nat, n: nat, b: nat, k: nat)
    requires SameOutside(m, m', a, n, b, k) && InMemory(Addrs(sg), |m|) && Avoids(Addrs(sg), a, n)
    requires Avoids(Addrs(sg), b, k)
    ensures Contents(m', sg) == Contents(m, sg)
  {
    hide Addrs;
  }

  /** What is asked of a digest: its digests have the size it says, which is at most that of a block. */
  ghost predicate DigestOk(tfm: DigestTfm) {
    && tfm.digestSize <= tfm.blockSize
    && (forall x :: |tfm.hash(x)| == tfm.digestSize) && (forall m, x :: |tfm.spent(m, x)| == tfm.digestSize)
  }

  /** The part of a key that is used: the key itself, or its digest. */
  function UsedKey(hash: Bytes -> Bytes, blockSize: nat, key: Bytes): Bytes {
    if |key| > blockSize then hash(key) else key
  }

  /** hash_key, with the new value of *keylen. */
  method HashKey(tfm: DigestTfm, mem: array<bv8>, keyAt: nat, keylen: nat) returns (keylen': nat)
    requires DigestOk(tfm) && mem.Length % PAGE_SIZE == 0 && keyAt + keylen <= mem.Length && keylen > tfm.blockSize
    modifies tfm, mem
    ensures keylen' == tfm.digestSize <= keylen
    ensures mem[..] == Written(old(mem[..]), keyAt, tfm.hash(At(old(mem[..]), keyAt, keylen)))
    ensures tfm.msg == [] && tfm.last == After(At(old(mem[..]), keyAt, keylen))
  {
    ContentsAt(mem[..], keyAt, keylen);
    hide Addrs, Contents, At, Written;
    tfm.Digest(mem, [SegmentAt(keyAt, keylen)], keyAt);
    keylen' := tfm.digestSize;
  }

  /** memset and memcpy. */
  method FillKey(mem: array<bv8>, blockAt: nat, blockSize: nat, keyAt: nat, keylen: nat, ghost m0: Bytes,
                 ghost k: Bytes)
    requires blockAt + blockSize <= mem.Length && keyAt + keylen <= mem.Length && keylen <= blockSize
    requires Apart(blockAt, blockSize, keyAt, keylen) && mem[..] == m0
    requires k == At(m0, keyAt, keylen) + Zeros(blockSize - keylen)
    modifies mem
    ensures mem[..] == Written(m0, blockAt, k)
  {
    forall i | 0 <= i < blockSize {
      mem[blockAt + i] := 0;
    }
    ghost var m1 := mem[..];
    assert forall i | 0 <= i < mem.Length :: m1[i] == if blockAt <= i < blockAt + blockSize then 0 else m0[i];
    forall i | 0 <= i < keylen {
      mem[blockAt + i] := mem[keyAt + i];
    }
    Pointwise(mem[..], m0, blockAt, k);
  }

  lemma Pointwise(m: Bytes, m0: Bytes, at: nat, x: Bytes)
    requires at + |x| <= |m0| == |m|
    requires forall i | 0 <= i < |x| :: m[at + i] == x[i]
    requires forall i | 0 <= i < |m| && !(at <= i < at + |x|) :: m[i] == m0[i]
    ensures m == Written(m0, at, x)
  {
    forall i | 0 <= i < |m|
      ensures m[i] == Written(m0, at, x)[i]
    {
      if at <= i < at + |x| {
        assert m[at + (i - at)] == x[i - at];
      }
    }
  }

  /** The loop that adds the pad. */
  method AddPad(mem: array<bv8>, blockAt: nat, blockSize: nat, pad: bv8, ghost m0: Bytes, ghost k: Bytes)
    requires |k| == blockSize && blockAt + blockSize <= mem.Length == |m0| && mem[..] == Written(m0, blockAt, k)
    modifies mem
    ensures mem[..] == Written(m0, blockAt, XorWith(k, pad))
  {
    hide Xor, XorWith, Written;
    PadStart(k, pad);
    for i := 0 to blockSize
      invariant mem[..] == Written(m0, blockAt, Padding(k, pad, i))
    {
      PadStep(m0, blockAt, k, pad, i);
      assert mem[blockAt + i] == mem[..][blockAt + i];
      mem[blockAt + i] := Xor(mem[blockAt + i], pad);
    }
    PadEnd(k, pad);
  }

  /** The key when the pad has been added to its first i bytes. */
  function Padding(k: Bytes, pad: bv8, i: nat): (x: Bytes)
    requires i <= |k|
    ensures |x| == |k|
  {
    XorWith(k, pad)[..i] + k[i..]
  }

  lemma PadStart(k: Bytes, pad: bv8)
    ensures Padding(k, pad, 0) == k
  {
  }

  lemma PadEnd(k: Bytes, pad: bv8)
    ensures Padding(k, pad, |k|) == XorWith(k, pad)
  {
  }

  lemma PadStep(m0: Bytes, at: nat, k: Bytes, pad: bv8, i: nat)
    requires i < |k| && at + |k| <= |m0|
    ensures Written(m0, at, Padding(k, pad, i))[at + i] == k[i]
    ensures Written(m0, at, Padding(k, pad, i))[at + i := Xor(k[i], pad)] == Written(m0, at, Padding(k, pad, i + 1))
  {
    hide Xor;
    assert Padding(k, pad, i)[i := Xor(k[i], pad)] == Padding(k, pad, i + 1);
  }

  /** memset, memcpy and the addition of the pad: the block holds the prepared key with the pad, and nothing else
      changes. */
  method PadKey(mem: array<bv8>, blockAt: nat, blockSize: nat, keyAt: nat, keylen: nat, pad: bv8, ghost key: Bytes)
    requires blockAt + blockSize <= mem.Length && keyAt + keylen <= mem.Length && keylen <= blockSize
    requires Apart(blockAt, blockSize, keyAt, keylen) && key == At(mem[..], keyAt, keylen)
    modifies mem
    ensures At(mem[..], blockAt, blockSize) == XorWith(key + Zeros(blockSize - keylen), pad)
    ensures At(mem[..], keyAt, keylen) == key
    ensures SameOutside(old(mem[..]), mem[..], blockAt, blockSize, blockAt, blockSize)
  {
    ghost var m0, k := mem[..], key + Zeros(blockSize - keylen);
    hide At, Written, XorWith, Zeros;
    FillKey(mem, blockAt, blockSize, keyAt, keylen, m0, k);
    AddPad(mem, blockAt, blockSize, pad, m0, k);
    WrittenAt(m0, blockAt, XorWith(k, pad), keyAt, keylen);
    WrittenOutside(m0, blockAt, XorWith(k, pad));
  }

  lemma WrittenOutside(m: Bytes, at: nat, data: Bytes)
    requires at + |data| <= |m|
    ensures SameOutside(m, Written(m, at, data), at, |data|, at, |data|)
  {
  }

  lemma OutsideBoth(m: Bytes, m1: Bytes, m2: Bytes, a: nat, n: nat, b: nat, k: nat, c: nat, l: nat)
    requires SameOutside(m, m1, a, n, a, n) && SameOutside(m1, m2, b, k, b, k) && a == c && n <= l
    ensures SameOutside(m, m2, c, l, b, k)
  {
  }

  /** crypto_hmac_init: a key longer than a block is replaced, in place, by its digest, and *keylen with it. */
  method HmacInit(tfm: DigestTfm, mem: array<bv8>, blockAt: nat, keyAt: nat, keylen: nat, ghost key: Bytes)
    returns (keylen': nat)
    requires DigestOk(tfm) && mem.Length % PAGE_SIZE == 0
    requires keyAt + keylen <= mem.Length && blockAt + tfm.blockSize <= mem.Length
    requires Apart(blockAt, tfm.blockSize, keyAt, keylen)
    requires key == At(mem[..], keyAt, keylen)
    modifies tfm, mem
    ensures keylen' <= keylen && keylen' <= tfm.blockSize
    ensures At(mem[..], keyAt, keylen') == UsedKey(tfm.hash, tfm.blockSize, key)
    ensures tfm.msg == XorWith(BlockKey(tfm.hash, tfm.blockSize, key), 0x36) && tfm.last.Fresh?
    ensures SameOutside(old(mem[..]), mem[..], keyAt, keylen, blockAt, tfm.blockSize)
  {
    hide Addrs, Contents, XorWith, Zeros, At, Written, SameOutside;
    ghost var m0, bs, k := mem[..], tfm.blockSize, UsedKey(tfm.hash, tfm.blockSize, key);
    keylen' := keylen;
    SameSelf(m0, keyAt, keylen);
    if keylen > tfm.blockSize {
      keylen' := HashKey(tfm, mem, keyAt, keylen);
      WrittenAt(m0, keyAt, k, keyAt, keylen);
      WrittenOutside(m0, keyAt, k);
    }
    ghost var m1 := mem[..];
    PadKey(mem, blockAt, tfm.blockSize, keyAt, keylen', 0x36, k);
    OutsideBoth(m0, m1, mem[..], keyAt, keylen', blockAt, bs, keyAt, keylen);
    ContentsAt(mem[..], blockAt, tfm.blockSize);
    tfm.Init();
    tfm.Update(mem, [SegmentAt(blockAt, tfm.blockSize)]);
    assert [] + At(mem[..], blockAt, bs) == At(mem[..], blockAt, bs);
  }

  lemma SameSelf(m: Bytes, a: nat, n: nat)
    ensures SameOutside(m, m, a, n, a, n)
  {
  }

  /** crypto_hmac_final. The result is the outer hash over the inner one, with out used both for the inner digest and,
      over it, for the result. That is the digest of what has been fed if the key fits a block; with a longer key,
      hash_key has run the digest over the key first, and nothing of what has been fed is left. */
  method HmacFinal(tfm: DigestTfm, mem: array<bv8>, blockAt: nat, keyAt: nat, keylen: nat, outAt: nat, ghost key: Bytes)
    returns (keylen': nat)
    requires DigestOk(tfm) && mem.Length % PAGE_SIZE == 0
    requires keyAt + keylen <= mem.Length && blockAt + tfm.blockSize <= mem.Length
    requires outAt + tfm.digestSize <= mem.Length
    requires Apart(blockAt, tfm.blockSize, keyAt, keylen) && Apart(outAt, tfm.digestSize, keyAt, keylen)
    requires Apart(blockAt, tfm.blockSize, outAt, tfm.digestSize) && key == At(mem[..], keyAt, keylen)
    modifies tfm, mem
    ensures keylen' == if keylen > tfm.blockSize then tfm.digestSize else keylen
    ensures At(mem[..], outAt, tfm.digestSize)
         == Outer(tfm, key, if keylen <= tfm.blockSize then old(tfm.Result()) else tfm.spent(key, []))
  {
    hide Addrs, Contents, XorWith, Zeros, At, Written, SameOutside, Apart, Range;
    ghost var bs, ds := tfm.blockSize, tfm.digestSize;
    keylen' := keylen;
    ghost var k := key;
    if keylen > tfm.blockSize {
      ghost var m0 := mem[..];
      k := tfm.hash(key);
      keylen' := HashKey(tfm, mem, keyAt, keylen);
      WrittenAt(m0, keyAt, k, keyAt, keylen);
    }
    ghost var m1, inner := mem[..], tfm.Result();
    ApartLess(blockAt, bs, keyAt, keylen, keylen');
    ApartLess(outAt, ds, keyAt, keylen, keylen');
    assert At(m1, keyAt, keylen') == k;
    tfm.Final(mem, outAt);
    WrittenAt(m1, outAt, inner, keyAt, keylen');
    ghost var m2 := mem[..];
    PadKey(mem, blockAt, tfm.blockSize, keyAt, keylen', 0x5c, k);
    StaysAt(m2, mem[..], blockAt, bs, outAt, ds);
    HashOuter(tfm, mem, blockAt, outAt, XorWith(k + Zeros(bs - keylen'), 0x5c), inner);
  }

  /** The outer hash over an inner digest. */
  function Outer(tfm: DigestTfm, key: Bytes, inner: Bytes): Bytes {
    tfm.hash(XorWith(BlockKey(tfm.hash, tfm.blockSize, key), 0x5c) + inner)
  }

  /** The last five calls of crypto_hmac_final. */
  method HashOuter(tfm: DigestTfm, mem: array<bv8>, blockAt: nat, outAt: nat, ghost opad: Bytes, ghost inner: Bytes)
    requires DigestOk(tfm) && mem.Length % PAGE_SIZE == 0
    requires blockAt + tfm.blockSize <= mem.Length && outAt + tfm.digestSize <= mem.Length
    requires At(mem[..], blockAt, tfm.blockSize) == opad && At(mem[..], outAt, tfm.digestSize) == inner
    modifies tfm, mem
    ensures At(mem[..], outAt, tfm.digestSize) == tfm.hash(opad + inner)
  {
    hide Addrs, Contents, At, Written, Range;
    ghost var m := mem[..];
    tfm.Init();
    ContentsAt(m, blockAt, tfm.blockSize);
    tfm.Update(mem, [SegmentAt(blockAt, tfm.blockSize)]);
    ContentsAt(m, outAt, tfm.digestSize);
    tfm.Update(mem, [SegmentAt(outAt, tfm.digestSize)]);
    assert ([] + opad) + inner == opad + inner;
    tfm.Final(mem, outAt);
    WrittenAt(m, outAt, tfm.hash(opad + inner), outAt, tfm.digestSize);
  }

  lemma StaysAt(m: Bytes, m': Bytes, a: nat, n: nat, b: nat, k: nat)
    requires SameOutside(m, m', a, n, a, n) && Apart(a, n, b, k) && b + k <= |m|
    ensures At(m', b, k) == At(m, b, k)
  {
  }

  /** crypto_hmac: RFC 2104 over any scatterlist and any key length. The key, the result and the scratch block lie
      apart, and the text is in neither the key nor the block; the result may be written over the text. */
  method Hmac(tfm: DigestTfm, mem: array<bv8>, blockAt: nat, keyAt: nat, keylen: nat, sg: seq<Segment>, outAt: nat)
    returns (keylen': nat)
    requires DigestOk(tfm) && ListOk(sg, mem.Length)
    requires keyAt + keylen <= mem.Length && blockAt + tfm.blockSize <= mem.Length
    requires outAt + tfm.digestSize <= mem.Length
    requires Apart(blockAt, tfm.blockSize, keyAt, keylen) && Apart(outAt, tfm.digestSize, keyAt, keylen)
    requires Apart(blockAt, tfm.blockSize, outAt, tfm.digestSize)
    requires Avoids(Addrs(sg), keyAt, keylen) && Avoids(Addrs(sg), blockAt, tfm.blockSize)
    modifies tfm, mem
    ensures InMemory(Addrs(sg), mem.Length)
    ensures At(mem[..], outAt, tfm.digestSize)
         == HmacOf(tfm.hash, tfm.blockSize, At(old(mem[..]), keyAt, keylen), Contents(old(mem[..]), sg))
    ensures keylen' == if keylen > tfm.blockSize then tfm.digestSize else keylen
  {
    AddrsInMemory(sg, mem.Length);
    hide Addrs, Contents, XorWith, Zeros, At, Written, SameOutside, Avoids, Apart;
    ghost var m0, key := mem[..], At(mem[..], keyAt, keylen);
    keylen' := HmacInit(tfm, mem, blockAt, keyAt, keylen, key);
    SameContents(m0, mem[..], sg, keyAt, keylen, blockAt, tfm.blockSize);
    ghost var used := At(mem[..], keyAt, keylen');
    tfm.Update(mem, sg);
    ApartLess(blockAt, tfm.blockSize, keyAt, keylen, keylen');
    ApartLess(outAt, tfm.digestSize, keyAt, keylen, keylen');
    var n := keylen';
    keylen' := HmacFinal(tfm, mem, blockAt, keyAt, n, outAt, used);
    SameBlockKey(tfm.hash, tfm.blockSize, key, used);
  }

  lemma ApartLess(a: nat, n: nat, b: nat, k: nat, k': nat)
    requires Apart(a, n, b, k) && k' <= k
    ensures Apart(a, n, b, k')
  {
  }

  lemma SameBlockKey(hash: Bytes -> Bytes, blockSize: nat, key: Bytes, used: Bytes)
    requires used == UsedKey(hash, blockSize, key) && |used| <= blockSize
    ensures BlockKey(hash, blockSize, used) == BlockKey(hash, blockSize, key)
  {
  }
}
