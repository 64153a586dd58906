/** The ECB and CBC modes on flat byte strings, as sections 6.1 and 6.2 of NIST SP 800-38A define them, over an
    arbitrary block function. */
module BlockModes {
  import opened Words
  import opened Arithmetic

  type Block = seq<bv8>

  /** What a cipher function is called for in crypt. */
  datatype Mode = Ecb | CbcEncrypt | CbcDecrypt

  function XorBlock(a: Block, b: Block): (c: Block)
    requires |a| == |b|
    ensures |c| == |a|
  {
    seq(|a|, i requires 0 <= i < |a| => Xor(a[i], b[i]))
  }

  lemma XorBlockCancel(a: Block, b: Block)
    requires |a| == |b|
    ensures XorBlock(XorBlock(a, b), b) == a && XorBlock(a, b) == XorBlock(b, a)
  {
    hide Xor;
    forall i | 0 <= i < |a|
      ensures Xor(Xor(a[i], b[i]), b[i]) == a[i] && Xor(a[i], b[i]) == Xor(b[i], a[i])
    {
      XorLaws(a[i], b[i], b[i]);
      XorLaws(b[i], b[i], b[i]);
      XorLaws(a[i], 0, 0);
    }
  }

  /** A block function that keeps the block size. */
  ghost predicate BlockFn(fn: Block -> Block, bs: nat)
    ensures BlockFn(fn, bs) ==> bs > 0
  {
    bs > 0 && forall x: Block :: |x| == bs ==> |fn(x)| == bs
  }

  /** One block: what is put out, and what the next block is chained to. */
  function StepOut(mode: Mode, fn: Block -> Block, iv: Block, x: Block): Block
    requires BlockFn(fn, |iv|) && |iv| == |x|
    ensures |StepOut(mode, fn, iv, x)| == |iv|
  {
    match mode
    case Ecb => fn(x)
    case CbcEncrypt => fn(XorBlock(iv, x))
    case CbcDecrypt => XorBlock(fn(x), iv)
  }

  function StepIv(mode: Mode, fn: Block -> Block, iv: Block, x: Block): Block
    requires BlockFn(fn, |iv|) && |iv| == |x|
    ensures |StepIv(mode, fn, iv, x)| == |iv|
  {
    match mode
    case Ecb => iv
    case CbcEncrypt => fn(XorBlock(iv, x))
    case CbcDecrypt => x
  }

  /** The whole message and the final chaining value; a trailing part of a block is left out. */
  ghost function FlatOut(mode: Mode, fn: Block -> Block, iv: Block, data: seq<bv8>): seq<bv8>
    requires BlockFn(fn, |iv|)
    decreases |data|
  {
    var bs := |iv|;
    if |data| < bs then []
    else StepOut(mode, fn, iv, data[..bs]) + FlatOut(mode, fn, StepIv(mode, fn, iv, data[..bs]), data[bs..])
  }

  ghost function FlatIv(mode: Mode, fn: Block -> Block, iv: Block, data: seq<bv8>): (v: Block)
    requires BlockFn(fn, |iv|)
    ensures |v| == |iv|
    decreases |data|
  {
    var bs := |iv|;
    if |data| < bs then iv else FlatIv(mode, fn, StepIv(mode, fn, iv, data[..bs]), data[bs..])
  }

  lemma {:induction false} FlatLength(mode: Mode, fn: Block -> Block, iv: Block, data: seq<bv8>)
    requires BlockFn(fn, |iv|) && |data| % |iv| == 0
    ensures |FlatOut(mode, fn, iv, data)| == |data|
    decreases |data|
  {
    hide BlockFn, StepOut, StepIv;
    var bs := |iv|;
    if |data| >= bs {
      ModStep(|data|, bs);
      FlatLength(mode, fn, StepIv(mode, fn, iv, data[..bs]), data[bs..]);
    }
  }

  lemma FlatFirst(mode: Mode, fn: Block -> Block, iv: Block, x: Block, rest: seq<bv8>)
    requires BlockFn(fn, |iv|) && |x| == |iv|
    ensures var v := StepIv(mode, fn, iv, x);
            && FlatOut(mode, fn, iv, x + rest) == StepOut(mode, fn, iv, x) + FlatOut(mode, fn, v, rest)
            && FlatIv(mode, fn, iv, x + rest) == FlatIv(mode, fn, v, rest)
  {
    hide BlockFn, StepOut, StepIv;
    assert (x + rest)[..|x|] == x && (x + rest)[|x|..] == rest;
  }

  lemma FlatNone(mode: Mode, fn: Block -> Block, iv: Block)
    requires BlockFn(fn, |iv|)
    ensures FlatOut(mode, fn, iv, []) == [] && FlatIv(mode, fn, iv, []) == iv
  {
  }

  /** A further block at the end is chained to what the message before it left. */
  lemma {:induction false} FlatAppend(mode: Mode, fn: Block -> Block, iv: Block, data: seq<bv8>, x: Block)
    requires BlockFn(fn, |iv|) && |data| % |iv| == 0 && |x| == |iv|
    ensures var v := FlatIv(mode, fn, iv, data);
            && FlatOut(mode, fn, iv, data + x) == FlatOut(mode, fn, iv, data) + StepOut(mode, fn, v, x)
            && FlatIv(mode, fn, iv, data + x) == StepIv(mode, fn, v, x)
    decreases |data|
  {
    hide *;
    var bs := |iv|;
    if |data| < bs {
      assert data == [] && data + x == x + [];
      FlatNone(mode, fn, iv);
      FlatFirst(mode, fn, iv, x, []);
      FlatNone(mode, fn, StepIv(mode, fn, iv, x));
    } else {
      ModStep(|data|, bs);
      var head, rest := data[..bs], data[bs..];
      var iv' := StepIv(mode, fn, iv, head);
      FlatFirst(mode, fn, iv, head, rest);
      FlatFirst(mode, fn, iv, head, rest + x);
      FlatAppend(mode, fn, iv', rest, x);
      assert data == head + rest && data + x == head + (rest + x);
    }
  }

  /** What a message leaves for the next: nothing in ECB; in CBC the last block of the ciphertext. */
  function LastCipherBlock(mode: Mode, iv: Block, data: seq<bv8>, out: seq<bv8>): Block
    requires |iv| <= |data| == |out|
  {
    match mode
    case Ecb => iv
    case CbcEncrypt => out[|out| - |iv|..]
    case CbcDecrypt => data[|data| - |iv|..]
  }

  lemma FlatIvIsLast(mode: Mode, fn: Block -> Block, iv: Block, data: seq<bv8>)
    requires BlockFn(fn, |iv|) && |data| % |iv| == 0 && |data| > 0
    ensures |iv| <= |data| == |FlatOut(mode, fn, iv, data)|
    ensures FlatIv(mode, fn, iv, data) == LastCipherBlock(mode, iv, data, FlatOut(mode, fn, iv, data))
  {
    var bs := |iv|;
    SmallRemainder(|data|, bs);
    ModStep(|data|, bs);
    var front, x := data[..|data| - bs], data[|data| - bs..];
    assert data == front + x;
    hide FlatOut, FlatIv, BlockFn, XorBlock;
    FlatLength(mode, fn, iv, data);
    FlatAppend(mode, fn, iv, front, x);
    if mode == Ecb {
      EcbKeepsIv(fn, iv, front);
    }
  }

  lemma {:induction false} EcbKeepsIv(fn: Block -> Block, iv: Block, data: seq<bv8>)
    requires BlockFn(fn, |iv|)
    ensures FlatIv(Ecb, fn, iv, data) == iv
    decreases |data|
  {
    hide BlockFn;
    if |data| >= |iv| {
      EcbKeepsIv(fn, iv, data[|iv|..]);
    }
  }

  /** The partner of mode and fn. */
  ghost predicate Undoes(mode: Mode, fn: Block -> Block, mode': Mode, fn': Block -> Block, bs: nat) {
    && BlockFn(fn, bs) && BlockFn(fn', bs)
    && (forall x: Block | |x| == bs :: fn'(fn(x)) == x)
    && match mode
       case Ecb => mode' == Ecb
       case CbcEncrypt => mode' == CbcDecrypt
       case CbcDecrypt => false
  }

  lemma StepUndone(mode: Mode, fn: Block -> Block, mode': Mode, fn': Block -> Block, iv: Block, x: Block)
    requires Undoes(mode, fn, mode', fn', |iv|) && |x| == |iv|
    ensures StepOut(mode', fn', iv, StepOut(mode, fn, iv, x)) == x
    ensures StepIv(mode', fn', iv, StepOut(mode, fn, iv, x)) == StepIv(mode, fn, iv, x)
  {
    hide XorBlock;
    XorBlockCancel(x, iv);
  }

  lemma UndoesSizes(mode: Mode, fn: Block -> Block, mode': Mode, fn': Block -> Block, bs: nat)
    requires Undoes(mode, fn, mode', fn', bs)
    ensures BlockFn(fn, bs) && BlockFn(fn', bs)
  {
  }

  /** Decrypting what was encrypted, with the same initialisation vector, gives the message back, and both leave the
      same chaining value. */
  lemma {:induction false} FlatRoundTrip(mode: Mode, fn: Block -> Block, mode': Mode, fn': Block -> Block, iv: Block,
                                         data: seq<bv8>)
    requires Undoes(mode, fn, mode', fn', |iv|) && BlockFn(fn, |iv|) && BlockFn(fn', |iv|) && |data| % |iv| == 0
    ensures FlatOut(mode', fn', iv, FlatOut(mode, fn, iv, data)) == data
    ensures FlatIv(mode', fn', iv, FlatOut(mode, fn, iv, data)) == FlatIv(mode, fn, iv, data)
    decreases |data|
  {
    hide *;
    var bs := |iv|;
    if |data| < bs {
      assert data == [];
      FlatNone(mode, fn, iv);
      FlatNone(mode', fn', iv);
    } else {
      ModStep(|data|, bs);
      var head, rest := data[..bs], data[bs..];
      assert data == head + rest;
      var iv' := StepIv(mode, fn, iv, head);
      FlatFirst(mode, fn, iv, head, rest);
      FlatFirst(mode', fn', iv, StepOut(mode, fn, iv, head), FlatOut(mode, fn, iv', rest));
      StepUndone(mode, fn, mode', fn', iv, head);
      FlatRoundTrip(mode, fn, mode', fn', iv', rest);
    }
  }

  /** The block before position p, or the initialisation vector. */
  function Before(iv: Block, data: seq<bv8>, p: nat): (b: Block)
    requires p <= |data| && (p == 0 || |iv| <= p)
    ensures |b| == |iv|
  {
    if p == 0 then iv else data[p - |iv|..p]
  }

  /** The equations of SP 800-38A, block by block: C_j = CIPH(P_j) for ECB (section 6.1), C_j = CIPH(P_j xor C_(j-1))
      and P_j = CIPH^-1(C_j) xor C_(j-1) for CBC (section 6.2), where C_0 is the initialisation vector. */
  lemma {:induction false} FlatBlocks(mode: Mode, fn: Block -> Block, iv: Block, data: seq<bv8>, p: nat)
    requires BlockFn(fn, |iv|) && |data| % |iv| == 0 && p % |iv| == 0 && p + |iv| <= |data|
    ensures |FlatOut(mode, fn, iv, data)| == |data|
    ensures p == 0 || |iv| <= p
    ensures var out, x, to := FlatOut(mode, fn, iv, data), data[p..p + |iv|], p + |iv|;
            && (mode == Ecb ==> out[p..to] == fn(x))
            && (mode == CbcEncrypt ==> out[p..to] == fn(XorBlock(x, Before(iv, out, p))))
            && (mode == CbcDecrypt ==> |fn(x)| == |iv| && out[p..to] == XorBlock(fn(x), Before(iv, data, p)))
    decreases p
  {
    var bs := |iv|;
    hide XorBlock, BlockFn, FlatOut, FlatIv;
    FlatLength(mode, fn, iv, data);
    if p == 0 {
      FirstBlock(mode, fn, iv, data);
    } else {
      var head, rest := data[..bs], data[bs..];
      assert data == head + rest;
      SmallRemainder(p, bs);
      ModStep(p, bs);
      ModStep(|data|, bs);
      var iv' := StepIv(mode, fn, iv, head);
      FlatBlocks(mode, fn, iv', rest, p - bs);
      FlatFirst(mode, fn, iv, head, rest);
      LaterBlock(mode, fn, iv, data, iv', FlatOut(mode, fn, iv', rest), p);
    }
  }

  lemma FirstBlock(mode: Mode, fn: Block -> Block, iv: Block, data: seq<bv8>)
    requires BlockFn(fn, |iv|) && |iv| <= |data| == |FlatOut(mode, fn, iv, data)|
    ensures var out, x := FlatOut(mode, fn, iv, data), data[..|iv|];
            && |fn(x)| == |iv|
            && (mode == Ecb ==> out[..|iv|] == fn(x))
            && (mode == CbcEncrypt ==> out[..|iv|] == fn(XorBlock(x, iv)))
            && (mode == CbcDecrypt ==> out[..|iv|] == XorBlock(fn(x), iv))
  {
    hide XorBlock, FlatOut, FlatIv;
    var head, rest := data[..|iv|], data[|iv|..];
    assert data == head + rest;
    FlatFirst(mode, fn, iv, head, rest);
    BlockFnSize(fn, head);
    XorBlockCancel(head, iv);
    hide BlockFn;
    assert FlatOut(mode, fn, iv, data)[..|iv|] == StepOut(mode, fn, iv, head);
  }

  /** What stands at and before a later block of the message stands there in the rest of it. */
  lemma LaterBlock(mode: Mode, fn: Block -> Block, iv: Block, data: seq<bv8>, iv': Block, out': seq<bv8>, p: nat)
    requires BlockFn(fn, |iv|) && |iv| <= p && p + |iv| <= |data| == |out'| + |iv| && (p == |iv| || 2 * |iv| <= p)
    requires iv' == StepIv(mode, fn, iv, data[..|iv|])
    ensures var out, rest := StepOut(mode, fn, iv, data[..|iv|]) + out', data[|iv|..];
            && rest[p - |iv|..p] == data[p..p + |iv|] && out'[p - |iv|..p] == out[p..p + |iv|]
            && (mode == CbcEncrypt ==> Before(iv', out', p - |iv|) == Before(iv, out, p))
            && (mode == CbcDecrypt ==> Before(iv', rest, p - |iv|) == Before(iv, data, p))
  {
    hide XorBlock, BlockFn;
  }

  lemma BlockFnSize(fn: Block -> Block, x: Block)
    requires BlockFn(fn, |x|)
    ensures |fn(x)| == |x|
  {
  }

  lemma SmallRemainder(p: nat, d: nat)
    requires p > 0 && d > 0 && p % d == 0
    ensures p >= d
  {
  }
}
