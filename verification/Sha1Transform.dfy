/** crypto/sha1.c, sha1_transform: sixteen words of workspace rewritten in place and five registers that trade names,
    against the 80-word schedule and shifting registers of section 6.1 of RFC 3174. */
module Sha1Transform {
  import opened Words

  function Rol(value: bv32, bits: nat): bv32
    requires 0 < bits < 32
  {
    (value << bits) | (value >> (32 - bits))
  }

  /** The sum of step d in section 6.1 of RFC 3174, left to right. */
  function Temp(r: bv32, f: bv32, e: bv32, word: bv32, k: bv32): bv32 {
    r + f + e + word + k
  }

  /** The sum of R0 to R4, which is added to z. */
  function Sum(z: bv32, f: bv32, word: bv32, k: bv32, r: bv32): bv32 {
    z + (f + word + k + r)
  }

  lemma SumIsTemp(z: bv32, f: bv32, word: bv32, k: bv32, r: bv32)
    ensures Sum(z, f, word, k, r) == Temp(r, f, z, word, k)
  {
    SumShuffle(z, f, word, k, r);
  }

  lemma SumShuffle(z: bv32, f: bv32, word: bv32, k: bv32, r: bv32)
    ensures z + (f + word + k + r) == r + f + z + word + k
  {
  }

  // ---- section 5 and section 6.1 of RFC 3174

  datatype Regs = Regs(a: bv32, b: bv32, c: bv32, d: bv32, e: bv32)

  function F(t: nat, b: bv32, c: bv32, d: bv32): bv32 {
    if t < 20 then (b & c) | (!b & d)
    else if t < 40 then b ^ c ^ d
    else if t < 60 then (b & c) | (b & d) | (c & d)
    else b ^ c ^ d
  }

  function K(t: nat): bv32 {
    if t < 20 then 0x5A827999 else if t < 40 then 0x6ED9EBA1 else if t < 60 then 0x8F1BBCDC else 0xCA62C1D6
  }

  /** W(t) of a block of sixteen words. */
  function W(block: seq<bv32>, t: nat): bv32
    requires |block| == 16
  {
    if t < 16 then block[t]
    else Rol(Xor32(Xor32(Xor32(W(block, t - 3), W(block, t - 8)), W(block, t - 14)), W(block, t - 16)), 1)
  }

  /** Step d for one t. */
  function Step(block: seq<bv32>, t: nat, s: Regs): Regs
    requires |block| == 16
  {
    Regs(Temp(Rol(s.a, 5), F(t, s.b, s.c, s.d), s.e, W(block, t), K(t)), s.a, Rol(s.b, 30), s.c, s.d)
  }

  /** The registers after the steps 0 to t - 1. */
  function Steps(block: seq<bv32>, t: nat, s: Regs): Regs
    requires |block| == 16
  {
    if t == 0 then s else Step(block, t - 1, Steps(block, t - 1, s))
  }

  /** The words of a block, most significant byte first. */
  function BlockWords(data: seq<bv8>): (w: seq<bv32>)
    requires |data| == 64
    ensures |w| == 16
  {
    seq(16, i requires 0 <= i < 16 => Pack(data[4 * i + 3], data[4 * i + 2], data[4 * i + 1], data[4 * i]))
  }

  const ROUNDS: nat := 80

  /** The state after one more block. */
  function Compressed(h: seq<bv32>, data: seq<bv8>): seq<bv32> {
    if |h| != 5 || |data| != 64 then h
    else AddBack(h, Steps(BlockWords(data), ROUNDS, Regs(h[0], h[1], h[2], h[3], h[4])))
  }

  function AddBack(h: seq<bv32>, s: Regs): (h': seq<bv32>)
    requires |h| == 5
    ensures |h'| == 5
  {
    [h[0] + s.a, h[1] + s.b, h[2] + s.c, h[3] + s.d, h[4] + s.e]
  }

  // ---- sha1_transform

  /** The logical functions as R0 to R4 write them. */
  function Mixed(i: nat, w: bv32, x: bv32, y: bv32): bv32 {
    if i < 20 then (w & (x ^ y)) ^ y
    else if i < 40 then w ^ x ^ y
    else if i < 60 then ((w | x) & y) | (w & x)
    else w ^ x ^ y
  }

  lemma Choose(w: bv32, x: bv32, y: bv32)
    ensures (w & (x ^ y)) ^ y == (w & x) | (!w & y)
  {
  }

  lemma Majority(w: bv32, x: bv32, y: bv32)
    ensures ((w | x) & y) | (w & x) == (w & x) | (w & y) | (x & y)
  {
  }

  lemma MixedIsF(i: nat, w: bv32, x: bv32, y: bv32)
    ensures Mixed(i, w, x, y) == F(i, w, x, y)
  {
    Choose(w, x, y);
    Majority(w, x, y);
  }

  /** The workspace before step t: word u of the schedule stands at u modulo 16, for the last sixteen words or the
      first. */
  ghost predicate Window(ws: seq<bv32>, block: seq<bv32>, t: nat)
    requires |block| == 16
  {
    |ws| == 16 && forall u | First(t) <= u < First(t) + 16 :: ws[Slot(u)] == W(block, u)
  }

  function First(t: nat): nat {
    if t <= 16 then 0 else t - 16
  }

  function Slot(u: nat): (j: nat)
    ensures j < 16
  {
    u % 16
  }

  lemma SlotsApart(u: nat, i: nat)
    requires u < i < u + 16
    ensures Slot(u) != Slot(i)
  {
  }

  lemma SlotsBack(i: nat)
    requires i >= 16
    ensures (i + 13) % 16 == Slot(i - 3) && (i + 8) % 16 == Slot(i - 8) && (i + 2) % 16 == Slot(i - 14)
    ensures i % 16 == Slot(i - 16) == Slot(i)
  {
  }

  /** blk0 and blk: the word of step i, computed in the place of the one sixteen steps before. */
  method Blk(ws: array<bv32>, i: nat, ghost block: seq<bv32>) returns (word: bv32)
    requires |block| == 16 && Window(ws[..], block, i)
    modifies ws
    ensures word == W(block, i) && Window(ws[..], block, i + 1)
  {
    if i < 16 {
      assert Slot(i) == i;
      word := ws[i];
    } else {
      SlotsBack(i);
      var a, b, c, d := ws[(i + 13) % 16], ws[(i + 8) % 16], ws[(i + 2) % 16], ws[i % 16];
      word := Rol(Xor32(Xor32(Xor32(a, b), c), d), 1);
      ghost var was := ws[..];
      FourBack(was, block, i);
      ws[i % 16] := word;
      NextWindow(was, ws[..], block, i);
    }
  }

  lemma FourBack(ws: seq<bv32>, block: seq<bv32>, i: nat)
    requires |block| == 16 && Window(ws, block, i) && i >= 16
    ensures ws[Slot(i - 3)] == W(block, i - 3) && ws[Slot(i - 8)] == W(block, i - 8)
    ensures ws[Slot(i - 14)] == W(block, i - 14) && ws[Slot(i - 16)] == W(block, i - 16)
  {
    hide W, Slot;
  }

  lemma NextWindow(ws: seq<bv32>, ws': seq<bv32>, block: seq<bv32>, i: nat)
    requires |block| == 16 && Window(ws, block, i) && i >= 16 && ws' == ws[Slot(i) := W(block, i)]
    ensures Window(ws', block, i + 1)
  {
    hide W, Slot;
    forall u | First(i + 1) <= u < First(i + 1) + 16
      ensures ws'[Slot(u)] == W(block, u)
    {
      if u < i {
        SlotsApart(u, i);
      }
    }
  }

  /** R0 to R4: one step, which leaves its results in two of the registers. */
  method Round(ws: array<bv32>, v: bv32, w: bv32, x: bv32, y: bv32, z: bv32, i: nat, ghost block: seq<bv32>)
    returns (w': bv32, z': bv32)
    requires |block| == 16 && Window(ws[..], block, i)
    modifies ws
    ensures Window(ws[..], block, i + 1)
    ensures Step(block, i, Regs(v, w, x, y, z)) == Regs(z', v, w', x, y)
  {
    hide Window, Mixed, F, Sum, Temp, Rol, W;
    var word := Blk(ws, i, block);
    z' := Sum(z, Mixed(i, w, x, y), word, K(i), Rol(v, 5));
    w' := Rol(w, 30);
    MixedIsF(i, w, x, y);
    SumIsTemp(z, F(i, w, x, y), word, K(i), Rol(v, 5));
  }

  /** Five steps, after which the registers have their own names again. */
  method FiveRounds(ws: array<bv32>, s: Regs, i: nat, ghost block: seq<bv32>, ghost s0: Regs) returns (s': Regs)
    requires |block| == 16 && Window(ws[..], block, i) && s == Steps(block, i, s0)
    modifies ws
    ensures Window(ws[..], block, i + 5) && s' == Steps(block, i + 5, s0)
  {
    hide Window, Step, Steps;
    var a, b, c, d, e := s.a, s.b, s.c, s.d, s.e;
    b, e := Round(ws, a, b, c, d, e, i, block);
    OneMore(block, i, s0, Regs(e, a, b, c, d));
    a, d := Round(ws, e, a, b, c, d, i + 1, block);
    OneMore(block, i + 1, s0, Regs(d, e, a, b, c));
    e, c := Round(ws, d, e, a, b, c, i + 2, block);
    OneMore(block, i + 2, s0, Regs(c, d, e, a, b));
    d, b := Round(ws, c, d, e, a, b, i + 3, block);
    OneMore(block, i + 3, s0, Regs(b, c, d, e, a));
    c, a := Round(ws, b, c, d, e, a, i + 4, block);
    OneMore(block, i + 4, s0, Regs(a, b, c, d, e));
    s' := Regs(a, b, c, d, e);
  }

  lemma OneMore(block: seq<bv32>, t: nat, s0: Regs, s': Regs)
    requires |block| == 16 && Step(block, t, Steps(block, t, s0)) == s'
    ensures Steps(block, t + 1, s0) == s'
  {
  }

  /** sha1_transform: for every state and block, the state of section 6.1 of RFC 3174. */
  method Transform(state: seq<bv32>, data: seq<bv8>) returns (state': seq<bv32>)
    requires |state| == 5 && |data| == 64
    ensures state' == Compressed(state, data) && |state'| == 5
  {
    hide Steps, AddBack, Pack, Window;
    ghost var block := BlockWords(data);
    var ws := new bv32[16](i requires 0 <= i < 16 =>
                             Pack(data[4 * i + 3], data[4 * i + 2], data[4 * i + 1], data[4 * i]));
    assert ws[..] == block;
    FirstWindow(block);
    var s := Regs(state[0], state[1], state[2], state[3], state[4]);
    ghost var s0 := s;
    NoSteps(block, s0);
    var i := 0;
    while i < ROUNDS
      invariant 0 <= i <= ROUNDS && i % 5 == 0
      invariant Window(ws[..], block, i) && s == Steps(block, i, s0)
    {
      s := FiveRounds(ws, s, i, block, s0);
      i := i + 5;
    }
    state' := AddBack(state, s);
  }

  lemma FirstWindow(block: seq<bv32>)
    requires |block| == 16
    ensures Window(block, block, 0)
  {
  }

  lemma NoSteps(block: seq<bv32>, s: Regs)
    requires |block| == 16
    ensures Steps(block, 0, s) == s
  {
  }
}
