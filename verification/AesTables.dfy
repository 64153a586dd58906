/** The lookup tables of aes.c, filled once by gen_tabs, against the field and the reference cipher. */
module AesTables {
  import opened ByteValues
  import opened Gf8
  import opened AesSpec
  import opened Words

  /** An unsigned char that holds a number: a logarithm. */
  newtype u8 = i: int | 0 <= i < 256

  function Rotl32(x: bv32, n: nat): bv32
    requires n == 8 || n == 16 || n == 24
  {
    if n == 8 then (x << 8) | (x >> 24) else if n == 16 then (x << 16) | (x >> 16) else (x << 24) | (x >> 8)
  }

  class Tables {
    const powTab: array<bv8>
    const logTab: array<u8>
    const sbxTab: array<bv8>
    const isbTab: array<bv8>
    const rcoTab: array<bv32>
    const ftTab: array2<bv32>
    const itTab: array2<bv32>
    const flTab: array2<bv32>
    const ilTab: array2<bv32>

    constructor ()
      ensures Shapes()
      ensures fresh(powTab) && fresh(logTab) && fresh(sbxTab) && fresh(isbTab) && fresh(rcoTab)
      ensures fresh(ftTab) && fresh(itTab) && fresh(flTab) && fresh(ilTab)
    {
      powTab := new bv8[256];
      logTab := new u8[256];
      sbxTab := new bv8[256];
      isbTab := new bv8[256];
      rcoTab := new bv32[10];
      ftTab := new bv32[4, 256];
      itTab := new bv32[4, 256];
      flTab := new bv32[4, 256];
      ilTab := new bv32[4, 256];
    }

    ghost predicate Shapes() {
      && powTab.Length == 256 && logTab.Length == 256 && sbxTab.Length == 256 && isbTab.Length == 256
      && rcoTab.Length == 10
      && ftTab.Length0 == 4 && itTab.Length0 == 4 && flTab.Length0 == 4 && ilTab.Length0 == 4
      && ftTab.Length1 == 256 && itTab.Length1 == 256 && flTab.Length1 == 256 && ilTab.Length1 == 256
      && powTab as object != logTab && sbxTab as object != logTab && isbTab as object != logTab
      && powTab != sbxTab && powTab != isbTab && sbxTab != isbTab
      && ftTab != itTab && ftTab != flTab && ftTab != ilTab && itTab != flTab && itTab != ilTab && flTab != ilTab
    }

    ghost predicate PowersFilled()
      requires Shapes()
      reads powTab, logTab
    {
      && (forall i | 0 <= i < 256 :: powTab[i] == Pow3(i))
      && (forall k | 0 <= k < 255 :: logTab[Index(Pow3(k))] as int == k)
    }

    ghost predicate RconFilled()
      requires Shapes()
      reads rcoTab
    {
      forall i | 0 <= i < 10 :: rcoTab[i] == Place(0, XPow(i))
    }

    ghost predicate SboxFilled()
      requires Shapes()
      reads sbxTab, isbTab
    {
      forall b: bv8 :: sbxTab[Index(b)] == SBox(b) && isbTab[Index(b)] == InvSBox(b)
    }

    ghost predicate MixFilled()
      requires Shapes()
      reads ftTab, flTab, itTab, ilTab
    {
      && (forall b: bv8, k | 0 <= k < 4 :: ftTab[k, Index(b)] == MixColumn(Place(k, SBox(b))))
      && (forall b: bv8, k | 0 <= k < 4 :: flTab[k, Index(b)] == Place(k, SBox(b)))
      && (forall b: bv8, k | 0 <= k < 4 :: itTab[k, Index(b)] == InvMixColumn(Place(k, InvSBox(b))))
      && (forall b: bv8, k | 0 <= k < 4 :: ilTab[k, Index(b)] == Place(k, InvSBox(b)))
    }

    /** What gen_tabs leaves behind for aes_set_key, aes_encrypt and aes_decrypt. */
    ghost predicate Filled()
      reads rcoTab, ftTab, flTab, itTab, ilTab
    {
      Shapes() && RconFilled() && MixFilled()
    }

    lemma Entries(b: bv8, k: nat)
      requires Filled() && k < 4
      ensures ftTab[k, Index(b)] == MixColumn(Place(k, SBox(b))) && flTab[k, Index(b)] == Place(k, SBox(b))
      ensures itTab[k, Index(b)] == InvMixColumn(Place(k, InvSBox(b))) && ilTab[k, Index(b)] == Place(k, InvSBox(b))
    {
      hide Index, SBox, InvSBox, Place, MixColumn, InvMixColumn, RconFilled;
    }

    /** The log and antilog tables, first loop of gen_tabs. */
    method GenPowers()
      requires Shapes()
      modifies powTab, logTab
      ensures PowersFilled()
    {
      hide Pow3, Step, Index;
      var i, p := 0, 1 as bv8;
      PowStep(0);
      while i < 256
        invariant 0 <= i <= 256 && p == Pow3(i)
        invariant forall j | 0 <= j < i :: powTab[j] == Pow3(j)
        invariant forall k | 1 <= k < i && k < 255 :: logTab[Index(Pow3(k))] as int == k
      {
        powTab[i] := p;
        logTab[Index(p)] := i as u8;
        forall k | 1 <= k < i && k < 255
          ensures logTab[Index(Pow3(k))] as int == k
        {
          LogSlotsDiffer(k, i);
        }
        PowStep(i);
        p := Step(p);
        i := i + 1;
      }
      OneIndex();
      logTab[1] := 0;
      forall k | 1 <= k < 255
        ensures logTab[Index(Pow3(k))] as int == k
      {
        LogSlotsDiffer(k, 255);
      }
    }

    method GenRcon()
      requires Shapes()
      modifies rcoTab
      ensures RconFilled()
    {
      hide Place, XTime;
      var i, p := 0, 1 as bv8;
      while i < 10
        invariant 0 <= i <= 10 && p == XPow(i)
        invariant forall j | 0 <= j < i :: rcoTab[j] == Place(0, XPow(j))
      {
        rcoTab[i] := p as bv32;
        PlaceLow(p);
        p := XTime(p);
        i := i + 1;
      }
    }

    /** The S-box from the log tables, third loop of gen_tabs. */
    method GenSbox()
      requires Shapes() && PowersFilled()
      modifies sbxTab, isbTab
      ensures SboxFilled()
    {
      hide Pow3, Index, ToByte, SBox, InvSBox, AffineSteps;
      var i := 0;
      while i < 256
        invariant 0 <= i <= 256
        invariant PowersFilled()
        invariant forall j | 0 <= j < i :: sbxTab[j] == SBox(ToByte(j)) && isbTab[Index(SBox(ToByte(j)))] == ToByte(j)
      {
        var p: bv8 := 0;
        ToByteZero(i);
        if i != 0 {
          LogTabValue(ToByte(i));
          IndexToByte(i);
          p := powTab[255 - logTab[i] as int];
        }
        InverseFromTable(ToByte(i), p, if i == 0 then 0 else logTab[i] as int);
        p := AffineSteps(p);
        sbxTab[i] := p;
        isbTab[Index(p)] := ToByte(i);
        forall j | 0 <= j < i
          ensures isbTab[Index(SBox(ToByte(j)))] == ToByte(j)
        {
          SBoxSlotsDiffer(j, i);
        }
        i := i + 1;
      }
      forall b: bv8
        ensures sbxTab[Index(b)] == SBox(b) && isbTab[Index(b)] == InvSBox(b)
      {
        ToByteIndex(b);
        SBoxInverse(b);
        ToByteIndex(InvSBox(b));
      }
    }

    /** The round tables, last loop of gen_tabs. */
    method GenMix()
      requires Shapes() && PowersFilled() && SboxFilled()
      modifies ftTab, flTab, itTab, ilTab
      ensures MixFilled()
    {
      hide PowersFilled, MixFilled, Index, ToByte, SBox, InvSBox, ForwardEntry, InverseEntry;
      var i := 0;
      while i < 256
        invariant 0 <= i <= 256
        invariant PowersFilled() && SboxFilled()
        invariant forall j, k | 0 <= j < i && 0 <= k < 4 :: ForwardEntry(j, k)
        invariant forall j, k | 0 <= j < i && 0 <= k < 4 :: InverseEntry(j, k)
      {
        GenForward(i);
        GenInverse(i);
        i := i + 1;
      }
      EntriesFilled();
    }

    ghost predicate ForwardEntry(j: nat, k: nat)
      requires Shapes() && j < 256 && k < 4
      reads ftTab, flTab
    {
      ftTab[k, j] == MixColumn(Place(k, SBox(ToByte(j)))) && flTab[k, j] == Place(k, SBox(ToByte(j)))
    }

    ghost predicate InverseEntry(j: nat, k: nat)
      requires Shapes() && j < 256 && k < 4
      reads itTab, ilTab
    {
      itTab[k, j] == InvMixColumn(Place(k, InvSBox(ToByte(j)))) && ilTab[k, j] == Place(k, InvSBox(ToByte(j)))
    }

    lemma EntriesFilled()
      requires Shapes() && forall j, k | 0 <= j < 256 && 0 <= k < 4 :: ForwardEntry(j, k) && InverseEntry(j, k)
      ensures MixFilled()
    {
      hide Index, ToByte, SBox, InvSBox, Place, MixColumn, InvMixColumn;
      forall b: bv8, k | 0 <= k < 4
        ensures ftTab[k, Index(b)] == MixColumn(Place(k, SBox(b))) && flTab[k, Index(b)] == Place(k, SBox(b))
        ensures itTab[k, Index(b)] == InvMixColumn(Place(k, InvSBox(b))) && ilTab[k, Index(b)] == Place(k, InvSBox(b))
      {
        ToByteIndex(b);
        assert ForwardEntry(Index(b), k) && InverseEntry(Index(b), k);
      }
    }

    method GenForward(i: nat)
      requires Shapes() && PowersFilled() && SboxFilled() && i < 256
      modifies ftTab, flTab
      ensures forall k | 0 <= k < 4 :: ForwardEntry(i, k)
      ensures forall j, k | 0 <= j < 256 && j != i && 0 <= k < 4 :: ForwardEntry(j, k) == old(ForwardEntry(j, k))
    {
      hide PowersFilled, Index, ToByte, SBox, InvSBox, Rotl32, Place, Circulant, OrBytes, Mul;
      IndexToByte(i);
      assert sbxTab[Index(ToByte(i))] == SBox(ToByte(i));
      var p := sbxTab[i];
      PlaceLow(p);
      EntryRotations(p);
      FillEntry(flTab, i, p as bv32);
      var m2 := FFMult(2, p);
      var m3 := FFMult(3, p);
      OrIsPack(m2, p, p, m3);
      CirculantPlace(2, 3, 1, 1, p);
      MulSmall(p);
      MixRotations(2, 3, 1, 1, p);
      FillEntry(ftTab, i, OrBytes(m2, p, p, m3));
    }

    method GenInverse(i: nat)
      requires Shapes() && PowersFilled() && SboxFilled() && i < 256
      modifies itTab, ilTab
      ensures forall k | 0 <= k < 4 :: InverseEntry(i, k)
      ensures forall j, k | 0 <= j < 256 && j != i && 0 <= k < 4 :: InverseEntry(j, k) == old(InverseEntry(j, k))
    {
      hide PowersFilled, Index, ToByte, SBox, InvSBox, Rotl32, Place, Circulant, OrBytes, Mul;
      IndexToByte(i);
      assert isbTab[Index(ToByte(i))] == InvSBox(ToByte(i));
      var p := isbTab[i];
      PlaceLow(p);
      EntryRotations(p);
      FillEntry(ilTab, i, p as bv32);
      var m14 := FFMult(14, p);
      var m9 := FFMult(9, p);
      var m13 := FFMult(13, p);
      var m11 := FFMult(11, p);
      OrIsPack(m14, m9, m13, m11);
      CirculantPlace(14, 11, 13, 9, p);
      MixRotations(14, 11, 13, 9, p);
      FillEntry(itTab, i, OrBytes(m14, m9, m13, m11));
    }

    /** gen_tabs. */
    method GenTabs()
      requires Shapes()
      modifies powTab, logTab, sbxTab, isbTab, rcoTab, ftTab, flTab, itTab, ilTab
      ensures Filled()
      ensures rcoTab[..] == [0x01, 0x02, 0x04, 0x08, 0x10, 0x20, 0x40, 0x80, 0x1b, 0x36]
    {
      GenPowers();
      GenRcon();
      GenSbox();
      GenMix();
      hide Place, XPow, MixFilled;
      forall j | 0 <= j < 10
        ensures rcoTab[j] == RCON[j]
      {
        RoundConstants(j);
      }
    }

    /** The product of two nonzero bytes by adding logarithms modulo 255: u8 addition with the carry added back. */
    method FMult(a: bv8, b: bv8) returns (r: bv8)
      requires Shapes() && PowersFilled()
      requires a != 0 && b != 0
      ensures r == Mul(a, b)
    {
      hide Pow3, Index, Mul;
      LogTabValue(a);
      LogTabValue(b);
      var aa := logTab[Index(a)] as int;
      var cc := (aa + logTab[Index(b)] as int) % 256;
      LogSum(aa, logTab[Index(b)] as int);
      r := powTab[cc + if cc < aa then 1 else 0];
    }

    method FFMult(a: bv8, b: bv8) returns (r: bv8)
      requires Shapes() && PowersFilled()
      ensures r == Mul(a, b)
    {
      hide Mul, PowersFilled;
      MulByZero(a);
      MulCommutes(a, b);
      MulByZero(b);
      if a != 0 && b != 0 {
        r := FMult(a, b);
      } else {
        r := 0;
      }
    }

    lemma LogTabValue(b: bv8)
      requires Shapes() && PowersFilled()
      requires b != 0
      ensures logTab[Index(b)] as int < 255 && Pow3(logTab[Index(b)] as int) == b
    {
      hide Pow3, Index;
      var k := Log(b);
      assert logTab[Index(Pow3(k))] as int == k;
    }
  }

  /** The exponent the u8 sum and its carry select: the sum of the logarithms, less 255 when it reaches 256. */
  lemma LogSum(i: nat, j: nat)
    requires i < 255 && j < 255
    ensures var c := (i + j) % 256; var n := c + if c < i then 1 else 0; n < 256 && Pow3(n) == Mul(Pow3(i), Pow3(j))
  {
    hide Pow3, Mul;
    PowAdd(i, j);
    if i + j >= 256 {
      PowDivisors();
      PowAdd(255, i + j - 255);
      MulSmall(Pow3(i + j - 255));
    }
  }

  /** One entry of a round table and its three rotations. */
  method FillEntry(tab: array2<bv32>, i: nat, t: bv32)
    requires tab.Length0 == 4 && tab.Length1 == 256 && i < 256
    modifies tab
    ensures tab[0, i] == t && tab[1, i] == Rotl32(t, 8) && tab[2, i] == Rotl32(t, 16) && tab[3, i] == Rotl32(t, 24)
    ensures forall k, j | 0 <= k < 4 && 0 <= j < 256 && j != i :: tab[k, j] == old(tab[k, j])
  {
    hide *;
    tab[0, i] := t;
    tab[1, i] := Rotl32(t, 8);
    tab[2, i] := Rotl32(t, 16);
    tab[3, i] := Rotl32(t, 24);
  }

  lemma RotateIsRotl(w: bv32)
    ensures RotateBytes(w) == Rotl32(w, 8)
  {
  }

  lemma RotlSteps(w: bv32)
    ensures Rotl32(Rotl32(w, 8), 8) == Rotl32(w, 16) && Rotl32(Rotl32(w, 16), 8) == Rotl32(w, 24)
  {
  }

  lemma EntryRotations(b: bv8)
    ensures Rotl32(Place(0, b), 8) == Place(1, b) && Rotl32(Place(0, b), 16) == Place(2, b)
    ensures Rotl32(Place(0, b), 24) == Place(3, b)
  {
    hide *;
    RotlSteps(Place(0, b));
    PlaceRotates(b);
    RotateIsRotl(Place(0, b)); RotateIsRotl(Place(1, b)); RotateIsRotl(Place(2, b));
  }

  lemma MixRotations(m0: bv8, m1: bv8, m2: bv8, m3: bv8, b: bv8)
    ensures var t := Circulant(m0, m1, m2, m3, Place(0, b));
            && Rotl32(t, 8) == Circulant(m0, m1, m2, m3, Place(1, b))
            && Rotl32(t, 16) == Circulant(m0, m1, m2, m3, Place(2, b))
            && Rotl32(t, 24) == Circulant(m0, m1, m2, m3, Place(3, b))
  {
    hide *;
    var t := Circulant(m0, m1, m2, m3, Place(0, b));
    RotlSteps(t);
    PlaceRotates(b);
    RotateIsRotl(t); RotateIsRotl(Rotl32(t, 8)); RotateIsRotl(Rotl32(t, 16));
    CirculantRotate(m0, m1, m2, m3, Place(0, b));
    CirculantRotate(m0, m1, m2, m3, Place(1, b));
    CirculantRotate(m0, m1, m2, m3, Place(2, b));
  }

  lemma PlaceLow(p: bv8)
    ensures Place(0, p) == p as bv32
  {
  }

  /** The shifts and sums that turn an inverse into an S-box entry. */
  function AffineSteps(p: bv8): (r: bv8)
    ensures r == Affine(p)
  {
    var q := ((p >> 7) | (p << 1)) ^ ((p >> 6) | (p << 2));
    p ^ 0x63 ^ q ^ ((q >> 6) | (q << 2))
  }

  lemma InverseFromTable(b: bv8, p: bv8, k: nat)
    requires k < 255
    requires if b == 0 then p == 0 else Pow3(k) == b && p == Pow3(255 - k)
    ensures AffineSteps(p) == SBox(b)
  {
    hide Pow3, AffineSteps, Affine;
    if b != 0 {
      InverseByLog(b, k);
    }
    InverseUnique(b, p);
  }

  lemma SBoxSlotsDiffer(j: nat, i: nat)
    requires j < i < 256
    ensures Index(SBox(ToByte(j))) != Index(SBox(ToByte(i)))
  {
    hide *;
    if Index(SBox(ToByte(j))) == Index(SBox(ToByte(i))) {
      IndexInjective(SBox(ToByte(j)), SBox(ToByte(i)));
      SBoxInverse(ToByte(j)); SBoxInverse(ToByte(i));
      IndexToByte(j); IndexToByte(i);
    }
  }

  lemma PowStep(i: nat)
    ensures Pow3(0) == 1 && Pow3(i + 1) == Step(Pow3(i))
  {
    hide Step;
  }

  lemma OneIndex()
    ensures Index(1) == 1 && Index(Pow3(0)) == 1 && Index(Pow3(255)) == 1
  {
    assert Index(1) == 1;
    hide *;
    PowDivisors();
    PowSmall();
  }

  function Step(p: bv8): (q: bv8)
    ensures q == Mul3(p)
  {
    p ^ (p << 1) ^ (if p & 0x80 != 0 then 0x1b else 0)
  }

  lemma LogSlotsDiffer(k: nat, i: nat)
    requires 1 <= k < i <= 255
    ensures Index(Pow3(k)) != Index(Pow3(i))
  {
    hide *;
    if Index(Pow3(k)) == Index(Pow3(i)) {
      IndexInjective(Pow3(k), Pow3(i));
      PowDivisors();
      PowSmall();
      PowInjective(k, if i == 255 then 0 else i);
    }
  }
}
