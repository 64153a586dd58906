/** Bytes and the numbers they stand for. */
module ByteValues {
  /** A byte as a table index, and the byte with a given value. */
  function Index(b: bv8): (i: nat)
    ensures i < 256
  {
    b as nat
  }

  function ToByte(i: nat): bv8
    requires i < 256
  {
    i as bv8
  }

  lemma NextValue(b: bv8)
    requires b != 255
    ensures Index(b + 1) == Index(b) + 1
  {
  }

  /** There is a byte with every value below 256. */
  lemma {:induction false} ByteWith(i: nat) returns (b: bv8)
    requires i < 256
    ensures Index(b) == i
  {
    if i == 0 {
      b := 0;
    } else {
      b := ByteWith(i - 1);
      assert Index(255) == 255;
      NextValue(b);
      b := b + 1;
    }
  }

  lemma IndexToByte(i: nat)
    requires i < 256
    ensures Index(ToByte(i)) == i
  {
    hide Index, ToByte;
    var b := ByteWith(i);
    ToByteIndex(b);
  }

  lemma ToByteZero(i: nat)
    requires i < 256
    ensures ToByte(i) == 0 <==> i == 0
  {
    assert Index(0) == 0;
    hide *;
    IndexToByte(i);
    IndexToByte(0);
    ToByteIndex(0);
  }

  lemma ToByteIndex(b: bv8)
    ensures ToByte(Index(b)) == b
  {
  }

  lemma IndexInjective(a: bv8, b: bv8)
    requires Index(a) == Index(b)
    ensures a == b
  {
    hide *;
    ToByteIndex(a);
    ToByteIndex(b);
  }
}
