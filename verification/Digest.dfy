/** crypto/digest.c: feeding scatterlists to a digest. A digest algorithm is its hash function: its context stands for
    the bytes fed since init, as the modules of the single algorithms show of theirs. */
module Digest {
  import opened ScatterWalk
  import opened Streaming

  /** The bytes a list of segments names. */
  function Contents(m: Bytes, sg: seq<Segment>): Bytes
    requires InMemory(Addrs(sg), |m|)
  {
    Gather(m, Addrs(sg))
  }

  lemma {:induction false} AddrsMore(sg: seq<Segment>, i: nat)
    requires i < |sg|
    ensures Addrs(sg[..i + 1]) == Addrs(sg[..i]) + Range(Addr(sg[i].page, sg[i].offset), sg[i].length)
    decreases i
  {
    if i == 0 {
      assert sg[..1] == [sg[0]] && sg[..0] == [] && [sg[0]][1..] == [];
      assert Addrs([]) == [];
    } else {
      AddrsMore(sg[1..], i - 1);
      assert sg[..i + 1][1..] == sg[1..][..i] && sg[..i][1..] == sg[1..][..i - 1];
    }
  }

  lemma ContentsMore(m: Bytes, sg: seq<Segment>, i: nat)
    requires i < |sg| && ListOk(sg, |m|)
    ensures InMemory(Addrs(sg[..i]), |m|) && InMemory(Addrs(sg[..i + 1]), |m|) && sg[i].offset < PAGE_SIZE
    ensures var a := Addr(sg[i].page, sg[i].offset);
            a + sg[i].length <= |m| && Contents(m, sg[..i + 1]) == Contents(m, sg[..i]) + m[a..a + sg[i].length]
  {
    AddrsInMemory(sg[..i], |m|);
    AddrsInMemory(sg[..i + 1], |m|);
    AddrsMore(sg, i);
    hide Addrs;
  }

  lemma Regroup(a: Bytes, b: Bytes, c: Bytes)
    ensures a + b + c == a + (b + c)
  {
  }

  lemma Slices(m: Bytes, before: Bytes, a: nat, p: nat, k: nat)
    requires a <= p && p + k <= |m|
    ensures before + m[a..p] + m[p..p + k] == before + m[a..p + k]
  {
    assert m[a..p] + m[p..p + k] == m[a..p + k];
  }

  /** Whether a context has been initialised since its last final, and else what that was the final of. */
  datatype Last = Fresh | After(m: Bytes)

  /** struct crypto_tfm with a digest. msg and last are the context: what has been fed since init or, without one, since
      the last final. hash is the digest of an initialised context; spent that of one which a final over the first
      argument has left, fed the second: most algorithms wipe it, some leave it as it is. */
  class DigestTfm {
    const hash: Bytes -> Bytes
    const spent: (Bytes, Bytes) -> Bytes
    const blockSize: nat
    const digestSize: nat
    var msg: Bytes
    var last: Last

    constructor (hash: Bytes -> Bytes, spent: (Bytes, Bytes) -> Bytes, blockSize: nat, digestSize: nat)
      ensures this.hash == hash && this.spent == spent && this.blockSize == blockSize && this.digestSize == digestSize
    {
      this.hash, this.spent, this.blockSize, this.digestSize := hash, spent, blockSize, digestSize;
    }

    /** What final would put out. */
    function Result(): Bytes
      reads this
    {
      if last.Fresh? then hash(msg) else spent(last.m, msg)
    }

    /** dia_init, dia_update and dia_final. */
    method Init()
      modifies this
      ensures msg == [] && last.Fresh?
    {
      msg, last := [], Fresh;
    }

    method Feed(data: Bytes)
      modifies this`msg
      ensures msg == old(msg) + data
    {
      msg := msg + data;
    }

    /** The call of dia_update in update, which has one page mapped and must keep to it. */
    method FeedPage(mem: array<bv8>, pg: nat, offset: nat, n: nat)
      requires offset + n <= PAGE_SIZE && Addr(pg, offset) + n <= mem.Length
      modifies this`msg
      ensures msg == old(msg) + mem[Addr(pg, offset)..Addr(pg, offset) + n]
    {
      Feed(mem[Addr(pg, offset)..Addr(pg, offset) + n]);
    }

    /** The loop over the pages of a segment in update. */
    method UpdateSegment(mem: array<bv8>, s: Segment, ghost data: Bytes)
      requires s.offset < PAGE_SIZE && Addr(s.page, s.offset) + s.length <= mem.Length
      requires data == mem[Addr(s.page, s.offset)..Addr(s.page, s.offset) + s.length]
      modifies this`msg
      ensures msg == old(msg) + data
    {
      ghost var a, m, msg0 := Addr(s.page, s.offset), mem[..], msg;
      var pg: nat, offset: nat, l: nat := s.page, s.offset, s.length;
      assert m[a..a] == [];
      while true
        invariant offset < PAGE_SIZE && l <= s.length && Addr(pg, offset) + l == a + s.length
        invariant l == 0 ==> l == s.length
        invariant mem[..] == m && msg == msg0 + m[a..Addr(pg, offset)]
        decreases l
      {
        var fromPage := if l < PAGE_SIZE - offset then l else PAGE_SIZE - offset;
        var p := Addr(pg, offset);
        FeedPage(mem, pg, offset, fromPage);
        Slices(m, msg0, a, p, fromPage);
        offset := 0;
        pg := pg + 1;
        l := l - fromPage;
        if l == 0 {
          return;
        }
      }
    }

    /** update: the digest is fed the bytes of the list, whatever its segments and pages. */
    method Update(mem: array<bv8>, sg: seq<Segment>)
      requires ListOk(sg, mem.Length)
      modifies this`msg
      ensures InMemory(Addrs(sg), mem.Length) && msg == old(msg) + Contents(mem[..], sg)
    {
      AddrsInMemory(sg, mem.Length);
      ghost var m, msg0 := mem[..], msg;
      assert InMemory(Addrs(sg), mem.Length);
      hide Addrs, Contents, InMemory, ListOk, Addr;
      assert sg[..|sg|] == sg;
      NoContents(m, sg);
      for i := 0 to |sg|
        invariant mem[..] == m && InMemory(Addrs(sg[..i]), |m|)
        invariant msg == msg0 + Contents(m, sg[..i])
      {
        ContentsMore(m, sg, i);
        ghost var a, was := Addr(sg[i].page, sg[i].offset), Contents(m, sg[..i]);
        UpdateSegment(mem, sg[i], m[a..a + sg[i].length]);
        Regroup(msg0, was, m[a..a + sg[i].length]);
      }
    }

    /** final: the digest is written to memory and the context is spent. */
    method Final(mem: array<bv8>, outAt: nat)
      requires |Result()| == digestSize && outAt + digestSize <= mem.Length
      modifies this, mem
      ensures mem[..] == Written(old(mem[..]), outAt, old(Result()))
      ensures msg == [] && last == After(old(msg))
    {
      var d := Result();
      forall i | 0 <= i < |d| {
        mem[outAt + i] := d[i];
      }
      msg, last := [], After(msg);
    }

    /** digest: init, update and final in one, over segments that are contiguous in kernel memory. */
    method Digest(mem: array<bv8>, sg: seq<Segment>, outAt: nat)
      requires ListOk(sg, mem.Length) && outAt + digestSize <= mem.Length && forall x :: |hash(x)| == digestSize
      modifies this, mem
      ensures InMemory(Addrs(sg), mem.Length)
      ensures mem[..] == Written(old(mem[..]), outAt, hash(Contents(old(mem[..]), sg)))
      ensures msg == [] && last == After(Contents(old(mem[..]), sg))
    {
      AddrsInMemory(sg, mem.Length);
      ghost var m := mem[..];
      assert InMemory(Addrs(sg), mem.Length);
      hide Addrs, Contents, InMemory, ListOk, Addr;
      Init();
      assert sg[..|sg|] == sg;
      NoContents(m, sg);
      for i := 0 to |sg|
        invariant mem[..] == m && InMemory(Addrs(sg[..i]), |m|)
        invariant msg == Contents(m, sg[..i]) && last.Fresh?
      {
        ContentsMore(m, sg, i);
        var p := Addr(sg[i].page, sg[i].offset);
        Feed(mem[p..p + sg[i].length]);
      }
      Final(mem, outAt);
    }
  }

  /** Memory after data has been written at an address. */
  function Written(m: Bytes, at: nat, data: Bytes): (m': Bytes)
    requires at + |data| <= |m|
    ensures |m'| == |m|
  {
    m[..at] + data + m[at + |data|..]
  }

  lemma NoContents(m: Bytes, sg: seq<Segment>)
    ensures InMemory(Addrs(sg[..0]), |m|) && Contents(m, sg[..0]) == []
  {
    assert sg[..0] == [];
  }
}
