/** scatterwalk.c and scatterwalk.h: a cursor over a scatterlist, moving segment by segment and page by page.
    Memory is one array of whole pages; page p and offset o name address p * PAGE_SIZE + o, and the pages of a segment
    that runs over a page end follow each other, as walk->page++ takes them. */
module ScatterWalk {
  const PAGE_SIZE: nat := 4096

  /** struct scatterlist. */
  datatype Segment = Segment(page: nat, offset: nat, length: nat)

  function Addr(page: nat, offset: nat): nat {
    page * PAGE_SIZE + offset
  }

  function Range(a: nat, n: nat): (r: seq<nat>)
    ensures |r| == n && forall i | 0 <= i < n :: r[i] == a + i
  {
    seq(n, i requires 0 <= i => a + i)
  }

  /** The addresses a list of segments names, in order. */
  function Addrs(segs: seq<Segment>): seq<nat> {
    if segs == [] then [] else Range(Addr(segs[0].page, segs[0].offset), segs[0].length) + Addrs(segs[1..])
  }

  /** What the callers of the walk promise of a list: every segment starts inside its first page and lies in memory. */
  predicate ListOk(segs: seq<Segment>, size: nat) {
    && size % PAGE_SIZE == 0
    && forall i | 0 <= i < |segs| ::
         segs[i].offset < PAGE_SIZE && Addr(segs[i].page, segs[i].offset) + segs[i].length <= size
  }

  predicate InMemory(addrs: seq<nat>, size: nat) {
    forall i | 0 <= i < |addrs| :: addrs[i] < size
  }

  function Gather(m: seq<bv8>, addrs: seq<nat>): (d: seq<bv8>)
    requires forall i | 0 <= i < |addrs| :: addrs[i] < |m|
    ensures |d| == |addrs| && forall i | 0 <= i < |d| :: d[i] == m[addrs[i]]
  {
    seq(|addrs|, i requires 0 <= i < |addrs| => m[addrs[i]])
  }

  predicate Distinct(addrs: seq<nat>) {
    forall i, j | 0 <= i < j < |addrs| :: addrs[i] != addrs[j]
  }

  /** m' is m with data written to the addresses addrs and nothing else changed. */
  ghost predicate Scattered(m: seq<bv8>, m': seq<bv8>, addrs: seq<nat>, data: seq<bv8>) {
    && |m'| == |m| && |data| == |addrs|
    && (forall i | 0 <= i < |addrs| :: addrs[i] < |m| && m'[addrs[i]] == data[i])
    && (forall a | 0 <= a < |m| && a !in addrs :: m'[a] == m[a])
  }

  /** How far copychunks has come: pos bytes of buf are in memory, or pos bytes of memory are in buf. */
  ghost predicate Copied(out: bool, m0: seq<bv8>, m: seq<bv8>, b0: seq<bv8>, b: seq<bv8>, addrs: seq<nat>, pos: nat) {
    && pos <= |addrs| == |b0| && (forall i | 0 <= i < |addrs| :: addrs[i] < |m0|)
    && if out then b == b0 && Distinct(addrs) && Scattered(m0, m, addrs[..pos], b0[..pos])
       else m == m0 && b == Gather(m0, addrs[..pos]) + b0[pos..]
  }

  lemma CopiedSizes(out: bool, m0: seq<bv8>, m: seq<bv8>, b0: seq<bv8>, b: seq<bv8>, addrs: seq<nat>, pos: nat)
    requires Copied(out, m0, m, b0, b, addrs, pos)
    ensures |b| == |b0| == |addrs| && |m| == |m0|
  {
  }

  lemma CopiedMore(out: bool, m0: seq<bv8>, m1: seq<bv8>, m2: seq<bv8>, b0: seq<bv8>, b1: seq<bv8>, b2: seq<bv8>,
                   addrs: seq<nat>, pos: nat, a: nat, k: nat)
    requires Copied(out, m0, m1, b0, b1, addrs, pos)
    requires pos + k <= |addrs| == |b1| && addrs[pos..pos + k] == Range(a, k) && a + k <= |m0| == |m1|
    requires if out then b2 == b1 && m2 == m1[..a] + b2[pos..pos + k] + m1[a + k..]
             else m2 == m1 && b2 == b1[..pos] + m2[a..a + k] + b1[pos + k..]
    ensures Copied(out, m0, m2, b0, b2, addrs, pos + k)
  {
    if out {
      ScatterMore(m0, m1, m2, addrs, b0, pos, a, k);
    } else {
      GatherMore(m0, b0, b1, b2, addrs, pos, a, k);
    }
  }

  lemma NothingCopied(out: bool, m0: seq<bv8>, b0: seq<bv8>, addrs: seq<nat>)
    requires |addrs| == |b0| && (forall i | 0 <= i < |addrs| :: addrs[i] < |m0|) && (out ==> Distinct(addrs))
    ensures Copied(out, m0, m0, b0, b0, addrs, 0)
  {
  }

  lemma CopiedAll(out: bool, m0: seq<bv8>, m: seq<bv8>, b0: seq<bv8>, b: seq<bv8>, addrs: seq<nat>)
    requires Copied(out, m0, m, b0, b, addrs, |addrs|)
    ensures if out then b == b0 && Scattered(m0, m, addrs, b) else m == m0 && b == Gather(m0, addrs)
  {
    assert addrs[..|addrs|] == addrs && b0[..|addrs|] == b0;
  }

  /** memcpy_dir between a buffer and bytes of one mapped page. */
  method MemcpyDir(buf: array<bv8>, pos: nat, mem: array<bv8>, a: nat, k: nat, out: bool)
    requires mem != buf && pos + k <= buf.Length && a + k <= mem.Length
    requires k == 0 || a % PAGE_SIZE + k <= PAGE_SIZE
    modifies buf, mem
    ensures out ==> buf[..] == old(buf[..])
    ensures out ==> mem[..] == old(mem[..a]) + buf[pos..pos + k] + old(mem[a + k..])
    ensures !out ==> mem[..] == old(mem[..])
    ensures !out ==> buf[..] == old(buf[..pos]) + mem[a..a + k] + old(buf[pos + k..])
  {
    if out {
      forall i | 0 <= i < k {
        mem[a + i] := buf[pos + i];
      }
    } else {
      forall i | 0 <= i < k {
        buf[pos + i] := mem[a + i];
      }
    }
  }

  lemma RangeMember(a: nat, k: nat, x: nat)
    ensures x in Range(a, k) <==> a <= x < a + k
  {
    if a <= x < a + k {
      assert Range(a, k)[x - a] == x;
    }
  }

  lemma ScatterMore(m0: seq<bv8>, m1: seq<bv8>, m2: seq<bv8>, addrs: seq<nat>, data: seq<bv8>, pos: nat, a: nat, k: nat)
    requires pos + k <= |addrs| && |addrs| == |data|
    requires Scattered(m0, m1, addrs[..pos], data[..pos]) && Distinct(addrs)
    requires addrs[pos..pos + k] == Range(a, k) && a + k <= |m0|
    requires m2 == m1[..a] + data[pos..pos + k] + m1[a + k..]
    ensures Scattered(m0, m2, addrs[..pos + k], data[..pos + k])
  {
    forall i | 0 <= i < pos + k
      ensures addrs[i] < |m0| && m2[addrs[i]] == data[i]
    {
      if i < pos {
        assert addrs[..pos][i] == addrs[i] && data[..pos][i] == data[i];
        assert addrs[i] !in addrs[pos..pos + k];
        RangeMember(a, k, addrs[i]);
      } else {
        assert addrs[i] == addrs[pos..pos + k][i - pos];
      }
    }
    forall b | 0 <= b < |m0| && b !in addrs[..pos + k]
      ensures m2[b] == m0[b]
    {
      assert addrs[..pos + k] == addrs[..pos] + addrs[pos..pos + k];
      RangeMember(a, k, b);
    }
  }

  lemma GatherMore(m: seq<bv8>, b0: seq<bv8>, b1: seq<bv8>, b2: seq<bv8>, addrs: seq<nat>, pos: nat, a: nat, k: nat)
    requires forall i | 0 <= i < |addrs| :: addrs[i] < |m|
    requires pos + k <= |addrs| <= |b0|
    requires b1 == Gather(m, addrs[..pos]) + b0[pos..]
    requires addrs[pos..pos + k] == Range(a, k) && a + k <= |m|
    requires b2 == b1[..pos] + m[a..a + k] + b1[pos + k..]
    ensures b2 == Gather(m, addrs[..pos + k]) + b0[pos + k..]
  {
    forall i | pos <= i < pos + k
      ensures b2[i] == m[addrs[i]]
    {
      assert addrs[pos..pos + k][i - pos] == addrs[i];
    }
  }

  lemma RangeSplit(a: nat, n: nat, k: nat)
    requires k <= n
    ensures Range(a, n)[..k] == Range(a, k) && Range(a, n)[k..] == Range(a + k, n - k)
  {
  }

  lemma {:induction false} AddrsInMemory(segs: seq<Segment>, size: nat)
    requires ListOk(segs, size)
    ensures forall i | 0 <= i < |Addrs(segs)| :: Addrs(segs)[i] < size
  {
    if segs != [] {
      AddrsInMemory(segs[1..], size);
    }
  }

  /** struct scatter_walk. */
  class Walk {
    const segs: seq<Segment>
    var sg: nat
    var page: nat
    var data: nat
    var lenThisPage: nat
    var lenThisSegment: nat
    var offset: nat

    constructor (segs: seq<Segment>, size: nat)
      requires ListOk(segs, size) && |segs| > 0
      ensures this.segs == segs && Valid(size) && Rest() == Addrs(segs)
    {
      this.segs := segs;
      sg, page, data, lenThisPage, lenThisSegment, offset := 0, 0, 0, 0, 0, 0;
      new;
      Start(0, size);
      assert segs[0..] == segs;
    }

    ghost predicate Valid(size: nat)
      reads this`sg, this`page, this`offset, this`lenThisPage, this`lenThisSegment
      ensures Valid(size) ==> sg < |segs|
    {
      && ListOk(segs, size)
      && sg < |segs|
      && lenThisPage <= lenThisSegment
      && offset + lenThisPage <= PAGE_SIZE
      && (lenThisPage < lenThisSegment ==> offset + lenThisPage == PAGE_SIZE)
      && Addr(page, offset) + lenThisSegment <= size
    }

    /** The addresses the walk has still to visit. */
    ghost function Rest(): seq<nat>
      requires sg < |segs|
      reads this`sg, this`page, this`offset, this`lenThisSegment
    {
      Range(Addr(page, offset), lenThisSegment) + Addrs(segs[sg + 1..])
    }

    /** scatterwalk_start. */
    method Start(k: nat, ghost size: nat)
      requires ListOk(segs, size) && k < |segs|
      modifies this`sg, this`page, this`lenThisPage, this`lenThisSegment, this`offset
      ensures Valid(size) && sg == k && Rest() == Addrs(segs[k..])
    {
      sg := k;
      page := segs[k].page;
      lenThisSegment := segs[k].length;
      var restOfPage := PAGE_SIZE - segs[k].offset % PAGE_SIZE;
      lenThisPage := if segs[k].length < restOfPage then segs[k].length else restOfPage;
      offset := segs[k].offset;
      assert segs[k..][0] == segs[k] && segs[k..][1..] == segs[k + 1..];
    }

    /** scatterwalk_map: the address through which the current page is reached. */
    method Map()
      modifies this`data
      ensures data == Addr(page, offset)
    {
      data := Addr(page, offset);
    }

    /** scatterwalk_whichbuf: whether n bytes can be used where they are. */
    predicate Direct(n: nat)
      reads this
    {
      n <= lenThisPage && data % PAGE_SIZE + n <= PAGE_SIZE
    }

    /** scatterwalk_pagedone, after lenThisPage bytes of the page have been used: goes on with the next page of the
        segment, or with the next segment. */
    method PageDone(more: nat, ghost size: nat)
      requires Valid(size)
      requires more > 0 ==> |Rest()| > lenThisPage
      modifies this
      ensures Valid(size) && data == old(data)
      ensures more > 0 ==> Rest() == old(Rest())[old(lenThisPage)..]
      ensures more > 0 ==> sg > old(sg) ||
                           (sg == old(sg) && lenThisPage > 0 && lenThisSegment == old(lenThisSegment - lenThisPage))
      ensures more == 0 ==> Rest() == old(Rest())
    {
      if more > 0 {
        ghost var rest := Rest();
        RangeSplit(Addr(page, offset), lenThisSegment, lenThisPage);
        ghost var tail := Addrs(segs[sg + 1..]);
        assert rest[lenThisPage..] == Range(Addr(page, offset), lenThisSegment)[lenThisPage..] + tail;
        lenThisSegment := lenThisSegment - lenThisPage;
        if lenThisSegment != 0 {
          page := page + 1;
          lenThisPage := if lenThisSegment < PAGE_SIZE then lenThisSegment else PAGE_SIZE;
          offset := 0;
        } else {
          assert |tail| > 0;
          Start(sg + 1, size);
        }
      }
    }

    /** scatterwalk_done: no byte is lost, and with more to come the walk does not stay at the end of a page. */
    method Done(more: nat, ghost size: nat)
      requires Valid(size)
      requires more > 0 ==> |Rest()| > 0
      modifies this
      ensures Valid(size) && Rest() == old(Rest())
      ensures more > 0 ==> lenThisPage > 0 || sg > old(sg)
    {
      if lenThisPage == 0 || more == 0 {
        PageDone(more, size);
      }
    }

    /** One memcpy_dir of copychunks: k more bytes of the page the walk is at. */
    method CopyPage(mem: array<bv8>, buf: array<bv8>, pos: nat, k: nat, out: bool, ghost addrs: seq<nat>,
                    ghost rest: seq<nat>, ghost mem0: seq<bv8>, ghost buf0: seq<bv8>)
      requires Valid(mem.Length) && data == Addr(page, offset) && mem != buf && mem.Length == |mem0|
      requires k <= lenThisPage && pos + k <= |addrs| && addrs <= rest && Rest() == rest[pos..]
      requires Copied(out, mem0, mem[..], buf0, buf[..], addrs, pos)
      modifies mem, buf
      ensures Copied(out, mem0, mem[..], buf0, buf[..], addrs, pos + k)
    {
      ghost var m1, b1 := mem[..], buf[..];
      RangeSplit(Addr(page, offset), lenThisSegment, k);
      assert addrs[pos..pos + k] == Rest()[..k] == Range(data, k);
      CopiedSizes(out, mem0, m1, buf0, b1, addrs, pos);
      hide Copied, Addrs;
      MemcpyDir(buf, pos, mem, data, k, out);
      CopiedMore(out, mem0, m1, mem[..], buf0, b1, buf[..], addrs, pos, data, k);
    }

    /** scatterwalk_copychunks: moves n bytes between buf and addrs, the next n bytes of the list, or, when the bytes
        are used in place, only steps over them. */
    method CopyChunks(mem: array<bv8>, buf: array<bv8>, n: nat, out: bool, direct: bool, ghost addrs: seq<nat>)
      requires Valid(mem.Length) && data == Addr(page, offset)
      requires mem != buf && buf.Length == n && |addrs| == n && addrs <= Rest()
      requires direct ==> n <= lenThisPage
      requires forall i | 0 <= i < n :: addrs[i] < mem.Length
      requires out ==> Distinct(addrs)
      modifies this, mem, buf
      ensures Valid(mem.Length) && old(Rest()) == addrs + Rest()
      ensures direct || !out ==> mem[..] == old(mem[..])
      ensures direct || out ==> buf[..] == old(buf[..])
      ensures !direct && !out ==> buf[..] == Gather(old(mem[..]), addrs)
      ensures !direct && out ==> Scattered(old(mem[..]), mem[..], addrs, buf[..])
    {
      hide Rest, ListOk, Scattered, Gather, Copied, Distinct;
      ghost var rest, mem0, buf0 := Rest(), mem[..], buf[..];
      var left := n;
      if !direct {
        NothingCopied(out, mem0, buf0, addrs);
        left := CopyLoop(mem, buf, n, out, addrs, rest, mem0, buf0);
        CopiedAll(out, mem0, mem[..], buf0, buf[..], addrs);
      }
      Skip(left, mem.Length);
      assert rest == addrs + rest[n..];
    }

    method CopyLoop(mem: array<bv8>, buf: array<bv8>, n: nat, out: bool, ghost addrs: seq<nat>, ghost rest: seq<nat>,
                    ghost mem0: seq<bv8>, ghost buf0: seq<bv8>) returns (left: nat)
      requires Valid(mem.Length) && data == Addr(page, offset) && mem != buf && mem.Length == |mem0|
      requires |addrs| == n && addrs <= rest && Rest() == rest
      requires Copied(out, mem0, mem[..], buf0, buf[..], addrs, 0)
      modifies this, mem, buf
      ensures Valid(mem.Length) && left <= n && left <= lenThisPage && Rest() == rest[n - left..]
      ensures Copied(out, mem0, mem[..], buf0, buf[..], addrs, n)
    {
      hide Rest, ListOk, Copied;
      var pos := 0;
      left := n;
      while left > lenThisPage
        invariant 0 <= pos && pos + left == n
        invariant Valid(mem.Length) && data == Addr(page, offset) && Rest() == rest[pos..]
        invariant Copied(out, mem0, mem[..], buf0, buf[..], addrs, pos)
        decreases |segs| - sg, lenThisSegment, if lenThisPage == 0 then 1 else 0
      {
        CopyPage(mem, buf, pos, lenThisPage, out, addrs, rest, mem0, buf0);
        pos := pos + lenThisPage;
        left := left - lenThisPage;
        PageDone(1, mem.Length);
        Map();
      }
      CopyPage(mem, buf, pos, left, out, addrs, rest, mem0, buf0);
    }

    /** The tail of copychunks. */
    method Skip(k: nat, ghost size: nat)
      requires Valid(size) && k <= lenThisPage
      modifies this
      ensures Valid(size) && Rest() == old(Rest())[k..]
    {
      RangeSplit(Addr(page, offset), lenThisSegment, k);
      assert Rest()[k..] == Range(Addr(page, offset), lenThisSegment)[k..] + Addrs(segs[sg + 1..]);
      offset := offset + k;
      lenThisPage := lenThisPage - k;
      lenThisSegment := lenThisSegment - k;
    }
  }
}
