/** fs/char_dev.c: the registry of character device regions. */
module CharDev {
  import opened Arithmetic
  import opened Wrappers

  const MAX_PROBE_HASH: nat := 255
  const MINORS: nat := 0x10_0000

  /** MKDEV(4095, 0): where the last major starts. */
  const LAST: nat := 4095 * MINORS

  /** struct char_device_struct. */
  datatype Region = Region(major: nat, baseminor: nat, minorct: nat)

  type Chains = seq<seq<Region>>

  /** The order of a chain. */
  predicate Before(a: Region, b: Region) {
    a.major < b.major || (a.major == b.major && a.baseminor < b.baseminor)
  }

  predicate Sorted(chain: seq<Region>) {
    forall i, j | 0 <= i < j < |chain| :: Before(chain[i], chain[j])
  }

  /** major_to_index. */
  function IndexOf(major: nat): (i: nat)
    ensures i < MAX_PROBE_HASH
  {
    major % MAX_PROBE_HASH
  }

  predicate ChainOk(chain: seq<Region>, i: nat) {
    Sorted(chain) && forall j | 0 <= j < |chain| :: IndexOf(chain[j].major) == i && chain[j].major > 0
  }

  /** Every chain is strictly sorted and holds the majors that hash to it; 0 is no major. */
  predicate Ok(c: Chains) {
    |c| == MAX_PROBE_HASH && forall i | 0 <= i < |c| :: ChainOk(c[i], i)
  }

  predicate Registered(c: Chains, r: Region)
    requires |c| == MAX_PROBE_HASH
  {
    r in c[IndexOf(r.major)]
  }

  /** A region of the major starts inside the requested range. */
  ghost predicate Busy(c: Chains, major: nat, baseminor: nat, minorct: nat)
    requires |c| == MAX_PROBE_HASH
  {
    exists r :: Registered(c, r) && r.major == major && baseminor <= r.baseminor < baseminor + minorct
  }

  /** c' holds what c holds, and r. */
  ghost predicate With(c: Chains, c': Chains, r: Region)
    requires |c| == |c'| == MAX_PROBE_HASH
  {
    forall x :: Registered(c', x) <==> Registered(c, x) || x == r
  }

  /** Two sorted chains with the same elements are the same. */
  lemma {:induction false} SortedUnique(a: seq<Region>, b: seq<Region>)
    requires Sorted(a) && Sorted(b) && forall x :: x in a <==> x in b
    ensures a == b
    decreases |a|
  {
    BothEmpty(a, b);
    if a != [] {
      assert a[0] in b && b[0] in a;
      SameFirst(a, b);
      RestOf(a);
      RestOf(b);
      forall x
        ensures x in a[1..] <==> x in b[1..]
      {
        assert x in a <==> x in b;
      }
      SortedUnique(a[1..], b[1..]);
      assert a == [a[0]] + a[1..] && b == [b[0]] + b[1..];
    }
  }

  lemma BothEmpty(a: seq<Region>, b: seq<Region>)
    requires forall x :: x in a <==> x in b
    ensures |a| == 0 <==> |b| == 0
  {
    if |a| > 0 {
      assert a[0] in a;
    }
    if |b| > 0 {
      assert b[0] in b;
    }
  }

  lemma SameFirst(a: seq<Region>, b: seq<Region>)
    requires Sorted(a) && Sorted(b) && a != [] && b != [] && a[0] in b && b[0] in a
    ensures a[0] == b[0]
  {
    var i :| 0 <= i < |a| && a[i] == b[0];
    var j :| 0 <= j < |b| && b[j] == a[0];
    assert i > 0 ==> Before(a[0], a[i]);
    assert j > 0 ==> Before(b[0], b[j]);
  }

  lemma RestOf(a: seq<Region>)
    requires Sorted(a) && a != []
    ensures Sorted(a[1..]) && a[0] !in a[1..]
    ensures forall x :: x in a <==> x == a[0] || x in a[1..]
  {
    assert a == [a[0]] + a[1..];
    forall i | 0 <= i < |a[1..]|
      ensures a[1..][i] != a[0]
    {
      assert Before(a[0], a[i + 1]);
    }
  }

  /** The registry is determined by what is registered. */
  lemma Canonical(c: Chains, d: Chains)
    requires Ok(c) && Ok(d) && forall x :: Registered(c, x) <==> Registered(d, x)
    ensures c == d
  {
    forall i | 0 <= i < |c|
      ensures c[i] == d[i]
    {
      assert ChainOk(c[i], i) && ChainOk(d[i], i);
      forall x
        ensures x in c[i] <==> x in d[i]
      {
        assert Registered(c, x) <==> Registered(d, x);
      }
      SortedUnique(c[i], d[i]);
    }
  }

  /** Where a new region goes in a chain: before the first that is not before it. */
  method Place(chain: seq<Region>, major: nat, baseminor: nat) returns (p: nat)
    requires Sorted(chain)
    ensures p <= |chain|
    ensures forall j | 0 <= j < p :: Before(chain[j], Region(major, baseminor, 0))
    ensures p < |chain| ==> !Before(chain[p], Region(major, baseminor, 0))
  {
    p := 0;
    while p < |chain|
      invariant p <= |chain|
      invariant forall j | 0 <= j < p :: Before(chain[j], Region(major, baseminor, 0))
    {
      if chain[p].major > major || (chain[p].major == major && chain[p].baseminor >= baseminor) {
        break;
      }
      p := p + 1;
    }
  }

  /** The test of the successor decides whether any region of the major starts in the range. */
  lemma BusyIsNext(c: Chains, major: nat, baseminor: nat, minorct: nat, p: nat)
    requires Ok(c)
    requires var chain := c[IndexOf(major)];
             && p <= |chain|
             && (forall j | 0 <= j < p :: Before(chain[j], Region(major, baseminor, minorct)))
             && (p < |chain| ==> !Before(chain[p], Region(major, baseminor, minorct)))
    ensures var chain := c[IndexOf(major)];
            Busy(c, major, baseminor, minorct) <==>
              p < |chain| && chain[p].major == major && chain[p].baseminor < baseminor + minorct
  {
    var chain := c[IndexOf(major)];
    assert ChainOk(chain, IndexOf(major));
    if p < |chain| && chain[p].major == major && chain[p].baseminor < baseminor + minorct {
      assert Registered(c, chain[p]);
    }
    if Busy(c, major, baseminor, minorct) {
      var r :| Registered(c, r) && r.major == major && baseminor <= r.baseminor < baseminor + minorct;
      var k :| 0 <= k < |chain| && chain[k] == r;
      assert k >= p;
      assert k == p || Before(chain[p], chain[k]);
    }
  }

  function Insert(chain: seq<Region>, p: nat, r: Region): seq<Region>
    requires p <= |chain|
  {
    chain[..p] + [r] + chain[p..]
  }

  lemma InsertAt(chain: seq<Region>, p: nat, r: Region)
    requires p <= |chain|
    ensures var n := Insert(chain, p, r);
            && |n| == |chain| + 1
            && (forall j | 0 <= j < |n| :: n[j] == if j < p then chain[j] else if j == p then r else chain[j - 1])
            && (forall x :: x in n <==> x in chain || x == r)
  {
    assert chain == chain[..p] + chain[p..];
  }

  lemma Inserted(chain: seq<Region>, p: nat, r: Region, i: nat)
    requires ChainOk(chain, i) && p <= |chain| && IndexOf(r.major) == i && r.major > 0
    requires forall j | 0 <= j < p :: Before(chain[j], r)
    requires p < |chain| ==> Before(r, chain[p])
    ensures ChainOk(Insert(chain, p, r), i)
    ensures forall x :: x in Insert(chain, p, r) <==> x in chain || x == r
  {
    var n := Insert(chain, p, r);
    InsertAt(chain, p, r);
    hide IndexOf, Insert;
    forall a, b | 0 <= a < b < |n|
      ensures Before(n[a], n[b])
    {
      if a == p && b > p + 1 {
        assert Before(chain[p], chain[b - 1]);
      }
    }
  }

  lemma Removed(chain: seq<Region>, p: nat, i: nat)
    requires ChainOk(chain, i) && p < |chain|
    ensures ChainOk(chain[..p] + chain[p + 1..], i)
    ensures forall x :: x in chain[..p] + chain[p + 1..] <==> x in chain && x != chain[p]
  {
    var n, r := chain[..p] + chain[p + 1..], chain[p];
    hide IndexOf;
    assert forall j | 0 <= j < |n| :: n[j] == if j < p then chain[j] else chain[j + 1];
    assert forall j | 0 <= j < |n| :: n[j] != r by {
      forall j | 0 <= j < |n|
        ensures n[j] != r
      {
        assert j < p ==> Before(chain[j], r);
        assert j >= p ==> Before(r, chain[j + 1]);
      }
    }
    assert chain == chain[..p] + [r] + chain[p + 1..];
  }

  /** The regions that are registered, as the chains chrdevs[]. */
  class Registry {
    var chains: Chains

    constructor ()
      ensures Ok(chains) && |chains| == 255 && forall x :: !Registered(chains, x)
    {
      chains := seq(MAX_PROBE_HASH, _ => []);
    }

    /** The rest of __register_chrdev_region when the major is known. It is refused as busy exactly when a region of the
        major starts in the range, and leaves everything as it was then. A region of no minors is never refused, and
        puts the chain out of order if its key is taken. */
    method Add(major: nat, baseminor: nat, minorct: nat) returns (ret: int)
      requires Ok(chains) && major > 0
      modifies this
      ensures |chains| == MAX_PROBE_HASH
      ensures ret == if Busy(old(chains), major, baseminor, minorct) then -16 else 0
      ensures ret == 0 ==> With(old(chains), chains, Region(major, baseminor, minorct))
      ensures ret != 0 ==> chains == old(chains)
      ensures Ok(chains) <==> ret != 0 || !HasKey(old(chains), major, baseminor)
    {
      var i, r := IndexOf(major), Region(major, baseminor, minorct);
      assert ChainOk(chains[i], i);
      var chain := chains[i];
      var p := Place(chain, major, baseminor);
      BusyIsNext(chains, major, baseminor, minorct, p);
      if p < |chain| && chain[p].major == major && chain[p].baseminor < baseminor + minorct {
        return -16;
      }
      ghost var before := chains;
      chains := chains[i := Insert(chain, p, r)];
      AddedOk(before, chains, p, r);
      return 0;
    }

    /** __register_chrdev_region; a major of 0 asks for one whose chain is empty. */
    method RegisterRegion(major: nat, baseminor: nat, minorct: nat, memory: bool) returns (ret: int, major': nat)
      requires Ok(chains)
      modifies this
      ensures |chains| == MAX_PROBE_HASH
      ensures Ok(chains) <==> ret < 0 || !HasKey(old(chains), major', baseminor)
      ensures minorct > 0 || major == 0 ==> Ok(chains)
      ensures ret >= 0 ==> With(old(chains), chains, Region(major', baseminor, minorct))
      ensures ret < 0 ==> chains == old(chains)
      ensures !memory ==> ret == -12
      ensures memory && major > 0 ==>
                major' == major && ret == if Busy(old(chains), major, baseminor, minorct) then -16 else 0
      ensures memory && major == 0 && ret >= 0 ==> ret == major' && 0 < major' < 255 == |chains|
      ensures memory && major == 0 && ret >= 0 ==> old(chains)[major'] == [] && FullAbove(old(chains), major')
      ensures memory && major == 0 && ret < 0 ==> ret == -16 && FullAbove(old(chains), 0)
    {
      major' := major;
      if !memory {
        return -12, major';
      }
      if major == 0 {
        var i := MAX_PROBE_HASH - 1;
        while i > 0
          invariant 0 <= i < MAX_PROBE_HASH && FullAbove(chains, i)
        {
          if chains[i] == [] {
            break;
          }
          i := i - 1;
        }
        if i == 0 {
          return -16, major';
        }
        major' := i;
      }
      ghost var before := chains;
      ret := Add(major', baseminor, minorct);
      KeyIsBusy(before, major', baseminor, minorct);
      if major == 0 {
        assert ret == 0;
        ret := major';
      }
    }

    /** __unregister_chrdev_region: it takes out the region with exactly these numbers, if there is one. */
    method UnregisterRegion(major: nat, baseminor: nat, minorct: nat) returns (found: bool)
      requires Ok(chains)
      modifies this
      ensures Ok(chains)
      ensures found == Registered(old(chains), Region(major, baseminor, minorct))
      ensures forall x ::
                Registered(chains, x) <==> Registered(old(chains), x) && x != Region(major, baseminor, minorct)
      ensures !found ==> chains == old(chains)
    {
      var i, r := IndexOf(major), Region(major, baseminor, minorct);
      var chain, p := chains[i], 0;
      assert ChainOk(chain, i);
      while p < |chain|
        invariant p <= |chain| && r !in chain[..p]
      {
        if chain[p].major == major && chain[p].baseminor == baseminor && chain[p].minorct == minorct {
          break;
        }
        p := p + 1;
      }
      found := p < |chain|;
      if found {
        Removed(chain, p, i);
        hide ChainOk;
        ghost var before := chains;
        chains := chains[i := chain[..p] + chain[p + 1..]];
        assert forall j | 0 <= j < MAX_PROBE_HASH && j != i :: chains[j] == before[j];
      } else {
        assert chain[..p] == chain;
      }
    }

    /** register_chrdev_region. It is to register every part of the range, cut at the majors, or to fail and leave every
        chain as it was; and it does so exactly when the call is sound. Device numbers have 32 bits: past the start of
        the last major it never succeeds, and undoes nothing once that major is registered. */
    method RegisterRange(from: nat, count: nat, memory: nat -> bool) returns (ret: int)
      requires Ok(chains) && from < TWO32 && count < TWO32
      modifies this
      ensures Ok(chains) && ret <= 0
      ensures AllOrNothing(old(chains), chains, ret, memory, Parts(from, from + count))
         <==> Sound(old(chains), from, count, memory)
      ensures PastLast(from, count) ==>
                ret < 0 && (chains == old(chains) <==> !Free(old(chains), memory, Parts(from, TWO32)))
    {
      var upTo, n: nat := (from + count) % TWO32, from;
      ghost var before, lost: Option<Region> := chains, None;
      OkSize(before);
      hide *;
      AtStart(before, memory, from, upTo);
      while n < upTo
        invariant |chains| == MAX_PROBE_HASH && n < TWO32
        invariant Standing(before, chains, memory, from, n, upTo, lost)
        decreases if lost.None? then 1 else 0, TWO32 - n
      {
        var next := Next(n);
        if next > upTo {
          next := upTo;
        }
        var minorct := (next - n) % TWO32;
        ghost var was := chains;
        var err;
        ghost var major;
        TurnStarts(before, chains, memory, from, n, upTo, lost, minorct);
        err, major := RegisterPart(from, n, minorct, memory, before, upTo, lost.None?);
        OkSize(chains);
        if err < 0 {
          Failed(before, was, chains, err, memory, from, count, n, upTo, lost, minorct);
          return err;
        }
        ghost var after := TurnEnds(before, was, chains, memory, from, n, upTo, lost, minorct, next, major);
        StandingSize(before, chains, memory, from, next, upTo, after);
        lost, n := after, next;
      }
      Finished(before, chains, memory, from, count, n, upTo, lost);
      return 0;
    }

    /** One turn of the loop of register_chrdev_region, with the fail loop if it comes to that. normal says that the
        parts from the start up to n are all that has been registered. */
    method RegisterPart(from: nat, n: nat, minorct: nat, memory: nat -> bool, ghost before: Chains, ghost upTo: nat,
                        ghost normal: bool)
      returns (err: int, ghost major: nat)
      requires Ok(chains) && Ok(before) && minorct > 0 && (n <= LAST || n == from)
      requires normal ==> from <= n < upTo && Boundary(from, n, upTo) && Plus(before, chains, Parts(from, n))
      modifies this
      ensures Ok(chains) && |old(chains)| == MAX_PROBE_HASH
      ensures err >= 0 ==> Took(old(chains), chains, memory, n, minorct, major)
      ensures err < 0 ==> Refused(old(chains), memory, n, minorct) && RolledBack(old(chains), chains, n)
      ensures err < 0 && normal ==> chains == before
    {
      OkSize(chains);
      hide Ok, Busy, Registered, Plus, Parts, With, FullAbove, Major, Minor, Mkdev, Boundary, RolledBack;
      var m;
      err, m := RegisterRegion(Major(n), Minor(n), minorct, memory(n));
      major := m;
      if err < 0 {
        RollBack(from, n, before, upTo, normal);
      }
    }

    /** The fail loop of register_chrdev_region. It leaves the majors from n on alone. */
    method RollBack(from: nat, n: nat, ghost before: Chains, ghost upTo: nat, ghost normal: bool)
      requires Ok(chains) && Ok(before) && (n <= LAST || n == from)
      requires normal ==> from <= n < upTo && Boundary(from, n, upTo) && Plus(before, chains, Parts(from, n))
      modifies this
      ensures Ok(chains) && |old(chains)| == |chains| == MAX_PROBE_HASH
      ensures normal ==> chains == before
      ensures RolledBack(old(chains), chains, n)
    {
      OkSize(chains);
      hide Ok, Registered, Parts, Plus, Mkdev, Major, Minor, Boundary;
      var k := from;
      while k < n
        invariant Ok(chains) && |chains| == MAX_PROBE_HASH && (k == from || n <= LAST)
        invariant normal ==> from <= k <= n && Boundary(k, n, upTo) && Plus(before, chains, Parts(k, n))
        invariant forall x | Registered(old(chains), x) && n <= Mkdev(x.major, 0) :: Registered(chains, x)
        decreases n - k
      {
        NextMajor(k);
        NextInRange(k, n);
        var next := Next(k);
        if normal {
          FirstPart(k, n, upTo);
        }
        ghost var was := chains;
        var _ := UnregisterRegion(Major(k), Minor(k), next - k);
        OkSize(chains);
        LaterMajors(k, n);
        if normal {
          MinusFirst(before, was, chains, k, n, upTo);
        }
        k := next;
      }
      if normal {
        AllOut(before, chains, n);
      }
    }
  }

  /** No chain after i is empty. */
  predicate FullAbove(c: Chains, i: nat)
    requires |c| == MAX_PROBE_HASH
  {
    forall j | i < j < MAX_PROBE_HASH :: c[j] != []
  }

  /** A region with this key is registered. */
  ghost predicate HasKey(c: Chains, major: nat, baseminor: nat)
    requires |c| == MAX_PROBE_HASH
  {
    exists r :: Registered(c, r) && r.major == major && r.baseminor == baseminor
  }

  lemma KeyIsBusy(c: Chains, major: nat, baseminor: nat, minorct: nat)
    requires Ok(c)
    ensures HasKey(c, major, baseminor) && minorct > 0 ==> Busy(c, major, baseminor, minorct)
    ensures c[IndexOf(major)] == [] ==> !HasKey(c, major, baseminor) && !Busy(c, major, baseminor, minorct)
  {
  }

  /** A chain stays in order exactly when the key of the new region is new. */
  lemma AddedOk(c: Chains, c': Chains, p: nat, r: Region)
    requires Ok(c) && r.major > 0 && p <= |c[IndexOf(r.major)]|
    requires var chain := c[IndexOf(r.major)];
             && (forall j | 0 <= j < p :: Before(chain[j], r)) && (p < |chain| ==> !Before(chain[p], r))
             && c' == c[IndexOf(r.major) := Insert(chain, p, r)]
    ensures With(c, c', r)
    ensures Ok(c') <==> !HasKey(c, r.major, r.baseminor)
  {
    var i, chain := IndexOf(r.major), c[IndexOf(r.major)];
    assert ChainOk(chain, i);
    InsertAt(chain, p, r);
    WithOne(c, c', r, Insert(chain, p, r));
    KeyIsNext(c, r, p);
    if HasKey(c, r.major, r.baseminor) {
      Unsorted(chain, p, r);
    } else {
      Inserted(chain, p, r, i);
    }
    hide Insert, IndexOf;
    assert forall j | 0 <= j < |c| && j != i :: c'[j] == c[j];
    assert Ok(c') ==> ChainOk(c'[i], i);
  }

  lemma KeyIsNext(c: Chains, r: Region, p: nat)
    requires Ok(c) && p <= |c[IndexOf(r.major)]|
    requires var chain := c[IndexOf(r.major)];
             (forall j | 0 <= j < p :: Before(chain[j], r)) && (p < |chain| ==> !Before(chain[p], r))
    ensures var chain := c[IndexOf(r.major)];
            HasKey(c, r.major, r.baseminor) <==>
              p < |chain| && chain[p].major == r.major && chain[p].baseminor == r.baseminor
  {
    var chain := c[IndexOf(r.major)];
    assert ChainOk(chain, IndexOf(r.major));
    if p < |chain| && chain[p].major == r.major && chain[p].baseminor == r.baseminor {
      assert Registered(c, chain[p]);
    }
    if HasKey(c, r.major, r.baseminor) {
      var x :| Registered(c, x) && x.major == r.major && x.baseminor == r.baseminor;
      var k :| 0 <= k < |chain| && chain[k] == x;
      assert k >= p;
      assert k == p || Before(chain[p], chain[k]);
    }
  }

  lemma Unsorted(chain: seq<Region>, p: nat, r: Region)
    requires p < |chain| && chain[p].major == r.major && chain[p].baseminor == r.baseminor
    ensures !Sorted(Insert(chain, p, r))
  {
    var n := Insert(chain, p, r);
    InsertAt(chain, p, r);
    assert n[p] == r && n[p + 1] == chain[p];
    assert !Before(n[p], n[p + 1]);
  }

  lemma WithOne(c: Chains, c': Chains, r: Region, chain: seq<Region>)
    requires |c| == |c'| == MAX_PROBE_HASH && c' == c[IndexOf(r.major) := chain]
    requires forall x :: x in chain <==> x in c[IndexOf(r.major)] || x == r
    ensures With(c, c', r)
  {
  }

  // ---- device numbers

  function Major(n: nat): nat {
    n / MINORS
  }

  function Minor(n: nat): nat {
    n % MINORS
  }

  function Mkdev(major: nat, minor: nat): nat {
    major * MINORS + minor
  }

  lemma NextMajor(n: nat)
    ensures n < Mkdev(Major(n) + 1, 0) && Mkdev(Major(n), Minor(n)) == n && Minor(n) < MINORS
    ensures Major(Mkdev(Major(n) + 1, 0)) == Major(n) + 1 && Mkdev(Major(n) + 1, 0) % MINORS == 0
  {
  }

  /** MKDEV(MAJOR(n) + 1, 0), of 32 bits. */
  function Next(n: nat): nat {
    Mkdev(Major(n) + 1, 0) % TWO32
  }

  /** No wrap-around before the last major, and to 0 after it. */
  lemma NextIs(n: nat)
    requires n < TWO32
    ensures Major(n) <= 4095 && (Major(n) == 4095 <==> LAST <= n)
    ensures Next(n) == if Major(n) < 4095 then Mkdev(Major(n) + 1, 0) else 0
  {
  }

  lemma NextInRange(k: nat, n: nat)
    requires k < n <= LAST
    ensures Next(k) == Mkdev(Major(k) + 1, 0) > k
  {
    NextIs(k);
    NextMajor(k);
  }

  lemma LaterMajors(k: nat, n: nat)
    requires k < n
    ensures forall major: nat | n <= Mkdev(major, 0) :: major > Major(k)
  {
    NextMajor(k);
  }

  /** The range from n to upTo, cut at the majors. */
  function Parts(n: nat, upTo: nat): seq<Region>
    decreases upTo - n
  {
    if n >= upTo then []
    else
      NextMajor(n);
      var next := Mkdev(Major(n) + 1, 0);
      var end := if next > upTo then upTo else next;
      [Region(Major(n), Minor(n), end - n)] + Parts(end, upTo)
  }

  /** n is where the loop of register_chrdev_region may stand: at its start, at a new major, or at its end. */
  predicate Boundary(from: nat, n: nat, upTo: nat) {
    n == from || n % MINORS == 0 || n == upTo
  }

  /** c' holds what c holds, and parts, none of which c held. */
  ghost predicate Plus(c: Chains, c': Chains, parts: seq<Region>) {
    && |c| == |c'| == MAX_PROBE_HASH
    && (forall x :: Registered(c', x) <==> Registered(c, x) || x in parts)
    && (forall x | x in parts :: !Registered(c, x))
  }

  /** No part is busy, and there is memory for each. */
  ghost predicate Free(c: Chains, memory: nat -> bool, parts: seq<Region>)
    requires |c| == MAX_PROBE_HASH
  {
    forall r | r in parts :: !Busy(c, r.major, r.baseminor, r.minorct) && memory(Mkdev(r.major, r.baseminor))
  }

  lemma OkSize(c: Chains)
    requires Ok(c)
    ensures |c| == MAX_PROBE_HASH
  {
  }

  lemma NoParts(c: Chains, memory: nat -> bool, n: nat, upTo: nat)
    requires |c| == MAX_PROBE_HASH
    ensures Boundary(n, n, upTo) && Plus(c, c, Parts(n, n)) && Free(c, memory, Parts(n, n))
  {
  }

  lemma FromMajor(from: nat, n: nat)
    requires from <= n
    ensures Major(from) <= Major(n)
  {
  }

  /** The range splits at every new major. */
  lemma {:induction false} PartsSplit(from: nat, n: nat, upTo: nat)
    requires from <= n <= upTo && Boundary(from, n, upTo)
    ensures Parts(from, upTo) == Parts(from, n) + Parts(n, upTo)
    decreases n - from
  {
    hide Mkdev, Major, Minor;
    if from < n {
      NextMajor(from);
      var next := Mkdev(Major(from) + 1, 0);
      if n < upTo {
        WholeMajor(from, n);
      }
      var end := if next > n then n else next;
      if n < upTo || next <= n {
        PartsSplit(end, n, upTo);
      }
    }
  }

  /** A new major after from is not before the next one. */
  lemma WholeMajor(from: nat, n: nat)
    requires from < n && n % MINORS == 0
    ensures Mkdev(Major(from) + 1, 0) <= n
  {
  }

  lemma PartsMore(from: nat, n: nat, next: nat, upTo: nat)
    requires from <= n < upTo && Boundary(from, n, upTo)
    requires next == if Mkdev(Major(n) + 1, 0) > upTo then upTo else Mkdev(Major(n) + 1, 0)
    ensures Parts(from, next) == Parts(from, n) + [Region(Major(n), Minor(n), next - n)]
    ensures n < next <= upTo && Boundary(from, next, upTo)
    ensures Parts(from, upTo) == Parts(from, n) + Parts(n, upTo)
    ensures Region(Major(n), Minor(n), next - n) in Parts(n, upTo)
  {
    NextMajor(n);
    PartsSplit(from, n, next);
    PartsSplit(from, n, upTo);
  }

  /** The parts lie in the range. */
  lemma {:induction false} PartsWithin(n: nat, upTo: nat, r: Region)
    requires r in Parts(n, upTo)
    ensures n <= Mkdev(r.major, r.baseminor) < upTo && Major(n) <= r.major && r.baseminor < MINORS
    decreases upTo - n
  {
    NextMajor(n);
    var next := Mkdev(Major(n) + 1, 0);
    var end := if next > upTo then upTo else next;
    var first := Region(Major(n), Minor(n), end - n);
    if r != first {
      assert r in Parts(end, upTo);
      PartsWithin(end, upTo, r);
      FromMajor(n, end);
    }
  }

  /** The parts before a new major are of smaller majors. */
  lemma EarlierMajors(from: nat, n: nat, upTo: nat, r: Region)
    requires from <= n < upTo && Boundary(from, n, upTo) && r in Parts(from, n)
    ensures r.major < Major(n)
  {
    PartsWithin(from, n, r);
  }

  lemma SameBusy(c: Chains, c': Chains, from: nat, n: nat, upTo: nat, r: Region)
    requires from <= n < upTo && Boundary(from, n, upTo) && Plus(c, c', Parts(from, n)) && r.major == Major(n)
    ensures Busy(c', r.major, r.baseminor, r.minorct) <==> Busy(c, r.major, r.baseminor, r.minorct)
  {
    forall x | Registered(c', x) && x.major == r.major
      ensures Registered(c, x)
    {
      if x in Parts(from, n) {
        EarlierMajors(from, n, upTo, x);
      }
    }
  }

  lemma PlusMore(c: Chains, c1: Chains, c2: Chains, memory: nat -> bool, from: nat, n: nat, upTo: nat, r: Region)
    requires from <= n < upTo && Boundary(from, n, upTo) && Plus(c, c1, Parts(from, n))
    requires Free(c, memory, Parts(from, n))
    requires |c2| == MAX_PROBE_HASH && With(c1, c2, r) && r.major == Major(n) && r.baseminor == Minor(n)
    requires r.minorct > 0
    requires !Busy(c, r.major, r.baseminor, r.minorct) && memory(n)
    ensures Plus(c, c2, Parts(from, n) + [r]) && Free(c, memory, Parts(from, n) + [r])
  {
    NextMajor(n);
    var parts := Parts(from, n) + [r];
    hide Parts, Mkdev, Major, Minor;
    assert forall x :: x in parts <==> x in Parts(from, n) || x == r;
  }

  lemma NotFree(c: Chains, memory: nat -> bool, from: nat, n: nat, upTo: nat, r: Region)
    requires |c| == MAX_PROBE_HASH && r.major == Major(n) && r.baseminor == Minor(n)
    requires Parts(from, upTo) == Parts(from, n) + Parts(n, upTo) && r in Parts(n, upTo)
    requires Busy(c, r.major, r.baseminor, r.minorct) || !memory(n)
    ensures !Free(c, memory, Parts(from, upTo))
  {
    NextMajor(n);
    hide Parts, Mkdev, Major, Minor, Busy;
    assert r in Parts(from, upTo);
  }

  lemma FirstPart(k: nat, n: nat, upTo: nat)
    requires k < n < upTo && Boundary(k, n, upTo)
    ensures var next := Mkdev(Major(k) + 1, 0);
            && k < next <= n && Boundary(next, n, upTo)
            && Parts(k, n) == [Region(Major(k), Minor(k), next - k)] + Parts(next, n)
  {
    NextMajor(k);
    WholeMajor(k, n);
  }

  lemma MinusFirst(c: Chains, c1: Chains, c2: Chains, k: nat, n: nat, upTo: nat)
    requires k < n < upTo && Boundary(k, n, upTo) && Plus(c, c1, Parts(k, n)) && |c2| == MAX_PROBE_HASH
    requires Mkdev(Major(k) + 1, 0) >= k
    requires var first := Region(Major(k), Minor(k), Mkdev(Major(k) + 1, 0) - k);
             forall x :: Registered(c2, x) <==> Registered(c1, x) && x != first
    ensures Plus(c, c2, Parts(Mkdev(Major(k) + 1, 0), n))
  {
    FirstPart(k, n, upTo);
    NextMajor(k);
    var next := Mkdev(Major(k) + 1, 0);
    var first := Region(Major(k), Minor(k), next - k);
    forall x | x in Parts(next, n)
      ensures x != first
    {
      PartsWithin(next, n, x);
    }
    hide Parts, Mkdev, Major, Minor;
  }

  lemma AllOut(c: Chains, c': Chains, n: nat)
    requires Ok(c) && Ok(c') && Plus(c, c', Parts(n, n))
    ensures c' == c
  {
    Canonical(c, c');
  }

  // ---- what register_chrdev_region achieves

  /** What the caller may expect of a result of register_chrdev_region. */
  ghost predicate AllOrNothing(c: Chains, c': Chains, ret: int, memory: nat -> bool, parts: seq<Region>)
    requires |c| == MAX_PROBE_HASH
  {
    (ret == 0 <==> Free(c, memory, parts)) && (if ret == 0 then Plus(c, c', parts) else c' == c)
  }

  /** The calls of which that is true: there is nothing to register; or the range lies in the majors from 1 to 4094; or
      it has no more than 32 bits and will be refused, by the first allocation, or because something is in its way
      (and, if it starts in major 0, so is something in that of every dynamic major). */
  ghost predicate Sound(c: Chains, from: nat, count: nat, memory: nat -> bool)
    requires |c| == MAX_PROBE_HASH
  {
    || count == 0
    || (Major(from) >= 1 && from + count <= LAST)
    || (from + count < TWO32
        && (!memory(from) || ((Major(from) >= 1 || FullAbove(c, 0)) && !Free(c, memory, Parts(from, from + count)))))
  }

  /** The call has gone wrong: x has been registered, is no part of the range or stands where one should, and will not
      be taken out. */
  ghost predicate Hopeless(c: Chains, memory: nat -> bool, from: nat, upTo: nat, x: Region)
    requires |c| == MAX_PROBE_HASH
  {
    && from < upTo
    && if Major(from) == 0 then memory(from) && !FullAbove(c, 0)
       else upTo > LAST && x.major == 4095 && Free(c, memory, Parts(from, upTo)) && Free(c, memory, Parts(from, TWO32))
  }

  /** Where the loop stands: all the parts up to n are registered and nothing else; or it has lost x. */
  ghost predicate Standing(c: Chains, c': Chains, memory: nat -> bool, from: nat, n: nat, upTo: nat,
                           lost: Option<Region>) {
    && Ok(c) && Ok(c') && n < TWO32 && from < TWO32 && upTo < TWO32
    && match lost
       case None =>
         && from <= n && (n == from || (n <= upTo && Major(from) >= 1 && n <= LAST)) && Boundary(from, n, upTo)
         && Plus(c, c', Parts(from, n)) && Free(c, memory, Parts(from, n))
       case Some(x) =>
         && Registered(c', x) && !Registered(c, x) && x.baseminor < MINORS && x.major <= 4095
         && (n <= Mkdev(x.major, 0) || (n == upTo && Major(from) == 0)) && Hopeless(c, memory, from, upTo, x)
  }

  lemma AtStart(c: Chains, memory: nat -> bool, from: nat, upTo: nat)
    requires Ok(c) && from < TWO32 && upTo < TWO32
    ensures Standing(c, c, memory, from, from, upTo, None)
  {
    NoParts(c, memory, from, upTo);
  }

  lemma TurnStarts(c: Chains, c': Chains, memory: nat -> bool, from: nat, n: nat, upTo: nat, lost: Option<Region>,
                   minorct: nat)
    requires Standing(c, c', memory, from, n, upTo, lost) && n < upTo
    requires minorct == ((if Next(n) > upTo then upTo else Next(n)) - n) % TWO32
    ensures Ok(c) && Ok(c') && minorct > 0 && (n <= LAST || n == from)
    ensures lost.None? ==> from <= n < upTo && Boundary(from, n, upTo) && Plus(c, c', Parts(from, n))
  {
    PartSize(n, upTo, minorct);
    hide Ok, Free, Plus, Parts, Registered, Hopeless, Next, Major, Boundary;
    if lost.Some? {
      assert Mkdev(lost.value.major, 0) <= LAST;
    }
  }

  /** The minors of a turn: up to the end of the range or of the major; in the last major always up to its end. */
  lemma PartSize(n: nat, upTo: nat, minorct: nat)
    requires n < upTo < TWO32
    requires minorct == ((if Next(n) > upTo then upTo else Next(n)) - n) % TWO32
    ensures Major(n) < 4095 ==>
              minorct == (if Mkdev(Major(n) + 1, 0) > upTo then upTo else Mkdev(Major(n) + 1, 0)) - n
    ensures Major(n) == 4095 ==> Next(n) == 0 && minorct == TWO32 - n == MINORS - Minor(n)
    ensures Major(n) <= 4095 && (Major(n) == 4095 <==> LAST <= n) && 0 < minorct <= MINORS - Minor(n)
  {
    NextIs(n);
    NextMajor(n);
  }

  /** A range that ends in the last major, and does not start in major 0. */
  predicate PastLast(from: nat, count: nat) {
    Major(from) >= 1 && count > 0 && LAST < from + count < TWO32
  }

  /** What the fail loop leaves alone. */
  ghost predicate RolledBack(c: Chains, c': Chains, n: nat) {
    && |c| == |c'| == MAX_PROBE_HASH
    && forall x | Registered(c, x) && n <= Mkdev(x.major, 0) :: Registered(c', x)
  }

  /** Why a turn fails. */
  ghost predicate Refused(c: Chains, memory: nat -> bool, n: nat, minorct: nat)
    requires |c| == MAX_PROBE_HASH
  {
    !memory(n) || if Major(n) > 0 then Busy(c, Major(n), Minor(n), minorct) else FullAbove(c, 0)
  }

  lemma StandingSize(c: Chains, c': Chains, memory: nat -> bool, from: nat, n: nat, upTo: nat, lost: Option<Region>)
    requires Standing(c, c', memory, from, n, upTo, lost)
    ensures n < TWO32
  {
  }

  /** What a turn has registered, under which major. */
  ghost predicate Took(c: Chains, c': Chains, memory: nat -> bool, n: nat, minorct: nat, major: nat) {
    && Ok(c) && Ok(c') && memory(n) && With(c, c', Region(major, Minor(n), minorct))
    && if Major(n) > 0 then major == Major(n) && !Busy(c, major, Minor(n), minorct)
       else 0 < major < MAX_PROBE_HASH && c[major] == []
  }

  lemma TurnEnds(c: Chains, c1: Chains, c2: Chains, memory: nat -> bool, from: nat, n: nat, upTo: nat,
                 lost: Option<Region>, minorct: nat, next: nat, major: nat) returns (after: Option<Region>)
    requires Standing(c, c1, memory, from, n, upTo, lost) && n < upTo && Took(c1, c2, memory, n, minorct, major)
    requires next == (if Next(n) > upTo then upTo else Next(n)) && minorct == (next - n) % TWO32
    ensures Standing(c, c2, memory, from, next, upTo, after)
    ensures (lost.None? && after.Some?) || (lost.None? == after.None? && next > n)
  {
    PartSize(n, upTo, minorct);
    hide Standing, Took, Next;
    if lost.Some? {
      after := lost;
      LostTurn(c, c1, c2, memory, from, n, upTo, lost.value, minorct, next, major);
    } else if Major(n) == 0 {
      after := Some(Region(major, Minor(n), minorct));
      ZeroTurn(c, c1, c2, memory, from, n, upTo, minorct, next, major);
    } else if Major(n) == 4095 {
      after := Some(Region(major, Minor(n), minorct));
      WrapTurn(c, c1, c2, memory, from, n, upTo, minorct, major);
    } else {
      after := None;
      NormalTurn(c, c1, c2, memory, from, n, upTo, minorct, next, major);
    }
  }

  lemma NormalTurn(c: Chains, c1: Chains, c2: Chains, memory: nat -> bool, from: nat, n: nat, upTo: nat, minorct: nat,
                   next: nat, major: nat)
    requires Standing(c, c1, memory, from, n, upTo, None) && n < upTo && Took(c1, c2, memory, n, minorct, major)
    requires 0 < Major(n) < 4095 && minorct == next - n
    requires next == if Mkdev(Major(n) + 1, 0) > upTo then upTo else Mkdev(Major(n) + 1, 0)
    ensures Standing(c, c2, memory, from, next, upTo, None) && next > n
  {
    var r := Region(major, Minor(n), minorct);
    NextMajor(n);
    SmallMajor(n);
    FromMajor(from, n);
    PartsMore(from, n, next, upTo);
    OkSize(c2);
    hide Ok, Busy, Free, Plus, Parts, Registered, Major, Minor, Mkdev, With;
    SameBusy(c, c1, from, n, upTo, r);
    PlusMore(c, c1, c2, memory, from, n, upTo, r);
  }

  lemma SmallMajor(n: nat)
    requires Major(n) < 4095
    ensures Mkdev(Major(n) + 1, 0) <= LAST
  {
  }

  /** A range that starts in major 0 begins with a region of some other major. */
  lemma ZeroTurn(c: Chains, c1: Chains, c2: Chains, memory: nat -> bool, from: nat, n: nat, upTo: nat, minorct: nat,
                 next: nat, major: nat)
    requires Standing(c, c1, memory, from, n, upTo, None) && n < upTo && Took(c1, c2, memory, n, minorct, major)
    requires Major(n) == 0 && next == (if Mkdev(1, 0) > upTo then upTo else Mkdev(1, 0))
    ensures Standing(c, c2, memory, from, next, upTo, Some(Region(major, Minor(n), minorct)))
  {
    FromMajor(from, n);
    assert n == from;
    AllOut(c, c1, n);
    hide Free, Plus, Parts, Busy, Ok;
    assert !FullAbove(c, 0);
    assert Mkdev(1, 0) <= Mkdev(major, 0);
    assert IndexOf(major) == major;
  }

  /** Past the last major the numbers start again from 0. */
  lemma WrapTurn(c: Chains, c1: Chains, c2: Chains, memory: nat -> bool, from: nat, n: nat, upTo: nat, minorct: nat,
                 major: nat)
    requires Standing(c, c1, memory, from, n, upTo, None) && n < upTo && Took(c1, c2, memory, n, minorct, major)
    requires Major(n) == 4095 && minorct == TWO32 - n && LAST <= n
    ensures Standing(c, c2, memory, from, 0, upTo, Some(Region(major, Minor(n), minorct)))
  {
    var r, part := Region(major, Minor(n), minorct), Region(major, Minor(n), upTo - n);
    NextMajor(n);
    OkSize(c);
    assert Registered(c2, r);
    hide Ok, Free, Plus, Parts, Registered, Major, Minor, Mkdev, With;
    SameBusy(c, c1, from, n, upTo, r);
    LastPart(from, n, upTo);
    LastPart(from, n, TWO32);
    SmallerBusy(c, r, part);
    hide Busy;
    FreeMore(c, memory, Parts(from, n), part);
    FreeMore(c, memory, Parts(from, n), r);
    NotThere(c, c1, from, n, r);
    BigMajor(n, r);
  }

  lemma SmallerBusy(c: Chains, r: Region, part: Region)
    requires |c| == MAX_PROBE_HASH && !Busy(c, r.major, r.baseminor, r.minorct)
    requires part.major == r.major && part.baseminor == r.baseminor && part.minorct <= r.minorct
    ensures !Busy(c, part.major, part.baseminor, part.minorct)
  {
  }

  lemma BigMajor(n: nat, r: Region)
    requires Major(n) == 4095 && r.baseminor == Minor(n)
    ensures 0 <= Mkdev(4095, 0) && r.baseminor < MINORS
  {
  }

  lemma LastPart(from: nat, n: nat, upTo: nat)
    requires from <= n < upTo <= TWO32 && LAST <= n && (n == from || n % MINORS == 0) && Major(n) == 4095
    ensures Parts(from, upTo) == Parts(from, n) + [Region(4095, Minor(n), upTo - n)]
  {
    PartsSplit(from, n, upTo);
    NextMajor(n);
    assert Mkdev(Major(n) + 1, 0) == TWO32;
    assert Parts(upTo, upTo) == [];
  }

  lemma FreeMore(c: Chains, memory: nat -> bool, parts: seq<Region>, r: Region)
    requires |c| == MAX_PROBE_HASH && Free(c, memory, parts) && memory(Mkdev(r.major, r.baseminor))
    requires !Busy(c, r.major, r.baseminor, r.minorct)
    ensures Free(c, memory, parts + [r])
  {
    hide Busy, Mkdev;
  }

  lemma NotThere(c: Chains, c1: Chains, from: nat, n: nat, r: Region)
    requires Plus(c, c1, Parts(from, n)) && r.minorct > 0 && !Busy(c, r.major, r.baseminor, r.minorct)
    ensures !Registered(c, r)
  {
    hide Parts;
  }

  /** What is lost stays registered, and the loop cannot pass it. */
  lemma LostTurn(c: Chains, c1: Chains, c2: Chains, memory: nat -> bool, from: nat, n: nat, upTo: nat, x: Region,
                 minorct: nat, next: nat, major: nat)
    requires Standing(c, c1, memory, from, n, upTo, Some(x)) && n < upTo && Took(c1, c2, memory, n, minorct, major)
    requires next == (if Next(n) > upTo then upTo else Next(n)) && minorct == (next - n) % TWO32
    ensures Standing(c, c2, memory, from, next, upTo, Some(x)) && next > n
  {
    PartSize(n, upTo, minorct);
    NextIs(n);
    NextMajor(n);
    assert Registered(c2, x);
    hide Ok, Free, Plus, Parts, With, Hopeless, Next;
    MajorOf(n, x.major);
    if n == Mkdev(x.major, 0) {
      assert Minor(n) == 0 && Major(n) == x.major;
    }
  }

  lemma MajorOf(n: nat, major: nat)
    requires n <= Mkdev(major, 0)
    ensures n < Mkdev(major, 0) ==> Mkdev(Major(n) + 1, 0) <= Mkdev(major, 0)
    ensures n == Mkdev(major, 0) ==> Major(n) == major && Minor(n) == 0
  {
  }

  /** The verdict on a result of register_chrdev_region. */
  ghost predicate Verdict(c: Chains, c': Chains, ret: int, memory: nat -> bool, from: nat, count: nat)
    requires |c| == MAX_PROBE_HASH
  {
    && (AllOrNothing(c, c', ret, memory, Parts(from, from + count)) <==> Sound(c, from, count, memory))
    && (PastLast(from, count) ==> ret < 0 && (c' == c <==> !Free(c, memory, Parts(from, TWO32))))
  }

  lemma EndIs(from: nat, count: nat, upTo: nat)
    requires from < TWO32 && count < TWO32 && upTo == (from + count) % TWO32
    ensures from < upTo ==> upTo == from + count
    ensures upTo == from ==> count == 0
    ensures upTo < from ==> from + count >= TWO32
  {
  }

  /** The first part asks for memory at the start. */
  lemma FirstOf(from: nat, upTo: nat)
    requires from < upTo
    ensures Parts(from, upTo) != [] && Mkdev(Parts(from, upTo)[0].major, Parts(from, upTo)[0].baseminor) == from
    ensures Parts(from, upTo)[0].major == Major(from)
  {
    NextMajor(from);
  }

  lemma FirstMemory(c: Chains, memory: nat -> bool, from: nat, upTo: nat)
    requires |c| == MAX_PROBE_HASH && from < upTo && Free(c, memory, Parts(from, upTo))
    ensures memory(from)
  {
    FirstOf(from, upTo);
    hide Parts, Mkdev, Busy;
    assert Parts(from, upTo)[0] in Parts(from, upTo);
  }

  lemma HopelessVerdict(c: Chains, c': Chains, ret: int, memory: nat -> bool, from: nat, upTo: nat, x: Region)
    requires Ok(c) && Ok(c') && from < upTo < TWO32 && Hopeless(c, memory, from, upTo, x)
    requires Registered(c', x) && !Registered(c, x) && (ret < 0 || (ret == 0 && Major(from) == 0))
    ensures Verdict(c, c', ret, memory, from, upTo - from)
  {
    OkSize(c);
    FirstOf(from, upTo);
    assert c' != c;
    var first := Parts(from, upTo)[0];
    assert first in Parts(from, upTo);
    if Major(from) == 0 {
      NoMajorZero(c', first);
    } else {
      FirstMemory(c, memory, from, upTo);
    }
    hide Ok, Parts, Mkdev, Busy, Registered;
  }

  lemma NoMajorZero(c: Chains, r: Region)
    requires Ok(c) && r.major == 0
    ensures !Registered(c, r)
  {
    assert ChainOk(c[IndexOf(0)], IndexOf(0));
  }

  /** A turn that fails before anything is lost has left everything as it was. */
  lemma NormalFailed(c: Chains, c1: Chains, err: int, memory: nat -> bool, from: nat, n: nat, upTo: nat, minorct: nat)
    requires Standing(c, c1, memory, from, n, upTo, None) && n < upTo && err < 0
    requires |c1| == MAX_PROBE_HASH && Refused(c1, memory, n, minorct) && Major(from) >= 1
    requires minorct == ((if Next(n) > upTo then upTo else Next(n)) - n) % TWO32
    ensures |c| == MAX_PROBE_HASH && Verdict(c, c, err, memory, from, upTo - from)
  {
    OkSize(c);
    PartSize(n, upTo, minorct);
    var r := Region(Major(n), Minor(n), minorct);
    FromMajor(from, n);
    hide Ok, Busy, Parts, Plus, Registered, Next, Mkdev, Major, Minor, Free;
    SameBusy(c, c1, from, n, upTo, r);
    if upTo <= LAST {
      InRange(from, n, upTo, minorct);
      NotFree(c, memory, from, n, upTo, r);
    } else {
      InFullRange(from, n, upTo, minorct);
      NotFree(c, memory, from, n, TWO32, r);
      if Free(c, memory, Parts(from, upTo)) {
        FirstMemory(c, memory, from, upTo);
      }
    }
  }

  lemma InRange(from: nat, n: nat, upTo: nat, minorct: nat)
    requires from <= n < upTo <= LAST && Boundary(from, n, upTo)
    requires Major(n) < 4095 ==>
               minorct == (if Mkdev(Major(n) + 1, 0) > upTo then upTo else Mkdev(Major(n) + 1, 0)) - n
    ensures Parts(from, upTo) == Parts(from, n) + Parts(n, upTo)
    ensures Region(Major(n), Minor(n), minorct) in Parts(n, upTo)
  {
    NextMajor(n);
    NextIs(n);
    var next := if Mkdev(Major(n) + 1, 0) > upTo then upTo else Mkdev(Major(n) + 1, 0);
    hide Parts, Mkdev, Major, Minor, Boundary;
    PartsMore(from, n, next, upTo);
  }

  lemma InFullRange(from: nat, n: nat, upTo: nat, minorct: nat)
    requires from <= n < upTo < TWO32 && LAST < upTo && Boundary(from, n, upTo)
    requires Major(n) < 4095 ==>
               minorct == (if Mkdev(Major(n) + 1, 0) > upTo then upTo else Mkdev(Major(n) + 1, 0)) - n
    requires Major(n) == 4095 ==> minorct == TWO32 - n
    ensures Parts(from, TWO32) == Parts(from, n) + Parts(n, TWO32)
    ensures Region(Major(n), Minor(n), minorct) in Parts(n, TWO32)
  {
    NextMajor(n);
    PartsMore(from, n, if Mkdev(Major(n) + 1, 0) > TWO32 then TWO32 else Mkdev(Major(n) + 1, 0), TWO32);
    hide Parts;
  }

  lemma ZeroFailed(c: Chains, c1: Chains, err: int, memory: nat -> bool, from: nat, n: nat, upTo: nat, minorct: nat)
    requires Standing(c, c1, memory, from, n, upTo, None) && n < upTo && err < 0
    requires |c1| == MAX_PROBE_HASH && Refused(c1, memory, n, minorct) && Major(from) == 0
    ensures |c| == MAX_PROBE_HASH && Verdict(c, c, err, memory, from, upTo - from)
  {
    OkSize(c);
    AllOut(c, c1, n);
    hide Ok, Busy, Parts, Plus, Registered, Mkdev, Minor, Free;
    if Free(c, memory, Parts(from, upTo)) {
      FirstMemory(c, memory, from, upTo);
    }
  }

  lemma Failed(c: Chains, c1: Chains, c': Chains, err: int, memory: nat -> bool, from: nat, count: nat, n: nat,
               upTo: nat, lost: Option<Region>, minorct: nat)
    requires Standing(c, c1, memory, from, n, upTo, lost) && n < upTo && err < 0 && Ok(c')
    requires minorct == ((if Next(n) > upTo then upTo else Next(n)) - n) % TWO32
    requires |c1| == MAX_PROBE_HASH && Refused(c1, memory, n, minorct) && RolledBack(c1, c', n)
    requires lost.None? ==> c' == c
    requires from < TWO32 && count < TWO32 && upTo == (from + count) % TWO32
    ensures |c| == MAX_PROBE_HASH && Verdict(c, c', err, memory, from, count)
  {
    StandingOk(c, c1, memory, from, n, upTo, lost);
    OkSize(c);
    EndIs(from, count, upTo);
    hide Ok, Standing, Next, Refused, RolledBack, Verdict, Major;
    if lost.Some? {
      LostFailed(c, c1, c', err, memory, from, n, upTo, lost.value);
    } else if Major(from) == 0 {
      ZeroFailed(c, c1, err, memory, from, n, upTo, minorct);
    } else {
      NormalFailed(c, c1, err, memory, from, n, upTo, minorct);
    }
  }

  lemma LostFailed(c: Chains, c1: Chains, c': Chains, err: int, memory: nat -> bool, from: nat, n: nat, upTo: nat,
                   x: Region)
    requires Standing(c, c1, memory, from, n, upTo, Some(x)) && n < upTo && err < 0 && Ok(c') && RolledBack(c1, c', n)
    ensures |c| == MAX_PROBE_HASH && from < upTo && Verdict(c, c', err, memory, from, upTo - from)
  {
    OkSize(c);
    HopelessRange(c, memory, from, upTo, x);
    hide Ok, Parts, Mkdev, Free, Verdict, Hopeless, Major, Registered;
    HopelessVerdict(c, c', err, memory, from, upTo, x);
  }

  lemma StandingOk(c: Chains, c': Chains, memory: nat -> bool, from: nat, n: nat, upTo: nat, lost: Option<Region>)
    requires Standing(c, c', memory, from, n, upTo, lost)
    ensures Ok(c) && from < TWO32 && upTo < TWO32 && (lost.None? ==> from <= n)
  {
  }

  lemma HopelessRange(c: Chains, memory: nat -> bool, from: nat, upTo: nat, x: Region)
    requires |c| == MAX_PROBE_HASH && Hopeless(c, memory, from, upTo, x)
    ensures from < upTo && (Major(from) > 0 ==> upTo > LAST && x.major == 4095)
  {
  }

  lemma Finished(c: Chains, c': Chains, memory: nat -> bool, from: nat, count: nat, n: nat, upTo: nat,
                 lost: Option<Region>)
    requires Standing(c, c', memory, from, n, upTo, lost) && n >= upTo
    requires from < TWO32 && count < TWO32 && upTo == (from + count) % TWO32
    ensures |c| == MAX_PROBE_HASH && Ok(c') && Verdict(c, c', 0, memory, from, count)
  {
    OkSize(c);
    EndIs(from, count, upTo);
    hide Ok, Busy, Registered, Free, Boundary, Mkdev;
    if lost.Some? {
      HopelessRange(c, memory, from, upTo, lost.value);
      hide Parts, Plus;
      assert Mkdev(4095, 0) == LAST;
      HopelessVerdict(c, c', 0, memory, from, upTo, lost.value);
    } else if upTo < from {
      FirstOf(from, from + count);
      assert Parts(from, from + count)[0] in Parts(from, from + count);
      AllOut(c, c', from);
      hide Parts;
    } else if count == 0 {
      hide Plus;
    } else {
      hide Parts, Plus;
    }
  }

  /** register_chrdev_region(MKDEV(4095, 0), 1) on an empty registry fails and leaves regions behind. */
  method RegisterLastMajor() returns (registry: Registry, ret: int)
    ensures |registry.chains| == MAX_PROBE_HASH && Ok(registry.chains)
    ensures ret < 0 && exists x :: Registered(registry.chains, x)
  {
    registry := new Registry();
    ghost var empty := registry.chains;
    hide Parts;
    assert Free(empty, _ => true, Parts(LAST, TWO32));
    ret := registry.RegisterRange(LAST, 1, _ => true);
    if forall x :: !Registered(registry.chains, x) {
      Canonical(empty, registry.chains);
      assert false;
    }
  }
}
