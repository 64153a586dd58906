/** fs/block_dev.c: opening and closing a disk and its partitions. */
module BlockDev {
  import opened Wrappers

  function Sum(s: seq<int>): int {
    if s == [] then 0 else s[0] + Sum(s[1..])
  }

  function Count(s: seq<int>): nat {
    if s == [] then 0 else (if s[0] > 0 then 1 else 0) + Count(s[1..])
  }

  lemma {:induction false} SumUpdate(s: seq<int>, i: nat, v: int)
    requires i < |s|
    ensures Sum(s[i := v]) == Sum(s) - s[i] + v
  {
    var t := s[i := v];
    if i == 0 {
      assert t[1..] == s[1..];
    } else {
      assert t[1..] == s[1..][i - 1 := v];
      SumUpdate(s[1..], i - 1, v);
    }
  }

  lemma {:induction false} CountUpdate(s: seq<int>, i: nat, v: int)
    requires i < |s|
    ensures Count(s[i := v]) == Count(s) - (if s[i] > 0 then 1 else 0) + (if v > 0 then 1 else 0)
  {
    var t := s[i := v];
    if i == 0 {
      assert t[1..] == s[1..];
    } else {
      assert t[1..] == s[1..][i - 1 := v];
      CountUpdate(s[1..], i - 1, v);
    }
  }

  /** A change to one entry, seen by the sums over the partitions and over all devices. */
  lemma OpenersUpdate(s: seq<int>, k: nat, v: int)
    requires k < |s|
    ensures Sum(s[k := v][1..]) == Sum(s[1..]) + (if k == 0 then 0 else v - s[k])
    ensures k == 0 ==> Count(s[k := v][1..]) == Count(s[1..])
    ensures k > 0 ==> Count(s[k := v][1..]) == Count(s[1..]) - (if s[k] > 0 then 1 else 0) + (if v > 0 then 1 else 0)
    ensures Count(s[k := v]) == Count(s) - (if s[k] > 0 then 1 else 0) + (if v > 0 then 1 else 0)
  {
    CountUpdate(s, k, v);
    if k == 0 {
      assert s[k := v][1..] == s[1..];
    } else {
      assert s[k := v][1..] == s[1..][k - 1 := v];
      SumUpdate(s[1..], k - 1, v);
      CountUpdate(s[1..], k - 1, v);
    }
  }

  /** The fields of struct block_device that opening and closing update. contains is bd_contains, as an index into the
      devices of the disk; disk and part say that bd_disk and bd_part are set; kobj counts the references on the
      partition's hd_struct, inodeRefs those on the device itself. */
  datatype BlockDevice = BlockDevice(openers: int, partCount: int, contains: Option<nat>, disk: bool, part: bool,
                                     inodeRefs: int, kobj: int)

  /** What a call of do_open meets: whether get_gendisk finds the disk, what the driver's open returns, and, for the
      first open of a partition, whether bdget_disk gets the whole device, what opening that meets, and whether the
      partition exists on a disk that is up. */
  datatype Meets = Meets(found: bool, openRet: int, wholeGot: bool, wholeFound: bool, wholeRet: int, partOk: bool)

  /** Whether the open goes through. */
  predicate Succeeds(e: Meets, k: nat, wasOpen: bool) {
    && e.found
    && (k == 0 ==> e.openRet == 0)
    && (k > 0 && !wasOpen ==> e.wholeGot && e.wholeFound && e.wholeRet == 0 && e.partOk)
  }

  /** What the first open of a partition returns. */
  function FirstResult(e: Meets): int {
    if !e.wholeGot then -12
    else if !e.wholeFound then -6
    else if e.wholeRet != 0 then e.wholeRet
    else if !e.partOk then -6
    else 0
  }

  function Openers(devs: seq<BlockDevice>): (s: seq<int>)
    ensures |s| == |devs| && forall i | 0 <= i < |s| :: s[i] == devs[i].openers
  {
    seq(|devs|, i requires 0 <= i < |devs| => devs[i].openers)
  }

  /** What a successful open of device k adds to the open count of device i, and a close takes from it: the first open
      of a partition opens the whole device too. */
  function OpenDelta(i: nat, k: nat, others: bool): int {
    if i == k || (i == 0 && !others) then 1 else 0
  }

  /** devs' differs from devs, in its open counts, by sign for every open device k counts for. */
  predicate Shifted(devs: seq<BlockDevice>, devs': seq<BlockDevice>, k: nat, others: bool, sign: int) {
    && |devs'| == |devs|
    && forall i | 0 <= i < |devs| :: devs'[i].openers == devs[i].openers + sign * OpenDelta(i, k, others)
  }

  /** And in the references on the devices themselves: the first open of a partition keeps one on the whole device. */
  predicate RefsShifted(devs: seq<BlockDevice>, devs': seq<BlockDevice>, k: nat) {
    && k < |devs| == |devs'|
    && forall i | 0 <= i < |devs| ::
         devs'[i].inodeRefs == devs[i].inodeRefs + if i == 0 && k > 0 && devs[k].openers == 0 then 1 else 0
  }

  /** Nothing is left of a failed open but the reference given back. */
  predicate Restored(devs: seq<BlockDevice>, devs': seq<BlockDevice>, k: nat) {
    k < |devs| && devs' == devs[k := devs[k].(inodeRefs := devs[k].inodeRefs - 1)]
  }

  predicate DeviceOk(b: BlockDevice, i: nat) {
    && 0 <= b.openers <= b.inodeRefs
    && (b.disk <==> b.openers > 0)
    && b.contains == (if b.openers > 0 then Some(0) else None)
    && (b.part <==> i > 0 && b.openers > 0)
    && b.kobj == (if i > 0 && b.openers > 0 then 1 else 0)
    && (i > 0 ==> b.partCount == 0)
  }

  /** The bookkeeping while device x is being opened or closed, with extra references held for it, when the whole
      device has been opened n times for itself. */
  predicate Mid(devs: seq<BlockDevice>, refs: int, ownerRefs: int, n: int, x: nat, extra: int) {
    && |devs| > 0 && n >= 0
    && (forall i | 0 <= i < |devs| && i != x :: DeviceOk(devs[i], i))
    && devs[0].partCount == Sum(Openers(devs)[1..])
    && devs[0].openers == n + Count(Openers(devs)[1..])
    && refs == ownerRefs == Count(Openers(devs)) + extra
  }

  /** A change to device k, and to the counts kept for all of them. */
  lemma MidUpdate(devs: seq<BlockDevice>, refs: int, n: int, x: nat, extra: int, k: nat, b: BlockDevice, refs': int,
                  n': int, x': nat, extra': int)
    requires Mid(devs, refs, refs, n, x, extra) && k < |devs| && n' >= 0
    requires (x' == k || DeviceOk(b, k)) && (x == k || x == x' || x >= |devs|)
    requires k == 0 ==> b.partCount == devs[0].partCount && b.openers - devs[0].openers == n' - n
    requires k > 0 ==> n' == n && b.openers == devs[k].openers
    requires refs' - refs == extra' - extra + (if b.openers > 0 then 1 else 0) - (if devs[k].openers > 0 then 1 else 0)
    ensures Mid(devs[k := b], refs', refs', n', x', extra')
  {
    OpenersUpdate(Openers(devs), k, b.openers);
    assert Openers(devs[k := b]) == Openers(devs)[k := b.openers];
    hide Sum, Count, Openers;
  }

  /** A change to the openers of partition k, with the whole device's count of them. */
  lemma PartUpdate(devs: seq<BlockDevice>, refs: int, n: int, x: nat, extra: int, k: nat, b: BlockDevice,
                   w: BlockDevice, n': int, refs': int, extra': int)
    requires Mid(devs, refs, refs, n, x, extra) && 0 < k < |devs| && DeviceOk(b, k) && (x == k || x >= |devs|)
    requires n' >= 0
    requires w == devs[0].(partCount := devs[0].partCount + b.openers - devs[k].openers)
    requires n' - n == (if devs[k].openers > 0 then 1 else 0) - (if b.openers > 0 then 1 else 0)
    requires refs' - refs == extra' - extra + n - n'
    ensures Mid(devs[0 := w][k := b], refs', refs', n', |devs|, extra')
  {
    var devs' := devs[0 := w][k := b];
    OpenersUpdate(Openers(devs), k, b.openers);
    assert Openers(devs') == Openers(devs)[k := b.openers];
    hide Sum, Count, Openers;
  }

  function WholeOpened(b: BlockDevice): BlockDevice {
    b.(openers := b.openers + 1, disk := true, contains := Some(0))
  }

  function WholeClosed(b: BlockDevice): BlockDevice {
    var c := b.(openers := b.openers - 1, inodeRefs := b.inodeRefs - 1);
    if c.openers == 0 then c.(disk := false, contains := None) else c
  }

  /** What a successful open of device k leaves of the devices. */
  function Opened(devs: seq<BlockDevice>, k: nat): seq<BlockDevice>
    requires k < |devs|
  {
    var b, w := devs[k], devs[0].(partCount := devs[0].partCount + 1);
    if k == 0 then devs[0 := WholeOpened(b)]
    else if b.openers > 0 then devs[0 := w][k := b.(openers := b.openers + 1)]
    else devs[0 := WholeOpened(w.(inodeRefs := w.inodeRefs + 1))]
             [k := b.(openers := b.openers + 1, disk := true, contains := Some(0), kobj := b.kobj + 1, part := true)]
  }

  /** What closing device k leaves of them. */
  function Closed(devs: seq<BlockDevice>, k: nat): seq<BlockDevice>
    requires k < |devs|
  {
    var b, w := devs[k].(openers := devs[k].openers - 1, inodeRefs := devs[k].inodeRefs - 1), devs[0];
    if k == 0 then devs[0 := WholeClosed(w)]
    else if b.openers > 0 then devs[0 := w.(partCount := w.partCount - 1)][k := b]
    else devs[0 := WholeClosed(w.(partCount := w.partCount - 1))]
             [k := b.(kobj := b.kobj - 1, part := false, disk := false, contains := None)]
  }

  /** Closing undoes opening, and gives back the reference that the opener came with. */
  lemma CloseUndoesOpen(devs: seq<BlockDevice>, k: nat)
    requires k < |devs| && (forall i | 0 <= i < |devs| :: DeviceOk(devs[i], i))
    ensures Closed(Opened(devs, k), k) == devs[k := devs[k].(inodeRefs := devs[k].inodeRefs - 1)]
  {
    assert DeviceOk(devs[0], 0) && DeviceOk(devs[k], k);
  }

  lemma OpenedShifts(devs: seq<BlockDevice>, k: nat)
    requires k < |devs| && devs[k].openers >= 0
    ensures Shifted(devs, Opened(devs, k), k, devs[k].openers > 0, 1) && RefsShifted(devs, Opened(devs, k), k)
  {
  }

  lemma ClosedShifts(devs: seq<BlockDevice>, k: nat)
    requires k < |devs| && devs[k].openers > 0
    ensures Shifted(devs, Closed(devs, k), k, devs[k].openers > 1, -1)
  {
  }

  /** A disk: devs[0] is the whole device, the others are its partitions. refs and ownerRefs are the references on the
      gendisk and on the driver module that open devices hold. */
  class Gendisk {
    var devs: seq<BlockDevice>
    var refs: int
    var ownerRefs: int

    /** The bookkeeping between calls. */
    ghost predicate Valid(n: int)
      reads this
    {
      Mid(devs, refs, ownerRefs, n, |devs|, 0)
    }

    constructor (partitions: nat)
      ensures Valid(0) && |devs| == partitions + 1 && forall i | 0 <= i <= partitions :: devs[i].openers == 0
    {
      devs := seq(partitions + 1, _ => BlockDevice(0, 0, None, false, false, 0, 0));
      refs, ownerRefs := 0, 0;
      new;
      NoOpeners(Openers(devs));
      NoOpeners(Openers(devs)[1..]);
    }

    /** do_open of the whole device, while device x is being opened. */
    method OpenWhole(found: bool, openRet: int, ghost n: int, ghost x: nat, ghost extra: int) returns (ret: int)
      requires Mid(devs, refs, ownerRefs, n, x, extra) && x != 0 && devs[0].inodeRefs > devs[0].openers
      modifies this
      ensures ret == if found then openRet else -6
      ensures Mid(devs, refs, ownerRefs, if ret == 0 then n + 1 else n, x, extra)
      ensures ret == 0 ==> devs == old(devs)[0 := WholeOpened(old(devs)[0])]
      ensures ret == 0 ==> refs == ownerRefs == old(refs) + (if old(devs)[0].openers == 0 then 1 else 0)
      ensures ret != 0 ==> Restored(old(devs), devs, 0) && refs == ownerRefs == old(refs)
    {
      assert DeviceOk(devs[0], 0) && refs == ownerRefs;
      hide Mid, Openers;
      ghost var devs0, refs0 := devs, refs;
      var b := devs[0];
      if !found {
        devs := devs[0 := b.(inodeRefs := b.inodeRefs - 1)];
        MidUpdate(devs0, refs0, n, x, extra, 0, devs[0], refs, n, x, extra);
        return -6;
      }
      refs, ownerRefs := refs + 1, ownerRefs + 1;
      if b.openers == 0 {
        b := b.(disk := true, contains := Some(0));
        if openRet != 0 {
          // out_first
          b := b.(disk := false, contains := None);
          refs, ownerRefs := refs - 1, ownerRefs - 1;
          devs := devs[0 := b.(inodeRefs := b.inodeRefs - 1)];
          MidUpdate(devs0, refs0, n, x, extra, 0, devs[0], refs, n, x, extra);
          return openRet;
        }
      } else {
        refs, ownerRefs := refs - 1, ownerRefs - 1;
        if openRet != 0 {
          devs := devs[0 := b.(inodeRefs := b.inodeRefs - 1)];
          MidUpdate(devs0, refs0, n, x, extra, 0, devs[0], refs, n, x, extra);
          return openRet;
        }
      }
      devs := devs[0 := b.(openers := b.openers + 1)];
      MidUpdate(devs0, refs0, n, x, extra, 0, devs[0], refs, n + 1, x, extra);
      return 0;
    }

    /** blkdev_put of the whole device. */
    method PutWhole(ghost n: int, ghost x: nat, ghost extra: int)
      requires Mid(devs, refs, ownerRefs, n, x, extra) && x != 0 && n > 0
      modifies this
      ensures Mid(devs, refs, ownerRefs, n - 1, x, extra)
      ensures devs == old(devs)[0 := WholeClosed(old(devs)[0])]
      ensures refs == ownerRefs == old(refs) - (if old(devs)[0].openers == 1 then 1 else 0)
    {
      assert DeviceOk(devs[0], 0) && refs == ownerRefs && devs[0].openers > 0;
      hide Mid, Openers;
      ghost var devs0, refs0 := devs, refs;
      var b := devs[0].(openers := devs[0].openers - 1);
      if b.openers == 0 {
        refs, ownerRefs := refs - 1, ownerRefs - 1;
        b := b.(disk := false, contains := None);
      }
      devs := devs[0 := b.(inodeRefs := b.inodeRefs - 1)];
      MidUpdate(devs0, refs0, n, x, extra, 0, devs[0], refs, n - 1, x, extra);
    }

    /** do_open of partition k. */
    method OpenPart(k: nat, e: Meets, ghost n: int) returns (ret: int)
      requires Valid(n) && 0 < k < |devs| && devs[k].inodeRefs > devs[k].openers
      modifies this
      ensures ret == if !e.found then -6 else if old(devs[k].openers) > 0 then 0 else FirstResult(e)
      ensures Valid(n)
      ensures ret == 0 ==> devs == Opened(old(devs), k)
      ensures ret != 0 ==> Restored(old(devs), devs, k) && refs == old(refs) && ownerRefs == old(ownerRefs)
    {
      ghost var devs0, refs0 := devs, refs;
      var b := devs[k];
      assert DeviceOk(b, k) && refs == ownerRefs;
      hide Mid, Openers;
      if !e.found {
        devs := devs[k := b.(inodeRefs := b.inodeRefs - 1)];
        MidUpdate(devs0, refs0, n, |devs|, 0, k, devs[k], refs, n, |devs|, 0);
        return -6;
      }
      refs, ownerRefs := refs + 1, ownerRefs + 1;
      if b.openers > 0 {
        refs, ownerRefs := refs - 1, ownerRefs - 1;
        var w := devs[0].(partCount := devs[0].partCount + 1);
        devs := devs[0 := w][k := b.(openers := b.openers + 1)];
        PartUpdate(devs0, refs, n, |devs|, 0, k, devs[k], w, n, refs, 0);
        return 0;
      }
      devs := devs[k := b.(disk := true, contains := Some(k))];
      MidUpdate(devs0, refs0, n, |devs|, 0, k, devs[k], refs, n, k, 1);
      ret := FirstOpen(k, e, n, devs0, refs0);
    }

    /** The first open of a partition, which opens the whole device too; devs0 is the state before the call. */
    method FirstOpen(k: nat, e: Meets, ghost n: int, ghost devs0: seq<BlockDevice>, ghost refs0: int) returns (ret: int)
      requires Mid(devs, refs, ownerRefs, n, k, 1) && 0 < k < |devs| == |devs0| && refs == ownerRefs == refs0 + 1
      requires DeviceOk(devs0[k], k) && devs0[k].openers == 0 && devs0[k].inodeRefs > 0
      requires devs == devs0[k := devs0[k].(disk := true, contains := Some(k))]
      modifies this
      ensures ret == FirstResult(e)
      ensures Valid(n)
      ensures ret == 0 ==> devs == Opened(devs0, k)
      ensures ret != 0 ==> Restored(devs0, devs, k) && refs == ownerRefs == refs0
    {
      assert DeviceOk(devs[0], 0);
      hide Mid, Openers;
      if !e.wholeGot {
        OutFirst(k, n, devs0[k]);
        return -12;
      }
      ghost var devs1, refs1 := devs, refs;
      devs := devs[0 := devs[0].(inodeRefs := devs[0].inodeRefs + 1)];
      MidUpdate(devs1, refs1, n, k, 1, 0, devs[0], refs, n, k, 1);
      ret := OpenWhole(e.wholeFound, e.wholeRet, n, k, 1);
      if ret != 0 {
        OutFirst(k, n, devs0[k]);
        return;
      }
      ret := FinishFirst(k, e.partOk, n, devs0, refs0);
    }

    /** The whole device has been opened; the partition is checked. */
    method FinishFirst(k: nat, partOk: bool, ghost n: int, ghost devs0: seq<BlockDevice>, ghost refs0: int)
      returns (ret: int)
      requires Mid(devs, refs, ownerRefs, n + 1, k, 1) && 0 < k < |devs| == |devs0| && n >= 0
      requires DeviceOk(devs0[k], k) && devs0[k].openers == 0 && devs0[k].inodeRefs > 0 && DeviceOk(devs0[0], 0)
      requires devs == devs0[0 := WholeOpened(devs0[0].(inodeRefs := devs0[0].inodeRefs + 1))]
                            [k := devs0[k].(disk := true, contains := Some(k))]
      requires refs == ownerRefs == refs0 + 1 + (if devs0[0].openers == 0 then 1 else 0)
      modifies this
      ensures ret == if partOk then 0 else -6
      ensures Valid(n)
      ensures ret == 0 ==> devs == Opened(devs0, k)
      ensures ret != 0 ==> Restored(devs0, devs, k) && refs == ownerRefs == refs0
    {
      hide Mid, Openers;
      ghost var devs1, refs1 := devs, refs;
      devs := devs[k := devs[k].(contains := Some(0))];
      MidUpdate(devs1, refs1, n + 1, k, 1, k, devs[k], refs, n + 1, k, 1);
      ghost var devs2 := devs;
      var w := devs[0].(partCount := devs[0].partCount + 1);
      if !partOk {
        w := w.(partCount := w.partCount - 1);
        devs := devs[0 := w];
        assert devs == devs2;
        // out_first, where bd_contains is the whole device by now
        PutWhole(n + 1, k, 1);
        assert devs[0] == devs0[0];
        OutFirst(k, n, devs0[k]);
        return -6;
      }
      devs := devs[0 := w][k := devs[k].(kobj := devs[k].kobj + 1, part := true, openers := devs[k].openers + 1)];
      PartUpdate(devs2, refs, n + 1, k, 1, k, devs[k], w, n, refs, 0);
      return 0;
    }

    /** out_first, apart from the put of the whole device; b is the device as it was before the call. */
    method OutFirst(k: nat, ghost n: int, ghost b: BlockDevice)
      requires Mid(devs, refs, ownerRefs, n, k, 1) && 0 < k < |devs| && refs == ownerRefs
      requires DeviceOk(b, k) && b.openers == 0 && b.inodeRefs > 0
      requires devs[k].(disk := false, contains := None) == b && n >= 0
      modifies this
      ensures Valid(n) && devs == old(devs)[k := b.(inodeRefs := b.inodeRefs - 1)] && refs == ownerRefs == old(refs) - 1
    {
      hide Mid, Openers;
      ghost var devs0, refs0 := devs, refs;
      devs := devs[k := devs[k].(disk := false, contains := None)];
      refs, ownerRefs := refs - 1, ownerRefs - 1;
      devs := devs[k := devs[k].(inodeRefs := devs[k].inodeRefs - 1)];
      assert devs == devs0[k := devs[k]];
      MidUpdate(devs0, refs0, n, k, 1, k, devs[k], refs, n, |devs|, 0);
    }

    /** blkdev_put of partition k. */
    method PutPart(k: nat, ghost n: int)
      requires Valid(n) && 0 < k < |devs| && devs[k].openers > 0
      modifies this
      ensures Valid(n)
      ensures devs == Closed(old(devs), k)
    {
      assert DeviceOk(devs[k], k) && refs == ownerRefs && n >= 0;
      hide Mid, Openers;
      ghost var devs0, refs0 := devs, refs;
      var b, w := devs[k], devs[0];
      b := b.(openers := b.openers - 1);
      w := w.(partCount := w.partCount - 1);
      if b.openers == 0 {
        refs, ownerRefs := refs - 1, ownerRefs - 1;
        b := b.(kobj := b.kobj - 1, part := false, disk := false, contains := None);
      }
      devs := devs[0 := w][k := b.(inodeRefs := b.inodeRefs - 1)];
      PartUpdate(devs0, refs0, n, |devs|, 0, k, devs[k], w, if b.openers == 0 then n + 1 else n, refs, 0);
      if b.openers == 0 {
        PutWhole(n + 1, |devs|, 0);
      }
    }

    /** do_open, by a caller that holds a reference on the device. It succeeds exactly when everything it needs does; a
        failed open returns -ENXIO for a disk or partition that is not there, -ENOMEM if the whole device is not to be
        had, or else what the driver's open returned, leaves everything as it was and gives that reference back. */
    method DoOpen(k: nat, e: Meets, ghost n: int) returns (ret: int)
      requires Valid(n) && k < |devs| && devs[k].inodeRefs > devs[k].openers
      modifies this
      ensures ret == 0 <==> Succeeds(e, k, old(devs[k].openers) > 0)
      ensures ret == if !e.found then -6
                     else if k == 0 then e.openRet
                     else if old(devs[k].openers) > 0 then 0
                     else if !e.wholeGot then -12
                     else if !e.wholeFound then -6
                     else if e.wholeRet != 0 then e.wholeRet
                     else if !e.partOk then -6
                     else 0
      ensures Valid(if ret == 0 && k == 0 then n + 1 else n)
      ensures ret == 0 ==> devs == Opened(old(devs), k)
      ensures ret == 0 ==> Shifted(old(devs), devs, k, old(devs[k].openers) > 0, 1) && RefsShifted(old(devs), devs, k)
      ensures ret != 0 ==> Restored(old(devs), devs, k) && refs == old(refs) && ownerRefs == old(ownerRefs)
    {
      assert refs == ownerRefs && DeviceOk(devs[k], k);
      OpenedShifts(devs, k);
      hide Mid;
      if k == 0 {
        ret := OpenWhole(e.found, e.openRet, n, |devs|, 0);
      } else {
        ret := OpenPart(k, e, n);
      }
    }

    /** blkdev_put, by a caller whose open of the device it undoes. */
    method BlkdevPut(k: nat, ghost n: int)
      requires Valid(n) && k < |devs| && devs[k].openers > 0 && (k == 0 ==> n > 0)
      modifies this
      ensures Valid(if k == 0 then n - 1 else n)
      ensures devs == Closed(old(devs), k) && Shifted(old(devs), devs, k, old(devs[k].openers) > 1, -1)
    {
      ClosedShifts(devs, k);
      hide Mid;
      if k == 0 {
        PutWhole(n, |devs|, 0);
      } else {
        PutPart(k, n);
      }
    }
  }

  datatype Op = Open(k: nat, e: Meets) | Close(k: nat)

  /** The opens of each device that have succeeded and not been closed: every open that can succeeds, and every one that
      has succeeded can be closed. */
  function AfterOp(d: seq<nat>, op: Op): (d': seq<nat>)
    ensures |d'| == |d|
  {
    if op.k >= |d| then d
    else if op.Open? then if Succeeds(op.e, op.k, d[op.k] > 0) then d[op.k := d[op.k] + 1] else d
    else if d[op.k] > 0 then d[op.k := d[op.k] - 1]
    else d
  }

  function Direct(n: nat, ops: seq<Op>): (d: seq<nat>)
    ensures |d| == n
  {
    if ops == [] then seq(n, _ => 0) else AfterOp(Direct(n, ops[..|ops| - 1]), ops[|ops| - 1])
  }

  /** The bookkeeping is right when direct counts the opens. */
  ghost predicate Books(disk: Gendisk, direct: seq<nat>)
    reads disk
  {
    && |direct| == |disk.devs| > 0 && disk.Valid(direct[0])
    && forall i | 0 < i < |disk.devs| :: disk.devs[i].openers == direct[i]
  }

  method RunOp(disk: Gendisk, op: Op, direct: seq<nat>) returns (direct': seq<nat>)
    requires Books(disk, direct)
    modifies disk
    ensures Books(disk, direct') && direct' == AfterOp(direct, op)
  {
    hide Mid, Opened, Closed;
    var k := op.k;
    direct' := direct;
    if k < |disk.devs| {
      if op.Open? {
        var ok := OpenOne(disk, k, op.e, direct[0]);
        if ok {
          direct' := direct[k := direct[k] + 1];
        }
      } else if direct[k] > 0 {
        CloseOne(disk, k, direct[0]);
        direct' := direct[k := direct[k] - 1];
      }
    }
  }

  /** Disks and partitions opened and closed in any order, any open failing: direct counts the opens of each device that
      have succeeded and not been closed. A partition's open count is that number; the whole device's is that number
      and one for every open partition (Valid). */
  method RunOps(disk: Gendisk, ops: seq<Op>) returns (direct: seq<nat>)
    requires disk.Valid(0) && forall i | 0 <= i < |disk.devs| :: disk.devs[i].openers == 0
    modifies disk
    ensures |direct| == |disk.devs| == old(|disk.devs|) && disk.Valid(direct[0])
    ensures forall i | 0 < i < |disk.devs| :: disk.devs[i].openers == direct[i]
    ensures direct == Direct(|direct|, ops)
  {
    direct := seq(|disk.devs|, _ => 0);
    assert ops[..|ops|] == ops;
    hide Mid, AfterOp;
    for j := 0 to |ops|
      invariant Books(disk, direct) && |direct| == old(|disk.devs|) && direct == Direct(|direct|, ops[..j])
    {
      assert ops[..j + 1][..j] == ops[..j];
      direct := RunOp(disk, ops[j], direct);
    }
  }

  /** bdget of device k. */
  function Bdget(devs: seq<BlockDevice>, k: nat): seq<BlockDevice>
    requires k < |devs|
  {
    devs[k := devs[k].(inodeRefs := devs[k].inodeRefs + 1)]
  }

  /** bdget and do_open. */
  method OpenOne(disk: Gendisk, k: nat, e: Meets, ghost n: int) returns (ok: bool)
    requires disk.Valid(n) && k < |disk.devs|
    modifies disk
    ensures |disk.devs| == old(|disk.devs|) && disk.Valid(if ok && k == 0 then n + 1 else n)
    ensures forall i | 0 < i < |disk.devs| ::
              disk.devs[i].openers == old(disk.devs[i].openers) + (if ok && i == k then 1 else 0)
    ensures ok <==> Succeeds(e, k, old(disk.devs[k].openers) > 0)
    ensures !ok ==> disk.devs == old(disk.devs) && disk.refs == old(disk.refs) && disk.ownerRefs == old(disk.ownerRefs)
    ensures ok ==> disk.devs == Opened(Bdget(old(disk.devs), k), k)
  {
    ghost var devs0 := disk.devs;
    assert DeviceOk(devs0[k], k) && disk.refs == disk.ownerRefs;
    hide Mid, Openers, Opened;
    disk.devs := Bdget(disk.devs, k);
    MidUpdate(devs0, disk.refs, n, |devs0|, 0, k, disk.devs[k], disk.refs, n, |devs0|, 0);
    var ret := disk.DoOpen(k, e, n);
    ok := ret == 0;
  }

  /** bdget, do_open and blkdev_put leave the disk as it was. */
  method OpenAndClose(disk: Gendisk, k: nat, e: Meets, ghost n: int)
    requires disk.Valid(n) && k < |disk.devs|
    modifies disk
    ensures disk.Valid(n) && disk.devs == old(disk.devs)
    ensures disk.refs == old(disk.refs) && disk.ownerRefs == old(disk.ownerRefs)
  {
    ghost var devs0 := disk.devs;
    assert forall i | 0 <= i < |devs0| :: DeviceOk(devs0[i], i);
    CloseUndoesOpen(Bdget(devs0, k), k);
    PutBack(devs0, k);
    OpenAfter(Bdget(devs0, k), k);
    RefsAre(disk, n);
    hide Mid, Openers, Opened, Closed;
    var ok := OpenOne(disk, k, e, n);
    if ok {
      CloseOne(disk, k, if k == 0 then n + 1 else n);
      RefsAre(disk, n);
    }
  }

  lemma PutBack(devs: seq<BlockDevice>, k: nat)
    requires k < |devs|
    ensures var held := Bdget(devs, k); held[k := held[k].(inodeRefs := held[k].inodeRefs - 1)] == devs
  {
  }

  lemma OpenAfter(devs: seq<BlockDevice>, k: nat)
    requires k < |devs| && devs[k].openers >= 0
    ensures |Opened(devs, k)| == |devs| && Opened(devs, k)[k].openers > 0
  {
  }

  /** The references are determined by the devices. */
  lemma RefsAre(disk: Gendisk, n: int)
    requires disk.Valid(n)
    ensures disk.refs == disk.ownerRefs == Count(Openers(disk.devs))
  {
  }

  method CloseOne(disk: Gendisk, k: nat, ghost n: int)
    requires disk.Valid(n) && k < |disk.devs| && (if k == 0 then n > 0 else disk.devs[k].openers > 0)
    modifies disk
    ensures |disk.devs| == old(|disk.devs|) && disk.Valid(if k == 0 then n - 1 else n)
    ensures forall i | 0 < i < |disk.devs| ::
              disk.devs[i].openers == old(disk.devs[i].openers) - (if i == k then 1 else 0)
    ensures disk.devs == Closed(old(disk.devs), k)
  {
    disk.BlkdevPut(k, n);
  }

  lemma {:induction false} NoOpeners(s: seq<int>)
    requires forall i | 0 <= i < |s| :: s[i] == 0
    ensures Sum(s) == 0 && Count(s) == 0
  {
    if s != [] {
      NoOpeners(s[1..]);
    }
  }
}
