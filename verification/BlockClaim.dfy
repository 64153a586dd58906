/** fs/block_dev.c: exclusive claims on a disk and its partitions. */
module BlockClaim {
  import opened BlockDev

  /** bd_holder: nobody, bd_claim itself, or the holder's address. */
  datatype Holder = Nobody | BdClaim | By(id: nat)

  predicate NonNegative(s: seq<int>) {
    forall i | 0 <= i < |s| :: s[i] >= 0
  }

  lemma {:induction false} SumOfClaims(s: seq<int>)
    requires NonNegative(s)
    ensures Sum(s) >= 0 && (Sum(s) == 0 <==> forall i | 0 <= i < |s| :: s[i] == 0)
  {
    if s != [] {
      SumOfClaims(s[1..]);
      if Sum(s) == 0 {
        forall i | 0 <= i < |s|
          ensures s[i] == 0
        {
          if i > 0 {
            assert s[1..][i - 1] == s[i];
          }
        }
      } else if s[0] == 0 {
        var i :| 0 <= i < |s[1..]| && s[1..][i] != 0;
        assert s[i + 1] != 0;
      }
    }
  }

  /** The claims on the partitions of a disk. */
  ghost function PartClaims(own: seq<int>): int
    requires |own| > 0
  {
    Sum(own[1..])
  }

  lemma PartClaimsUpdate(own: seq<int>, k: nat, v: int)
    requires k < |own| && NonNegative(own) && v >= 0
    ensures PartClaims(own[k := v]) == PartClaims(own) + (if k == 0 then 0 else v - own[k])
    ensures PartClaims(own) >= (if k == 0 then 0 else own[k])
    ensures PartClaims(own) == 0 <==> forall i | 0 < i < |own| :: own[i] == 0
  {
    OpenersUpdate(own, k, v);
    SumOfClaims(own[1..]);
    assert forall i | 0 < i < |own| :: own[i] == own[1..][i - 1];
    if k > 0 {
      OpenersUpdate(own, k, 0);
      SumOfClaims(own[k := 0][1..]);
    }
  }

  /** The claims granted and not yet released, by device, each with its holder. No device has two holders, and a whole
      disk and one of its partitions are never claimed together. */
  ghost predicate Exclusive(claims: seq<multiset<nat>>)
    requires |claims| > 0
  {
    && (forall k, h, g | 0 <= k < |claims| && h in claims[k] && g in claims[k] :: h == g)
    && (claims[0] != multiset{} ==> forall k | 0 < k < |claims| :: claims[k] == multiset{})
  }

  ghost function Claimed(claims: seq<multiset<nat>>, k: nat, h: nat): seq<multiset<nat>>
    requires k < |claims|
  {
    claims[k := claims[k] + multiset{h}]
  }

  ghost function Released(claims: seq<multiset<nat>>, k: nat, h: nat): seq<multiset<nat>>
    requires k < |claims|
  {
    claims[k := claims[k] - multiset{h}]
  }

  /** Whether h may claim device k: nobody else has it, and neither the whole disk (for a partition) nor a partition
      (for the whole disk) is claimed. */
  lemma ExclusiveClaim(claims: seq<multiset<nat>>, k: nat, h: nat)
    requires k < |claims| && Exclusive(claims)
    ensures Exclusive(Claimed(claims, k, h)) <==>
              && (forall g | g in claims[k] :: g == h)
              && (if k > 0 then claims[0] == multiset{} else forall i | 0 < i < |claims| :: claims[i] == multiset{})
  {
    var claims' := Claimed(claims, k, h);
    assert h in claims'[k] && claims'[k] != multiset{};
    assert forall g :: g in claims'[k] <==> g in claims[k] || g == h;
    assert forall i | 0 <= i < |claims| && i != k :: claims'[i] == claims[i];
  }

  lemma ExclusiveRelease(claims: seq<multiset<nat>>, k: nat, h: nat)
    requires k < |claims| && Exclusive(claims)
    ensures Exclusive(Released(claims, k, h))
  {
    var claims' := Released(claims, k, h);
    assert forall g :: g in claims'[k] ==> g in claims[k];
    assert forall i | 0 <= i < |claims| && i != k :: claims'[i] == claims[i];
  }

  /** Every claim on a device is one of its holder. */
  ghost predicate HeldBy(claims: seq<multiset<nat>>, own: seq<int>, holder: seq<Holder>) {
    && |claims| == |own| == |holder|
    && forall k | 0 <= k < |claims| :: own[k] == |claims[k]| && forall h | h in claims[k] :: holder[k] == By(h)
  }

  lemma HeldClaimed(claims: seq<multiset<nat>>, own: seq<int>, holder: seq<Holder>, holder': seq<Holder>, k: nat,
                    h: nat)
    requires HeldBy(claims, own, holder) && k < |own| == |holder'| && (own[k] > 0 ==> holder[k] == By(h))
    requires holder'[k] == By(h) && (k > 0 ==> own[0] == 0)
    requires forall i | 0 < i < |own| && i != k :: holder'[i] == holder[i]
    ensures HeldBy(Claimed(claims, k, h), own[k := own[k] + 1], holder')
  {
    var claims' := Claimed(claims, k, h);
    forall i | 0 <= i < |claims|
      ensures own[k := own[k] + 1][i] == |claims'[i]| && forall g | g in claims'[i] :: holder'[i] == By(g)
    {
      if i == k {
        forall g | g in claims'[k]
          ensures g == h
        {
          if g in claims[k] {
            assert |claims[k]| > 0;
          }
        }
      } else if i == 0 {
        assert claims[0] == multiset{};
      }
    }
  }

  lemma HeldReleased(claims: seq<multiset<nat>>, own: seq<int>, holder: seq<Holder>, holder': seq<Holder>, k: nat,
                     h: nat)
    requires HeldBy(claims, own, holder) && k < |own| == |holder'| && h in claims[k] && (k > 0 ==> own[0] == 0)
    requires own[k] > 1 ==> holder'[k] == holder[k]
    requires forall i | 0 < i < |own| && i != k :: holder'[i] == holder[i]
    ensures HeldBy(Released(claims, k, h), own[k := own[k] - 1], holder')
  {
    var claims' := Released(claims, k, h);
    assert |claims[k]| == |claims'[k]| + 1;
    forall i | 0 <= i < |claims|
      ensures own[k := own[k] - 1][i] == |claims'[i]| && forall g | g in claims'[i] :: holder'[i] == By(g)
    {
      if i == k {
        forall g | g in claims'[k]
          ensures holder'[k] == By(g)
        {
          assert g in claims[k] && |claims'[k]| > 0;
        }
      } else if i == 0 {
        assert claims[0] == multiset{};
      }
    }
  }

  /** bd_holders and bd_holder of a disk and its partitions with the given numbers of claims. */
  ghost predicate CountedBy(own: seq<int>, holders: seq<int>, holder: seq<Holder>) {
    && 0 < |own| == |holders| == |holder| && NonNegative(own)
    && holders[0] == 2 * own[0] + PartClaims(own)
    && (own[0] > 0 ==> holder[0].By? && PartClaims(own) == 0)
    && (own[0] == 0 ==> holder[0] == if PartClaims(own) > 0 then BdClaim else Nobody)
    && forall i | 0 < i < |own| :: holders[i] == own[i] && (if own[i] > 0 then holder[i].By? else holder[i] == Nobody)
  }

  lemma GrantCounted(own: seq<int>, n: seq<int>, b: seq<Holder>, n': seq<int>, b': seq<Holder>, k: nat, h: nat)
    requires CountedBy(own, n, b) && k < |own| == |n'| == |b'|
    requires b[k] == By(h) || (b[k] == Nobody && (k == 0 || b[0] == BdClaim || b[0] == Nobody))
    requires forall i | 0 <= i < |own| :: n'[i] == n[i] + (if i == 0 then 1 else 0) + (if i == k then 1 else 0)
    requires forall i | 0 <= i < |own| :: b'[i] == if i == k then By(h) else if i == 0 then BdClaim else b[i]
    ensures CountedBy(own[k := own[k] + 1], n', b')
    ensures (own[k] > 0 ==> b[k] == By(h)) && (k > 0 ==> own[0] == 0)
  {
    PartClaimsUpdate(own, k, own[k] + 1);
    NonNegativeUpdate(own, k, own[k] + 1);
    hide PartClaims, NonNegative;
  }

  lemma ReleaseCounted(own: seq<int>, n: seq<int>, b: seq<Holder>, n': seq<int>, b': seq<Holder>, k: nat)
    requires CountedBy(own, n, b) && k < |own| == |n'| == |b'| && own[k] > 0
    requires forall i | 0 <= i < |own| :: n'[i] == n[i] - (if i == 0 then 1 else 0) - (if i == k then 1 else 0)
    requires forall i | 0 <= i < |own| :: b'[i] == if (i == k || i == 0) && n'[i] == 0 then Nobody else b[i]
    ensures CountedBy(own[k := own[k] - 1], n', b')
    ensures (own[k] > 1 ==> b'[k] == b[k]) && (k > 0 ==> own[0] == 0)
  {
    PartClaimsUpdate(own, k, own[k] - 1);
    NonNegativeUpdate(own, k, own[k] - 1);
    hide PartClaims, NonNegative;
  }

  /** The devices of one disk, the whole disk first. claims are those granted and not yet released, own their
      numbers. */
  class ClaimedDisk {
    var holders: seq<int>
    var holder: seq<Holder>
    ghost var claims: seq<multiset<nat>>
    ghost var own: seq<int>

    ghost predicate Valid()
      reads this
    {
      CountedBy(own, holders, holder) && HeldBy(claims, own, holder)
    }

    constructor (partitions: nat)
      ensures Valid() && claims == seq(partitions + 1, _ => multiset{})
    {
      holders := seq(partitions + 1, _ => 0);
      holder := seq(partitions + 1, _ => Nobody);
      own := seq(partitions + 1, _ => 0);
      claims := seq(partitions + 1, _ => multiset{});
      new;
      SumOfClaims(own[1..]);
    }

    /** In every state the claims are exclusive, the count of a partition is the number of its claims, that of the whole
        disk twice its own plus those of its partitions, and a device has a holder exactly when its count is not 0. */
    lemma ClaimsExclusive()
      requires Valid()
      ensures |claims| > 0 && Exclusive(claims)
      ensures forall k | 0 <= k < |claims| :: holder[k] == Nobody <==> holders[k] == 0
      ensures forall k | 0 < k < |claims| :: holders[k] == |claims[k]|
      ensures holders[0] == 2 * |claims[0]| + PartClaims(own)
    {
      PartClaimsUpdate(own, 0, own[0]);
      hide PartClaims;
      forall k, h, g | 0 <= k < |claims| && h in claims[k] && g in claims[k]
        ensures h == g
      {
        assert By(h) == holder[k] == By(g);
      }
      if claims[0] != multiset{} {
        assert |claims[0]| > 0;
        forall k | 0 < k < |claims|
          ensures claims[k] == multiset{}
        {
          assert own[k] == 0;
        }
      }
    }

    /** What the code asks before it grants a claim is whether the claims would still be exclusive. */
    lemma WouldExclude(k: nat, h: nat)
      requires Valid() && k < |claims|
      ensures Exclusive(claims) && PartClaims(own) >= 0
      ensures Exclusive(Claimed(claims, k, h)) <==>
                holder[k] == By(h) || (holder[k] == Nobody && (k == 0 || holder[0] == BdClaim || holder[0] == Nobody))
    {
      ClaimsExclusive();
      ExclusiveClaim(claims, k, h);
      PartClaimsUpdate(own, k, own[k]);
      hide PartClaims, Exclusive, Claimed;
      assert forall i | 0 <= i < |claims| :: claims[i] == multiset{} <==> own[i] == 0;
      if own[k] > 0 {
        assert claims[k] != multiset{};
        var g :| g in claims[k];
      }
    }

    /** bd_claim. It is granted exactly when the claims stay exclusive, and refused without a trace. */
    method Claim(k: nat, h: nat) returns (res: int)
      requires Valid() && k < |claims|
      modifies this
      ensures Valid()
      ensures res == 0 || res == -16
      ensures res == 0 <==> Exclusive(Claimed(old(claims), k, h))
      ensures claims == if res == 0 then Claimed(old(claims), k, h) else old(claims)
      ensures res != 0 ==> holder == old(holder) && holders == old(holders)
    {
      WouldExclude(k, h);
      PartClaimsUpdate(own, k, own[k] + 1);
      hide PartClaims, NonNegative, Exclusive;
      if holder[k] == By(h) {
        res := 0;
      } else if holder[k] != Nobody {
        res := -16;
      } else if k == 0 {
        res := 0;
      } else if holder[0] == BdClaim {
        res := 0;
      } else if holder[0] != Nobody {
        res := -16;
      } else {
        res := 0;
      }
      if res == 0 {
        hide *;
        Grant(k, h);
      }
    }

    /** The change bd_claim imposes. */
    method Grant(k: nat, h: nat)
      requires Valid() && k < |claims|
      requires holder[k] == By(h) || (holder[k] == Nobody && (k == 0 || holder[0] == BdClaim || holder[0] == Nobody))
      modifies this
      ensures Valid() && claims == Claimed(old(claims), k, h)
    {
      ghost var count, was := holders, holder;
      Sizes();
      hide CountedBy, HeldBy, Claimed;
      Impose(k, h);
      GrantCounted(own, count, was, holders, holder, k, h);
      HeldClaimed(claims, own, was, holder, k, h);
      own := own[k := own[k] + 1];
      claims := Claimed(claims, k, h);
    }

    /** bd_contains is counted and held first, then the device; for a whole disk they are the same. */
    method Impose(k: nat, h: nat)
      requires k < |holders| == |holder|
      modifies this`holders, this`holder
      ensures |holders| == |holder| == old(|holder|)
      ensures forall i | 0 <= i < |holders| ::
                holders[i] == old(holders)[i] + (if i == 0 then 1 else 0) + (if i == k then 1 else 0)
      ensures forall i | 0 <= i < |holder| ::
                holder[i] == if i == k then By(h) else if i == 0 then BdClaim else old(holder)[i]
    {
      holders := holders[0 := holders[0] + 1];
      holder := holder[0 := BdClaim];
      holders := holders[k := holders[k] + 1];
      holder := holder[k := By(h)];
    }

    /** bd_release, by a holder. */
    method Release(k: nat, h: nat)
      requires Valid() && k < |claims| && h in claims[k]
      modifies this
      ensures Valid()
      ensures claims == Released(old(claims), k, h)
    {
      ghost var count, was := holders, holder;
      Sizes();
      ClaimCounts(k, h);
      hide CountedBy, HeldBy, Released;
      Unclaim(k);
      ReleaseCounted(own, count, was, holders, holder, k);
      HeldReleased(claims, own, was, holder, k, h);
      own := own[k := own[k] - 1];
      claims := Released(claims, k, h);
    }

    /** Both counts go down, and a device whose count is 0 loses its holder. */
    method Unclaim(k: nat)
      requires k < |holders| == |holder| && (k == 0 ==> holders[0] >= 2)
      modifies this`holders, this`holder
      ensures |holders| == |holder| == old(|holder|)
      ensures forall i | 0 <= i < |holders| ::
                holders[i] == old(holders)[i] - (if i == 0 then 1 else 0) - (if i == k then 1 else 0)
      ensures forall i | 0 <= i < |holder| ::
                holder[i] == if (i == k || i == 0) && holders[i] == 0 then Nobody else old(holder)[i]
    {
      holders := holders[0 := holders[0] - 1];
      if holders[0] == 0 {
        holder := holder[0 := Nobody];
      }
      holders := holders[k := holders[k] - 1];
      if holders[k] == 0 {
        holder := holder[k := Nobody];
      }
    }

    lemma Sizes()
      requires Valid()
      ensures 0 < |own| == |holders| == |holder| == |claims|
    {
    }

    lemma ClaimCounts(k: nat, h: nat)
      requires Valid() && k < |claims| && h in claims[k]
      ensures k < |own| && own[k] > 0 && (k == 0 ==> holders[0] >= 2)
    {
      assert |claims[k]| > 0;
      PartClaimsUpdate(own, 0, own[0]);
    }
  }

  datatype Op = Claim(k: nat, h: nat) | Release(k: nat, h: nat)

  /** What any sequence of claims and releases leaves: a claim that would not be exclusive is refused, and only claims
      that are outstanding are released. */
  ghost function After(claims: seq<multiset<nat>>, ops: seq<Op>): seq<multiset<nat>>
    requires |claims| > 0
    decreases ops
  {
    if ops == [] then claims
    else
      var op := ops[0];
      if op.k >= |claims| then After(claims, ops[1..])
      else if op.Claim? then
        After(if Exclusive(Claimed(claims, op.k, op.h)) then Claimed(claims, op.k, op.h) else claims, ops[1..])
      else After(if op.h in claims[op.k] then Released(claims, op.k, op.h) else claims, ops[1..])
  }

  /** Over any sequence of claims and releases each device has one holder, and a disk and one of its partitions are
      never claimed together. */
  lemma {:induction false} RunClaims(claims: seq<multiset<nat>>, ops: seq<Op>)
    requires |claims| > 0 && Exclusive(claims)
    ensures |After(claims, ops)| == |claims| && Exclusive(After(claims, ops))
    decreases ops
  {
    if ops != [] {
      var op := ops[0];
      if op.k >= |claims| {
        RunClaims(claims, ops[1..]);
      } else if op.Claim? {
        RunClaims(if Exclusive(Claimed(claims, op.k, op.h)) then Claimed(claims, op.k, op.h) else claims, ops[1..]);
      } else {
        ExclusiveRelease(claims, op.k, op.h);
        RunClaims(if op.h in claims[op.k] then Released(claims, op.k, op.h) else claims, ops[1..]);
      }
    }
  }

  /** The code, run over the sequence, with the holders releasing what they have claimed. */
  method RunDisk(disk: ClaimedDisk, ops: seq<Op>)
    requires disk.Valid()
    modifies disk
    ensures disk.Valid() && disk.claims == After(old(disk.claims), ops) && Exclusive(disk.claims)
  {
    ghost var was := disk.claims;
    for i := 0 to |ops|
      invariant disk.Valid() && After(was, ops) == After(disk.claims, ops[i..])
    {
      var op := ops[i];
      assert ops[i..][0] == op && ops[i..][1..] == ops[i + 1..];
      if op.k < |disk.holders| {
        if op.Claim? {
          var _ := disk.Claim(op.k, op.h);
        } else if disk.holder[op.k] == By(op.h) {
          disk.Release(op.k, op.h);
        }
      }
    }
    assert ops[|ops|..] == [];
    disk.ClaimsExclusive();
  }

  lemma NonNegativeUpdate(s: seq<int>, k: nat, v: int)
    requires k < |s| && NonNegative(s) && v >= 0
    ensures NonNegative(s[k := v])
  {
  }
}
