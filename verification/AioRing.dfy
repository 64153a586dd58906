/** The event ring of aio.c under every interleaving of completions and readers. */
module AioRing {
  import opened Arithmetic
  import opened Wrappers
  import opened AioModel
  import opened AioInv

  lemma Wrap(h: nat, i: nat, nr: nat)
    requires h < nr && i < nr
    ensures (h + i) % nr == if h + i < nr then h + i else h + i - nr
  {
    if h + i < nr {
      DivModUnique(h + i, nr, 0, h + i);
    } else {
      DivModUnique(h + i, nr, 1, h + i - nr);
    }
  }

  /** What __aio_get_req compares reqs_active with: the slots not taken by unread events, less one. */
  lemma AvailIsRoom(g: Ring, n: nat)
    requires RingOk(g, n)
    ensures RingAvail(g) == g.nr - 1 - Unread(g)
  {
    var u := Unread(g);
    Wrap(g.head, u, g.nr);
    var k := g.head + g.nr - 1 - g.tail;
    if g.head + u < g.nr {
      DivModUnique(k, g.nr, 0, g.nr - 1 - u);
    } else {
      DivModUnique(k, g.nr, 1, g.nr - 1 - u);
    }
  }

  /** A completion writes its event where no unread event stands. */
  lemma WriteKeeps(g: Ring, n: nat, r: ReqId, ev: Event)
    requires RingOk(g, n) && n > 0 && g.writing.None?
    ensures RingOk(g.(slots := g.slots[g.tail := ev], writing := Some((r, ev))), n)
  {
    var g' := g.(slots := g.slots[g.tail := ev], writing := Some((r, ev)));
    var u := Unread(g);
    Wrap(g.head, u, g.nr);
    forall i | 0 <= i < u
      ensures Holds(g', i)
    {
      Wrap(g.head, i, g.nr);
      assert Holds(g, i);
    }
  }

  lemma PublishKeeps(g: Ring, n: nat)
    requires RingOk(g, n) && g.writing.Some?
    ensures n > 0
    ensures RingOk(TailMoved(g), n - 1)
  {
    var g' := TailMoved(g);
    var u := Unread(g);
    Wrap(g.head, u, g.nr);
    Wrap(g.head, u + 1, g.nr);
    Wrap(g.tail, 1, g.nr);
    forall i | 0 <= i < u + 1
      ensures Holds(g', i)
    {
      if i < u {
        assert Holds(g, i);
      }
    }
  }

  lemma CopyKeeps(g: Ring, n: nat)
    requires RingOk(g, n) && g.reading.None? && g.head % g.nr != g.tail
    ensures RingOk(g.(reading := Some(g.slots[g.head % g.nr])), n)
  {
    var g' := g.(reading := Some(g.slots[g.head % g.nr]));
    Wrap(g.head, 0, g.nr);
    assert Unread(g) > 0;
    assert Holds(g, 0);
    forall i | 0 <= i < Unread(g)
      ensures Holds(g', i)
    {
      assert Holds(g, i);
    }
  }

  lemma AdvanceKeeps(g: Ring, n: nat)
    requires RingOk(g, n) && g.reading.Some?
    ensures RingOk(g.(head := (g.head % g.nr + 1) % g.nr, seen := g.seen + [g.reading.value], reading := None), n)
  {
    var g' := g.(head := (g.head % g.nr + 1) % g.nr, seen := g.seen + [g.reading.value], reading := None);
    var u := Unread(g);
    Wrap(g.head, 0, g.nr);
    Wrap(g.head, 1, g.nr);
    Wrap(g.head, u, g.nr);
    Wrap(g'.head, u - 1, g.nr);
    forall i | 0 <= i < u - 1
      ensures Holds(g', i)
    {
      Wrap(g.head, i + 1, g.nr);
      Wrap(g'.head, i, g.nr);
      assert Holds(g, i + 1);
    }
  }
}
