/** fs/bio.c: splitting a bio in two and ending it when both halves, and the splitter, are done with it. The halves
    complete on different processors: each is ended in steps, and the steps of the two interleave freely. */
module BioSplit {
  /** The fields of struct bio and struct bio_vec that a split divides. */
  datatype Bio = Bio(sector: nat, size: nat)
  datatype Vec = Vec(offset: nat, len: nat)

  /** Where a half is: idle or being worked on; past the size update of bio_endio with an error to note; past the note;
      found complete, on its way to bio_pair_release; or done. */
  datatype Place = Idle | Noting(err: int) | Checking | Releasing | Finished

  datatype Half = Half(bio: Bio, vec: Vec, at: Place)

  /** struct bio_pair, with the bio it was split from. released says that the splitter has called bio_pair_release.
      ended lists the ends of the master, with byte count and error; errors are those reported for the halves. */
  datatype Pair = Pair(first: Half, second: Half, cnt: int, error: int, released: bool, freed: bool, master: Bio,
                       ended: seq<(nat, int)>, errors: set<int>)

  /** bio_split. */
  function Split(bi: Bio, vec: Vec, firstSectors: nat): Pair
    requires firstSectors * 512 <= bi.size && firstSectors * 512 <= vec.len
  {
    var bytes := firstSectors * 512;
    Pair(Half(Bio(bi.sector, bytes), Vec(vec.offset, bytes), Idle),
         Half(Bio(bi.sector + firstSectors, bi.size - bytes), Vec(vec.offset + bytes, vec.len - bytes), Idle),
         3, 0, false, false, bi, [], {})
  }

  /** The halves share out the bytes and the sectors of the master: byte b of the page, and byte s of the device, belong
      to exactly one. */
  lemma HalvesPartition(bi: Bio, vec: Vec, firstSectors: nat, b: nat, s: nat)
    requires firstSectors * 512 <= bi.size && firstSectors * 512 <= vec.len
    ensures var p := Split(bi, vec, firstSectors);
            && p.first.bio.size == firstSectors * 512 == p.first.vec.len
            && p.first.bio.size + p.second.bio.size == bi.size && p.first.vec.len + p.second.vec.len == vec.len
            && (vec.offset <= b < vec.offset + vec.len <==>
                  || p.first.vec.offset <= b < p.first.vec.offset + p.first.vec.len
                  || p.second.vec.offset <= b < p.second.vec.offset + p.second.vec.len)
            && p.first.vec.offset + p.first.vec.len == p.second.vec.offset
            && (bi.sector * 512 <= s < bi.sector * 512 + bi.size <==>
                  || p.first.bio.sector * 512 <= s < p.first.bio.sector * 512 + p.first.bio.size
                  || p.second.bio.sector * 512 <= s < p.second.bio.sector * 512 + p.second.bio.size)
            && p.first.bio.sector * 512 + p.first.bio.size == p.second.bio.sector * 512
  {
    assert (bi.sector + firstSectors) * 512 == bi.sector * 512 + firstSectors * 512;
  }

  /** A half keeps its bytes with their sectors: byte j of its vector is as far into the master's vector as it is into
      the master's sectors; and where the master's bytes are those of its vector, so are each half's. */
  lemma BytesFollowSectors(bi: Bio, vec: Vec, firstSectors: nat, one: bool, j: nat)
    requires firstSectors * 512 <= bi.size && firstSectors * 512 <= vec.len
    requires j < HalfOf(Split(bi, vec, firstSectors), one).vec.len
    ensures var h := HalfOf(Split(bi, vec, firstSectors), one);
            && h.vec.offset + j - vec.offset == h.bio.sector * 512 + j - bi.sector * 512
            && (bi.size == vec.len ==> h.bio.size == h.vec.len)
  {
    assert (bi.sector + firstSectors) * 512 == bi.sector * 512 + firstSectors * 512;
  }

  datatype Outcome = Next(p: Pair) | Disabled | Bug

  datatype Label =
    | EndIo(one: bool, done: nat, err: int) | NoteError(one: bool) | CheckSize(one: bool) | ReleaseHalf(one: bool)
    | ReleaseSplit

  function HalfOf(p: Pair, one: bool): Half {
    if one then p.first else p.second
  }

  function WithHalf(p: Pair, one: bool, h: Half): Pair {
    if one then p.(first := h) else p.(second := h)
  }

  /** The size update of bio_endio. */
  function Progress(bi: Bio, done: nat): Bio {
    var n := if done > bi.size then bi.size else done;
    Bio(bi.sector + n / 512, bi.size - n)
  }

  /** bio_pair_release: whoever takes the count to zero ends the master and frees the pair. */
  function Release(p: Pair): Outcome {
    if p.freed then Bug
    else if p.cnt - 1 != 0 then Next(p.(cnt := p.cnt - 1))
    else Next(p.(cnt := 0, freed := true, ended := p.ended + [(p.master.size, p.error)],
                 master := Progress(p.master, p.master.size)))
  }

  /** bio_endio on a half, bio_pair_end_1 and bio_pair_end_2, and the release by the splitter. */
  function Exec(p: Pair, l: Label): Outcome {
    match l
    case EndIo(one, done, err) =>
      var h := HalfOf(p, one);
      if h.at != Idle then Disabled
      else if p.freed then Bug
      else
        var q := p.(errors := if err != 0 then p.errors + {err} else p.errors);
        Next(WithHalf(q, one, h.(bio := Progress(h.bio, done), at := Noting(err))))
    case NoteError(one) =>
      var h := HalfOf(p, one);
      if !h.at.Noting? then Disabled
      else if p.freed then Bug
      else Next(WithHalf(p.(error := if h.at.err != 0 then h.at.err else p.error), one, h.(at := Checking)))
    case CheckSize(one) =>
      var h := HalfOf(p, one);
      if h.at != Checking then Disabled
      else if p.freed then Bug
      else Next(WithHalf(p, one, h.(at := if h.bio.size > 0 then Idle else Releasing)))
    case ReleaseHalf(one) =>
      var h := HalfOf(p, one);
      if h.at != Releasing then Disabled else Release(WithHalf(p, one, h.(at := Finished)))
    case ReleaseSplit =>
      if p.released then Disabled else Release(p.(released := true))
  }

  function Run(p: Pair, ls: seq<Label>): Outcome
    decreases ls
  {
    if ls == [] then Next(p)
    else match Exec(p, ls[0])
      case Next(q) => Run(q, ls[1..])
      case Disabled => Run(p, ls[1..])
      case Bug => Bug
  }

  function One(b: bool): nat {
    if b then 1 else 0
  }

  /** An error of this half has been reported and not yet noted. */
  predicate Unnoted(h: Half) {
    h.at.Noting? && h.at.err != 0
  }

  predicate HalfOk(h: Half, errors: set<int>) {
    && (h.at == Releasing || h.at == Finished ==> h.bio.size == 0)
    && (Unnoted(h) ==> h.at.err in errors)
  }

  /** The count is that of the three parties still to release; an error is on record, or on its way there, exactly when
      one was reported; the master is ended once, by the last release. */
  predicate Inv(p: Pair, size: nat) {
    && p.cnt == One(p.first.at != Finished) + One(p.second.at != Finished) + One(!p.released)
    && HalfOk(p.first, p.errors) && HalfOk(p.second, p.errors)
    && 0 !in p.errors && (p.error != 0 ==> p.error in p.errors)
    && (p.errors != {} <==> p.error != 0 || Unnoted(p.first) || Unnoted(p.second))
    && (p.freed <==> p.cnt == 0)
    && (!p.freed ==> p.ended == [] && p.master.size == size)
    && (p.freed ==> p.ended == [(size, p.error)] && p.master.size == 0)
  }

  lemma StepKeeps(p: Pair, l: Label, size: nat)
    requires Inv(p, size)
    ensures !Exec(p, l).Bug?
    ensures Exec(p, l).Next? ==> Inv(Exec(p, l).p, size)
  {
    hide Progress;
    assert forall bi: Bio :: Progress(bi, bi.size).size == 0 by { ProgressAll(); }
  }

  lemma ProgressAll()
    ensures forall bi: Bio :: Progress(bi, bi.size).size == 0
  {
  }

  lemma {:induction false} RunKeeps(p: Pair, ls: seq<Label>, size: nat)
    requires Inv(p, size)
    ensures Run(p, ls).Next? && Inv(Run(p, ls).p, size)
    decreases ls
  {
    hide Inv, Exec;
    if ls != [] {
      StepKeeps(p, ls[0], size);
      RunKeeps(if Exec(p, ls[0]).Next? then Exec(p, ls[0]).p else p, ls[1..], size);
    }
  }

  /** In every interleaving of partial completions of the two halves and the release by the splitter, the pair is not
      touched after it is freed; and the master is ended at most once, with all its bytes, exactly when both halves are
      complete and all three have released; with an error exactly when one was reported, and then one of those. */
  lemma EndedOnce(bi: Bio, vec: Vec, firstSectors: nat, ls: seq<Label>)
    requires firstSectors * 512 <= bi.size && firstSectors * 512 <= vec.len
    ensures var o := Run(Split(bi, vec, firstSectors), ls);
            && o.Next?
            && |o.p.ended| <= 1
            && (|o.p.ended| == 1 <==> o.p.first.at == Finished && o.p.second.at == Finished && o.p.released)
            && (|o.p.ended| == 1 ==> o.p.first.bio.size == 0 && o.p.second.bio.size == 0)
            && (|o.p.ended| == 1 ==> o.p.ended[0].0 == bi.size)
            && (|o.p.ended| == 1 ==> (o.p.ended[0].1 != 0 <==> o.p.errors != {}))
            && (|o.p.ended| == 1 && o.p.errors != {} ==> o.p.ended[0].1 in o.p.errors)
  {
    RunKeeps(Split(bi, vec, firstSectors), ls, bi.size);
    hide Run;
  }

  // ---- what has been reported done, and what is left

  /** The bytes reported done for a half along a run. */
  function Reported(p: Pair, ls: seq<Label>, one: bool): nat
    decreases ls
  {
    if ls == [] then 0
    else match Exec(p, ls[0])
      case Next(q) =>
        (if ls[0].EndIo? && ls[0].one == one then ls[0].done else 0) + Reported(q, ls[1..], one)
      case Disabled => Reported(p, ls[1..], one)
      case Bug => 0
  }

  function Left(size: nat, done: nat): nat {
    if done >= size then 0 else size - done
  }

  /** In every interleaving, what is left of a half is its size less the bytes reported done for it, whatever was
      reported in one call; where these are whole sectors, what is left is the end of its sectors. */
  lemma {:induction false} WhatIsLeft(p: Pair, ls: seq<Label>, size: nat, one: bool)
    requires Inv(p, size)
    ensures Run(p, ls).Next?
    ensures HalfOf(Run(p, ls).p, one).bio.size == Left(HalfOf(p, one).bio.size, Reported(p, ls, one))
    ensures WholeSectors(ls) && HalfOf(p, one).bio.size % 512 == 0 ==>
              End(HalfOf(Run(p, ls).p, one).bio) == End(HalfOf(p, one).bio)
    decreases ls
  {
    hide Inv, Exec;
    if ls != [] {
      StepKeeps(p, ls[0], size);
      if Exec(p, ls[0]).Next? {
        StepLeaves(p, ls[0], one);
      }
      WhatIsLeft(if Exec(p, ls[0]).Next? then Exec(p, ls[0]).p else p, ls[1..], size, one);
    }
  }

  predicate WholeSectors(ls: seq<Label>) {
    forall l | l in ls && l.EndIo? :: l.done % 512 == 0
  }

  /** The byte of the device after the last that is left. */
  function End(bi: Bio): nat {
    bi.sector * 512 + bi.size
  }

  lemma StepLeaves(p: Pair, l: Label, one: bool)
    requires Exec(p, l).Next?
    ensures var h, h' := HalfOf(p, one), HalfOf(Exec(p, l).p, one);
            if l.EndIo? && l.one == one then
              && h'.bio.size == Left(h.bio.size, l.done)
              && (l.done % 512 == 0 && h.bio.size % 512 == 0 ==>
                    End(h'.bio) == End(h.bio) && h'.bio.size % 512 == 0)
            else h'.bio == h.bio
  {
  }

  /** From wherever a run has got to, the rest can be reported and the master ended, unless it has been. */
  function Finishing(p: Pair): seq<Label> {
    Rest(p, true) + (Rest(p, false) + [ReleaseSplit])
  }

  function Rest(p: Pair, one: bool): seq<Label> {
    [NoteError(one), CheckSize(one), EndIo(one, HalfOf(p, one).bio.size, 0), NoteError(one), CheckSize(one),
     ReleaseHalf(one)]
  }

  /** The state after a step, taken or not. */
  function After(p: Pair, l: Label): Pair {
    if Exec(p, l).Next? then Exec(p, l).p else p
  }

  lemma RunOne(p: Pair, l: Label, ls: seq<Label>)
    requires !Exec(p, l).Bug?
    ensures Run(p, [l] + ls) == Run(After(p, l), ls)
  {
    hide Exec;
    assert ([l] + ls)[1..] == ls;
  }

  /** What a step on one half leaves of the other and of the splitter. */
  predicate Aside(p: Pair, q: Pair, one: bool) {
    HalfOf(q, !one) == HalfOf(p, !one) && q.released == p.released
  }

  lemma StepAside(p: Pair, l: Label, one: bool, size: nat)
    requires Inv(p, size) && !l.ReleaseSplit? && l.one == one
    ensures !Exec(p, l).Bug? && Inv(After(p, l), size) && Aside(p, After(p, l), one)
    ensures Advanced(HalfOf(p, one), l, HalfOf(After(p, l), one))
  {
    StepKeeps(p, l, size);
    hide Inv;
  }

  /** How a half moves on. */
  predicate Advanced(h: Half, l: Label, h': Half) {
    match l
    case EndIo(_, done, err) =>
      if h.at == Idle then h'.at == Noting(err) && h'.bio == Progress(h.bio, done) else h' == h
    case NoteError(_) => if h.at.Noting? then h' == h.(at := Checking) else h' == h
    case CheckSize(_) =>
      if h.at == Checking then h' == h.(at := if h.bio.size > 0 then Idle else Releasing) else h' == h
    case ReleaseHalf(_) => if h.at == Releasing then h' == h.(at := Finished) else h' == h
    case ReleaseSplit => true
  }

  lemma RestFinishes(p: Pair, one: bool, more: seq<Label>, size: nat) returns (q: Pair)
    requires Inv(p, size)
    ensures Run(p, Rest(p, one) + more) == Run(q, more)
    ensures Inv(q, size) && Aside(p, q, one) && HalfOf(q, one).at == Finished
  {
    hide Inv, Run, Exec, After;
    var l1, l2, l3, l4 := NoteError(one), CheckSize(one), EndIo(one, HalfOf(p, one).bio.size, 0), ReleaseHalf(one);
    assert Rest(p, one) + more == [l1] + ([l2] + ([l3] + ([l1] + ([l2] + ([l4] + more)))));
    StepAside(p, l1, one, size);
    RunOne(p, l1, [l2] + ([l3] + ([l1] + ([l2] + ([l4] + more)))));
    var p1 := After(p, l1);
    StepAside(p1, l2, one, size);
    RunOne(p1, l2, [l3] + ([l1] + ([l2] + ([l4] + more))));
    var p2 := After(p1, l2);
    StepAside(p2, l3, one, size);
    RunOne(p2, l3, [l1] + ([l2] + ([l4] + more)));
    var p3 := After(p2, l3);
    StepAside(p3, l1, one, size);
    RunOne(p3, l1, [l2] + ([l4] + more));
    var p4 := After(p3, l1);
    StepAside(p4, l2, one, size);
    RunOne(p4, l2, [l4] + more);
    var p5 := After(p4, l2);
    StepAside(p5, l4, one, size);
    RunOne(p5, l4, more);
    q := After(p5, l4);
  }

  lemma AllFinish(p: Pair, size: nat)
    requires Inv(p, size)
    ensures Run(p, Finishing(p)).Next? && |Run(p, Finishing(p)).p.ended| == 1
  {
    hide Run, Rest, Exec, Inv;
    var q := RestFinishes(p, true, Rest(p, false) + [ReleaseSplit], size);
    assert Rest(p, false) == Rest(q, false) by { SameRest(p, q); }
    var r := RestFinishes(q, false, [ReleaseSplit], size);
    StepKeeps(r, ReleaseSplit, size);
    RunOne(r, ReleaseSplit, []);
    assert [ReleaseSplit] + [] == [ReleaseSplit];
    NothingMore(After(r, ReleaseSplit));
    LastRelease(r, size);
  }

  lemma SameRest(p: Pair, q: Pair)
    requires HalfOf(q, false) == HalfOf(p, false)
    ensures Rest(p, false) == Rest(q, false)
  {
  }

  lemma NothingMore(p: Pair)
    ensures Run(p, []) == Next(p)
  {
  }

  lemma LastRelease(p: Pair, size: nat)
    requires Inv(p, size) && p.first.at == Finished && p.second.at == Finished
    ensures |After(p, ReleaseSplit).ended| == 1
  {
  }

  lemma CanBeEnded(bi: Bio, vec: Vec, firstSectors: nat, ls: seq<Label>)
    requires firstSectors * 512 <= bi.size && firstSectors * 512 <= vec.len
    ensures var o := Run(Split(bi, vec, firstSectors), ls);
            o.Next? && Run(o.p, Finishing(o.p)).Next? && |Run(o.p, Finishing(o.p)).p.ended| == 1
  {
    RunKeeps(Split(bi, vec, firstSectors), ls, bi.size);
    hide Run;
    AllFinish(Run(Split(bi, vec, firstSectors), ls).p, bi.size);
  }
}
