/** Careful is exact: a step that is not careful goes wrong, or can be continued to one that does by careful steps
    alone. A request that is completed under a wake-up is brought to its end: its submitter is made to drain the run
    list, and those who hold it to let it go, until it is freed and the wake-up arrives. */
module AioExact {
  import opened Wrappers
  import opened AioModel
  import opened AioInv
  import opened AioSteps
  import opened Aio
  import opened AioThreads
  import opened AioCareful
  import opened AioDrive

  /** Careful steps alone lead from here to a BUG or to an access to freed memory. */
  ghost predicate Doomed(s: State) {
    exists ls :: CarefulRun(s, ls) && Run(s, ls).Bug?
  }

  lemma DoomedNow(s: State, l: Label)
    requires Exec(s, l).Bug? && Careful(s, l)
    ensures Doomed(s)
  {
    hide Exec, Careful;
    OneCareful(s, l);
    assert Run(s, [l]).Bug?;
  }

  lemma DoomedFrom(s: State, s': State)
    requires Reaches(s, s') && Doomed(s')
    ensures Doomed(s)
  {
    hide Run, CarefulRun;
    var a :| CarefulRun(s, a) && Run(s, a) == Next(s');
    var b :| CarefulRun(s', b) && Run(s', b).Bug?;
    CarefulConcat(s, a, b);
    RunConcat(s, a, b);
  }

  // ---- those who hold an orphan let it go

  /** The I/O is over, but a wait queue entry or a wake-up in flight leads to the request. */
  predicate Orphaned(q: Req) {
    !q.io && !Quiet(q)
  }

  lemma OrphanUnlisted(s: State, r: ReqId)
    requires Ready(s) && r in s.reqs && Orphaned(s.reqs[r])
    ensures s.reqs[r].link != Listed
  {
    hide InvBut, Orderly;
    ReqOf(s, r);
  }

  /** A put of the request frees it under the wake-up, or takes one holder away. */
  lemma PutNearer(s: State, r: ReqId, q: Req, who: Option<ListId>)
    requires Orphaned(q) && AioPutReq(s, r, q, false, who).Next?
    ensures var s' := AioPutReq(s, r, q, false, who).s;
            s'.strays > 0 || (r in s'.reqs && s'.reqs[r] == q.(users := q.users - 1))
    ensures AioPutReq(s, r, q, false, who).s.ring == s.ring
  {
    if q.users == 1 {
      var q0 := q.(users := 0, onActive := false);
      assert Quiet(q0) == Quiet(q);
      OweOnly(WithReq(s, r, q0), who);
      hide Owe, Quiet;
    }
  }

  /** The submitter is still draining the run list. */
  predicate Blocked(s: State, q: Req) {
    q.submit && q.queued && q.submitter in s.crew.callers
  }

  /** One of the steps that let the request go. */
  function LettingGo(r: ReqId, q: Req): Label {
    if q.submit then PutSubmit(r, false)
    else if q.cancels > 0 then PutCancel(r, false)
    else if q.run == Some(Retrying) then ReturnQueued(r)
    else if q.run == Some(Waking) then WakeOwn(r)
    else if q.run.Some? then FinishDrop(r, false)
    else if q.fput == Deferred then FputTake(r)
    else FputFinish(r)
  }

  /** The step has freed the request under a wake-up, or has brought that nearer. */
  predicate Nearer(q: Req, r: ReqId, s': State) {
    s'.ring.writing.None? && (s'.strays > 0 || (r in s'.reqs && Orphaned(s'.reqs[r]) && Rest(s'.reqs[r]) < Rest(q)))
  }

  lemma LastPhase(q: Req)
    requires ReqOk(q) && !q.io && q.run.Some? && q.run != Some(Retrying) && q.run != Some(Waking)
    ensures q.run == Some(Drop)
  {
    match q.run.value
    case Starting =>
    case Retrying =>
    case Requeue =>
    case Waking =>
    case Drop =>
  }

  lemma LessRest(q: Req, q': Req)
    requires Orphaned(q) && q' == q.(users := q'.users, submit := q'.submit, cancels := q'.cancels, run := q'.run)
    requires Holders(q') < Holders(q) && (q'.run.None? || q'.run == q.run)
    ensures Orphaned(q') && Rest(q') < Rest(q)
  {
  }

  lemma PutsNearer(s: State, r: ReqId)
    requires Ready(s) && Unlocked(s) && r in s.reqs && Orphaned(s.reqs[r]) && !Blocked(s, s.reqs[r])
    requires var q := s.reqs[r]; q.submit || q.cancels > 0
    ensures var q := s.reqs[r]; Exec(s, LettingGo(r, q)).Next? && Nearer(q, r, Exec(s, LettingGo(r, q)).s)
  {
    hide Inv, Orderly, AioPutReq, Orphaned, Nearer, Unlocked, Exec, SubmitStep, Blocked;
    var q := s.reqs[r];
    var q1 := if q.submit then q.(submit := false) else q.(cancels := q.cancels - 1);
    PutIs(s, r, q1);
    SubmitKeeps(s, LettingGo(r, q));
    PutHappens(s, r, q1, None);
    OneHolderLess(s, r, q, q1);
  }

  lemma PutIs(s: State, r: ReqId, q1: Req)
    requires Unlocked(s) && r in s.reqs && !Blocked(s, s.reqs[r])
    requires var q := s.reqs[r];
             && (q.submit || q.cancels > 0)
             && q1 == if q.submit then q.(submit := false) else q.(cancels := q.cancels - 1)
    ensures var l := LettingGo(r, s.reqs[r]);
            && (l.PutSubmit? || l.PutCancel?) && Exec(s, l) == SubmitStep(s, l) == AioPutReq(s, r, q1, false, None)
  {
    hide AioPutReq, Unlocked;
  }

  lemma OneHolderLess(s: State, r: ReqId, q: Req, q1: Req)
    requires Orphaned(q) && q1 == q.(submit := q1.submit, cancels := q1.cancels) && Holders(q1) < Holders(q)
    requires Unlocked(s) && AioPutReq(s, r, q1, false, None).Next?
    ensures Nearer(q, r, AioPutReq(s, r, q1, false, None).s)
  {
    hide AioPutReq, Orphaned, Rest;
    LessRest(q, q1);
    LessRest(q, q1.(users := q1.users - 1));
    PutNearer(s, r, q1, None);
  }

  lemma DropsNearer(s: State, r: ReqId)
    requires Ready(s) && Unlocked(s) && r in s.reqs && Orphaned(s.reqs[r]) && LettingGo(r, s.reqs[r]).FinishDrop?
    ensures var q := s.reqs[r]; Exec(s, LettingGo(r, q)).Next? && Nearer(q, r, Exec(s, LettingGo(r, q)).s)
  {
    hide Inv, Orderly, AioPutReq, Rest, ReqOk;
    var q := s.reqs[r];
    ReqOf(s, r);
    LastPhase(q);
    hide Orphaned;
    var s1, q1 := Returned(s, q.runner), q.(run := None);
    FinishKeeps(s, LettingGo(r, q));
    PutHappens(s1, r, q1, Some(q.runner));
    LessRest(q, q1);
    LessRest(q, q1.(users := q1.users - 1));
    PutNearer(s1, r, q1, Some(q.runner));
  }

  lemma OthersNearer(s: State, r: ReqId)
    requires Ready(s) && Unlocked(s) && r in s.reqs && Orphaned(s.reqs[r])
    requires var l := LettingGo(r, s.reqs[r]); l.ReturnQueued? || l.WakeOwn? || l.FputTake? || l.FputFinish?
    ensures var q := s.reqs[r]; Exec(s, LettingGo(r, q)).Next? && Nearer(q, r, Exec(s, LettingGo(r, q)).s)
  {
    hide Inv, Orderly;
    var q := s.reqs[r];
    ReqOf(s, r);
    if LettingGo(r, q).FputFinish? {
      assert q.fput == Taken;
      FputFinishKeeps(s, r);
    }
  }

  /** The request has been freed under a wake-up, or is as near to it as it was. */
  lemma OrphanTracked(s: State, s': State, r: ReqId)
    requires Track(s, s', r) && Orphaned(s.reqs[r])
    ensures if r in s'.reqs then Orphaned(s'.reqs[r]) && Rest(s'.reqs[r]) <= Rest(s.reqs[r])
                                 && s'.reqs[r].submitter == s.reqs[r].submitter
            else s'.strays > 0
  {
    hide Rest, Quiet, Spent;
  }

  lemma {:induction false} OrphanDoomed(s: State, r: ReqId)
    requires Ready(s) && s.ring.writing.None? && r in s.reqs && Orphaned(s.reqs[r])
    ensures Doomed(s)
    decreases Rest(s.reqs[r]), if Blocked(s, s.reqs[r]) then 1 else 0
  {
    hide Ready, Reaches, Doomed, Exec, Orphaned, Rest, Track, Claimed;
    var q, s' := s.reqs[r], s;
    if Blocked(s, q) {
      s' := ThreadOut(s, r, q.submitter);
      OrphanTracked(s, s', r);
    } else {
      s' := GoOn(s, r);
    }
    if s'.strays > 0 {
      StrayDoomed(s');
    } else {
      OrphanDoomed(s', r);
    }
    DoomedFrom(s, s');
  }

  lemma GoOn(s: State, r: ReqId) returns (s': State)
    requires Ready(s) && s.ring.writing.None? && r in s.reqs && Orphaned(s.reqs[r]) && !Blocked(s, s.reqs[r])
    ensures Ready(s') && Reaches(s, s') && Nearer(s.reqs[r], r, s')
  {
    hide Ready, Reaches, Orphaned, Rest, Track;
    OrphanUnlisted(s, r);
    var s1 := Unlock(s, r);
    assert s1.reqs[r] == s.reqs[r];
    var q := s1.reqs[r];
    var l := LettingGo(r, q);
    hide Calm;
    if q.submit || q.cancels > 0 {
      PutsNearer(s1, r);
    } else if l.FinishDrop? {
      DropsNearer(s1, r);
    } else {
      OthersNearer(s1, r);
    }
    hide Exec;
    s' := Exec(s1, l).s;
    ReadyAfter(s1, l);
    ReachesOne(s1, l);
    ReachesOn(s, s1, s');
  }

  lemma StrayDoomed(s: State)
    requires Ready(s) && s.strays > 0
    ensures Doomed(s)
  {
    hide Doomed;
    TouchDoomed(s, StrayWake);
  }

  lemma TouchDoomed(s: State, l: Label)
    requires Ready(s) && Breaks(s, l) && (l.WakeBare? || l.QueueWork? || l.Leave? || l.StrayWake?)
    ensures Doomed(s)
  {
    hide Inv, Orderly, Doomed, Exec, Breaks;
    StepKeeps(s, l);
    DoomedNow(s, l);
  }

  // ---- a put that frees what somebody has still to touch

  /** A freed context that a thread has still to touch. */
  lemma FreedTouched(s: State)
    requires Ready(s) && s.ctx.freed && !Untouched(s.crew)
    requires forall t | t in s.crew.workers :: Idle(s.crew, t) && Mine(s, t)
    ensures Doomed(s)
  {
    hide InvBut, Orderly, Doomed, Exec, Careful;
    if s.crew.completers > 0 {
      TouchDoomed(s, WakeBare);
    } else if s.crew.kickers > 0 {
      TouchDoomed(s, QueueWork);
    } else {
      var t :| t in s.crew.workers;
      FreedLists(s, t);
      TouchDoomed(s, Leave(t));
    }
  }

  lemma PutDoomed(s: State, l: Label)
    requires Ready(s) && Puts(l) && s.ctx.users == 1 && !Untouched(s.crew) && Exec(s, l).Next?
    ensures Doomed(Exec(s, l).s)
  {
    hide Ready, Doomed, Exec, ContextStep, Mine;
    PutExec(s, l);
    FreedBy(s, l);
    ReadyAfter(s, l);
    NotRunningOwing(s);
    FreedMine(Exec(s, l).s);
    FreedTouched(Exec(s, l).s);
  }

  lemma PutExec(s: State, l: Label)
    requires Puts(l)
    ensures Exec(s, l) == ContextStep(s, l)
  {
    hide ContextStep;
  }

  lemma NotRunningOwing(s: State)
    requires Ready(s)
    ensures forall t | t in s.crew.owing :: t !in s.crew.running
  {
    hide Orderly, InvBut;
    InvParts(s);
  }

  lemma PutFrees(s: State, me: set<ListId>)
    requires PutIoctx(s, me).Next? && s.ctx.users == 1
    ensures var s' := PutIoctx(s, me).s;
            && s' == s.(ctx := s'.ctx, crew := s.crew.(work := false)) && s'.ctx.freed && s.crew.workers <= me
  {
  }

  lemma FreedBy(s: State, l: Label)
    requires Puts(l) && s.ctx.users == 1 && ContextStep(s, l).Next?
    ensures var s' := ContextStep(s, l).s;
            && s'.ctx.freed && s'.crew == s.crew.(work := false, owing := s'.crew.owing)
            && (forall t | t in s.crew.workers :: l == DrainPut(t) && t in s.crew.owing && t !in s'.crew.owing)
  {
    hide PutIoctx;
    var c, w := s.ctx, s.crew;
    if l.DropLookup? {
      PutFrees(s.(ctx := c.(lookups := c.lookups - 1)), {});
    } else if l.ExitPut? {
      PutFrees(s.(ctx := c.(exiting := false, listRef := false)), {});
    } else if l.OwedPut? {
      PutFrees(s.(ctx := c.(owed := c.owed - 1)), {});
    } else {
      PutFrees(s.(crew := w.(owing := w.owing - {l.t})), {l.t});
    }
  }

  /** Nobody but the handler that has freed the context is in __aio_run_iocbs. */
  lemma FreedMine(s: State)
    requires Ready(s) && s.ctx.freed && forall t, u | t in s.crew.workers && u in s.crew.workers :: t == u
    ensures forall t | t in s.crew.workers :: Mine(s, t)
  {
    hide InvBut, Busy, LocalsOk, Served;
    NoCallers(s);
    FreedUnwritten(s);
  }

  lemma FreedUnwritten(s: State)
    requires Inv(s) && s.ctx.freed
    ensures s.ring.writing.None?
  {
    hide RingOk, ListsOk, ReqsOk, Pending, RunnersOk, CrewOk;
    assert |s.reqs.Keys| == 0;
  }

  // ---- a completion under a wake-up

  /** The reference of the I/O has been dropped: the request is freed, or an orphan. */
  predicate LetGo(s: State, r: ReqId) {
    s.ring.writing.None? && (s.strays > 0 || (r in s.reqs && Orphaned(s.reqs[r])))
  }

  lemma SilentDoomed(s: State, l: Label)
    requires Ready(s) && l.CompleteSilent? && l.r in s.reqs && !Quiet(s.reqs[l.r]) && Exec(s, l).Next?
    ensures Doomed(Exec(s, l).s)
  {
    hide Inv, Orderly, Doomed, CompleteStep;
    ReadyAfter(s, l);
    SilentOrphans(s, l);
    AfterPut(Exec(s, l).s, l.r);
  }

  lemma AfterPut(s: State, r: ReqId)
    requires Ready(s) && LetGo(s, r)
    ensures Doomed(s)
  {
    hide Ready, Doomed;
    if s.strays > 0 {
      StrayDoomed(s);
    } else {
      OrphanDoomed(s, r);
    }
  }

  lemma PutReleases(s: State, r: ReqId, q: Req, lastFile: bool)
    requires s.ring.writing.None? && Orphaned(q) && PutCompleted(s, r, q, lastFile).Next?
    ensures LetGo(PutCompleted(s, r, q, lastFile).s, r)
  {
    hide AioPutReq, LetGo, Orphaned;
    var s1 := s.(crew := s.crew.(completers := s.crew.completers + 1));
    PutOrphans(if q.users > 1 && q.run != Some(Waking) then s1 else s, r, q, lastFile);
  }

  lemma PutOrphans(s: State, r: ReqId, q: Req, lastFile: bool)
    requires s.ring.writing.None? && Orphaned(q) && AioPutReq(s, r, q, lastFile, None).Next?
    ensures LetGo(AioPutReq(s, r, q, lastFile, None).s, r)
  {
    if q.users > 1 {
      NotLast(s, r, q, lastFile, None);
      hide AioPutReq;
    } else if lastFile {
      hide ReallyPutReq, Unheld;
      assert Orphaned(Deferring(q));
      OweOnly(WithReq(s, r, Deferring(q)).(ctx := s.ctx.(users := s.ctx.users + 1)), None);
      hide Owe, Quiet, Orphaned;
    } else {
      var q0 := q.(users := 0, onActive := false);
      assert Quiet(q0) == Quiet(q);
      OweOnly(WithReq(s, r, q0), None);
      hide Owe, Quiet;
    }
  }

  lemma SilentOrphans(s: State, l: Label)
    requires Inv(s) && l.CompleteSilent? && l.r in s.reqs && !Quiet(s.reqs[l.r]) && CompleteStep(s, l).Next?
    ensures LetGo(CompleteStep(s, l).s, l.r)
  {
    hide Inv, PutCompleted, LetGo, Unlist;
    var r, q := l.r, s.reqs[l.r];
    var link := if q.link == Listed then Self else q.link;
    PutReleases(s.(lists := Unlist(s, r, q)), r, Completed(q).(link := link, io := false), l.lastFile);
  }

  /** After the event has been written it is published, which drops the reference of the I/O. */
  lemma WriteDoomed(s: State, l: Label)
    requires Ready(s) && l.CompleteWrite? && l.r in s.reqs && !Quiet(s.reqs[l.r]) && Exec(s, l).Next?
    ensures Doomed(Exec(s, l).s)
  {
    hide Inv, Orderly, Doomed, Careful, CompleteStep, PublishStep, LetGo;
    ReadyAfter(s, l);
    var s1 := Exec(s, l).s;
    Written(s, l);
    PublishOrphans(s1, l.r);
    PublishCareful(s1);
    hide Exec, Reaches;
    ReadyAfter(s1, CompletePublish(false));
    ReachesOne(s1, CompletePublish(false));
    AfterPut(Exec(s1, CompletePublish(false)).s, l.r);
    DoomedFrom(s1, Exec(s1, CompletePublish(false)).s);
  }

  lemma PublishCareful(s: State)
    ensures Careful(s, CompletePublish(false)) && Exec(s, CompletePublish(false)) == PublishStep(s, false)
  {
    hide PublishStep;
  }

  lemma Written(s: State, l: Label)
    requires l.CompleteWrite? && l.r in s.reqs && !Quiet(s.reqs[l.r]) && CompleteStep(s, l).Next?
    ensures var s1 := CompleteStep(s, l).s;
            s1.ring.writing.Some? && s1.ring.writing.value.0 == l.r && l.r in s1.reqs && !Quiet(s1.reqs[l.r])
  {
    hide Unlist;
  }

  lemma PublishOrphans(s: State, r: ReqId)
    requires Inv(s) && s.ring.writing.Some? && s.ring.writing.value.0 == r && r in s.reqs && !Quiet(s.reqs[r])
    ensures PublishStep(s, false).Next? && LetGo(PublishStep(s, false).s, r)
  {
    hide Inv, PutCompleted, LetGo, TailMoved;
    PublishStepKeeps(s, false);
    RingShape(s.ring, |Pending(s.reqs)|) by { RingOf(s); }
    TailMovedShape(s.ring);
    var s1, q := s.(ring := TailMoved(s.ring), doneBy := s.doneBy + [r]), s.reqs[r].(io := false, completing := false);
    CompletedHappens(s1, r, q);
    PutReleases(s1, r, q, false);
  }

  lemma RingOf(s: State)
    requires Inv(s)
    ensures RingOk(s.ring, |Pending(s.reqs)|)
  {
  }

  lemma CompletedHappens(s: State, r: ReqId, q: Req)
    ensures !PutCompleted(s, r, q, false).Disabled?
  {
  }

  /** Careful is exact: a step from a tame state that is not careful goes wrong, or leads to a state that careful steps
      alone take to where it does; after a careful one no careful run goes wrong. */
  lemma CarefulIsExact(s: State, l: Label)
    requires Ready(s) && Tame(s) && !Exec(s, l).Disabled?
    ensures Careful(s, l) <==> Exec(s, l).Next? && !Doomed(Exec(s, l).s)
  {
    hide Inv, Orderly, Tame, Exec, Doomed, Breaks, Untouched;
    if Careful(s, l) {
      StepTame(s, l);
      TameNotDoomed(Exec(s, l).s);
    } else if Exec(s, l).Next? {
      if l.CompleteWrite? {
        WriteDoomed(s, l);
      } else if l.CompleteSilent? {
        SilentDoomed(s, l);
      } else {
        PutDoomed(s, l);
      }
    }
  }

  /** The same over runs: after a careful run, a step is careful exactly when it does not go wrong and leaves nothing
      that careful steps could take to where it does. */
  lemma CarefulRunsExact(nr: nat, slots: seq<Event>, ls: seq<Label>, l: Label)
    requires 0 < nr == |slots| && CarefulRun(IoctxAlloc(nr, slots), ls)
    ensures Run(IoctxAlloc(nr, slots), ls).Next?
    ensures var s := Run(IoctxAlloc(nr, slots), ls).s;
            !Exec(s, l).Disabled? ==> (Careful(s, l) <==> Exec(s, l).Next? && !Doomed(Exec(s, l).s))
  {
    hide Inv, Orderly, Run, CarefulRun, Exec, Careful, Doomed;
    InitOk(nr, slots);
    InitOrderly(nr, slots);
    CarefulKeeps(IoctxAlloc(nr, slots), ls);
    RunOrderly(IoctxAlloc(nr, slots), ls);
    var s := Run(IoctxAlloc(nr, slots), ls).s;
    if !Exec(s, l).Disabled? {
      CarefulIsExact(s, l);
    }
  }

  lemma TameNotDoomed(s: State)
    requires Inv(s) && Tame(s)
    ensures !Doomed(s)
  {
    hide Inv, Tame, Run, CarefulRun;
    if Doomed(s) {
      var ls :| CarefulRun(s, ls) && Run(s, ls).Bug?;
      CarefulKeeps(s, ls);
      assert false;
    }
  }
}
