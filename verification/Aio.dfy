/** What holds in every run of the asynchronous I/O machine, from the allocation of the context on. */
module Aio {
  import opened Wrappers
  import opened AioModel
  import opened AioInv
  import opened AioSteps

  lemma InitOk(nr: nat, slots: seq<Event>)
    requires 0 < nr == |slots|
    ensures Inv(IoctxAlloc(nr, slots))
  {
    var s := IoctxAlloc(nr, slots);
    assert Pending(s.reqs) == {};
    assert s.reqs.Keys == {};
  }

  lemma {:induction false} RunKeeps(s: State, ls: seq<Label>)
    requires Inv(s)
    ensures Run(s, ls).Next? ==> Inv(Run(s, ls).s)
    decreases ls
  {
    hide Inv, Exec, Breaks;
    if ls != [] {
      StepKeeps(s, ls[0]);
      RunKeeps(if Exec(s, ls[0]).Next? then Exec(s, ls[0]).s else s, ls[1..]);
    }
  }

  lemma {:induction false} RunConcat(s: State, a: seq<Label>, b: seq<Label>)
    requires Run(s, a).Next?
    ensures Run(s, a + b) == Run(Run(s, a).s, b)
    decreases a
  {
    hide Exec;
    if a == [] {
      assert a + b == b;
    } else {
      assert (a + b)[1..] == a[1..] + b;
      RunConcat(if Exec(s, a[0]).Next? then Exec(s, a[0]).s else s, a[1..], b);
    }
  }

  lemma OneStep(s: State, a: Label)
    requires Exec(s, a).Next?
    ensures Run(s, [a]) == Exec(s, a)
  {
    hide Exec;
    assert [a][1..] == [];
  }

  /** A state some run leads to. */
  ghost predicate Reachable(s: State) {
    exists nr: nat, slots: seq<Event>, ls: seq<Label> :: 0 < nr == |slots| && Run(IoctxAlloc(nr, slots), ls) == Next(s)
  }

  lemma ReachableOk(s: State)
    requires Reachable(s)
    ensures Inv(s)
  {
    hide Inv, Run, IoctxAlloc;
    var nr: nat, slots: seq<Event>, ls: seq<Label> :| 0 < nr == |slots| && Run(IoctxAlloc(nr, slots), ls) == Next(s);
    InitOk(nr, slots);
    RunKeeps(IoctxAlloc(nr, slots), ls);
  }

  /** Requests still to complete and unread events never fill the ring, so no event is overwritten before it is read:
      every unread event stands in its slot; and the events handed to readers are, in order, the first of those
      completed, each once. */
  lemma RingSafe(s: State)
    requires Reachable(s)
    ensures |Pending(s.reqs)| + |s.ring.done| - |s.ring.seen| <= s.ring.nr - 1
    ensures s.ring.seen <= s.ring.done
    ensures 0 < s.ring.nr == |s.ring.slots|
    ensures forall i | 0 <= i < |s.ring.done| - |s.ring.seen| :: Holds(s.ring, i)
    ensures s.ring.reading.Some? ==> s.ring.seen + [s.ring.reading.value] <= s.ring.done
  {
    ReachableOk(s);
    hide ReqsOk, ListsOk, CtxOk, WriterOk, Pending, Reachable, Holds;
  }

  /** Both reference counts are the numbers of their holders; a context that is freed has no holder and no request. */
  lemma RefsConserved(s: State)
    requires Reachable(s)
    ensures s.ctx.users == One(s.ctx.listRef) + s.ctx.lookups + s.ctx.reqsActive + s.ctx.owed + |s.crew.owing|
    ensures s.ctx.reqsActive == |s.reqs|
    ensures forall r | r in s.reqs :: s.reqs[r].users == Holders(s.reqs[r])
    ensures s.ctx.freed <==> s.ctx.users == 0
    ensures s.ctx.freed ==> s.reqs == map[] && s.crew.owing == {} && !s.crew.work
    ensures s.ctx.freed ==> s.ctx.lookups == 0 && s.ctx.owed == 0 && !s.ctx.listed && !s.ctx.exiting
    ensures |s.crew.callers| + One(s.ring.reading.Some?) <= s.ctx.lookups
    ensures s.gone !! s.reqs.Keys
  {
    hide RingOk, ListsOk, WriterOk, RetryOk, Reachable, Pending;
    ReachableOk(s);
    hide CtxOk, ReqsOk;
    ContextCounts(s.ctx, s.reqs, s.crew.owing);
    forall r | r in s.reqs
      ensures s.reqs[r].users == Holders(s.reqs[r])
    {
      ReqOf(s, r);
    }
  }

  lemma ContextCounts(c: Ctx, reqs: map<ReqId, Req>, owing: set<ListId>)
    requires CtxOk(c, |reqs.Keys|, |owing|)
    ensures c.users == One(c.listRef) + c.lookups + c.reqsActive + c.owed + |owing| && c.reqsActive == |reqs|
    ensures c.freed <==> c.users == 0
    ensures c.freed ==> reqs == map[] && owing == {} && c.lookups == 0 && c.owed == 0 && !c.listed && !c.exiting
  {
    if c.freed {
      assert |reqs.Keys| == 0 && |owing| == 0;
    }
  }

  /** A retry runs only while its request is on no run list, and a request is at most once on at most one list. */
  lemma OneRetry(s: State, r: ReqId)
    requires Reachable(s) && r in s.reqs
    ensures s.reqs[r].run.Some? ==> !OnList(s.lists, r)
    ensures forall t, u | t in s.lists && u in s.lists && r in s.lists[t] && r in s.lists[u] :: t == u
    ensures forall t, i, j | t in s.lists && 0 <= i < j < |s.lists[t]| :: s.lists[t][i] != s.lists[t][j]
  {
    ReachableOk(s);
    hide RingOk, CtxOk, WriterOk, Counted, Reachable;
    assert ReqOk(s.reqs[r]);
    forall t, i, j | t in s.lists && 0 <= i < j < |s.lists[t]|
      ensures s.lists[t][i] != s.lists[t][j]
    {
      assert NoRepeat(s.lists[t]);
    }
  }

  /** No kick is lost below the retry cap: a submitted request that is neither complete, nor being retried, nor handed
      off is queued, waits on a wait queue, or has a wake-up on its way to __queue_kicked_iocb. */
  lemma NoLostKick(s: State, r: ReqId)
    requires Reachable(s) && r in s.reqs && s.reqs[r].io && s.reqs[r].queued && s.reqs[r].run.None? && !s.reqs[r].handed
    requires s.reqs[r].retried <= 1024 * 1024 + 1
    ensures OnList(s.lists, r) || s.reqs[r].waiting || s.reqs[r].woken > 0 || s.reqs[r].kicking > 0
  {
    ReachableOk(s);
    hide RingOk, CtxOk, WriterOk, Counted, Reachable, OnList;
    assert ReqOk(s.reqs[r]);
  }

  /** Past the cap the property fails for good: list_del has left the link in a state in which no kick queues the
      request, so it is never queued, retried or completed again, whatever wake-ups arrive. */
  predicate Stuck(s: State, r: ReqId) {
    r in s.reqs && s.reqs[r].io && s.reqs[r].retried > 1024 * 1024 + 1
  }

  /** What a step leaves of a request: it is not freed, and its I/O and its retry count are as they were. */
  predicate Left(s: State, o: Outcome, r: ReqId) {
    o.Next? && r in s.reqs ==>
      r in o.s.reqs && o.s.reqs[r].io == s.reqs[r].io && o.s.reqs[r].retried == s.reqs[r].retried
  }

  lemma PutLeaves(s: State, x: ReqId, q: Req, lastFile: bool, who: Option<ListId>, r: ReqId)
    requires x in s.reqs && q.retried == s.reqs[x].retried
    requires x == r ==> q.io && s.reqs[x].io
    ensures Left(s, AioPutReq(s, x, q, lastFile, who), r)
  {
    if q.users > 1 && !s.ctx.freed {
      NotLast(s, x, q, lastFile, who);
    } else if AioPutReq(s, x, q, lastFile, who).Next? {
      LastPut(s, x, q, lastFile, who);
    }
    hide AioPutReq;
  }

  /** The last put of a request finds its I/O complete, or it is a Bug. */
  lemma LastPut(s: State, x: ReqId, q: Req, lastFile: bool, who: Option<ListId>)
    requires q.users <= 1 && AioPutReq(s, x, q, lastFile, who).Next?
    ensures !q.io
    ensures forall r | r in s.reqs && r != x ::
              var s' := AioPutReq(s, x, q, lastFile, who).s; r in s'.reqs && s'.reqs[r] == s.reqs[r]
  {
  }

  lemma LocalLeaves(s: State, l: Label, r: ReqId)
    requires OnRequest(l)
    ensures Left(s, LocalStep(s, l), r)
  {
    if l.r in s.reqs {
      ReqLeft(s.reqs[l.r], l);
    }
    hide RetryReq, WakeReq;
  }

  lemma ReqLeft(q: Req, l: Label)
    ensures RetryReq(q, l).Some? ==> SameRequest(q, RetryReq(q, l).value)
    ensures WakeReq(q, l).Some? ==> SameRequest(q, WakeReq(q, l).value)
  {
  }

  predicate SameRequest(q: Req, q': Req) {
    q'.io == q.io && q'.retried == q.retried && q'.obj == q.obj && q'.data == q.data
  }

  lemma SubmitLeaves(s: State, l: Label, r: ReqId)
    requires l.Queue? || l.Abort? || l.PutSubmit? || l.Cancel? || l.PutCancel?
    requires r in s.reqs && s.reqs[r].io && s.reqs[r].queued
    ensures Left(s, SubmitStep(s, l), r)
  {
    hide AioPutReq, AddTail;
    if l.r in s.reqs {
      var q := s.reqs[l.r];
      match l
      case Queue(_, _) =>
      case Cancel(_, _, _) =>
      case Abort(_, lastFile) => if l.r != r { PutLeaves(s, l.r, q.(io := false), lastFile, None, r); }
      case PutSubmit(_, lastFile) => PutLeaves(s, l.r, q.(submit := false), lastFile, None, r);
      case PutCancel(_, lastFile) =>
        if q.cancels > 0 { PutLeaves(s, l.r, q.(cancels := q.cancels - 1), lastFile, None, r); }
    }
  }

  lemma FinishLeaves(s: State, l: Label, r: ReqId)
    requires (l.FinishRetry? || l.FinishDrop?) && r in s.reqs && s.reqs[r].io && s.reqs[r].run.None?
    ensures Left(s, FinishStep(s, l), r)
  {
    hide AioPutReq, AddTail;
    if l.r in s.reqs && l.r != r {
      var q := s.reqs[l.r];
      var s1, q1 := Returned(s, q.runner), q.(link := Self, run := None);
      if l.FinishDrop? {
        PutLeaves(s1, l.r, q.(run := None), l.lastFile, Some(q.runner), r);
      } else if q.kicked {
        PutLeaves(QueueKickedIocb(s1, l.r, q1), l.r, q1.(link := Listed), false, Some(q.runner), r);
      } else {
        PutLeaves(s1, l.r, q1, false, Some(q.runner), r);
      }
    }
  }

  lemma CompletedLeaves(s: State, x: ReqId, q: Req, lastFile: bool, r: ReqId)
    requires x in s.reqs && q.retried == s.reqs[x].retried && x != r
    ensures Left(s, PutCompleted(s, x, q, lastFile), r)
  {
    hide AioPutReq;
    PutLeaves(s, x, q, lastFile, None, r);
    PutLeaves(s.(crew := s.crew.(completers := s.crew.completers + 1)), x, q, lastFile, None, r);
  }

  lemma CompleteLeaves(s: State, l: Label, r: ReqId)
    requires l.CompleteWrite? || l.CompleteSilent?
    requires r in s.reqs && s.reqs[r].io && s.reqs[r].run.None? && !s.reqs[r].handed
    ensures Left(s, CompleteStep(s, l), r)
  {
    hide PutCompleted, Unlist;
    if l.CompleteSilent? && l.r in s.reqs && l.r != r {
      var q := s.reqs[l.r];
      var link := if q.link == Listed then Self else q.link;
      CompletedLeaves(s.(lists := Unlist(s, l.r, q)), l.r, Completed(q).(link := link, io := false), l.lastFile, r);
    }
  }

  lemma PublishLeaves(s: State, lastFile: bool, r: ReqId)
    requires r in s.reqs && s.reqs[r].io && !s.reqs[r].completing && WriterOk(s.ring, s.reqs)
    ensures Left(s, PublishStep(s, lastFile), r)
  {
    hide PutCompleted, TailMoved;
    if s.ring.writing.Some? && s.ring.nr > 0 {
      var x := s.ring.writing.value.0;
      CompletedLeaves(s.(ring := TailMoved(s.ring), doneBy := s.doneBy + [x]), x,
                      s.reqs[x].(io := false, completing := false), lastFile, r);
    }
  }

  lemma StartLeaves(s: State, t: ListId, r: ReqId)
    requires r in s.reqs && (t in s.lists ==> r !in s.lists[t])
    ensures Left(s, StartStep(s, t), r)
  {
  }

  lemma OtherLeaves(s: State, l: Label, r: ReqId)
    requires r in s.reqs && s.reqs[r].io
    requires l.Admit? || l.Splice? || l.QueueKicked? || l.ReadCopy? || l.ReadAdvance? || l.FputFinish?
    ensures Left(s, Exec(s, l), r)
  {
    hide AdmitStep, SpliceStep, QueueKickedStep, ReadStep, FputFinishStep, Left;
    if l.FputFinish? { FputLeaves(s, l.r, r); }
    else if l.Admit? { AdmitLeaves(s, l.r, l.obj, l.data, r); }
    else if l.QueueKicked? { QueueKickedLeaves(s, l.r, r); }
    else { QueuesLeave(s, l, r); }
  }

  lemma ThreadsLeave(s: State, l: Label, r: ReqId)
    requires l.Enter? || l.Leave? || l.WakeOwn? || l.WakeBare? || l.QueueWork? || l.StrayWake? || OnContext(l)
    ensures Left(s, Exec(s, l), r)
  {
    hide ContextStep, CrewStep, TouchStep, Left;
    if l.Enter? || l.Leave? { CrewLeaves(s, l, r); }
    else if OnContext(l) { ContextLeaves(s, l, r); }
    else { TouchLeaves(s, l, r); }
  }

  lemma CrewLeaves(s: State, l: Label, r: ReqId)
    requires l.Enter? || l.Leave?
    ensures Left(s, CrewStep(s, l), r)
  {
  }

  lemma TouchLeaves(s: State, l: Label, r: ReqId)
    requires l.WakeOwn? || l.WakeBare? || l.QueueWork? || l.StrayWake?
    ensures Left(s, TouchStep(s, l), r)
  {
  }

  lemma AdmitLeaves(s: State, x: ReqId, obj: int, data: int, r: ReqId)
    ensures Left(s, AdmitStep(s, x, obj, data), r)
  {
  }

  lemma QueueKickedLeaves(s: State, x: ReqId, r: ReqId)
    ensures Left(s, QueueKickedStep(s, x), r)
  {
  }

  lemma QueuesLeave(s: State, l: Label, r: ReqId)
    requires l.ReadCopy? || l.ReadAdvance? || l.Splice?
    ensures Left(s, if l.Splice? then SpliceStep(s, l.t) else ReadStep(s, l), r)
  {
  }

  lemma ContextLeaves(s: State, l: Label, r: ReqId)
    ensures Left(s, ContextStep(s, l), r)
  {
    hide ContextStep;
    if ContextStep(s, l).Next? {
      ContextOnly(s, l);
    }
  }

  /** A step on the context changes nothing but its counts and the threads. */
  lemma ContextOnly(s: State, l: Label)
    requires ContextStep(s, l).Next?
    ensures ContextStep(s, l).s == s.(ctx := ContextStep(s, l).s.ctx, crew := ContextStep(s, l).s.crew)
  {
    var c, w := s.ctx, s.crew;
    if l.DropLookup? {
      PutOnly(s.(ctx := c.(lookups := c.lookups - 1)), {});
    } else if l.ExitPut? {
      PutOnly(s.(ctx := c.(exiting := false, listRef := false)), {});
    } else if l.OwedPut? {
      PutOnly(s.(ctx := c.(owed := c.owed - 1)), {});
    } else if l.DrainPut? {
      PutOnly(s.(crew := w.(owing := w.owing - {l.t})), {l.t});
    }
    hide PutIoctx;
  }

  lemma PutOnly(s: State, me: set<ListId>)
    requires PutIoctx(s, me).Next?
    ensures PutIoctx(s, me).s == s.(ctx := PutIoctx(s, me).s.ctx, crew := PutIoctx(s, me).s.crew)
  {
  }

  lemma FputLeaves(s: State, x: ReqId, r: ReqId)
    requires r in s.reqs && s.reqs[r].io
    ensures Left(s, FputFinishStep(s, x), r)
  {
  }

  lemma StuckStep(s: State, r: ReqId, l: Label)
    requires Inv(s) && Stuck(s, r) && Exec(s, l).Next?
    ensures Stuck(Exec(s, l).s, r)
  {
    hide InvBut, OnList, WriterOk, AdmitStep, SubmitStep, SpliceStep, StartStep, FinishStep, QueueKickedStep,
         CompleteStep, PublishStep, ReadStep, FputFinishStep, ContextStep, LocalStep, CrewStep, TouchStep, Left, Stuck;
    StuckFacts(s, r);
    if l.Queue? || l.Abort? || l.PutSubmit? || l.Cancel? || l.PutCancel? { SubmitLeaves(s, l, r); }
    else if l.Start? { StartLeaves(s, l.t, r); }
    else if l.FinishRetry? || l.FinishDrop? { FinishLeaves(s, l, r); }
    else if l.CompleteWrite? || l.CompleteSilent? { CompleteLeaves(s, l, r); }
    else if l.CompletePublish? { PublishLeaves(s, l.lastFile, r); }
    else if OnRequest(l) { LocalLeaves(s, l, r); }
    else if l.Admit? || l.Splice? || l.QueueKicked? || l.ReadCopy? || l.ReadAdvance? || l.FputFinish? {
      OtherLeaves(s, l, r);
    } else { ThreadsLeave(s, l, r); }
    StuckLeft(s, r, Exec(s, l));
  }

  lemma StuckLeft(s: State, r: ReqId, o: Outcome)
    requires Stuck(s, r) && Left(s, o, r) && o.Next?
    ensures Stuck(o.s, r)
  {
  }

  lemma StuckFacts(s: State, r: ReqId)
    requires Inv(s) && Stuck(s, r)
    ensures r in s.reqs
    ensures var q := s.reqs[r]; q.io && q.queued && q.run.None? && !q.handed && !q.completing
    ensures forall t | t in s.lists :: r !in s.lists[t]
    ensures WriterOk(s.ring, s.reqs)
  {
    assert ReqOk(s.reqs[r]);
  }

  lemma {:induction false} StuckForever(s: State, r: ReqId, ls: seq<Label>)
    requires Inv(s) && Stuck(s, r)
    ensures Run(s, ls).Next? ==>
              Stuck(Run(s, ls).s, r) && !OnList(Run(s, ls).s.lists, r) && Run(s, ls).s.reqs[r].run.None?
    decreases ls
  {
    NotScheduled(s, r);
    hide Inv, Exec, Stuck, OnList, Breaks;
    if ls != [] && !Exec(s, ls[0]).Bug? {
      StepKeeps(s, ls[0]);
      if Exec(s, ls[0]).Next? {
        StuckStep(s, r, ls[0]);
        StuckForever(Exec(s, ls[0]).s, r, ls[1..]);
      } else {
        StuckForever(s, r, ls[1..]);
      }
    }
  }

  lemma NotScheduled(s: State, r: ReqId)
    requires Inv(s) && Stuck(s, r)
    ensures r in s.reqs && !OnList(s.lists, r) && s.reqs[r].run.None?
  {
    assert ReqOk(s.reqs[r]);
  }
}
