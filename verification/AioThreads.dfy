/** The threads of the asynchronous I/O machine keep order: ctx_lock has one holder, and whatever is queued has a thread
    to take it up. */
module AioThreads {
  import opened Wrappers
  import opened AioModel
  import opened AioInv
  import opened AioSteps
  import opened Aio

  /** Whoever is in a retry or owes a put is in __aio_run_iocbs, as a handler or as a system call. */
  predicate Manned(w: Crew) {
    && (forall t | t in w.owing :: Inside(w, t))
    && (forall t | t in w.running :: Inside(w, t))
    && (forall t | t in w.workers :: t !in w.callers && t in w.used)
    && (forall t | t in w.callers :: t in w.used)
    && RUN_LIST !in w.used
  }

  /** Only one thread in __aio_run_iocbs is outside aio_run_iocb, and none while an event is being written: ctx_lock has
      one holder at a time. */
  ghost predicate OneHolder(w: Crew, writing: bool) {
    && (forall t, u | Inside(w, t) && Inside(w, u) && t !in w.running && u !in w.running :: t == u)
    && (writing ==> forall t | Inside(w, t) :: t in w.running)
  }

  /** A thread in aio_run_iocb is in the retry of its request. */
  predicate Busy(running: map<ListId, ReqId>, reqs: map<ReqId, Req>) {
    forall t | t in running ::
      running[t] in reqs && reqs[running[t]].run.Some? && reqs[running[t]].runner == t
  }

  /** A local list has its thread. */
  predicate LocalsOk(w: Crew, lists: map<ListId, seq<ReqId>>) {
    forall t | t in lists && t != RUN_LIST && lists[t] != [] :: Inside(w, t)
  }

  /** If there is anything on the run list, a thread is in __aio_run_iocbs, and will look at the list before it leaves,
      or on its way to put the handler on the work queue, or the handler is there. */
  predicate Served(w: Crew, run: seq<ReqId>) {
    run != [] ==> w.workers + w.callers != {} || w.kickers > 0 || w.work
  }

  ghost predicate Orderly(s: State) {
    && Manned(s.crew) && OneHolder(s.crew, s.ring.writing.Some?) && Busy(s.crew.running, s.reqs)
    && LocalsOk(s.crew, s.lists) && Served(s.crew, ListOf(s, RUN_LIST))
  }

  // ---- steps that leave the threads alone

  /** Every retry that is going on goes on. */
  predicate SameRuns(reqs: map<ReqId, Req>, reqs': map<ReqId, Req>) {
    forall r | r in reqs && reqs[r].run.Some? :: r in reqs' && reqs'[r].run.Some? && reqs'[r].runner == reqs[r].runner
  }

  predicate SameThreads(w: Crew, w': Crew) {
    && w'.workers == w.workers && w'.callers == w.callers && w'.running == w.running && w'.used == w.used
    && (forall t | t in w'.owing :: t in w.owing) && (w'.kickers >= w.kickers) && (w.work ==> w'.work)
  }

  predicate Quietly(s: State, s': State) {
    && SameThreads(s.crew, s'.crew) && SameRuns(s.reqs, s'.reqs) && s'.lists == s.lists
    && (s'.ring.writing.Some? ==> s.ring.writing.Some?)
  }

  lemma QuietlyKeeps(s: State, s': State)
    requires Orderly(s) && Quietly(s, s')
    ensures Orderly(s')
  {
  }

  lemma PutQuietly(s: State, r: ReqId, q: Req, lastFile: bool)
    requires r in s.reqs && (s.reqs[r].run.Some? ==> q.run.Some? && q.runner == s.reqs[r].runner)
    requires AioPutReq(s, r, q, lastFile, None).Next?
    ensures Quietly(s, AioPutReq(s, r, q, lastFile, None).s)
  {
    PutFrame(s, r, q, lastFile, None);
    hide AioPutReq;
  }

  lemma CompletedQuietly(s: State, r: ReqId, q: Req, lastFile: bool)
    requires r in s.reqs && (s.reqs[r].run.Some? ==> q.run.Some? && q.runner == s.reqs[r].runner)
    requires PutCompleted(s, r, q, lastFile).Next?
    ensures Quietly(s, PutCompleted(s, r, q, lastFile).s)
  {
    hide AioPutReq;
    PutQuietly(if q.users > 1 && q.run != Some(Waking) then s.(crew := s.crew.(completers := s.crew.completers + 1))
               else s, r, q, lastFile);
  }

  lemma OneQuietly(s: State, r: ReqId, q: Req)
    requires r in s.reqs && (s.reqs[r].run.Some? ==> q.run.Some? && q.runner == s.reqs[r].runner)
    ensures Quietly(s, WithReq(s, r, q))
  {
  }

  lemma LocalQuietly(s: State, l: Label)
    requires Inv(s) && OnRequest(l) && LocalStep(s, l).Next?
    ensures Quietly(s, LocalStep(s, l).s)
  {
    hide Inv, RetryReq, WakeReq, ReqOk, Quietly;
    ReqOf(s, l.r);
    var q := s.reqs[l.r];
    if l.FputTake? {
      OneQuietly(s, l.r, q.(fput := Taken));
    } else if l.Wake? || l.TryKick? {
      WakeReqOk(q, l);
      OneQuietly(s, l.r, WakeReq(q, l).value);
    } else {
      RetryReqOk(q, l);
      OneQuietly(s, l.r, RetryReq(q, l).value);
    }
  }

  lemma SubmitQuietly(s: State, l: Label)
    requires (l.Abort? || l.PutSubmit? || l.Cancel? || l.PutCancel?) && SubmitStep(s, l).Next?
    ensures Quietly(s, SubmitStep(s, l).s)
  {
    hide AioPutReq, Quietly;
    var q := s.reqs[l.r];
    if l.Abort? {
      PutQuietly(s, l.r, q.(io := false), l.lastFile);
    } else if l.PutSubmit? {
      PutQuietly(s, l.r, q.(submit := false), l.lastFile);
    } else if l.PutCancel? {
      PutQuietly(s, l.r, q.(cancels := q.cancels - 1), l.lastFile);
    } else {
      OneQuietly(s, l.r, SubmitStep(s, l).s.reqs[l.r]);
    }
  }

  lemma PublishQuietly(s: State, lastFile: bool)
    requires PublishStep(s, lastFile).Next?
    ensures Quietly(s, PublishStep(s, lastFile).s)
  {
    hide PutCompleted, TailMoved;
    var r := s.ring.writing.value.0;
    TailMovedShape(s.ring);
    CompletedQuietly(s.(ring := TailMoved(s.ring), doneBy := s.doneBy + [r]), r,
                     s.reqs[r].(io := false, completing := false), lastFile);
  }

  lemma ReadQuietly(s: State, l: Label)
    requires (l.ReadCopy? || l.ReadAdvance?) && ReadStep(s, l).Next?
    ensures Quietly(s, ReadStep(s, l).s)
  {
  }

  lemma FputQuietly(s: State, r: ReqId)
    requires FputFinishStep(s, r).Next?
    ensures Quietly(s, FputFinishStep(s, r).s)
  {
    hide Quiet;
  }

  lemma AdmitQuietly(s: State, r: ReqId, obj: int, data: int)
    requires AdmitStep(s, r, obj, data).Next?
    ensures Quietly(s, AdmitStep(s, r, obj, data).s)
  {
    hide RingAvail, Spare, Unlocked;
  }

  // ---- steps of the threads in __aio_run_iocbs

  lemma EnterOrderly(s: State, t: ListId, worker: bool)
    requires Orderly(s) && CrewStep(s, Enter(t, worker)).Next?
    ensures Orderly(CrewStep(s, Enter(t, worker)).s)
  {
    hide Served, Spare;
    var s' := CrewStep(s, Enter(t, worker)).s;
    EnterServed(s.crew, s'.crew, t, ListOf(s, RUN_LIST));
  }

  lemma EnterServed(w: Crew, w': Crew, t: ListId, run: seq<ReqId>)
    requires t in w'.workers || t in w'.callers
    ensures Served(w', run)
  {
    assert t in w'.workers + w'.callers;
  }

  lemma QueueOrderly(s: State, r: ReqId, t: ListId)
    requires Inv(s) && Orderly(s) && SubmitStep(s, Queue(r, t)).Next?
    ensures Orderly(SubmitStep(s, Queue(r, t)).s)
  {
    hide InvBut, Served, Spare, RetryOk, Counted;
    var s' := SubmitStep(s, Queue(r, t)).s;
    EnterServed(s.crew, s'.crew, t, ListOf(s', RUN_LIST));
  }

  lemma LeaveOrderly(s: State, t: ListId)
    requires Orderly(s) && CrewStep(s, Leave(t)).Next?
    ensures Orderly(CrewStep(s, Leave(t)).s)
  {
  }

  lemma SpliceOrderly(s: State, t: ListId)
    requires Orderly(s) && SpliceStep(s, t).Next?
    ensures Orderly(SpliceStep(s, t).s)
  {
  }

  lemma StartOrderly(s: State, t: ListId)
    requires Inv(s) && Orderly(s) && StartStep(s, t).Next?
    ensures Orderly(StartStep(s, t).s)
  {
    hide RingOk, ListsOk, ReqsOk, WriterOk, CtxOk, CrewOk, RunnersOk, Pending, ReqOk, Served;
    var r := ListOf(s, t)[0];
    ListedLive(s.lists, s.reqs, t, r);
    ReqOf(s, r);
    ListedIdle(s.reqs[r]);
    var s' := StartStep(s, t).s;
    assert ListOf(s', RUN_LIST) == ListOf(s, RUN_LIST);
    SameServed(s.crew, s'.crew, ListOf(s, RUN_LIST));
  }

  lemma ListedIdle(q: Req)
    requires ReqOk(q) && q.link == Listed
    ensures q.run.None?
  {
  }

  lemma SameServed(w: Crew, w': Crew, run: seq<ReqId>)
    requires Served(w, run) && w'.workers == w.workers && w'.callers == w.callers && w'.kickers == w.kickers
    requires w'.work == w.work
    ensures Served(w', run)
  {
  }

  /** The thread comes back from aio_run_iocb, with ctx_lock. */
  lemma ReturnOrderly(s: State, s': State, r: ReqId)
    requires Inv(s) && Orderly(s) && Unlocked(s) && r in s.reqs && s.reqs[r].run.Some?
    requires var t := s.reqs[r].runner;
             && s'.crew == s.crew.(running := s.crew.running - {t}, owing := s'.crew.owing)
             && (forall u | u in s'.crew.owing :: u in s.crew.owing || u == t)
    requires s'.ring == s.ring && (forall t | t != RUN_LIST :: ListOf(s', t) == ListOf(s, t))
    requires forall x | x in s.reqs && x != r :: x in s'.reqs && s'.reqs[x] == s.reqs[x]
    ensures Orderly(s')
  {
    hide InvBut, Served;
    RunnerOf(s, r);
    var t := s.reqs[r].runner;
    EnterServed(s.crew, s'.crew, t, ListOf(s', RUN_LIST));
    LocalsSame(s, s');
  }

  lemma LocalsSame(s: State, s': State)
    requires LocalsOk(s.crew, s.lists) && s'.crew.workers == s.crew.workers && s'.crew.callers == s.crew.callers
    requires forall t | t != RUN_LIST :: ListOf(s', t) == ListOf(s, t)
    ensures LocalsOk(s'.crew, s'.lists)
  {
    forall t | t in s'.lists && t != RUN_LIST && s'.lists[t] != []
      ensures Inside(s'.crew, t)
    {
      assert ListOf(s', t) == ListOf(s, t);
    }
  }

  lemma FinishOrderly(s: State, l: Label)
    requires Inv(s) && Orderly(s) && (l.FinishRetry? || l.FinishDrop?) && FinishStep(s, l).Next?
    ensures Orderly(FinishStep(s, l).s)
  {
    hide Inv, Orderly, AioPutReq, AddTail, ListOf;
    var r, q := l.r, s.reqs[l.r];
    var s1, q1, t := Returned(s, q.runner), q.(link := Self, run := None), q.runner;
    if l.FinishDrop? {
      PutFrame(s1, r, q.(run := None), l.lastFile, Some(t));
      SameLists(s, FinishStep(s, l).s);
    } else if q.kicked {
      var s2 := QueueKickedIocb(s1, r, q1);
      PutFrame(s2, r, q1.(link := Listed), false, Some(t));
      AddTailSame(s, s1, r);
      AddLists(s, FinishStep(s, l).s, r);
    } else {
      PutFrame(s1, r, q1, false, Some(t));
      SameLists(s, FinishStep(s, l).s);
    }
    ReturnOrderly(s, FinishStep(s, l).s, r);
  }

  lemma SameLists(s: State, s': State)
    requires s'.lists == s.lists
    ensures forall t :: ListOf(s', t) == ListOf(s, t)
  {
  }

  lemma AddLists(s: State, s': State, r: ReqId)
    requires s'.lists == AddTail(s, r)
    ensures forall t | t != RUN_LIST :: ListOf(s', t) == ListOf(s, t)
  {
  }

  lemma KickedOrderly(s: State, r: ReqId)
    requires Orderly(s) && QueueKickedStep(s, r).Next?
    ensures Orderly(QueueKickedStep(s, r).s)
  {
    var s' := QueueKickedStep(s, r).s;
    assert SameRuns(s.reqs, s'.reqs);
  }

  lemma CompleteOrderly(s: State, l: Label)
    requires Inv(s) && Orderly(s) && (l.CompleteWrite? || l.CompleteSilent?) && CompleteStep(s, l).Next?
    ensures Orderly(CompleteStep(s, l).s)
  {
    hide InvBut, PutCompleted, ReqOk, Completed;
    var r, q := l.r, s.reqs[l.r];
    ReqOf(s, r);
    CompletedOk(q);
    var s' := CompleteStep(s, l).s;
    if l.CompleteSilent? {
      CompletedQuietly(s, r, Completed(q).(link := q.link, io := false), l.lastFile);
      hide CompleteStep, Quietly;
      QuietlyKeeps(s, s');
    } else {
      assert SameRuns(s.reqs, s'.reqs) && s'.lists == s.lists;
    }
  }

  // ---- the references on the context

  lemma NoneListed(lists: map<ListId, seq<ReqId>>, reqs: map<ReqId, Req>, t: ListId)
    requires ListsOk(lists, reqs) && |reqs.Keys| == 0
    ensures t in lists ==> lists[t] == []
  {
    if t in lists && lists[t] != [] {
      ListedLive(lists, reqs, t, lists[t][0]);
      assert false;
    }
  }

  /** Nothing is queued on a context that has been freed. */
  lemma FreedLists(s: State, t: ListId)
    requires Inv(s) && s.ctx.freed
    ensures ListOf(s, t) == []
  {
    hide RingOk, ListsOk, ReqsOk, WriterOk, Pending, RunnersOk, CrewOk;
    NoneListed(s.lists, s.reqs, t);
  }

  lemma PutThreads(s: State, me: set<ListId>)
    requires PutIoctx(s, me).Next?
    ensures var s' := PutIoctx(s, me).s;
            && s' == s.(ctx := s'.ctx, crew := s.crew.(work := s'.crew.work))
            && (s'.ctx.freed || s'.crew == s.crew)
  {
  }

  lemma ContextThreads(s: State, l: Label)
    requires OnContext(l) && ContextStep(s, l).Next?
    ensures var s' := ContextStep(s, l).s;
            && s' == s.(ctx := s'.ctx, crew := s.crew.(work := s'.crew.work, owing := s'.crew.owing))
            && s'.crew.owing <= s.crew.owing && (s'.ctx.freed || s'.crew.work == s.crew.work)
  {
    hide PutIoctx;
    var c, w := s.ctx, s.crew;
    if l.DropLookup? {
      PutThreads(s.(ctx := c.(lookups := c.lookups - 1)), {});
    } else if l.ExitPut? {
      PutThreads(s.(ctx := c.(exiting := false, listRef := false)), {});
    } else if l.OwedPut? {
      PutThreads(s.(ctx := c.(owed := c.owed - 1)), {});
    } else if l.DrainPut? {
      PutThreads(s.(crew := w.(owing := w.owing - {l.t})), {l.t});
    }
  }

  lemma ContextOrderly(s: State, l: Label)
    requires Inv(s) && Orderly(s) && OnContext(l) && ContextStep(s, l).Next?
    ensures Orderly(ContextStep(s, l).s)
  {
    hide Inv, ContextStep, ListOf;
    ContextThreads(s, l);
    ContextKeeps(s, l);
    var s' := ContextStep(s, l).s;
    SameLists(s, s');
    if s'.ctx.freed {
      FreedLists(s', RUN_LIST);
    }
  }

  lemma TouchOrderly(s: State, l: Label)
    requires Orderly(s) && (l.WakeOwn? || l.WakeBare? || l.QueueWork? || l.StrayWake?) && TouchStep(s, l).Next?
    ensures Orderly(TouchStep(s, l).s)
  {
  }

  // ---- every step and every run

  lemma StepOrderly(s: State, l: Label)
    requires Inv(s) && Orderly(s) && Exec(s, l).Next?
    ensures Orderly(Exec(s, l).s)
  {
    hide Inv, Orderly, Quietly, AdmitStep, SubmitStep, SpliceStep, StartStep, FinishStep, QueueKickedStep, CompleteStep,
         PublishStep, ReadStep, FputFinishStep, ContextStep, LocalStep, CrewStep, TouchStep;
    if l.Queue? { QueueOrderly(s, l.r, l.t); }
    else if l.Enter? { EnterOrderly(s, l.t, l.worker); }
    else if l.Leave? { LeaveOrderly(s, l.t); }
    else if l.Splice? { SpliceOrderly(s, l.t); }
    else if l.Start? { StartOrderly(s, l.t); }
    else if l.FinishRetry? || l.FinishDrop? { FinishOrderly(s, l); }
    else if l.QueueKicked? { KickedOrderly(s, l.r); }
    else if l.CompleteWrite? || l.CompleteSilent? { CompleteOrderly(s, l); }
    else if OnContext(l) { ContextOrderly(s, l); }
    else if l.WakeOwn? || l.WakeBare? || l.QueueWork? || l.StrayWake? { TouchOrderly(s, l); }
    else {
      if l.Abort? || l.PutSubmit? || l.Cancel? || l.PutCancel? { SubmitQuietly(s, l); }
      else if l.CompletePublish? { PublishQuietly(s, l.lastFile); }
      else if l.ReadCopy? || l.ReadAdvance? { ReadQuietly(s, l); }
      else if l.FputFinish? { FputQuietly(s, l.r); }
      else if l.Admit? { AdmitQuietly(s, l.r, l.obj, l.data); }
      else { LocalQuietly(s, l); }
      QuietlyKeeps(s, Exec(s, l).s);
    }
  }

  lemma {:induction false} RunOrderly(s: State, ls: seq<Label>)
    requires Inv(s) && Orderly(s) && Run(s, ls).Next?
    ensures Inv(Run(s, ls).s) && Orderly(Run(s, ls).s)
    decreases ls
  {
    hide Inv, Orderly, Exec, Breaks;
    if ls != [] {
      StepKeeps(s, ls[0]);
      if Exec(s, ls[0]).Next? {
        StepOrderly(s, ls[0]);
        RunOrderly(Exec(s, ls[0]).s, ls[1..]);
      } else {
        RunOrderly(s, ls[1..]);
      }
    }
  }

  lemma InitOrderly(nr: nat, slots: seq<Event>)
    ensures Orderly(IoctxAlloc(nr, slots))
  {
  }

  lemma ReachableOrderly(s: State)
    requires Reachable(s)
    ensures Inv(s) && Orderly(s)
  {
    hide Inv, Orderly, Run, IoctxAlloc;
    var nr: nat, slots: seq<Event>, ls: seq<Label> :| 0 < nr == |slots| && Run(IoctxAlloc(nr, slots), ls) == Next(s);
    InitOk(nr, slots);
    InitOrderly(nr, slots);
    RunOrderly(IoctxAlloc(nr, slots), ls);
  }

  /** In every reachable state ctx_lock has at most one holder: a completion that writes its event, or a thread in
      __aio_run_iocbs outside aio_run_iocb. */
  lemma OneLockHolder(s: State, t: ListId, u: ListId)
    requires Reachable(s) && Inside(s.crew, t) && t !in s.crew.running
    ensures s.ring.writing.None? && Mine(s, t)
    ensures Inside(s.crew, u) && u !in s.crew.running ==> u == t
  {
    hide Inv, Reachable;
    ReachableOrderly(s);
  }

  /** In every reachable state a non-empty run list has a thread in __aio_run_iocbs, one on its way to put the handler
      on the work queue, or the handler there; a request on a local list has its thread; and so below the retry cap
      every submitted, incomplete request is being retried by a thread in __aio_run_iocbs, has been handed off, waits
      on a wait queue, has a wake-up on its way, or is on a list that somebody will drain. */
  lemma RunListServed(s: State, r: ReqId)
    requires Reachable(s)
    ensures Served(s.crew, ListOf(s, RUN_LIST))
    ensures forall t | t in s.lists && t != RUN_LIST && s.lists[t] != [] :: Inside(s.crew, t)
    ensures r in s.reqs && s.reqs[r].io && s.reqs[r].queued && s.reqs[r].retried <= RETRY_CAP + 1 ==>
              || (s.reqs[r].run.Some? && Inside(s.crew, s.reqs[r].runner)) || s.reqs[r].handed || !Quiet(s.reqs[r])
              || (exists t | t in s.lists :: r in s.lists[t] && if t == RUN_LIST then Served(s.crew, s.lists[t])
                                                                else Inside(s.crew, t))
  {
    hide Inv, Reachable, Served, Manned;
    ReachableOrderly(s);
    if r in s.reqs && s.reqs[r].io && s.reqs[r].queued && s.reqs[r].retried <= RETRY_CAP + 1 {
      if s.reqs[r].run.Some? {
        RunnerOf(s, r);
        RunnerInside(s.crew, s.reqs[r].runner);
      } else if !s.reqs[r].handed && Quiet(s.reqs[r]) {
        NoLostKick(s, r);
        var t :| t in s.lists && r in s.lists[t];
      }
    }
  }

  lemma RunnerInside(w: Crew, t: ListId)
    requires Manned(w) && t in w.running
    ensures Inside(w, t)
  {
  }
}
