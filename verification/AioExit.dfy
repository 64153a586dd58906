/** A context that is not destroyed but ended by exit_aio is never freed by aio_kick_handler: exit_aio keeps the
    reference of the list until no request is left and the work queue has been flushed. */
module AioExit {
  import opened Wrappers
  import opened AioModel
  import opened AioInv
  import opened AioSteps
  import opened Aio
  import opened AioThreads
  import opened AioCareful

  /** Once the list's reference is gone, so are the requests, the lookups and the puts of the threads in
      __aio_run_iocbs. */
  predicate Ended(s: State) {
    !s.ctx.listRef ==> s.ctx.lookups == 0 && s.reqs.Keys == {} && s.crew.owing == {}
  }

  /** A step that changes neither the puts of the threads in __aio_run_iocbs nor the references of list and lookups, and
      admits nothing. */
  predicate Settled(s: State, s': State) {
    && s'.crew.owing == s.crew.owing && s'.ctx.listRef == s.ctx.listRef && s'.ctx.lookups == s.ctx.lookups
    && s'.reqs.Keys <= s.reqs.Keys
  }

  lemma SettledKeeps(s: State, s': State)
    requires Ended(s) && Settled(s, s')
    ensures Ended(s')
  {
  }

  lemma PutSettled(s: State, r: ReqId, q: Req, lastFile: bool)
    requires r in s.reqs && AioPutReq(s, r, q, lastFile, None).Next?
    ensures Settled(s, AioPutReq(s, r, q, lastFile, None).s)
  {
    PutFrame(s, r, q, lastFile, None);
    hide AioPutReq;
  }

  lemma CompletedSettled(s: State, r: ReqId, q: Req, lastFile: bool)
    requires r in s.reqs && PutCompleted(s, r, q, lastFile).Next?
    ensures Settled(s, PutCompleted(s, r, q, lastFile).s)
  {
    hide AioPutReq;
    PutSettled(if q.users > 1 && q.run != Some(Waking) then s.(crew := s.crew.(completers := s.crew.completers + 1))
               else s, r, q, lastFile);
  }

  lemma SubmitSettled(s: State, l: Label)
    requires (l.Queue? || l.Abort? || l.PutSubmit? || l.Cancel? || l.PutCancel?) && SubmitStep(s, l).Next?
    ensures Settled(s, SubmitStep(s, l).s)
  {
    hide AioPutReq, AddTail;
    var q := s.reqs[l.r];
    if l.Abort? {
      PutSettled(s, l.r, q.(io := false), l.lastFile);
    } else if l.PutSubmit? {
      PutSettled(s, l.r, q.(submit := false), l.lastFile);
    } else if l.PutCancel? {
      PutSettled(s, l.r, q.(cancels := q.cancels - 1), l.lastFile);
    }
  }

  lemma CompleteSettled(s: State, l: Label)
    requires (l.CompleteWrite? || l.CompleteSilent?) && CompleteStep(s, l).Next?
    ensures Settled(s, CompleteStep(s, l).s)
  {
    hide PutCompleted, Unlist;
    if l.CompleteSilent? {
      var q := s.reqs[l.r];
      var link := if q.link == Listed then Self else q.link;
      CompletedSettled(s.(lists := Unlist(s, l.r, q)), l.r, Completed(q).(link := link, io := false), l.lastFile);
    }
  }

  lemma PublishSettled(s: State, lastFile: bool)
    requires PublishStep(s, lastFile).Next?
    ensures Settled(s, PublishStep(s, lastFile).s)
  {
    hide PutCompleted, TailMoved;
    var r := s.ring.writing.value.0;
    CompletedSettled(s.(ring := TailMoved(s.ring), doneBy := s.doneBy + [r]), r,
                     s.reqs[r].(io := false, completing := false), lastFile);
  }

  lemma OtherSettled(s: State, l: Label)
    requires l.Splice? || l.QueueKicked? || l.ReadCopy? || l.ReadAdvance? || l.FputFinish?
    requires Exec(s, l).Next?
    ensures Settled(s, Exec(s, l).s)
  {
    hide AddTail, ListOf, Unheld, Quiet;
  }

  lemma LocalSettled(s: State, l: Label)
    requires OnRequest(l) && LocalStep(s, l).Next?
    ensures Settled(s, LocalStep(s, l).s)
  {
    hide RetryReq, WakeReq;
  }

  lemma TouchSettled(s: State, l: Label)
    requires l.WakeOwn? || l.WakeBare? || l.QueueWork? || l.StrayWake?
    requires TouchStep(s, l).Next?
    ensures Settled(s, TouchStep(s, l).s)
  {
  }

  lemma AdmitEnded(s: State, l: Label)
    requires Ended(s) && l.Admit? && AdmitStep(s, l.r, l.obj, l.data).Next?
    ensures Ended(AdmitStep(s, l.r, l.obj, l.data).s)
  {
    hide RingAvail;
  }

  lemma ThreadsSettled(s: State, l: Label)
    requires (l.Enter? || l.Leave?) && CrewStep(s, l).Next?
    ensures Settled(s, CrewStep(s, l).s)
  {
    hide ListOf, Spare;
  }

  lemma StartSettled(s: State, t: ListId)
    requires StartStep(s, t).Next?
    ensures Settled(s, StartStep(s, t).s)
  {
    hide ListOf;
    assert StartStep(s, t).s.reqs.Keys == s.reqs.Keys;
  }

  /** There is no request to finish once the list's reference is gone. */
  lemma FinishEnded(s: State, l: Label)
    requires Ended(s) && (l.FinishRetry? || l.FinishDrop?) && FinishStep(s, l).Next?
    ensures Ended(FinishStep(s, l).s)
  {
    hide AioPutReq, AddTail;
    var r, q := l.r, s.reqs[l.r];
    var s1, q1, t := Returned(s, q.runner), q.(link := Self, run := None), q.runner;
    if l.FinishDrop? {
      PutFrame(s1, r, q.(run := None), l.lastFile, Some(t));
    } else if q.kicked {
      PutFrame(QueueKickedIocb(s1, r, q1), r, q1.(link := Listed), false, Some(t));
    } else {
      PutFrame(s1, r, q1, false, Some(t));
    }
  }

  lemma ContextEnded(s: State, l: Label)
    requires Inv(s) && Orderly(s) && Ended(s) && OnContext(l) && !l.Destroy? && ContextStep(s, l).Next?
    ensures Ended(ContextStep(s, l).s)
  {
    hide InvBut, PutIoctx;
    InvParts(s);
    var c, w := s.ctx, s.crew;
    if l.DropLookup? {
      PutRefs(s.(ctx := c.(lookups := c.lookups - 1)), {});
    } else if l.ExitPut? {
      PutRefs(s.(ctx := c.(exiting := false, listRef := false)), {});
      NobodyInside(s);
    } else if l.OwedPut? {
      PutRefs(s.(ctx := c.(owed := c.owed - 1)), {});
    } else if l.DrainPut? {
      PutRefs(s.(crew := w.(owing := w.owing - {l.t})), {l.t});
    }
  }

  /** exit_aio comes to its put when no system call, no handler and no request is left. */
  lemma NobodyInside(s: State)
    requires Inv(s) && Orderly(s) && s.ctx.exiting && s.ctx.reqsActive == 0 && s.crew.workers == {}
    ensures s.ctx.lookups == 0 && s.reqs.Keys == {} && s.crew.owing == {}
  {
    InvParts(s);
    hide InvBut;
    assert |s.crew.callers| == 0 && |s.reqs.Keys| == 0;
    assert forall t :: !Inside(s.crew, t);
  }

  lemma PutRefs(s: State, me: set<ListId>)
    requires PutIoctx(s, me).Next?
    ensures Settled(s, PutIoctx(s, me).s)
  {
  }

  lemma StepEnded(s: State, l: Label)
    requires Inv(s) && Orderly(s) && Ended(s) && !l.Destroy? && Exec(s, l).Next?
    ensures Ended(Exec(s, l).s)
  {
    hide Inv, Orderly, Ended, Settled, AdmitStep, SubmitStep, SpliceStep, StartStep, FinishStep, QueueKickedStep,
         CompleteStep, PublishStep, ReadStep, FputFinishStep, ContextStep, LocalStep, CrewStep, TouchStep;
    if l.Admit? { AdmitEnded(s, l); }
    else if l.FinishRetry? || l.FinishDrop? { FinishEnded(s, l); }
    else if OnContext(l) { ContextEnded(s, l); }
    else {
      if l.Queue? || l.Abort? || l.PutSubmit? || l.Cancel? || l.PutCancel? { SubmitSettled(s, l); }
      else if l.CompleteWrite? || l.CompleteSilent? { CompleteSettled(s, l); }
      else if l.CompletePublish? { PublishSettled(s, l.lastFile); }
      else if OnRequest(l) { LocalSettled(s, l); }
      else if l.WakeOwn? || l.WakeBare? || l.QueueWork? || l.StrayWake? { TouchSettled(s, l); }
      else if l.Enter? || l.Leave? { ThreadsSettled(s, l); }
      else if l.Start? { StartSettled(s, l.t); }
      else { OtherSettled(s, l); }
      SettledKeeps(s, Exec(s, l).s);
    }
  }

  predicate NoDestroy(ls: seq<Label>) {
    forall i | 0 <= i < |ls| :: !ls[i].Destroy?
  }

  lemma {:induction false} RunEnded(s: State, ls: seq<Label>)
    requires Inv(s) && Orderly(s) && Ended(s) && NoDestroy(ls) && Run(s, ls).Next?
    ensures Inv(Run(s, ls).s) && Ended(Run(s, ls).s)
    decreases ls
  {
    hide Inv, Orderly, Ended, Exec, Breaks;
    if ls != [] {
      assert NoDestroy(ls[1..]);
      StepKeeps(s, ls[0]);
      if Exec(s, ls[0]).Next? {
        StepEnded(s, ls[0]);
        StepOrderly(s, ls[0]);
        RunEnded(Exec(s, ls[0]).s, ls[1..]);
      } else {
        RunEnded(s, ls[1..]);
      }
    }
  }

  /** In a run without io_destroy, whichever put frees the context, no aio_kick_handler is at work then: of Careful only
      the accesses without a reference and the wake-ups are left to the timing of the callers. */
  lemma ExitWaits(nr: nat, slots: seq<Event>, ls: seq<Label>, l: Label)
    requires 0 < nr == |slots| && NoDestroy(ls) && Run(IoctxAlloc(nr, slots), ls).Next?
    requires var s := Run(IoctxAlloc(nr, slots), ls).s; Puts(l) && s.ctx.users == 1 && Exec(s, l).Next?
    ensures Run(IoctxAlloc(nr, slots), ls).s.crew.workers == {}
  {
    hide Inv, Orderly, Ended, Run, Exec;
    InitOk(nr, slots);
    InitOrderly(nr, slots);
    InitEnded(nr, slots);
    RunEnded(IoctxAlloc(nr, slots), ls);
    FreesAlone(Run(IoctxAlloc(nr, slots), ls).s, l);
  }

  lemma InitEnded(nr: nat, slots: seq<Event>)
    ensures Ended(IoctxAlloc(nr, slots))
  {
  }

  lemma FreesAlone(s: State, l: Label)
    requires Inv(s) && Ended(s) && Puts(l) && s.ctx.users == 1 && Exec(s, l).Next?
    ensures s.crew.workers == {}
  {
    hide InvBut;
    InvParts(s);
    assert s.crew.owing != {} ==> |s.crew.owing| > 0;
  }
}
