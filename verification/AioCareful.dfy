/** When the asynchronous I/O machine never goes wrong. fs/aio.c leaves three things to the timing of its callers: that
    aio_kick_handler is not the one to free the context, that nobody is on the way to the context without a reference
    when it is freed, and that no wake-up is outstanding when a request is completed. A run that keeps to them never
    meets a BUG and touches nothing freed. */
module AioCareful {
  import opened Wrappers
  import opened AioModel
  import opened AioInv
  import opened AioSteps
  import opened Aio

  /** The step ends with a put_ioctx. */
  predicate Puts(l: Label) {
    l.DropLookup? || l.ExitPut? || l.OwedPut? || l.DrainPut?
  }

  /** A request is completed only when no wait queue entry and no wake-up leads to it, and the last reference on the
      context is dropped only when no thread has still to touch it without one. */
  predicate Careful(s: State, l: Label) {
    && (l.CompleteWrite? || l.CompleteSilent? ==> l.r in s.reqs ==> Quiet(s.reqs[l.r]))
    && (Puts(l) && s.ctx.users == 1 ==> Untouched(s.crew))
  }

  predicate Untouched(w: Crew) {
    w.workers == {} && w.completers == 0 && w.kickers == 0
  }

  /** Every step that is taken is careful. */
  predicate CarefulRun(s: State, ls: seq<Label>)
    decreases ls
  {
    ls == [] || match Exec(s, ls[0])
      case Next(s') => Careful(s, ls[0]) && CarefulRun(s', ls[1..])
      case Disabled => CarefulRun(s, ls[1..])
      case Bug => Careful(s, ls[0])
  }

  // ---- careful runs never go wrong

  /** Wake-ups lead only to requests that are not complete. */
  predicate Awaited(q: Req) {
    Quiet(q) || (q.io && !q.completing)
  }

  predicate AllAwaited(reqs: map<ReqId, Req>, x: int) {
    forall r | r in reqs && r != x :: Awaited(reqs[r])
  }

  /** Nothing freed can be reached. */
  predicate Tame(s: State) {
    (s.ctx.freed ==> Untouched(s.crew)) && s.strays == 0 && AllAwaited(s.reqs, -1)
  }

  lemma PutTame(s: State, r: ReqId, q: Req, lastFile: bool, who: Option<ListId>)
    requires s.strays == 0 && AllAwaited(s.reqs, r) && Awaited(q)
    ensures var o := AioPutReq(s, r, q, lastFile, who); o.Next? ==> Tame(o.s) && !o.s.ctx.freed
  {
    hide AioPutReq, AllAwaited, Awaited;
    if AioPutReq(s, r, q, lastFile, who).Next? {
      PutFrame(s, r, q, lastFile, who);
      SameAwaited(q);
      OneAwaited(s.reqs, r, q.(users := q.users - 1));
      OneAwaited(s.reqs, r, Deferring(q));
    }
  }

  lemma SameAwaited(q: Req)
    requires Awaited(q)
    ensures Awaited(q.(users := q.users - 1)) && Awaited(Deferring(q)) && (Unheld(q) ==> Quiet(q))
  {
  }

  lemma OneAwaited(reqs: map<ReqId, Req>, r: ReqId, q: Req)
    requires AllAwaited(reqs, r) && Awaited(q)
    ensures AllAwaited(reqs[r := q], -1) && AllAwaited(reqs - {r}, -1)
  {
    hide Awaited;
  }

  lemma CompletedTame(s: State, r: ReqId, q: Req, lastFile: bool)
    requires s.strays == 0 && AllAwaited(s.reqs, r) && Awaited(q)
    ensures var o := PutCompleted(s, r, q, lastFile); o.Next? ==> Tame(o.s)
  {
    hide AioPutReq, Tame, Awaited;
    PutTame(s, r, q, lastFile, None);
    PutTame(s.(crew := s.crew.(completers := s.crew.completers + 1)), r, q, lastFile, None);
  }

  lemma OneTame(s: State, r: ReqId, q: Req)
    requires Inv(s) && Tame(s) && r in s.reqs && Awaited(q)
    ensures Tame(WithReq(s, r, q)) && AllAwaited(s.reqs, r)
  {
    hide InvBut, Awaited;
    ReqOf(s, r);
  }

  lemma LocalTame(s: State, l: Label)
    requires Inv(s) && Tame(s) && OnRequest(l)
    ensures LocalStep(s, l).Next? ==> Tame(LocalStep(s, l).s)
  {
    hide Inv, Tame;
    if LocalStep(s, l).Next? {
      ReqOf(s, l.r);
      AwaitedOf(s, l.r);
      LocalAwaited(s.reqs[l.r], l);
      OneTame(s, l.r, LocalStep(s, l).s.reqs[l.r]);
    }
    hide RetryReq, WakeReq;
  }

  lemma AwaitedOf(s: State, r: ReqId)
    requires Tame(s) && r in s.reqs
    ensures Awaited(s.reqs[r])
  {
  }

  lemma LocalAwaited(q: Req, l: Label)
    requires ReqOk(q) && Awaited(q)
    ensures RetryReq(q, l).Some? ==> Awaited(RetryReq(q, l).value)
    ensures WakeReq(q, l).Some? ==> Awaited(WakeReq(q, l).value)
  {
  }

  lemma SubmitTame(s: State, l: Label)
    requires Inv(s) && Tame(s) && (l.Queue? || l.Abort? || l.PutSubmit? || l.Cancel? || l.PutCancel?)
    ensures SubmitStep(s, l).Next? ==> Tame(SubmitStep(s, l).s)
  {
    hide Inv, AioPutReq, AddTail;
    if SubmitStep(s, l).Next? {
      var r, q := l.r, s.reqs[l.r];
      ReqOf(s, r);
      if l.Abort? {
        PutTame(s, r, q.(io := false), l.lastFile, None);
      } else if l.PutSubmit? {
        PutTame(s, r, q.(submit := false), l.lastFile, None);
      } else if l.PutCancel? {
        PutTame(s, r, q.(cancels := q.cancels - 1), l.lastFile, None);
      }
    }
  }

  lemma FinishTame(s: State, l: Label)
    requires Inv(s) && Tame(s) && (l.FinishRetry? || l.FinishDrop?)
    ensures FinishStep(s, l).Next? ==> Tame(FinishStep(s, l).s)
  {
    hide Inv, AioPutReq, AddTail;
    if FinishStep(s, l).Next? {
      var r, q := l.r, s.reqs[l.r];
      var s1, q1 := Returned(s, q.runner), q.(link := Self, run := None);
      if l.FinishDrop? {
        PutTame(s1, r, q.(run := None), l.lastFile, Some(q.runner));
      } else {
        PutTame(QueueKickedIocb(s1, r, q1), r, q1.(link := Listed), false, Some(q.runner));
        PutTame(s1, r, q1, false, Some(q.runner));
      }
    }
  }

  lemma CompleteTame(s: State, l: Label)
    requires Inv(s) && Tame(s) && Careful(s, l) && (l.CompleteWrite? || l.CompleteSilent?)
    ensures CompleteStep(s, l).Next? ==> Tame(CompleteStep(s, l).s)
  {
    hide Inv, PutCompleted, Unlist;
    if CompleteStep(s, l).Next? {
      var r, q := l.r, s.reqs[l.r];
      ReqOf(s, r);
      if l.CompleteSilent? {
        var link := if q.link == Listed then Self else q.link;
        CompletedTame(s.(lists := Unlist(s, r, q)), r, Completed(q).(link := link, io := false), l.lastFile);
      }
    }
  }

  lemma PublishTame(s: State, lastFile: bool)
    requires Inv(s) && Tame(s)
    ensures PublishStep(s, lastFile).Next? ==> Tame(PublishStep(s, lastFile).s)
  {
    hide PutCompleted, TailMoved, RingOk, ListsOk, ReqsOk, CtxOk, CrewOk, RunnersOk, Pending;
    if PublishStep(s, lastFile).Next? {
      var r := s.ring.writing.value.0;
      assert s.reqs[r].completing;
      CompletedTame(s.(ring := TailMoved(s.ring), doneBy := s.doneBy + [r]), r,
                    s.reqs[r].(io := false, completing := false), lastFile);
    }
  }

  lemma ContextTame(s: State, l: Label)
    requires Tame(s) && Careful(s, l) && OnContext(l)
    ensures ContextStep(s, l).Next? ==> Tame(ContextStep(s, l).s)
  {
    hide AllAwaited;
  }

  lemma ThreadsTame(s: State, l: Label)
    requires Inv(s) && Tame(s)
    requires l.Enter? || l.Leave? || l.WakeOwn? || l.WakeBare? || l.QueueWork? || l.StrayWake?
    ensures var o := if l.Enter? || l.Leave? then CrewStep(s, l) else TouchStep(s, l); o.Next? ==> Tame(o.s)
  {
    hide Inv, ListOf, Idle;
    if l.WakeOwn? && TouchStep(s, l).Next? {
      OneTame(s, l.r, s.reqs[l.r].(run := Some(Drop)));
    }
  }

  lemma QueuesTame(s: State, l: Label)
    requires Inv(s) && Tame(s) && (l.Splice? || l.Start? || l.QueueKicked? || l.ReadCopy? || l.ReadAdvance? || l.Admit?)
    ensures Exec(s, l).Next? ==> Tame(Exec(s, l).s)
  {
    hide Inv, RingAvail, ListOf, AddTail;
  }

  lemma FputTame(s: State, r: ReqId)
    requires Inv(s) && Tame(s)
    ensures FputFinishStep(s, r).Next? ==> Tame(FputFinishStep(s, r).s)
  {
    hide Inv;
  }

  /** A careful step from a tame state does not go wrong and leaves the state tame. */
  lemma StepTame(s: State, l: Label)
    requires Inv(s) && Tame(s) && Careful(s, l)
    ensures !Exec(s, l).Bug?
    ensures Exec(s, l).Next? ==> Tame(Exec(s, l).s) && Inv(Exec(s, l).s)
  {
    hide Inv, AdmitStep, SubmitStep, SpliceStep, StartStep, FinishStep, QueueKickedStep, CompleteStep, PublishStep,
         ReadStep, FputFinishStep, ContextStep, LocalStep, CrewStep, TouchStep, AllAwaited;
    StepKeeps(s, l);
    NotBroken(s, l);
    hide Breaks, Tame, Careful;
    if l.Queue? || l.Abort? || l.PutSubmit? || l.Cancel? || l.PutCancel? { SubmitTame(s, l); }
    else if l.FinishRetry? || l.FinishDrop? { FinishTame(s, l); }
    else if l.CompleteWrite? || l.CompleteSilent? { CompleteTame(s, l); }
    else if l.CompletePublish? { PublishTame(s, l.lastFile); }
    else if l.FputFinish? { FputTame(s, l.r); }
    else if OnContext(l) { ContextTame(s, l); }
    else if OnRequest(l) { LocalTame(s, l); }
    else if l.Splice? || l.Start? || l.QueueKicked? || l.ReadCopy? || l.ReadAdvance? || l.Admit? { QueuesTame(s, l); }
    else { ThreadsTame(s, l); }
  }

  lemma NotBroken(s: State, l: Label)
    requires Inv(s) && Tame(s) && Careful(s, l)
    ensures !Breaks(s, l)
  {
    hide AllAwaited, InvBut, ListOf;
    if s.ctx.freed {
      InvParts(s);
      assert |s.crew.callers| == 0;
    }
  }

  lemma {:induction false} CarefulKeeps(s: State, ls: seq<Label>)
    requires Inv(s) && Tame(s) && CarefulRun(s, ls)
    ensures Run(s, ls).Next? && Inv(Run(s, ls).s) && Tame(Run(s, ls).s)
    decreases ls
  {
    hide Inv, Tame, Exec, Careful;
    if ls != [] {
      if Exec(s, ls[0]).Disabled? {
        CarefulKeeps(s, ls[1..]);
      } else {
        StepTame(s, ls[0]);
        CarefulKeeps(Exec(s, ls[0]).s, ls[1..]);
      }
    }
  }

  /** No careful interleaving of submissions, retries, wake-ups, completions, cancellations, reads, releases and
      destruction reaches a BUG, frees what is still in use or touches what has been freed. */
  lemma NeverBug(nr: nat, slots: seq<Event>, ls: seq<Label>)
    requires 0 < nr == |slots| && CarefulRun(IoctxAlloc(nr, slots), ls)
    ensures Run(IoctxAlloc(nr, slots), ls).Next?
  {
    hide Inv, Run, CarefulRun;
    InitOk(nr, slots);
    CarefulKeeps(IoctxAlloc(nr, slots), ls);
  }
}
