/** Every step of the asynchronous I/O machine keeps the invariant, and exactly five kinds of step go wrong. */
module AioSteps {
  import opened Wrappers
  import opened AioModel
  import opened AioInv
  import opened AioRing

  /** The step leads to no Bug and keeps the invariant. */
  predicate Keeps(o: Outcome) {
    !o.Bug? && (o.Next? ==> Inv(o.s))
  }

  /** The steps that go wrong: aio_kick_handler goes on with a context that it has freed; a completer on its way to
      ctx->wait, or a thread on its way to put the handler on the work queue, comes to a context that has been freed; a
      wake-up arrives at a request that has been freed; and a retry method returns a result with its wait entry still
      queued. */
  predicate Breaks(s: State, l: Label) {
    match l
    case Leave(t) => Mine(s, t) && Idle(s.crew, t) && ListOf(s, t) == [] && s.ctx.freed
    case WakeBare => s.crew.completers > 0 && s.ctx.freed
    case QueueWork => s.crew.kickers > 0 && s.ctx.freed
    case StrayWake => s.strays > 0
    case CompleteWrite(r, _, _) => Unlocked(s) && r in s.reqs && s.reqs[r].io && StillQueued(s.reqs[r])
    case CompleteSilent(r, _) => Unlocked(s) && r in s.reqs && s.reqs[r].io && StillQueued(s.reqs[r])
    case _ => false
  }

  // ---- requests

  lemma ReqOf(s: State, r: ReqId)
    requires Inv(s) && r in s.reqs
    ensures ReqOk(s.reqs[r]) && !s.ctx.freed && (s.ring.writing.None? ==> !s.reqs[r].completing)
  {
    Alive(s, r);
  }

  predicate SameHold(q: Req, q': Req) {
    && q'.io == q.io && q'.completing == q.completing && q'.link == q.link
    && (q'.run.Some? <==> q.run.Some?) && q'.runner == q.runner
  }

  lemma RetryReqOk(q: Req, l: Label)
    requires ReqOk(q) && RetryReq(q, l).Some?
    ensures ReqOk(RetryReq(q, l).value) && SameHold(q, RetryReq(q, l).value)
  {
  }

  lemma WakeReqOk(q: Req, l: Label)
    requires ReqOk(q) && WakeReq(q, l).Some?
    ensures ReqOk(WakeReq(q, l).value) && SameHold(q, WakeReq(q, l).value)
  {
  }

  lemma LocalKeeps(s: State, l: Label)
    requires Inv(s) && OnRequest(l)
    ensures Keeps(LocalStep(s, l))
  {
    hide InvBut, ReqOk, RetryReq, WakeReq;
    if LocalStep(s, l).Next? {
      var q := s.reqs[l.r];
      ReqOf(s, l.r);
      if l.FputTake? {
        FputTakeOk(q);
      } else if l.Wake? || l.TryKick? {
        WakeReqOk(q, l);
      } else {
        RetryReqOk(q, l);
      }
      OneRequest(s, l.r, LocalStep(s, l).s.reqs[l.r], -1);
    }
  }

  lemma FputTakeOk(q: Req)
    requires ReqOk(q) && q.fput == Deferred
    ensures ReqOk(q.(fput := Taken))
  {
  }

  lemma QueueKickedKeeps(s: State, r: ReqId)
    requires Inv(s)
    ensures Keeps(QueueKickedStep(s, r))
  {
    hide InvBut;
    if !QueueKickedStep(s, r).Disabled? {
      var q := s.reqs[r];
      ReqOf(s, r);
      if q.link == Self {
        var s1 := s.(crew := s.crew.(kickers := s.crew.kickers + 1));
        TokensKept(s, s1);
        QueueKeeps(s1, r, q.(kicking := q.kicking - 1, link := Listed));
      } else {
        OneRequest(s, r, q.(kicking := q.kicking - 1), -1);
      }
    }
  }

  /** The threads on their way to an access without a reference play no part in the invariant. */
  lemma TokensKept(s: State, s1: State)
    requires Inv(s) && s1 == s.(crew := s.crew.(completers := s1.crew.completers, kickers := s1.crew.kickers))
    ensures Inv(s1)
  {
    hide RingOk, ListsOk, ReqsOk, CtxOk, Pending, RunnersOk, WriterOk;
    OnlyThreads(s, s.ctx, s1.crew);
  }

  /** Putting a request that is on no list on the run list. */
  lemma QueueKeeps(s: State, r: ReqId, q: Req)
    requires Inv(s) && r in s.reqs && s.reqs[r].link != Listed && q.link == Listed && ReqOk(q) && q.io == s.reqs[r].io
    requires q.completing == s.reqs[r].completing && q.run.None?
    ensures Inv(WithReq(s, r, q).(lists := AddTail(s, r)))
  {
    hide RingOk, ListsOk, ReqsOk, CtxOk, ReqOk, Pending, AddTail, CrewOk, RunnersOk;
    ReqsKept(s.reqs, r, q, -1, -1);
    RunnersKept(s.crew.running, s.reqs, r, q);
    var reqs' := s.reqs[r := q];
    assert reqs'.Keys == s.reqs.Keys;
    PendingFewer(s.reqs, reqs');
    PendingFewer(reqs', s.reqs);
    RingFewerUnlessEqual(s.ring, |Pending(s.reqs)|, |Pending(reqs')|);
    ListsAdd(s, r, q);
  }

  lemma ListsAdd(s: State, r: ReqId, q: Req)
    requires ListsOk(s.lists, s.reqs) && r in s.reqs && s.reqs[r].link != Listed && q.link == Listed
    ensures ListsOk(AddTail(s, r), s.reqs[r := q])
  {
    var lists', reqs' := AddTail(s, r), s.reqs[r := q];
    var l := ListOf(s, RUN_LIST);
    assert r !in l && lists'[RUN_LIST][|l|] == r;
    assert forall x :: x in lists'[RUN_LIST] <==> x in l || x == r;
    assert forall t | t in s.lists && t != RUN_LIST :: lists'[t] == s.lists[t];
    forall x | x in reqs' && reqs'[x].link == Listed
      ensures OnList(lists', x)
    {
      OnListAdd(s, r, x);
    }
    hide OnList;
  }

  lemma OnListAdd(s: State, r: ReqId, x: ReqId)
    requires x == r || OnList(s.lists, x)
    ensures OnList(AddTail(s, r), x)
  {
    var lists', l := AddTail(s, r), ListOf(s, RUN_LIST);
    if x == r {
      assert lists'[RUN_LIST][|l|] == r;
    } else {
      var t :| t in s.lists && x in s.lists[t];
      assert x in lists'[t];
    }
  }

  // ---- puts

  /** A holder gives up its place and puts its reference. */
  lemma DropKeeps(s: State, r: ReqId, q: Req, lastFile: bool)
    requires Inv(s) && s.ring.writing.None? && r in s.reqs && Dropped(q)
    requires (q.io ==> s.reqs[r].io) && (q.link == Listed <==> s.reqs[r].link == Listed)
    requires q.completing == s.reqs[r].completing
    requires q.run.Some? ==> s.reqs[r].run.Some? && q.runner == s.reqs[r].runner
    ensures Keeps(AioPutReq(s, r, q, lastFile, None))
  {
    hide InvBut, RetryOk, Counted;
    OneRequest(s, r, q, r);
    PutKeeps(s, r, q, lastFile, None);
  }

  /** The thread in aio_run_iocb gives up its place. */
  lemma ReturnKeeps(s: State, r: ReqId, q: Req, lastFile: bool)
    requires Inv(s) && s.ring.writing.None? && r in s.reqs && Dropped(q) && s.reqs[r].run.Some? && q.run.None?
    requires q.io == s.reqs[r].io && q.link != Listed && s.reqs[r].link != Listed
    requires q.completing == s.reqs[r].completing
    ensures var t := s.reqs[r].runner; Keeps(AioPutReq(Returned(s, t), r, q, lastFile, Some(t)))
  {
    hide InvBut, RetryOk, Counted, MayOwe;
    var t := s.reqs[r].runner;
    RunnerOf(s, r);
    OneRequest(s, r, q, r);
    ReturnedOk(WithReq(s, r, q), r, t);
    assert Returned(WithReq(s, r, q), t) == WithReq(Returned(s, t), r, q);
    PutKeeps(Returned(s, t), r, q, lastFile, Some(t));
  }

  lemma RunnerOf(s: State, r: ReqId)
    requires Inv(s) && r in s.reqs && s.reqs[r].run.Some?
    ensures s.reqs[r].runner in s.crew.running && s.crew.running[s.reqs[r].runner] == r
  {
  }

  /** q is what is left of a request when a holder has given up its place. */
  predicate Dropped(q: Req) {
    Counted(q, 1) && RetryOk(q)
  }

  lemma QueuedOk(q: Req, t: ListId)
    requires ReqOk(q) && q.submit && q.io && !q.queued
    ensures ReqOk(q.(link := Listed, queued := true, submitter := t)) && q.link != Listed && q.run.None?
  {
  }

  lemma AbortOk(q: Req)
    requires ReqOk(q) && q.io && !q.queued
    ensures Dropped(q.(io := false))
  {
  }

  lemma PutSubmitOk(q: Req)
    requires ReqOk(q) && q.submit
    ensures Dropped(q.(submit := false))
  {
  }

  lemma PutCancelOk(q: Req)
    requires ReqOk(q) && q.cancels > 0
    ensures Dropped(q.(cancels := q.cancels - 1))
  {
  }

  lemma CancelOk(q: Req, all: bool)
    requires ReqOk(q) && q.onActive
    ensures ReqOk(q.(cancelled := true, onActive := !all))
    ensures ReqOk(q.(cancelled := true, onActive := !all, users := q.users + 1, cancels := q.cancels + 1))
  {
  }

  lemma RequeueOk(q: Req)
    requires ReqOk(q) && q.run == Some(Requeue)
    ensures ReqOk(q.(run := None, link := Listed, users := q.users - 1)) && q.users >= 2 && q.link == Null
    ensures !q.kicked ==> Dropped(q.(link := Self, run := None))
  {
  }

  lemma FinishDropOk(q: Req)
    requires ReqOk(q) && q.run == Some(Drop) && !q.completing
    ensures Dropped(q.(run := None)) && q.link == Null
  {
  }

  lemma SubmitQueueKeeps(s: State, r: ReqId, q: Req, t: ListId)
    requires Inv(s) && r in s.reqs && s.reqs[r].link != Listed && q.link == Listed && ReqOk(q) && q.io == s.reqs[r].io
    requires q.completing == s.reqs[r].completing && q.run.None? && Spare(s) && t !in s.crew.callers
    ensures Inv(WithReq(s, r, q).(lists := AddTail(s, r), crew := Entered(s.crew, t))) && !s.ctx.freed
  {
    hide InvBut, ReqOk, AddTail, CrewOk, CtxOk, Entered;
    QueueKeeps(s, r, q);
    var s1 := WithReq(s, r, q).(lists := AddTail(s, r));
    NotFreed(s);
    InvParts(s1);
    EnterOk(s1, t);
    OnlyThreads(s1, s1.ctx, Entered(s1.crew, t));
  }

  lemma SubmitKeeps(s: State, l: Label)
    requires Inv(s) && (l.Queue? || l.Abort? || l.PutSubmit? || l.Cancel? || l.PutCancel?)
    ensures Keeps(SubmitStep(s, l))
  {
    hide InvBut, AioPutReq, ReqOk, Counted, RetryOk, AddTail;
    if !SubmitStep(s, l).Disabled? {
      var r, q := l.r, s.reqs[l.r];
      ReqOf(s, r);
      match l
      case Queue(_, t) =>
        QueuedOk(q, t);
        SubmitQueueKeeps(s, r, q.(link := Listed, queued := true, submitter := t), t);
      case Abort(_, lastFile) =>
        AbortOk(q);
        DropKeeps(s, r, q.(io := false), lastFile);
      case PutSubmit(_, lastFile) =>
        PutSubmitOk(q);
        DropKeeps(s, r, q.(submit := false), lastFile);
      case Cancel(_, all, _) =>
        CancelOk(q, all);
        OneRequest(s, r, SubmitStep(s, l).s.reqs[r], -1);
      case PutCancel(_, lastFile) =>
        PutCancelOk(q);
        DropKeeps(s, r, q.(cancels := q.cancels - 1), lastFile);
    }
  }

  lemma FputFinishKeeps(s: State, r: ReqId)
    requires Inv(s)
    ensures Keeps(FputFinishStep(s, r))
  {
    hide InvBut, RetryOk;
    if !FputFinishStep(s, r).Disabled? {
      var q := s.reqs[r];
      ReqOf(s, r);
      OneRequest(s, r, q, r);
      assert s.reqs[r := q] == s.reqs;
      var q1 := q.(users := 1, fput := NoFput);
      ReleasedRetry(q, q1);
      PutFreed(s, r, q);
    }
  }

  lemma ReleasedRetry(q: Req, q1: Req)
    requires ReqOk(q) && q.fput == Taken && q1 == q.(users := 1, fput := NoFput)
    ensures Counted(q1, 1) && RetryOk(q1)
  {
  }

  lemma PutFreed(s: State, r: ReqId, q: Req)
    requires Inv(s) && s.ring.writing.None? && r in s.reqs && q == s.reqs[r] && q.fput == Taken
    ensures Unheld(q) && r !in s.gone
    ensures Inv(Freed(Owe(s, None), r, Quiet(q)))
  {
    hide InvBut;
    ReqOf(s, r);
    var q1 := q.(users := 1, fput := NoFput);
    OneRequest(s, r, q1, r);
    ReleasedRetry(q, q1);
    PutLast(WithReq(s, r, q1), r, q1, None);
    assert WithReq(s, r, q1).reqs - {r} == s.reqs - {r};
    assert Quiet(q1) == Quiet(q);
  }

  lemma FinishKeeps(s: State, l: Label)
    requires Inv(s) && (l.FinishRetry? || l.FinishDrop?)
    ensures Keeps(FinishStep(s, l))
  {
    hide InvBut, AioPutReq, ReqOk, Dropped;
    if !FinishStep(s, l).Disabled? {
      var r, q := l.r, s.reqs[l.r];
      ReqOf(s, r);
      if l.FinishDrop? {
        FinishDropOk(q);
        ReturnKeeps(s, r, q.(run := None), l.lastFile);
      } else {
        RequeueOk(q);
        if q.kicked {
          RequeueKeeps(s, r, q);
        } else {
          ReturnKeeps(s, r, q.(link := Self, run := None), false);
        }
      }
    }
  }

  lemma RequeueKeeps(s: State, r: ReqId, q: Req)
    requires Inv(s) && s.ring.writing.None? && r in s.reqs && q == s.reqs[r] && q.run == Some(Requeue) && q.kicked
    ensures var s1 := QueueKickedIocb(Returned(s, q.runner), r, q.(link := Self, run := None));
            Keeps(AioPutReq(s1, r, q.(run := None, link := Listed), false, Some(q.runner)))
  {
    hide Inv, ReqOk, AddTail, AioPutReq, QueueKickedIocb, WithReq, Returned;
    ReqOf(s, r);
    RequeueOk(q);
    RunnerOf(s, r);
    var t, q1 := q.runner, q.(run := None, link := Listed);
    var s1 := Returned(s, t);
    QueueKeeps(s, r, q1.(users := q.users - 1));
    SetTwice(s1, r, q.(link := Self, run := None), q1.(users := q.users - 1));
    RequeueReturned(s, r, q1.(users := q.users - 1), t);
    NotLast(QueueKickedIocb(s1, r, q.(link := Self, run := None)), r, q1, false, Some(t));
  }

  lemma RequeueReturned(s: State, r: ReqId, q: Req, t: ListId)
    requires Inv(WithReq(s, r, q).(lists := AddTail(s, r))) && q.run.None?
    requires t in s.crew.running && s.crew.running[t] == r
    ensures Inv(WithReq(Returned(s, t), r, q).(lists := AddTail(Returned(s, t), r))) && Returned(s, t).ctx == s.ctx
  {
    hide InvBut, AddTail;
    assert AddTail(Returned(s, t), r) == AddTail(s, r) by { AddTailSame(s, Returned(s, t), r); }
    BackOk(WithReq(s, r, q).(lists := AddTail(s, r)), r, t);
  }

  lemma AddTailSame(s: State, s1: State, r: ReqId)
    requires s1.lists == s.lists
    ensures AddTail(s1, r) == AddTail(s, r)
  {
  }

  lemma BackOk(s: State, r: ReqId, t: ListId)
    requires Inv(s) && r in s.reqs && s.reqs[r].run.None? && t in s.crew.running && s.crew.running[t] == r
    ensures Inv(Returned(s, t))
  {
    hide RingOk, ListsOk, ReqsOk, CtxOk, WriterOk, Pending;
  }

  lemma SetTwice(s: State, r: ReqId, a: Req, b: Req)
    requires a.link == Self
    ensures WithReq(QueueKickedIocb(s, r, a), r, b) == WithReq(s, r, b).(lists := AddTail(s, r))
    ensures QueueKickedIocb(s, r, a).ctx == s.ctx
  {
    hide AddTail;
    assert s.reqs[r := a.(link := Listed)][r := b] == s.reqs[r := b];
  }

  lemma NotLast(s: State, r: ReqId, q: Req, lastFile: bool, who: Option<ListId>)
    requires q.users >= 2 && !s.ctx.freed
    ensures AioPutReq(s, r, q, lastFile, who) == Next(WithReq(s, r, q.(users := q.users - 1)))
  {
  }

  // ---- the threads in __aio_run_iocbs

  lemma EnterKeeps(s: State, t: ListId, worker: bool)
    requires Inv(s)
    ensures Keeps(CrewStep(s, Enter(t, worker)))
  {
    hide InvBut, ListOf, CtxOk, CrewOk, Spare;
    InvParts(s);
    NotFreed(s);
    if CrewStep(s, Enter(t, worker)).Next? {
      EnterOk(s, t);
      OnlyThreads(s, s.ctx, CrewStep(s, Enter(t, worker)).s.crew);
    }
  }

  lemma EnterOk(s: State, t: ListId)
    requires Inv(s) && t !in s.crew.callers
    ensures var w := s.crew.(workers := s.crew.workers + {t}, work := false, used := s.crew.used + {t});
            CrewOk(w, s.ctx.lookups, s.ring.reading.Some?, s.ctx.freed)
    ensures var w := Entered(s.crew, t);
            w.owing == s.crew.owing && w.running == s.crew.running
            && (Spare(s) ==> CrewOk(w, s.ctx.lookups, s.ring.reading.Some?, s.ctx.freed))
  {
    hide RingOk, ListsOk, ReqsOk, WriterOk, Pending, RunnersOk, CtxOk;
    CrewSize(s.crew, t);
  }

  lemma LeaveKeeps(s: State, t: ListId)
    requires Inv(s)
    ensures CrewStep(s, Leave(t)).Bug? <==> Breaks(s, Leave(t))
    ensures CrewStep(s, Leave(t)).Next? ==> Inv(CrewStep(s, Leave(t)).s)
    ensures CrewStep(s, Leave(t)).Bug? ==> t in s.crew.workers
  {
    hide InvBut, ListOf, CtxOk, CrewOk;
    InvParts(s);
    NoCallers(s);
    if CrewStep(s, Leave(t)).Next? {
      var w := CrewStep(s, Leave(t)).s.crew;
      LeaveOk(s.crew, w, t, s.ctx.lookups, s.ring.reading.Some?);
      OnlyThreads(s, s.ctx, w);
    }
  }

  lemma NoCallers(s: State)
    requires Inv(s)
    ensures s.ctx.freed ==> s.crew.callers == {}
  {
    hide RingOk, ListsOk, ReqsOk, WriterOk, Pending, RunnersOk;
    assert s.ctx.freed ==> |s.crew.callers| == 0;
  }

  lemma LeaveOk(w: Crew, w': Crew, t: ListId, lookups: nat, reading: bool)
    requires CrewOk(w, lookups, reading, false) && w'.owing == w.owing && w'.running == w.running
    requires w'.callers == w.callers - {t}
    ensures CrewOk(w', lookups, reading, false)
  {
    CrewSize(w, t);
  }

  lemma CrewKeeps(s: State, l: Label)
    requires Inv(s) && (l.Enter? || l.Leave?)
    ensures CrewStep(s, l).Bug? <==> Breaks(s, l)
    ensures CrewStep(s, l).Next? ==> Inv(CrewStep(s, l).s)
    ensures CrewStep(s, l).Bug? ==> l.Leave? && l.t in s.crew.workers
  {
    hide Inv, CrewStep;
    if l.Enter? {
      EnterKeeps(s, l.t, l.worker);
    } else {
      LeaveKeeps(s, l.t);
    }
  }

  lemma NotFreed(s: State)
    requires Inv(s)
    ensures (Spare(s) ==> !s.ctx.freed) && (s.crew.work ==> !s.ctx.freed)
  {
    hide RingOk, ListsOk, ReqsOk, WriterOk, Pending, RunnersOk;
  }

  lemma CrewSize(w: Crew, t: ListId)
    ensures |w.callers - {t}| <= |w.callers| && (t !in w.callers ==> |w.callers + {t}| == |w.callers| + 1)
  {
    SizeLess(w.callers, t);
  }

  lemma InvParts(s: State)
    requires Inv(s)
    ensures CtxOk(s.ctx, |s.reqs.Keys|, |s.crew.owing|)
    ensures CrewOk(s.crew, s.ctx.lookups, s.ring.reading.Some?, s.ctx.freed)
  {
  }

  lemma SizeLess(a: set<ListId>, t: ListId)
    ensures |a - {t}| <= |a|
  {
    if t in a {
      assert a == (a - {t}) + {t};
    } else {
      assert a == a - {t};
    }
  }

  // ---- run lists

  lemma SpliceKeeps(s: State, t: ListId)
    requires Inv(s)
    ensures Keeps(SpliceStep(s, t))
  {
    hide RingOk, ListsOk, ReqsOk, WriterOk, CtxOk, CrewOk, RunnersOk;
    if !SpliceStep(s, t).Disabled? {
      ListedLive(s.lists, s.reqs, RUN_LIST, ListOf(s, RUN_LIST)[0]);
      Alive(s, ListOf(s, RUN_LIST)[0]);
      ListsSplice(s, t);
    }
  }

  lemma ListedLive(lists: map<ListId, seq<ReqId>>, reqs: map<ReqId, Req>, t: ListId, r: ReqId)
    requires ListsOk(lists, reqs) && t in lists && r in lists[t]
    ensures r in reqs && reqs[r].link == Listed
  {
  }

  lemma ListsSplice(s: State, t: ListId)
    requires ListsOk(s.lists, s.reqs) && t != RUN_LIST && ListOf(s, t) == []
    ensures ListsOk(s.lists[t := ListOf(s, RUN_LIST)][RUN_LIST := []], s.reqs)
  {
    var lists' := s.lists[t := ListOf(s, RUN_LIST)][RUN_LIST := []];
    forall x | x in s.reqs && s.reqs[x].link == Listed
      ensures OnList(lists', x)
    {
      var u :| u in s.lists && x in s.lists[u];
      assert x in lists'[if u == RUN_LIST then t else u];
    }
    hide OnList;
  }

  /** The first request of a local list leaves it. */
  lemma ListsPop(s: State, t: ListId, q: Req)
    requires ListsOk(s.lists, s.reqs) && t in s.lists && s.lists[t] != [] && q.link != Listed && s.lists[t][0] in s.reqs
    ensures ListsOk(s.lists[t := s.lists[t][1..]], s.reqs[s.lists[t][0] := q])
  {
    var l := s.lists[t];
    var r, lists', reqs' := l[0], s.lists[t := l[1..]], s.reqs[l[0] := q];
    FirstOnly(l);
    hide NoRepeat;
    forall x | x in reqs' && reqs'[x].link == Listed
      ensures OnList(lists', x)
    {
      var u :| u in s.lists && x in s.lists[u];
      assert x in lists'[u];
    }
    hide OnList;
  }

  lemma FirstOnly(l: seq<ReqId>)
    requires l != [] && NoRepeat(l)
    ensures NoRepeat(l[1..]) && l[0] !in l[1..]
    ensures forall x :: x in l <==> x == l[0] || x in l[1..]
  {
    assert l == [l[0]] + l[1..];
    assert forall i | 0 <= i < |l[1..]| :: l[1..][i] == l[i + 1];
  }

  lemma StartReqOk(q: Req, t: ListId)
    requires ReqOk(q) && q.link == Listed
    ensures q.retried <= RETRY_CAP ==> ReqOk(Started(q.(retried := q.retried + 1), t))
    ensures q.retried > RETRY_CAP ==> ReqOk(q.(retried := q.retried + 1, link := Poisoned))
  {
  }

  lemma StartRunners(s: State, t: ListId, r: ReqId, q: Req)
    requires Inv(s) && r in s.reqs && Idle(s.crew, t) && s.reqs[r].link == Listed
    ensures s.reqs[r].run.None?
    ensures q.run.None? ==> RunnersOk(s.crew.running, s.reqs[r := q])
    ensures q.run.Some? && q.runner == t ==>
              var w := s.crew.(running := s.crew.running[t := r]);
              RunnersOk(w.running, s.reqs[r := q]) && CrewOk(w, s.ctx.lookups, s.ring.reading.Some?, s.ctx.freed)
  {
    hide RingOk, ListsOk, ReqsOk, WriterOk, CtxOk, Pending;
    ReqOf(s, r);
    assert s.reqs[r].run.None?;
    assert s.crew.running[t := r].Keys == s.crew.running.Keys + {t};
  }

  /** A request that leaves a list is not being retried by any thread: one retry at a time. */
  lemma StartKeeps(s: State, t: ListId)
    requires Inv(s)
    ensures Keeps(StartStep(s, t))
  {
    hide RingOk, ListsOk, ReqsOk, WriterOk, CtxOk, CrewOk, RunnersOk, Pending, ReqOk;
    if !StartStep(s, t).Disabled? {
      var r := ListOf(s, t)[0];
      ListedLive(s.lists, s.reqs, t, r);
      ReqOf(s, r);
      StartReqOk(s.reqs[r], t);
      var s' := StartStep(s, t).s;
      StartRunners(s, t, r, s'.reqs[r]);
      ReqsKept(s.reqs, r, s'.reqs[r], -1, -1);
      WriterKept(s.ring, s.reqs, r, s'.reqs[r]);
      ListsPop(s, t, s'.reqs[r]);
      assert s'.reqs.Keys == s.reqs.Keys;
      PendingFewer(s.reqs, s'.reqs);
      PendingFewer(s'.reqs, s.reqs);
      RingFewerUnlessEqual(s.ring, |Pending(s.reqs)|, |Pending(s'.reqs)|);
    }
  }

  // ---- completion and reading

  lemma CompletedOk(q: Req)
    requires ReqOk(q) && MayComplete(q)
    ensures q.link == Null && Completed(q).io == q.io && Completed(q).link == q.link
    ensures (Completed(q).run.Some? <==> q.run.Some?) && Completed(q).runner == q.runner
    ensures ReqOk(Completed(q).(completing := true))
    ensures !q.completing ==> Dropped(Completed(q).(io := false))
  {
  }

  /** A completer that is not the last user leaves without a reference on the context. */
  lemma CompletedPutKeeps(s: State, r: ReqId, q: Req, lastFile: bool)
    requires Keeps(AioPutReq(s, r, q, lastFile, None))
    ensures Keeps(PutCompleted(s, r, q, lastFile))
  {
    hide Inv;
    if q.users > 1 && q.run != Some(Waking) && !s.ctx.freed {
      var s1 := s.(crew := s.crew.(completers := s.crew.completers + 1));
      NotLast(s, r, q, lastFile, None);
      NotLast(s1, r, q, lastFile, None);
      TokensKept(WithReq(s, r, q.(users := q.users - 1)), WithReq(s1, r, q.(users := q.users - 1)));
    }
  }

  lemma CompleteKeeps(s: State, l: Label)
    requires Inv(s) && (l.CompleteWrite? || l.CompleteSilent?)
    ensures CompleteStep(s, l).Bug? <==> Breaks(s, l)
    ensures CompleteStep(s, l).Next? ==> Inv(CompleteStep(s, l).s)
  {
    hide InvBut, AioPutReq, PutCompleted, ReqOk, Dropped, Completed;
    if !CompleteStep(s, l).Disabled? && !Breaks(s, l) {
      var r, q := l.r, s.reqs[l.r];
      ReqOf(s, r);
      CompletedOk(q);
      if l.CompleteSilent? {
        assert Completed(q).(link := q.link, io := false) == Completed(q).(io := false);
        assert Completed(q).completing == q.completing by { CompletedSame(q); }
        DropKeeps(s, r, Completed(q).(io := false), l.lastFile);
        CompletedPutKeeps(s, r, Completed(q).(io := false), l.lastFile);
      } else {
        WriteStepKeeps(s, r, q, Event(q.obj, q.data, l.res, l.res2));
        assert Completed(q).(link := q.link, completing := true) == Completed(q).(completing := true);
      }
    }
  }

  lemma CompletedSame(q: Req)
    ensures Completed(q).completing == q.completing
  {
  }

  lemma WriteStepKeeps(s: State, r: ReqId, q: Req, ev: Event)
    requires Inv(s) && s.ring.writing.None? && r in s.reqs && q == s.reqs[r] && MayComplete(q)
    ensures s.ring.tail < |s.ring.slots|
    ensures Inv(WithReq(s, r, Completed(q).(completing := true))
                .(ring := s.ring.(slots := s.ring.slots[s.ring.tail := ev], writing := Some((r, ev)))))
  {
    hide ListsOk, ReqsOk, CtxOk, ReqOk, Completed, CrewOk, RunnersOk;
    ReqOf(s, r);
    CompletedOk(q);
    var q' := Completed(q).(completing := true);
    RunnersKept(s.crew.running, s.reqs, r, q');
    var reqs' := s.reqs[r := q'];
    ReqsKept(s.reqs, r, q', -1, -1);
    ListsKept(s.lists, s.reqs, r, q');
    assert reqs'.Keys == s.reqs.Keys;
    SamePending(s.reqs, r, q');
    assert r in Pending(s.reqs);
    hide RingOk, Pending;
    WriteKeeps(s.ring, |Pending(s.reqs)|, r, ev);
  }

  lemma SamePending(reqs: map<ReqId, Req>, r: ReqId, q: Req)
    requires r in reqs && q.io == reqs[r].io
    ensures Pending(reqs[r := q]) == Pending(reqs)
  {
  }

  lemma PublishedOk(q: Req)
    requires ReqOk(q) && q.completing
    ensures Dropped(q.(io := false, completing := false)) && q.link != Listed && q.io
  {
  }

  lemma PublishStepKeeps(s: State, lastFile: bool)
    requires Inv(s)
    ensures Keeps(PublishStep(s, lastFile))
  {
    hide ListsOk, ReqsOk, CtxOk, ReqOk, AioPutReq, PutCompleted, RingOk, Pending, CrewOk, RunnersOk, TailMoved;
    if s.ring.writing.Some? {
      var g, r := s.ring, s.ring.writing.value.0;
      var q := s.reqs[r];
      ReqOf(s, r);
      PublishedOk(q);
      var q' := q.(io := false, completing := false);
      var reqs' := s.reqs[r := q'];
      ReqsKept(s.reqs, r, q', -1, r);
      RunnersKept(s.crew.running, s.reqs, r, q');
      ListsKept(s.lists, s.reqs, r, q');
      assert reqs'.Keys == s.reqs.Keys;
      OnePendingLess(s.reqs, r, q');
      PublishKeeps(g, |Pending(s.reqs)|);
      RingShape(g, |Pending(s.reqs)|);
      TailMovedShape(g);
      var s1 := s.(ring := TailMoved(g), doneBy := s.doneBy + [r]);
      PutKeeps(s1, r, q', lastFile, None);
      CompletedPutKeeps(s1, r, q', lastFile);
    }
  }

  lemma TailMovedShape(g: Ring)
    requires g.nr > 0 && g.writing.Some?
    ensures TailMoved(g).writing.None? && TailMoved(g).reading == g.reading
  {
  }

  lemma RingShape(g: Ring, n: nat)
    requires RingOk(g, n)
    ensures g.nr > 0 && |g.slots| == g.nr && g.tail < g.nr
  {
  }

  lemma OnePendingLess(reqs: map<ReqId, Req>, r: ReqId, q: Req)
    requires r in reqs && reqs[r].io && !q.io
    ensures |Pending(reqs[r := q])| == |Pending(reqs)| - 1
  {
    assert Pending(reqs[r := q]) == Pending(reqs) - {r};
  }

  lemma ReadKeeps(s: State, l: Label)
    requires Inv(s) && (l.ReadCopy? || l.ReadAdvance?)
    ensures Keeps(ReadStep(s, l))
  {
    hide ListsOk, ReqsOk, RingOk, Pending, RunnersOk;
    RingShape(s.ring, |Pending(s.reqs)|);
    if !ReadStep(s, l).Disabled? {
      if l.ReadCopy? {
        CopyKeeps(s.ring, |Pending(s.reqs)|);
      } else {
        AdvanceKeeps(s.ring, |Pending(s.reqs)|);
      }
    }
  }

  // ---- admission, and the references on the context

  /** A request is admitted only when there is room for its event beside the unread ones and those still to come. */
  lemma AdmitKeeps(s: State, r: ReqId, obj: int, data: int)
    requires Inv(s)
    ensures Keeps(AdmitStep(s, r, obj, data))
  {
    hide ListsOk, ReqsOk, RingOk, Pending, ReqOk, WriterOk, RingAvail, NewReq, RunnersOk;
    RingShape(s.ring, |Pending(s.reqs)|);
    AvailIsRoom(s.ring, |Pending(s.reqs)|);
    if AdmitStep(s, r, obj, data).Next? {
      var q := NewReq(obj, data);
      NewReqOk(obj, data);
      AdmitReqs(s.reqs, s.lists, r, q);
      AdmitRunners(s.crew.running, s.reqs, r, q);
      AdmitWriter(s.ring, s.reqs, r, q);
      RingRoom(s.ring, s.reqs, r, q);
      OneKeyMore(s.reqs, r, q);
    }
  }

  lemma OneKeyMore(reqs: map<ReqId, Req>, r: ReqId, q: Req)
    requires r !in reqs
    ensures |reqs[r := q].Keys| == |reqs.Keys| + 1
  {
    assert reqs[r := q].Keys == reqs.Keys + {r};
  }

  lemma NewReqOk(obj: int, data: int)
    ensures var q := NewReq(obj, data); ReqOk(q) && q.link == Self && q.io && !q.completing && q.run.None?
  {
  }

  lemma AdmitWriter(g: Ring, reqs: map<ReqId, Req>, r: ReqId, q: Req)
    requires WriterOk(g, reqs) && g.writing.None? && !q.completing
    ensures WriterOk(g, reqs[r := q])
  {
  }

  lemma AdmitRunners(running: map<ListId, ReqId>, reqs: map<ReqId, Req>, r: ReqId, q: Req)
    requires RunnersOk(running, reqs) && q.run.None?
    ensures RunnersOk(running, reqs[r := q])
  {
  }

  lemma AdmitReqs(reqs: map<ReqId, Req>, lists: map<ListId, seq<ReqId>>, r: ReqId, q: Req)
    requires ReqsOk(reqs, -1) && ListsOk(lists, reqs) && r !in reqs && q.link == Self && ReqOk(q)
    ensures ReqsOk(reqs[r := q], -1) && ListsOk(lists, reqs[r := q])
  {
    hide ReqOk, OnList, NoRepeat;
  }

  lemma RingRoom(g: Ring, reqs: map<ReqId, Req>, r: ReqId, q: Req)
    requires RingOk(g, |Pending(reqs)|) && g.writing.None? && r !in reqs && q.io && |reqs.Keys| + Unread(g) < g.nr - 1
    ensures RingOk(g, |Pending(reqs[r := q])|)
  {
    assert Pending(reqs[r := q]) == Pending(reqs) + {r};
    Smaller(Pending(reqs), reqs.Keys);
  }

  /** One of the references on the context has been given up. */
  predicate GivenUp(c: Ctx, n: nat, owing: nat) {
    c.reqsActive == n && c.users == Refs(c, n, owing) + 1 && FlagsOk(c)
  }

  lemma PutCounts(c: Ctx, n: nat, owing: nat)
    requires GivenUp(c, n, owing)
    ensures !c.freed && c.users > 0
    ensures c.users > 1 ==> CtxOk(c.(users := c.users - 1), n, owing)
    ensures c.users == 1 ==> c.reqsActive == 0 && CtxOk(c.(users := 0, freed := true), n, owing)
  {
  }

  /** put_ioctx finds no active request when it frees the context: line 369 is not reached. */
  lemma PutIoctxKeeps(s: State, c: Ctx, w: Crew, me: set<ListId>)
    requires Inv(s) && w.running == s.crew.running && CrewOk(w, c.lookups, s.ring.reading.Some?, c.freed)
    requires GivenUp(c, |s.reqs.Keys|, |w.owing|)
    ensures Keeps(PutIoctx(s.(ctx := c, crew := w), me))
  {
    hide InvBut, CtxOk, GivenUp;
    PutCounts(c, |s.reqs.Keys|, |w.owing|);
    if c.users > 1 {
      OnlyThreads(s, c.(users := c.users - 1), w);
    } else if w.workers <= me {
      OnlyThreads(s, c.(users := 0, freed := true), w.(work := false));
    }
  }

  lemma DropLookupKeeps(s: State)
    requires Inv(s)
    ensures Keeps(ContextStep(s, DropLookup))
  {
    hide InvBut, PutIoctx;
    if Spare(s) {
      InvParts(s);
      PutIoctxKeeps(s, s.ctx.(lookups := s.ctx.lookups - 1), s.crew, {});
    }
  }

  lemma ExitPutKeeps(s: State)
    requires Inv(s)
    ensures Keeps(ContextStep(s, ExitPut))
  {
    hide InvBut, PutIoctx;
    if s.ctx.exiting {
      InvParts(s);
      PutIoctxKeeps(s, s.ctx.(exiting := false, listRef := false), s.crew, {});
    }
  }

  lemma OwedPutKeeps(s: State)
    requires Inv(s)
    ensures Keeps(ContextStep(s, OwedPut))
  {
    hide InvBut, PutIoctx;
    if s.ctx.owed > 0 {
      InvParts(s);
      PutIoctxKeeps(s, s.ctx.(owed := s.ctx.owed - 1), s.crew, {});
    }
  }

  lemma DrainPutKeeps(s: State, t: ListId)
    requires Inv(s)
    ensures Keeps(ContextStep(s, DrainPut(t)))
  {
    hide InvBut, PutIoctx;
    if t in s.crew.owing {
      InvParts(s);
      PutIoctxKeeps(s, s.ctx, s.crew.(owing := s.crew.owing - {t}), {t});
    }
  }

  lemma ContextKeeps(s: State, l: Label)
    requires Inv(s) && OnContext(l)
    ensures Keeps(ContextStep(s, l))
  {
    hide Inv, ContextStep;
    match l
    case DropLookup => DropLookupKeeps(s);
    case ExitPut => ExitPutKeeps(s);
    case OwedPut => OwedPutKeeps(s);
    case DrainPut(t) => DrainPutKeeps(s, t);
    case Lookup => ListKeeps(s, l);
    case Destroy => ListKeeps(s, l);
    case Exit => ListKeeps(s, l);
  }

  lemma ListKeeps(s: State, l: Label)
    requires Inv(s) && (l.Lookup? || l.Destroy? || l.Exit?)
    ensures Keeps(ContextStep(s, l))
  {
    hide InvBut, PutIoctx;
    InvParts(s);
    if ContextStep(s, l).Next? {
      OnlyThreads(s, ContextStep(s, l).s.ctx, s.crew);
    }
  }

  // ---- accesses without a reference

  lemma TouchKeeps(s: State, l: Label)
    requires Inv(s) && (l.WakeOwn? || l.WakeBare? || l.QueueWork? || l.StrayWake?)
    ensures TouchStep(s, l).Bug? <==> Breaks(s, l)
    ensures TouchStep(s, l).Next? ==> Inv(TouchStep(s, l).s)
  {
    hide ReqOk, RingOk, ListsOk, ReqsOk, WriterOk, Pending, RunnersOk, CtxOk;
    if l.WakeOwn? && !TouchStep(s, l).Disabled? {
      ReqOf(s, l.r);
      WakeOwnOk(s.reqs[l.r]);
      OneRequest(s, l.r, s.reqs[l.r].(run := Some(Drop)), -1);
    }
  }

  lemma WakeOwnOk(q: Req)
    requires ReqOk(q) && q.run == Some(Waking) && !q.completing
    ensures ReqOk(q.(run := Some(Drop)))
  {
  }

  // ---- every step

  /** A step goes wrong exactly when it is one of those named by Breaks; otherwise it keeps the invariant. */
  lemma StepKeeps(s: State, l: Label)
    requires Inv(s)
    ensures Exec(s, l).Bug? <==> Breaks(s, l)
    ensures Exec(s, l).Next? ==> Inv(Exec(s, l).s)
  {
    hide Inv, AdmitStep, SubmitStep, SpliceStep, StartStep, FinishStep, QueueKickedStep, CompleteStep, PublishStep,
         ReadStep, FputFinishStep, ContextStep, LocalStep, CrewStep, TouchStep;
    if l.Admit? { AdmitKeeps(s, l.r, l.obj, l.data); }
    else if l.Queue? || l.Abort? || l.PutSubmit? || l.Cancel? || l.PutCancel? { SubmitKeeps(s, l); }
    else if l.Enter? || l.Leave? { CrewKeeps(s, l); }
    else if l.Splice? { SpliceKeeps(s, l.t); }
    else if l.Start? { StartKeeps(s, l.t); }
    else if l.FinishRetry? || l.FinishDrop? { FinishKeeps(s, l); }
    else if l.QueueKicked? { QueueKickedKeeps(s, l.r); }
    else if l.CompleteWrite? || l.CompleteSilent? { CompleteKeeps(s, l); }
    else if l.CompletePublish? { PublishStepKeeps(s, l.lastFile); }
    else if l.ReadCopy? || l.ReadAdvance? { ReadKeeps(s, l); }
    else if l.FputFinish? { FputFinishKeeps(s, l.r); }
    else if l.WakeOwn? || l.WakeBare? || l.QueueWork? || l.StrayWake? { TouchKeeps(s, l); }
    else if OnContext(l) { ContextKeeps(s, l); }
    else { LocalKeeps(s, l); }
  }
}
