/** When the steps of fs/aio.c can be taken: what the code asks for before each of them, told from what there is to see
    in a state that a run leads to. */
module AioEnabled {
  import opened Wrappers
  import opened AioModel
  import opened AioInv
  import opened AioRing
  import opened AioSteps
  import opened Aio
  import opened AioThreads

  /** Nobody holds ctx_lock: no event is being written, and every thread in __aio_run_iocbs is in a retry. */
  predicate LockFree(s: State) {
    && s.ring.writing.None?
    && (forall t | t in s.crew.workers :: t in s.crew.running)
    && (forall t | t in s.crew.callers :: t in s.crew.running)
  }

  /** Thread t is in __aio_run_iocbs and outside a retry, and so holds the lock. */
  predicate HasLock(s: State, t: ListId) {
    && (t in s.crew.workers || t in s.crew.callers) && t !in s.crew.running && s.ring.writing.None?
    && (forall u | u in s.crew.workers && u != t :: u in s.crew.running)
    && (forall u | u in s.crew.callers && u != t :: u in s.crew.running)
  }

  /** A system call that has looked the context up is free to do something with it. */
  predicate FreeCall(s: State) {
    |s.crew.callers| + One(s.ring.reading.Some?) + 1 <= s.ctx.lookups
  }

  /** A put goes on at once, or, if it is the last, when no handler but the one in me is at work. */
  predicate MayPut(s: State, me: set<ListId>) {
    s.ctx.users > 1 || forall t | t in s.crew.workers :: t in me
  }

  /** A thread that has not been in __aio_run_iocbs before. */
  predicate Fresh(s: State, t: ListId) {
    t != RUN_LIST && t !in s.crew.used && t !in s.crew.callers && (t in s.lists ==> s.lists[t] == [])
  }

  predicate EmptyList(s: State, t: ListId) {
    t in s.lists ==> s.lists[t] == []
  }

  /** What the references, the handler and the readers ask for. */
  predicate MayOnContext(s: State, l: Label)
    requires OnContext(l) || l.ReadCopy? || l.ReadAdvance? || l.CompletePublish? || l.Admit?
  {
    match l
    case Lookup => s.ctx.listed
    case DropLookup => FreeCall(s) && MayPut(s, {})
    case Destroy => FreeCall(s)
    case Exit => s.ctx.listed && s.ctx.lookups == 0
    case ExitPut => s.ctx.exiting && s.reqs == map[] && s.crew.workers == {}
    case OwedPut => s.ctx.owed > 0 && MayPut(s, {})
    case DrainPut(t) => t in s.crew.owing && HasLock(s, t) && MayPut(s, {t})
    case ReadCopy => s.ring.reading.None? && FreeCall(s) && |s.ring.seen| < |s.ring.done|
    case ReadAdvance => s.ring.reading.Some?
    case CompletePublish(_) => s.ring.writing.Some?
    case Admit(r, _, _) =>
      && LockFree(s) && FreeCall(s) && r !in s.reqs && r !in s.gone && r !in s.origin
      && |s.reqs| + |s.ring.done| - |s.ring.seen| < s.ring.nr - 1
  }

  /** What the threads in __aio_run_iocbs ask for. */
  predicate MayRun(s: State, l: Label)
    requires l.Enter? || l.Leave? || l.Splice? || l.Start? || l.WakeBare? || l.QueueWork? || l.StrayWake?
  {
    match l
    case Enter(t, worker) => LockFree(s) && Fresh(s, t) && if worker then s.crew.work else FreeCall(s)
    case Leave(t) =>
      && HasLock(s, t) && t !in s.crew.owing && EmptyList(s, t)
      && (t in s.crew.callers ==> EmptyList(s, RUN_LIST))
    case Splice(t) =>
      HasLock(s, t) && t !in s.crew.owing && t != RUN_LIST && EmptyList(s, t) && !EmptyList(s, RUN_LIST)
    case Start(t) => HasLock(s, t) && t !in s.crew.owing && t != RUN_LIST && !EmptyList(s, t)
    case WakeBare => s.crew.completers > 0
    case QueueWork => s.crew.kickers > 0
    case StrayWake => s.strays > 0
  }

  /** What a step on a request that needs no lock asks for. */
  predicate MayLocally(q: Req, l: Label)
    requires OnRequest(l) || l.WakeOwn?
  {
    match l
    case BeginRetry(_) => q.run == Some(Starting) && !q.cancelled
    case AddWait(_) => q.run == Some(Retrying) && !q.handed
    case RemoveWait(_) => q.run == Some(Retrying)
    case HandOff(_) => q.run == Some(Retrying)
    case ReturnQueued(_) => q.run == Some(Retrying) && q.handed
    case ReturnRetry(_) => q.run == Some(Retrying) && !q.handed
    case Wake(_) => q.waiting
    case TryKick(_) => q.woken > 0
    case FputTake(_) => q.fput == Deferred
    case WakeOwn(_) => q.run == Some(Waking) && !q.completing
  }

  predicate UnderLock(l: Label) {
    || l.Queue? || l.Abort? || l.PutSubmit? || l.Cancel? || l.PutCancel? || l.FinishRetry? || l.FinishDrop?
    || l.QueueKicked? || l.CompleteWrite? || l.CompleteSilent? || l.FputFinish?
  }

  /** What a step on a request under ctx_lock asks for. */
  predicate MayUnderLock(s: State, q: Req, l: Label)
    requires UnderLock(l)
  {
    match l
    case Queue(_, t) => q.submit && q.io && !q.queued && Fresh(s, t) && FreeCall(s)
    case Abort(_, _) => q.io && !q.queued
    case PutSubmit(_, _) => q.submit && !(q.queued && q.submitter in s.crew.callers)
    case Cancel(_, all, callback) => q.onActive && (all || callback) && (FreeCall(s) || s.ctx.exiting)
    case PutCancel(_, _) => q.cancels > 0
    case FinishRetry(_) => q.run == Some(Requeue)
    case FinishDrop(_, _) => q.run == Some(Drop)
    case QueueKicked(_) => q.kicking > 0
    case CompleteWrite(_, _, _) => q.io && !q.cancelled && (q.handed || q.run == Some(Retrying))
    case CompleteSilent(_, _) =>
      q.io && q.cancelled && (q.handed || q.run == Some(Retrying) || q.run == Some(Starting))
    case FputFinish(_) => q.fput == Taken
  }

  predicate Possible(s: State, l: Label) {
    if OnContext(l) || l.ReadCopy? || l.ReadAdvance? || l.CompletePublish? || l.Admit? then MayOnContext(s, l)
    else if l.Enter? || l.Leave? || l.Splice? || l.Start? || l.WakeBare? || l.QueueWork? || l.StrayWake?
    then MayRun(s, l)
    else if OnRequest(l) || l.WakeOwn? then l.r in s.reqs && MayLocally(s.reqs[l.r], l)
    else UnderLock(l) && l.r in s.reqs && LockFree(s) && MayUnderLock(s, s.reqs[l.r], l)
  }

  // ---- the steps are taken exactly then

  lemma LockIs(s: State, t: ListId)
    ensures LockFree(s) <==> Unlocked(s)
    ensures Inside(s.crew, t) && t !in s.crew.running ==> (HasLock(s, t) <==> Mine(s, t))
  {
  }

  lemma ContextExactly(s: State, l: Label)
    requires Inv(s) && Orderly(s) && OnContext(l)
    ensures ContextStep(s, l).Next? <==> MayOnContext(s, l)
  {
    hide RingOk, ListsOk, ReqsOk, WriterOk, Pending, RunnersOk, HasLock, Mine, OneHolder, Busy, LocalsOk, Served;
    if l.DrainPut? && l.t in s.crew.owing {
      LockIs(s, l.t);
    }
    assert s.reqs == map[] <==> |s.reqs.Keys| == 0;
  }

  /** A request is admitted if and only if its event has room beside the unread ones and those of the requests that are
      live already. */
  lemma AdmittedExactly(s: State, r: ReqId, obj: int, data: int)
    requires Inv(s) && Unlocked(s) && Spare(s) && r !in s.reqs && r !in s.gone && r !in s.origin
    ensures Exec(s, Admit(r, obj, data)).Next? <==> |s.reqs| + |s.ring.done| - |s.ring.seen| < s.ring.nr - 1
  {
    hide ListsOk, ReqsOk, Pending, ReqOk, WriterOk, NewReq, RunnersOk, Unlocked;
    AvailIsRoom(s.ring, |Pending(s.reqs)|);
    RingShape(s.ring, |Pending(s.reqs)|);
    hide RingOk, RingAvail;
    assert |s.reqs.Keys| == |s.reqs|;
  }

  /** There is an unread event exactly when the head is not at the tail. */
  lemma ReadExactly(s: State, l: Label)
    requires Inv(s) && (l.ReadCopy? || l.ReadAdvance?)
    ensures ReadStep(s, l).Next? <==> MayOnContext(s, l)
    ensures l.ReadCopy? && ReadStep(s, l).Next? ==> ReadStep(s, l).s.ring.reading == Some(s.ring.done[|s.ring.seen|])
  {
    hide ListsOk, ReqsOk, Pending, WriterOk, RunnersOk;
    var g := s.ring;
    Wrap(g.head, 0, g.nr);
    Wrap(g.head, Unread(g), g.nr);
    if Unread(g) > 0 {
      assert Holds(g, 0);
    }
  }

  lemma PublishExactly(s: State, lastFile: bool)
    requires Inv(s)
    ensures PublishStep(s, lastFile).Next? <==> s.ring.writing.Some?
  {
    hide Inv, PutCompleted;
    PublishStepKeeps(s, lastFile);
    if s.ring.writing.Some? && s.ring.nr > 0 && s.ring.writing.value.0 in s.reqs {
      PutPossible(s, lastFile);
    }
  }

  lemma PutPossible(s: State, lastFile: bool)
    requires s.ring.writing.Some? && s.ring.nr > 0 && s.ring.writing.value.0 in s.reqs
    ensures !PublishStep(s, lastFile).Disabled?
  {
    hide Owe, TailMoved;
  }

  lemma EnterExactly(s: State, t: ListId, worker: bool)
    requires Inv(s)
    ensures CrewStep(s, Enter(t, worker)).Next? <==> MayRun(s, Enter(t, worker))
  {
    hide InvBut, LockFree, Unlocked;
    NotFreed(s);
    LockIs(s, t);
  }

  lemma LeaveExactly(s: State, t: ListId)
    ensures CrewStep(s, Leave(t)).Next? <==> MayRun(s, Leave(t)) && !Breaks(s, Leave(t))
  {
    hide HasLock, Mine;
    LockIs(s, t);
    if !Inside(s.crew, t) || t in s.crew.running {
      NoLock(s, t);
    }
  }

  lemma NoLock(s: State, t: ListId)
    requires !Inside(s.crew, t) || t in s.crew.running
    ensures !HasLock(s, t)
  {
  }

  lemma TouchExactly(s: State, l: Label)
    requires l.WakeBare? || l.QueueWork? || l.StrayWake?
    ensures TouchStep(s, l).Next? <==> MayRun(s, l) && !Breaks(s, l)
  {
  }

  lemma ListsExactly(s: State, t: ListId)
    requires Inv(s)
    ensures SpliceStep(s, t).Next? <==> MayRun(s, Splice(t))
    ensures StartStep(s, t).Next? <==> MayRun(s, Start(t))
  {
    hide InvBut;
    SpliceKeeps(s, t);
    StartKeeps(s, t);
  }

  lemma LocallyExactly(s: State, l: Label)
    requires OnRequest(l)
    ensures LocalStep(s, l).Next? <==> l.r in s.reqs && MayLocally(s.reqs[l.r], l)
  {
    if l.r in s.reqs {
      ReqExactly(s.reqs[l.r], l);
    }
    hide RetryReq, WakeReq, MayLocally;
  }

  lemma ReqExactly(q: Req, l: Label)
    requires OnRequest(l)
    ensures l.Wake? || l.TryKick? ==> (WakeReq(q, l).Some? <==> MayLocally(q, l))
    ensures !l.Wake? && !l.TryKick? && !l.FputTake? ==> (RetryReq(q, l).Some? <==> MayLocally(q, l))
    ensures l.FputTake? ==> (MayLocally(q, l) <==> q.fput == Deferred)
  {
  }

  lemma WakeOwnExactly(s: State, r: ReqId)
    requires Inv(s)
    ensures TouchStep(s, WakeOwn(r)).Next? <==> r in s.reqs && MayLocally(s.reqs[r], WakeOwn(r))
  {
    hide InvBut, ReqOk;
    if r in s.reqs {
      ReqOf(s, r);
    }
  }

  /** A put of a request is made at once. */
  lemma PutAtOnce(s: State, r: ReqId, q: Req, lastFile: bool, who: Option<ListId>)
    ensures !AioPutReq(s, r, q, lastFile, who).Disabled?
  {
    hide Owe;
  }

  lemma SubmitExactly(s: State, l: Label)
    requires Inv(s) && (l.Queue? || l.Abort? || l.PutSubmit? || l.Cancel? || l.PutCancel?)
    ensures SubmitStep(s, l).Next? <==> l.r in s.reqs && LockFree(s) && MayUnderLock(s, s.reqs[l.r], l)
  {
    hide InvBut, LockFree, Unlocked, AioPutReq, AddTail;
    LockIs(s, 0);
    SubmitKeeps(s, l);
    if l.r in s.reqs {
      var q := s.reqs[l.r];
      match l
      case Abort(r, lastFile) => PutAtOnce(s, r, q.(io := false), lastFile, None);
      case PutSubmit(r, lastFile) => PutAtOnce(s, r, q.(submit := false), lastFile, None);
      case PutCancel(r, lastFile) =>
        if q.cancels > 0 { PutAtOnce(s, r, q.(cancels := q.cancels - 1), lastFile, None); }
      case Queue(_, _) =>
      case Cancel(_, _, _) =>
    }
  }

  lemma FinishExactly(s: State, l: Label)
    requires Inv(s) && (l.FinishRetry? || l.FinishDrop?)
    ensures FinishStep(s, l).Next? <==> l.r in s.reqs && LockFree(s) && MayUnderLock(s, s.reqs[l.r], l)
  {
    hide InvBut, LockFree, Unlocked, AioPutReq, AddTail;
    LockIs(s, 0);
    FinishKeeps(s, l);
    if l.r in s.reqs {
      var q := s.reqs[l.r];
      var s1, q1, who := Returned(s, q.runner), q.(link := Self, run := None), Some(q.runner);
      PutAtOnce(QueueKickedIocb(s1, l.r, q1), l.r, q1.(link := Listed), false, who);
      PutAtOnce(s1, l.r, q1, false, who);
      PutAtOnce(s1, l.r, q.(run := None), if l.FinishDrop? then l.lastFile else false, who);
    }
  }

  lemma KickedExactly(s: State, r: ReqId)
    requires Inv(s)
    ensures QueueKickedStep(s, r).Next? <==> r in s.reqs && LockFree(s) && MayUnderLock(s, s.reqs[r], QueueKicked(r))
    ensures FputFinishStep(s, r).Next? <==> r in s.reqs && LockFree(s) && MayUnderLock(s, s.reqs[r], FputFinish(r))
  {
    hide InvBut, LockFree, Unlocked, AddTail, ReqOk;
    LockIs(s, 0);
    FputFinishKeeps(s, r);
    if r in s.reqs {
      ReqOf(s, r);
    }
  }

  lemma CompleteExactly(s: State, l: Label)
    requires Inv(s) && (l.CompleteWrite? || l.CompleteSilent?)
    ensures CompleteStep(s, l).Next? <==>
              l.r in s.reqs && LockFree(s) && MayUnderLock(s, s.reqs[l.r], l) && !Breaks(s, l)
  {
    hide InvBut, LockFree, Unlocked, PutCompleted, Unlist;
    LockIs(s, 0);
    CompleteKeeps(s, l);
    if l.r in s.reqs && l.CompleteSilent? {
      var q := s.reqs[l.r];
      var link := if q.link == Listed then Self else q.link;
      CompletedAtOnce(s.(lists := Unlist(s, l.r, q)), l.r, Completed(q).(link := link, io := false), l.lastFile);
    }
  }

  lemma CompletedAtOnce(s: State, r: ReqId, q: Req, lastFile: bool)
    ensures !PutCompleted(s, r, q, lastFile).Disabled?
  {
    hide AioPutReq;
    PutAtOnce(s, r, q, lastFile, None);
    PutAtOnce(s.(crew := s.crew.(completers := s.crew.completers + 1)), r, q, lastFile, None);
  }

  /** Where a run leads, a step is taken, and does not go wrong, exactly when the code could take it. */
  lemma StepExactly(s: State, l: Label)
    requires Inv(s) && Orderly(s)
    ensures Exec(s, l).Next? <==> Possible(s, l) && !Breaks(s, l)
  {
    hide Inv, Orderly, Exec, Breaks, MayOnContext, MayRun, MayLocally, MayUnderLock, LockFree;
    if OnContext(l) || l.ReadCopy? || l.ReadAdvance? || l.CompletePublish? || l.Admit? {
      OutsideExactly(s, l);
    } else if l.Enter? || l.Leave? || l.Splice? || l.Start? || l.WakeBare? || l.QueueWork? || l.StrayWake? {
      RunExactly(s, l);
    } else if OnRequest(l) || l.WakeOwn? {
      UnlockedExactly(s, l);
    } else {
      LockedExactly(s, l);
    }
  }

  lemma OutsideExactly(s: State, l: Label)
    requires Inv(s) && Orderly(s)
    requires OnContext(l) || l.ReadCopy? || l.ReadAdvance? || l.CompletePublish? || l.Admit?
    ensures !Breaks(s, l) && (Exec(s, l).Next? <==> MayOnContext(s, l))
  {
    hide Inv, Orderly, AdmitStep, PublishStep, ReadStep, ContextStep, MayOnContext;
    if OnContext(l) { ContextExactly(s, l); }
    else if l.Admit? { AdmitExactly(s, l.r, l.obj, l.data); }
    else if l.ReadCopy? || l.ReadAdvance? { ReadExactly(s, l); }
    else { PublishExactly(s, l.lastFile); PublishIs(s, l.lastFile); }
  }

  lemma RunExactly(s: State, l: Label)
    requires Inv(s) && (l.Enter? || l.Leave? || l.Splice? || l.Start? || l.WakeBare? || l.QueueWork? || l.StrayWake?)
    ensures Exec(s, l).Next? <==> MayRun(s, l) && !Breaks(s, l)
  {
    hide Inv, SpliceStep, StartStep, CrewStep, TouchStep, MayRun, Mine, Idle, ListOf;
    if l.Enter? { EnterExactly(s, l.t, l.worker); }
    else if l.Leave? { LeaveExactly(s, l.t); }
    else if l.Splice? || l.Start? { ListsExactly(s, l.t); }
    else { TouchExactly(s, l); }
  }

  lemma UnlockedExactly(s: State, l: Label)
    requires Inv(s) && (OnRequest(l) || l.WakeOwn?)
    ensures !Breaks(s, l) && (Exec(s, l).Next? <==> l.r in s.reqs && MayLocally(s.reqs[l.r], l))
  {
    hide Inv, LocalStep, TouchStep, MayLocally;
    if l.WakeOwn? { WakeOwnExactly(s, l.r); }
    else { LocallyExactly(s, l); }
  }

  lemma LockedExactly(s: State, l: Label)
    requires Inv(s) && UnderLock(l)
    ensures Exec(s, l).Next? <==>
              l.r in s.reqs && LockFree(s) && MayUnderLock(s, s.reqs[l.r], l) && !Breaks(s, l)
  {
    hide Inv, SubmitStep, FinishStep, QueueKickedStep, CompleteStep, FputFinishStep, MayUnderLock, LockFree;
    if l.FinishRetry? || l.FinishDrop? { FinishExactly(s, l); }
    else if l.QueueKicked? || l.FputFinish? { KickedExactly(s, l.r); }
    else if l.CompleteWrite? || l.CompleteSilent? { CompleteExactly(s, l); }
    else { SubmitExactly(s, l); }
  }

  lemma PublishIs(s: State, lastFile: bool)
    ensures MayOnContext(s, CompletePublish(lastFile)) <==> s.ring.writing.Some?
  {
  }

  lemma AdmitExactly(s: State, r: ReqId, obj: int, data: int)
    requires Inv(s)
    ensures AdmitStep(s, r, obj, data).Next? <==> MayOnContext(s, Admit(r, obj, data))
  {
    hide Inv, Unlocked, LockFree;
    LockIs(s, 0);
    if Unlocked(s) && Spare(s) && r !in s.reqs && r !in s.gone && r !in s.origin {
      AdmittedExactly(s, r, obj, data);
    }
  }

  /** The same of every reachable state. */
  lemma ReachableExactly(s: State, l: Label)
    requires Reachable(s)
    ensures Exec(s, l).Next? <==> Possible(s, l) && !Breaks(s, l)
  {
    hide Inv, Orderly, Reachable, Exec, Possible, Breaks;
    ReachableOk(s);
    ReachableOrderly(s);
    StepExactly(s, l);
  }

  // ---- all the room can be used

  function Admitting(n: nat): seq<Label> {
    if n == 0 then [Lookup] else Admitting(n - 1) + [Admit(n - 1, 0, 0)]
  }

  /** A state with n requests, just admitted. */
  ghost predicate Admitted(s: State, nr: nat, n: nat) {
    && s.ring.nr == nr && s.ring.done == s.ring.seen && s.ring.writing.None? && s.ring.reading.None?
    && s.ctx.lookups == 1 && s.crew.callers == {} && s.crew.workers == {} && s.gone == {}
    && |s.reqs| == n && s.origin.Keys == s.reqs.Keys && (forall r | r in s.reqs :: r < n)
  }

  /** For every n up to nr - 1 there is a run to a state with n live requests. */
  lemma {:induction false} RoomForAll(nr: nat, slots: seq<Event>, n: nat)
    requires n < nr == |slots|
    ensures Run(IoctxAlloc(nr, slots), Admitting(n)).Next?
    ensures Admitted(Run(IoctxAlloc(nr, slots), Admitting(n)).s, nr, n)
    ensures |Run(IoctxAlloc(nr, slots), Admitting(n)).s.reqs| == n
  {
    hide Run, Exec, Inv, IoctxAlloc;
    var s0 := IoctxAlloc(nr, slots);
    if n == 0 {
      FirstLookup(nr, slots);
      OneStep(s0, Lookup);
    } else {
      RoomForAll(nr, slots, n - 1);
      var s := Run(s0, Admitting(n - 1)).s;
      InitOk(nr, slots);
      RunKeeps(s0, Admitting(n - 1));
      OneMoreAdmitted(s, nr, n - 1);
      OneStep(s, Admit(n - 1, 0, 0));
      RunConcat(s0, Admitting(n - 1), [Admit(n - 1, 0, 0)]);
    }
  }

  lemma FirstLookup(nr: nat, slots: seq<Event>)
    ensures Exec(IoctxAlloc(nr, slots), Lookup).Next? && Admitted(Exec(IoctxAlloc(nr, slots), Lookup).s, nr, 0)
  {
  }

  lemma OneMoreAdmitted(s: State, nr: nat, n: nat)
    requires Inv(s) && Admitted(s, nr, n) && n + 1 < nr
    ensures Exec(s, Admit(n, 0, 0)).Next? && Admitted(Exec(s, Admit(n, 0, 0)).s, nr, n + 1)
  {
    hide Inv, Exec, RingAvail, NewReq;
    AdmittedExactly(s, n, 0, 0);
    ExecAdmit(s, n);
    OneKeyMore(s.reqs, n, NewReq(0, 0));
    assert |s.reqs[n := NewReq(0, 0)]| == |s.reqs[n := NewReq(0, 0)].Keys| && |s.reqs| == |s.reqs.Keys|;
  }

  lemma ExecAdmit(s: State, r: ReqId)
    ensures Exec(s, Admit(r, 0, 0)) == AdmitStep(s, r, 0, 0)
  {
    hide AdmitStep;
  }
}
