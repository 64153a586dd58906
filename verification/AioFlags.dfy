/** What each step of fs/aio.c decides about a request, and that nothing else does: whether its I/O is over, whether
    it has been queued, handed over or cancelled, whether a wait queue entry leads to it, and whether it can be found
    on the list of active requests. */
module AioFlags {
  import opened Wrappers
  import opened AioModel
  import opened AioInv
  import opened Aio

  datatype Flags = Flags(io: bool, queued: bool, handed: bool, cancelled: bool, waiting: bool)

  function FlagsOf(q: Req): Flags {
    Flags(q.io, q.queued, q.handed, q.cancelled, q.waiting)
  }

  /** The flags of request r after a step; published is the request whose event a CompletePublish publishes. */
  function AfterStep(f: Flags, l: Label, r: ReqId, published: bool): Flags {
    match l
    case Abort(x, _) => if x == r then f.(io := false) else f
    case CompleteSilent(x, _) => if x == r then f.(io := false) else f
    case CompletePublish(_) => if published then f.(io := false) else f
    case Queue(x, _) => if x == r then f.(queued := true) else f
    case HandOff(x) => if x == r then f.(handed := true) else f
    case Cancel(x, _, _) => if x == r then f.(cancelled := true) else f
    case AddWait(x) => if x == r then f.(waiting := true) else f
    case RemoveWait(x) => if x == r then f.(waiting := false) else f
    case Wake(x) => if x == r then f.(waiting := false) else f
    case _ => f
  }

  predicate Publishes(s: State, r: ReqId) {
    s.ring.writing.Some? && s.ring.writing.value.0 == r
  }

  /** The step does to request r what AfterStep says. */
  predicate Decides(s: State, o: Outcome, l: Label, r: ReqId) {
    o.Next? && r in s.reqs && r in o.s.reqs ==>
      FlagsOf(o.s.reqs[r]) == AfterStep(FlagsOf(s.reqs[r]), l, r, Publishes(s, r))
  }

  lemma PutFlags(s: State, x: ReqId, q: Req, lastFile: bool, who: Option<ListId>, r: ReqId)
    requires AioPutReq(s, x, q, lastFile, who).Next? && r in s.reqs && r in AioPutReq(s, x, q, lastFile, who).s.reqs
    ensures FlagsOf(AioPutReq(s, x, q, lastFile, who).s.reqs[r]) == FlagsOf(if r == x then q else s.reqs[r])
  {
    hide *;
    PutFrame(s, x, q, lastFile, who);
    SomeFlags(s.reqs, AioPutReq(s, x, q, lastFile, who).s.reqs, x, q, r);
  }

  lemma SomeFlags(reqs: map<ReqId, Req>, reqs': map<ReqId, Req>, x: ReqId, q: Req, r: ReqId)
    requires r in reqs && r in reqs'
    requires reqs' == reqs[x := q.(users := q.users - 1)] || reqs' == reqs - {x} || reqs' == reqs[x := Deferring(q)]
    ensures FlagsOf(reqs'[r]) == FlagsOf(if r == x then q else reqs[r])
  {
    if reqs' == reqs[x := q.(users := q.users - 1)] {
    } else if reqs' == reqs - {x} {
    } else {
    }
  }

  lemma CompletedFlags(s: State, x: ReqId, q: Req, lastFile: bool, r: ReqId)
    requires PutCompleted(s, x, q, lastFile).Next? && r in s.reqs && r in PutCompleted(s, x, q, lastFile).s.reqs
    ensures FlagsOf(PutCompleted(s, x, q, lastFile).s.reqs[r]) == FlagsOf(if r == x then q else s.reqs[r])
  {
    hide AioPutReq, FlagsOf;
    if q.users > 1 && q.run != Some(Waking) {
      PutFlags(s.(crew := s.crew.(completers := s.crew.completers + 1)), x, q, lastFile, None, r);
    } else {
      PutFlags(s, x, q, lastFile, None, r);
    }
  }

  lemma SubmitDecides(s: State, l: Label, r: ReqId)
    requires l.Queue? || l.Abort? || l.PutSubmit? || l.Cancel? || l.PutCancel?
    ensures Decides(s, SubmitStep(s, l), l, r)
  {
    hide Decides, SubmitStep;
    if l.Queue? { QueueDecides(s, l, r); }
    else if l.Cancel? { CancelDecides(s, l, r); }
    else { PutsDecide(s, l, r); }
  }

  lemma QueueDecides(s: State, l: Label, r: ReqId)
    requires l.Queue?
    ensures Decides(s, SubmitStep(s, l), l, r)
  {
    hide AddTail, Unlocked, MayEnter, Entered;
  }

  lemma CancelDecides(s: State, l: Label, r: ReqId)
    requires l.Cancel?
    ensures Decides(s, SubmitStep(s, l), l, r)
    ensures SubmitStep(s, l).Next? ==> (SubmitStep(s, l).s.reqs[l.r].onActive <==> !l.all)
  {
    hide Unlocked;
  }

  lemma PutsDecide(s: State, l: Label, r: ReqId)
    requires l.Abort? || l.PutSubmit? || l.PutCancel?
    ensures Decides(s, SubmitStep(s, l), l, r)
  {
    hide AioPutReq, Unlocked;
    if SubmitStep(s, l).Next? && r in s.reqs && r in SubmitStep(s, l).s.reqs {
      var q := s.reqs[l.r];
      if l.Abort? {
        PutFlags(s, l.r, q.(io := false), l.lastFile, None, r);
      } else if l.PutSubmit? {
        PutFlags(s, l.r, q.(submit := false), l.lastFile, None, r);
      } else {
        PutFlags(s, l.r, q.(cancels := q.cancels - 1), l.lastFile, None, r);
      }
    }
  }

  lemma FinishDecides(s: State, l: Label, r: ReqId)
    requires l.FinishRetry? || l.FinishDrop?
    ensures Decides(s, FinishStep(s, l), l, r)
  {
    hide AioPutReq, AddTail, Unlocked;
    if FinishStep(s, l).Next? && r in s.reqs && r in FinishStep(s, l).s.reqs {
      var q := s.reqs[l.r];
      var s1, q1, who := Returned(s, q.runner), q.(link := Self, run := None), Some(q.runner);
      if l.FinishDrop? {
        PutFlags(s1, l.r, q.(run := None), l.lastFile, who, r);
      } else if q.kicked {
        PutFlags(QueueKickedIocb(s1, l.r, q1), l.r, q1.(link := Listed), false, who, r);
      } else {
        PutFlags(s1, l.r, q1, false, who, r);
      }
    }
  }

  lemma CompleteDecides(s: State, l: Label, r: ReqId)
    requires l.CompleteWrite? || l.CompleteSilent?
    ensures Decides(s, CompleteStep(s, l), l, r)
  {
    hide PutCompleted, Unlist, Unlocked;
    if l.CompleteSilent? && CompleteStep(s, l).Next? && r in s.reqs && r in CompleteStep(s, l).s.reqs {
      var q := s.reqs[l.r];
      var link := if q.link == Listed then Self else q.link;
      CompletedFlags(s.(lists := Unlist(s, l.r, q)), l.r, Completed(q).(link := link, io := false), l.lastFile, r);
    }
  }

  lemma PublishDecides(s: State, lastFile: bool, r: ReqId)
    ensures Decides(s, PublishStep(s, lastFile), CompletePublish(lastFile), r)
  {
    hide PutCompleted, TailMoved;
    if PublishStep(s, lastFile).Next? && r in s.reqs && r in PublishStep(s, lastFile).s.reqs {
      var x := s.ring.writing.value.0;
      CompletedFlags(s.(ring := TailMoved(s.ring), doneBy := s.doneBy + [x]), x,
                     s.reqs[x].(io := false, completing := false), lastFile, r);
    }
  }

  lemma LocalDecides(s: State, l: Label, r: ReqId)
    requires OnRequest(l)
    ensures Decides(s, LocalStep(s, l), l, r)
  {
    hide RetryReq, WakeReq, FlagsOf, AfterStep;
    if l.r in s.reqs {
      ReqDecides(s.reqs[l.r], l, Publishes(s, l.r));
    }
    OthersDecide(l, r, Publishes(s, r));
  }

  lemma OthersDecide(l: Label, r: ReqId, published: bool)
    requires OnRequest(l)
    ensures l.r != r ==> forall f :: AfterStep(f, l, r, published) == f
  {
  }

  lemma ReqDecides(q: Req, l: Label, published: bool)
    requires OnRequest(l)
    ensures !l.Wake? && !l.TryKick? && RetryReq(q, l).Some? ==>
              FlagsOf(RetryReq(q, l).value) == AfterStep(FlagsOf(q), l, l.r, published)
    ensures (l.Wake? || l.TryKick?) && WakeReq(q, l).Some? ==>
              FlagsOf(WakeReq(q, l).value) == AfterStep(FlagsOf(q), l, l.r, published)
    ensures l.FputTake? ==> FlagsOf(q.(fput := Taken)) == AfterStep(FlagsOf(q), l, l.r, published)
  {
  }

  lemma ListDecides(s: State, l: Label, r: ReqId)
    requires l.Splice? || l.Start? || l.QueueKicked? || l.FputFinish?
    ensures Decides(s, Exec(s, l), l, r)
  {
    hide SpliceStep, StartStep, QueueKickedStep, FputFinishStep, Decides;
    if l.Splice? { SpliceDecides(s, l.t, r); }
    else if l.Start? { StartDecides(s, l.t, r); }
    else if l.QueueKicked? { KickedDecides(s, l.r, r); }
    else { FputDecides(s, l.r, r); }
  }

  lemma SpliceDecides(s: State, t: ListId, r: ReqId)
    ensures Decides(s, SpliceStep(s, t), Splice(t), r)
  {
    hide Mine, Idle, ListOf;
  }

  lemma StartDecides(s: State, t: ListId, r: ReqId)
    ensures Decides(s, StartStep(s, t), Start(t), r)
  {
    hide Mine, Idle;
  }

  lemma KickedDecides(s: State, x: ReqId, r: ReqId)
    ensures Decides(s, QueueKickedStep(s, x), QueueKicked(x), r)
  {
    hide AddTail, Unlocked;
  }

  lemma FputDecides(s: State, x: ReqId, r: ReqId)
    ensures Decides(s, FputFinishStep(s, x), FputFinish(x), r)
  {
    hide Unlocked, Quiet, Unheld;
  }

  lemma OtherDecides(s: State, l: Label, r: ReqId)
    requires l.Admit? || l.ReadCopy? || l.ReadAdvance? || OnContext(l) || l.Enter? || l.Leave? || l.WakeOwn?
             || l.WakeBare? || l.QueueWork? || l.StrayWake?
    ensures Decides(s, Exec(s, l), l, r)
  {
    hide AdmitStep, ReadStep, ContextStep, CrewStep, TouchStep, Decides;
    if l.Admit? { AdmitDecides(s, l, r); }
    else if l.ReadCopy? || l.ReadAdvance? { ReadDecides(s, l, r); }
    else if OnContext(l) { ContextDecides(s, l, r); }
    else { ThreadsDecide(s, l, r); }
  }

  lemma AdmitDecides(s: State, l: Label, r: ReqId)
    requires l.Admit?
    ensures Decides(s, AdmitStep(s, l.r, l.obj, l.data), l, r)
  {
    hide Unlocked, RingAvail;
  }

  lemma ReadDecides(s: State, l: Label, r: ReqId)
    requires l.ReadCopy? || l.ReadAdvance?
    ensures Decides(s, ReadStep(s, l), l, r)
  {
  }

  lemma ContextDecides(s: State, l: Label, r: ReqId)
    requires OnContext(l)
    ensures Decides(s, ContextStep(s, l), l, r)
  {
    hide ContextStep;
    if ContextStep(s, l).Next? {
      ContextOnly(s, l);
    }
  }

  lemma ThreadsDecide(s: State, l: Label, r: ReqId)
    requires l.Enter? || l.Leave? || l.WakeOwn? || l.WakeBare? || l.QueueWork? || l.StrayWake?
    ensures Decides(s, if l.Enter? || l.Leave? then CrewStep(s, l) else TouchStep(s, l), l, r)
  {
    hide Unlocked, Mine, Idle, MayEnter;
  }

  /** Every step decides about a request exactly what it is for: its I/O ends by an abort, a completion without an event
      or the publishing of its event; it is queued by its submitter, handed over by its retry method, cancelled by a
      canceller; and a wait queue entry comes and goes by the retry method, or goes by a wake-up. */
  lemma StepDecides(s: State, l: Label, r: ReqId)
    requires Exec(s, l).Next? && r in s.reqs && r in Exec(s, l).s.reqs
    ensures FlagsOf(Exec(s, l).s.reqs[r]) == AfterStep(FlagsOf(s.reqs[r]), l, r, Publishes(s, r))
  {
    AllDecide(s, l, r);
    hide Exec, AfterStep, FlagsOf, Publishes;
  }

  lemma AllDecide(s: State, l: Label, r: ReqId)
    ensures Decides(s, Exec(s, l), l, r)
  {
    hide SubmitStep, FinishStep, CompleteStep, PublishStep, LocalStep, Decides;
    if l.Queue? || l.Abort? || l.PutSubmit? || l.Cancel? || l.PutCancel? { SubmitDecides(s, l, r); }
    else if l.FinishRetry? || l.FinishDrop? { FinishDecides(s, l, r); }
    else if l.CompleteWrite? || l.CompleteSilent? { CompleteDecides(s, l, r); }
    else if l.CompletePublish? { PublishDecides(s, l.lastFile, r); }
    else if OnRequest(l) { LocalDecides(s, l, r); }
    else {
      hide Exec;
      if l.Splice? || l.Start? || l.QueueKicked? || l.FputFinish? { ListDecides(s, l, r); }
      else { OtherDecides(s, l, r); }
    }
  }

  // ---- the threads that are on their way to the context

  /** The completer is not the last user of its request, and not its own retry. */
  predicate GoesOn(q: Req) {
    q.users > 1 && q.run != Some(Waking)
  }

  /** The threads that a step sends on their way to ctx->wait, and to the work queue. */
  function ToWait(s: State, l: Label): int {
    match l
    case CompleteSilent(r, _) => One(r in s.reqs && GoesOn(Completed(s.reqs[r])))
    case CompletePublish(_) =>
      One(s.ring.writing.Some? && s.ring.writing.value.0 in s.reqs && GoesOn(s.reqs[s.ring.writing.value.0]))
    case WakeBare => -1
    case _ => 0
  }

  function ToWorkQueue(s: State, l: Label): int {
    match l
    case QueueKicked(r) => One(r in s.reqs && s.reqs[r].link == Self)
    case Leave(_) => One(ListOf(s, RUN_LIST) != [])
    case QueueWork => -1
    case _ => 0
  }

  predicate Counts(s: State, o: Outcome, l: Label) {
    o.Next? ==>
      && o.s.crew.completers == s.crew.completers + ToWait(s, l)
      && o.s.crew.kickers == s.crew.kickers + ToWorkQueue(s, l)
  }

  lemma PutCounts(s: State, x: ReqId, q: Req, lastFile: bool, who: Option<ListId>)
    requires AioPutReq(s, x, q, lastFile, who).Next?
    ensures var w := AioPutReq(s, x, q, lastFile, who).s.crew;
            w.completers == s.crew.completers && w.kickers == s.crew.kickers
  {
    hide *;
    PutFrame(s, x, q, lastFile, who);
  }

  lemma CompletedCounts(s: State, x: ReqId, q: Req, lastFile: bool)
    requires PutCompleted(s, x, q, lastFile).Next?
    ensures var w := PutCompleted(s, x, q, lastFile).s.crew;
            w.completers == s.crew.completers + One(GoesOn(q)) && w.kickers == s.crew.kickers
  {
    hide AioPutReq;
    if GoesOn(q) {
      PutCounts(s.(crew := s.crew.(completers := s.crew.completers + 1)), x, q, lastFile, None);
    } else {
      PutCounts(s, x, q, lastFile, None);
    }
  }

  lemma SubmitCounts(s: State, l: Label)
    requires l.Queue? || l.Abort? || l.PutSubmit? || l.Cancel? || l.PutCancel?
    ensures Counts(s, SubmitStep(s, l), l)
  {
    hide AioPutReq, AddTail, Unlocked, MayEnter;
    if SubmitStep(s, l).Next? {
      var q := s.reqs[l.r];
      match l
      case Queue(_, _) =>
      case Cancel(_, _, _) =>
      case Abort(_, lastFile) => PutCounts(s, l.r, q.(io := false), lastFile, None);
      case PutSubmit(_, lastFile) => PutCounts(s, l.r, q.(submit := false), lastFile, None);
      case PutCancel(_, lastFile) => PutCounts(s, l.r, q.(cancels := q.cancels - 1), lastFile, None);
    }
  }

  lemma FinishCounts(s: State, l: Label)
    requires l.FinishRetry? || l.FinishDrop?
    ensures Counts(s, FinishStep(s, l), l)
  {
    hide AioPutReq, AddTail, Unlocked;
    if FinishStep(s, l).Next? {
      var q := s.reqs[l.r];
      var s1, q1, who := Returned(s, q.runner), q.(link := Self, run := None), Some(q.runner);
      if l.FinishDrop? {
        PutCounts(s1, l.r, q.(run := None), l.lastFile, who);
      } else if q.kicked {
        PutCounts(QueueKickedIocb(s1, l.r, q1), l.r, q1.(link := Listed), false, who);
      } else {
        PutCounts(s1, l.r, q1, false, who);
      }
    }
  }

  lemma CompleteCounts(s: State, l: Label)
    requires l.CompleteWrite? || l.CompleteSilent?
    ensures Counts(s, CompleteStep(s, l), l)
  {
    hide PutCompleted, Unlist, Unlocked;
    if l.CompleteSilent? && CompleteStep(s, l).Next? {
      var q := s.reqs[l.r];
      var link := if q.link == Listed then Self else q.link;
      CompletedCounts(s.(lists := Unlist(s, l.r, q)), l.r, Completed(q).(link := link, io := false), l.lastFile);
    }
  }

  lemma PublishCounts(s: State, lastFile: bool)
    ensures Counts(s, PublishStep(s, lastFile), CompletePublish(lastFile))
  {
    hide PutCompleted, TailMoved;
    if PublishStep(s, lastFile).Next? {
      var x := s.ring.writing.value.0;
      CompletedCounts(s.(ring := TailMoved(s.ring), doneBy := s.doneBy + [x]), x,
                      s.reqs[x].(io := false, completing := false), lastFile);
    }
  }

  lemma OtherCounts(s: State, l: Label)
    requires !l.Queue? && !l.Abort? && !l.PutSubmit? && !l.Cancel? && !l.PutCancel? && !l.FinishRetry? && !l.FinishDrop?
    requires !l.CompleteWrite? && !l.CompleteSilent? && !l.CompletePublish?
    ensures Counts(s, Exec(s, l), l)
  {
    hide AdmitStep, SpliceStep, StartStep, QueueKickedStep, ReadStep, FputFinishStep, ContextStep, LocalStep, CrewStep,
         TouchStep, Counts;
    if l.Admit? || l.ReadCopy? || l.ReadAdvance? { OutsideCounts(s, l); }
    else if l.Splice? || l.Start? || l.QueueKicked? || l.FputFinish? { ListCounts(s, l); }
    else if OnContext(l) { ContextCountsKept(s, l); }
    else if OnRequest(l) { LocalCounts(s, l); }
    else { ThreadCounts(s, l); }
  }

  lemma OutsideCounts(s: State, l: Label)
    requires l.Admit? || l.ReadCopy? || l.ReadAdvance?
    ensures Counts(s, if l.Admit? then AdmitStep(s, l.r, l.obj, l.data) else ReadStep(s, l), l)
  {
    hide Unlocked, RingAvail;
  }

  lemma ListCounts(s: State, l: Label)
    requires l.Splice? || l.Start? || l.QueueKicked? || l.FputFinish?
    ensures Counts(s, if l.Splice? then SpliceStep(s, l.t) else if l.Start? then StartStep(s, l.t)
                      else if l.QueueKicked? then QueueKickedStep(s, l.r) else FputFinishStep(s, l.r), l)
  {
    hide Unlocked, Mine, Idle, AddTail, Unheld, Quiet;
  }

  lemma ContextCountsKept(s: State, l: Label)
    requires OnContext(l)
    ensures Counts(s, ContextStep(s, l), l)
  {
    hide Mine;
  }

  lemma LocalCounts(s: State, l: Label)
    requires OnRequest(l)
    ensures Counts(s, LocalStep(s, l), l)
  {
    hide RetryReq, WakeReq;
  }

  lemma ThreadCounts(s: State, l: Label)
    requires l.Enter? || l.Leave? || l.WakeOwn? || l.WakeBare? || l.QueueWork? || l.StrayWake?
    ensures Counts(s, if l.Enter? || l.Leave? then CrewStep(s, l) else TouchStep(s, l), l)
  {
    hide Unlocked, Mine, Idle, MayEnter;
  }

  /** A thread is on its way to ctx->wait from the completion of a request that others hold until it gets there, and to
      the work queue from the queueing of a request, or from a handler that leaves requests behind, until it gets there.
      */
  lemma StepCounts(s: State, l: Label)
    requires Exec(s, l).Next?
    ensures Exec(s, l).s.crew.completers == s.crew.completers + ToWait(s, l)
    ensures Exec(s, l).s.crew.kickers == s.crew.kickers + ToWorkQueue(s, l)
  {
    AllCount(s, l);
    hide Exec, ToWait, ToWorkQueue;
  }

  lemma AllCount(s: State, l: Label)
    ensures Counts(s, Exec(s, l), l)
  {
    hide SubmitStep, FinishStep, CompleteStep, PublishStep, Counts;
    if l.Queue? || l.Abort? || l.PutSubmit? || l.Cancel? || l.PutCancel? { SubmitCounts(s, l); }
    else if l.FinishRetry? || l.FinishDrop? { FinishCounts(s, l); }
    else if l.CompleteWrite? || l.CompleteSilent? { CompleteCounts(s, l); }
    else if l.CompletePublish? { PublishCounts(s, l.lastFile); }
    else {
      hide Exec;
      OtherCounts(s, l);
    }
  }
}
