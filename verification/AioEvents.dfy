/** The events of aio.c belong to the requests that were submitted: each is the event of one request, with its user
    data, and no request has two. */
module AioEvents {
  import opened Wrappers
  import opened AioModel
  import opened AioInv
  import opened AioSteps
  import opened Aio

  predicate Matches(ev: Event, from: (int, int)) {
    ev.obj == from.0 && ev.data == from.1
  }

  /** Every request knows where it comes from. */
  predicate Known(s: State) {
    forall r | r in s.reqs :: r in s.origin && s.origin[r] == (s.reqs[r].obj, s.reqs[r].data)
  }

  /** The events published so far are those of doneBy, none of which is still to complete. */
  predicate Published(s: State) {
    && |s.doneBy| == |s.ring.done| && NoRepeat(s.doneBy)
    && (forall i | 0 <= i < |s.doneBy| :: s.doneBy[i] in s.origin && Matches(s.ring.done[i], s.origin[s.doneBy[i]]))
    && (forall r | r in s.reqs && s.reqs[r].io :: r !in s.doneBy)
  }

  predicate Origins(s: State) {
    && Known(s) && Published(s)
    && (s.ring.writing.Some? ==>
          s.ring.writing.value.0 in s.origin && Matches(s.ring.writing.value.1, s.origin[s.ring.writing.value.0]))
  }

  /** What a step leaves of the requests: none is new, and none begins its I/O again. */
  predicate Kept(reqs: map<ReqId, Req>, reqs': map<ReqId, Req>) {
    forall r | r in reqs' :: r in reqs && reqs'[r].obj == reqs[r].obj && reqs'[r].data == reqs[r].data
                             && (reqs'[r].io ==> reqs[r].io)
  }

  /** A step that publishes nothing and admits nothing. */
  predicate Silent(s: State, o: Outcome) {
    o.Next? ==>
      && o.s.origin == s.origin && o.s.doneBy == s.doneBy && o.s.ring.done == s.ring.done
      && o.s.ring.writing == s.ring.writing && Kept(s.reqs, o.s.reqs)
  }

  lemma SilentKeeps(s: State, o: Outcome)
    requires Origins(s) && Silent(s, o) && o.Next?
    ensures Origins(o.s)
  {
  }

  lemma PutSilent(s: State, x: ReqId, q: Req, lastFile: bool, who: Option<ListId>)
    requires x in s.reqs && q.obj == s.reqs[x].obj && q.data == s.reqs[x].data && (q.io ==> s.reqs[x].io)
    ensures Silent(s, AioPutReq(s, x, q, lastFile, who))
    ensures var o := AioPutReq(s, x, q, lastFile, who); o.Next? && !q.io && x in o.s.reqs ==> !o.s.reqs[x].io
  {
    hide AioPutReq, Kept;
    if AioPutReq(s, x, q, lastFile, who).Next? {
      PutFrame(s, x, q, lastFile, who);
      KeptOne(s.reqs, x, q.(users := q.users - 1));
      KeptOne(s.reqs, x, Deferring(q));
    }
  }

  lemma CompletedSilent(s: State, x: ReqId, q: Req, lastFile: bool)
    requires x in s.reqs && q.obj == s.reqs[x].obj && q.data == s.reqs[x].data && (q.io ==> s.reqs[x].io)
    ensures Silent(s, PutCompleted(s, x, q, lastFile))
    ensures var o := PutCompleted(s, x, q, lastFile); o.Next? && !q.io && x in o.s.reqs ==> !o.s.reqs[x].io
  {
    hide AioPutReq, Kept;
    PutSilent(s, x, q, lastFile, None);
    PutSilent(s.(crew := s.crew.(completers := s.crew.completers + 1)), x, q, lastFile, None);
  }

  lemma KeptOne(reqs: map<ReqId, Req>, x: ReqId, q: Req)
    requires x in reqs && q.obj == reqs[x].obj && q.data == reqs[x].data && (q.io ==> reqs[x].io)
    ensures Kept(reqs, reqs[x := q]) && Kept(reqs, reqs - {x})
  {
  }

  lemma SilentAfter(s: State, s1: State, o: Outcome)
    requires s1.origin == s.origin && s1.doneBy == s.doneBy && s1.ring == s.ring && Kept(s.reqs, s1.reqs)
    requires Silent(s1, o)
    ensures Silent(s, o)
  {
  }

  lemma QueueSame(s: State, x: ReqId, q: Req)
    requires x in s.reqs && q.obj == s.reqs[x].obj && q.data == s.reqs[x].data && q.link == Self
    requires q.io ==> s.reqs[x].io
    ensures var s1 := QueueKickedIocb(s, x, q);
            && s1.origin == s.origin && s1.doneBy == s.doneBy && s1.ring == s.ring && Kept(s.reqs, s1.reqs)
            && x in s1.reqs && s1.reqs[x] == q.(link := Listed)
  {
    hide AddTail;
  }

  lemma LocalSilent(s: State, l: Label)
    requires OnRequest(l)
    ensures Silent(s, LocalStep(s, l))
  {
    hide RetryReq, WakeReq, Silent;
    if LocalStep(s, l).Next? {
      ReqLeft(s.reqs[l.r], l);
      var q := LocalStep(s, l).s.reqs[l.r];
      OneSilent(s, WithReq(s, l.r, q), l.r, q);
    } else {
      NothingSilent(s);
    }
  }

  lemma OneSilent(s: State, s': State, r: ReqId, q: Req)
    requires r in s.reqs && q.obj == s.reqs[r].obj && q.data == s.reqs[r].data && q.io == s.reqs[r].io
    requires s'.reqs == s.reqs[r := q] && s'.ring == s.ring && s'.origin == s.origin && s'.doneBy == s.doneBy
    ensures Silent(s, Next(s'))
  {
  }

  lemma NotNextSilent(s: State, o: Outcome)
    requires !o.Next?
    ensures Silent(s, o)
  {
  }

  lemma SubmitSilent(s: State, l: Label)
    requires l.Queue? || l.Abort? || l.PutSubmit? || l.Cancel? || l.PutCancel?
    ensures Silent(s, SubmitStep(s, l))
  {
    hide AioPutReq, AddTail;
    if l.r in s.reqs {
      var q := s.reqs[l.r];
      match l
      case Queue(_, _) =>
      case Cancel(_, _, _) =>
      case Abort(_, lastFile) => PutSilent(s, l.r, q.(io := false), lastFile, None);
      case PutSubmit(_, lastFile) => PutSilent(s, l.r, q.(submit := false), lastFile, None);
      case PutCancel(_, lastFile) =>
        if q.cancels > 0 { PutSilent(s, l.r, q.(cancels := q.cancels - 1), lastFile, None); }
    }
  }

  lemma FinishSilent(s: State, l: Label)
    requires l.FinishRetry? || l.FinishDrop?
    ensures Silent(s, FinishStep(s, l))
  {
    hide AioPutReq, AddTail, QueueKickedIocb, Silent, Kept;
    if l.r !in s.reqs || FinishStep(s, l).Disabled? {
      NothingSilent(s);
    } else {
      var q := s.reqs[l.r];
      var s1, q1, t := Returned(s, q.runner), q.(link := Self, run := None), q.runner;
      if l.FinishDrop? {
        PutSilent(s1, l.r, q.(run := None), l.lastFile, Some(t));
        SameSilent(s, s1, AioPutReq(s1, l.r, q.(run := None), l.lastFile, Some(t)));
      } else if q.kicked {
        var s2 := QueueKickedIocb(s1, l.r, q1);
        QueueSame(s1, l.r, q1);
        PutSilent(s2, l.r, q1.(link := Listed), false, Some(t));
        SilentAfter(s1, s2, AioPutReq(s2, l.r, q1.(link := Listed), false, Some(t)));
        SameSilent(s, s1, AioPutReq(s2, l.r, q1.(link := Listed), false, Some(t)));
      } else {
        PutSilent(s1, l.r, q1, false, Some(t));
        SameSilent(s, s1, AioPutReq(s1, l.r, q1, false, Some(t)));
      }
    }
  }

  lemma SameSilent(s: State, s1: State, o: Outcome)
    requires s1 == s.(crew := s1.crew) && Silent(s1, o)
    ensures Silent(s, o)
  {
  }

  lemma NothingSilent(s: State)
    ensures Silent(s, Disabled)
  {
  }

  lemma CompleteSilentSilent(s: State, l: Label)
    requires l.CompleteSilent?
    ensures Silent(s, CompleteStep(s, l))
  {
    hide PutCompleted, Unlist;
    if l.r in s.reqs {
      var q := s.reqs[l.r];
      var link := if q.link == Listed then Self else q.link;
      CompletedSilent(s.(lists := Unlist(s, l.r, q)), l.r, Completed(q).(link := link, io := false), l.lastFile);
    }
  }

  lemma SpliceSilent(s: State, t: ListId)
    ensures Silent(s, SpliceStep(s, t))
  {
    hide ListOf, Idle;
  }

  lemma KickedSilent(s: State, r: ReqId)
    ensures Silent(s, QueueKickedStep(s, r))
  {
    hide AddTail, Silent, Unlocked;
    if QueueKickedStep(s, r).Next? {
      var q := s.reqs[r].(kicking := s.reqs[r].kicking - 1);
      OneSilent(s, QueueKickedStep(s, r).s, r, if q.link == Self then q.(link := Listed) else q);
    } else {
      hide QueueKickedStep;
      NotNextSilent(s, QueueKickedStep(s, r));
    }
  }

  lemma ReadSilent(s: State, l: Label)
    requires l.ReadCopy? || l.ReadAdvance?
    ensures Silent(s, ReadStep(s, l))
  {
  }

  lemma ThreadsSilent(s: State, l: Label)
    requires l.Enter? || l.Leave? || l.WakeOwn? || l.WakeBare? || l.QueueWork? || l.StrayWake?
    ensures Silent(s, if l.Enter? || l.Leave? then CrewStep(s, l) else TouchStep(s, l))
  {
  }

  lemma StartSilent(s: State, t: ListId)
    ensures Silent(s, StartStep(s, t))
  {
  }

  lemma ContextSilent(s: State, l: Label)
    ensures Silent(s, ContextStep(s, l))
  {
    hide ContextStep;
    if ContextStep(s, l).Next? {
      ContextOnly(s, l);
    }
  }

  lemma FputSilent(s: State, r: ReqId)
    ensures Silent(s, FputFinishStep(s, r))
  {
    hide Unheld;
  }

  lemma AdmitOrigins(s: State, r: ReqId, obj: int, data: int)
    requires Origins(s) && AdmitStep(s, r, obj, data).Next?
    ensures Origins(AdmitStep(s, r, obj, data).s)
  {
    hide RingAvail, NoRepeat;
    var s' := AdmitStep(s, r, obj, data).s;
    assert r !in s.doneBy;
  }

  lemma WriteOrigins(s: State, l: Label)
    requires Origins(s) && l.CompleteWrite? && CompleteStep(s, l).Next?
    ensures Origins(CompleteStep(s, l).s)
  {
    hide NoRepeat, Unlist;
    var s' := CompleteStep(s, l).s;
    assert Kept(s.reqs, s'.reqs) && s'.doneBy == s.doneBy && s'.ring.done == s.ring.done && s'.origin == s.origin;
    assert Matches(s'.ring.writing.value.1, s'.origin[l.r]);
  }

  lemma PublishOrigins(s: State, lastFile: bool)
    requires Origins(s) && Inv(s) && PublishStep(s, lastFile).Next?
    ensures Origins(PublishStep(s, lastFile).s)
  {
    hide Inv, PutCompleted, RetryOk, Known, Published, Kept, TailMoved;
    var r := s.ring.writing.value.0;
    var q, s1 := s.reqs[r].(io := false, completing := false), s.(ring := TailMoved(s.ring), doneBy := s.doneBy + [r]);
    WriterIo(s);
    TailMovedDone(s.ring);
    CompletedSilent(s1, r, q, lastFile);
    LastPending(s, s1, r, PutCompleted(s1, r, q, lastFile).s);
  }

  lemma TailMovedDone(g: Ring)
    requires g.nr > 0 && g.writing.Some?
    ensures TailMoved(g).done == g.done + [g.writing.value.1] && TailMoved(g).writing.None?
  {
  }

  lemma WriterIo(s: State)
    requires Inv(s) && s.ring.writing.Some?
    ensures s.ring.writing.value.0 in s.reqs && s.reqs[s.ring.writing.value.0].io
  {
    ReqOf(s, s.ring.writing.value.0);
  }

  /** After the put that follows the publishing, the request is not pending any more. */
  lemma LastPending(s: State, s1: State, r: ReqId, s': State)
    requires Origins(s) && r in s.reqs && s.reqs[r].io && s.ring.writing.Some? && s.ring.writing.value.0 == r
    requires s1.origin == s.origin && s1.reqs == s.reqs && s1.doneBy == s.doneBy + [r]
    requires s1.ring.done == s.ring.done + [s.ring.writing.value.1] && s1.ring.writing.None?
    requires s'.origin == s1.origin && s'.doneBy == s1.doneBy && s'.ring.done == s1.ring.done && s'.ring.writing.None?
    requires Kept(s1.reqs, s'.reqs) && (r in s'.reqs ==> !s'.reqs[r].io)
    ensures Origins(s')
  {
  }

  /** A step that is neither an admission nor part of a completion with an event is silent. */
  lemma StepSilent(s: State, l: Label)
    requires !l.Admit? && !l.CompleteWrite? && !l.CompletePublish?
    ensures Silent(s, Exec(s, l))
  {
    hide AdmitStep, SubmitStep, SpliceStep, StartStep, FinishStep, QueueKickedStep, CompleteStep, PublishStep, ReadStep,
         FputFinishStep, ContextStep, LocalStep, CrewStep, TouchStep, Silent;
    if l.Queue? || l.Abort? || l.PutSubmit? || l.Cancel? || l.PutCancel? { SubmitSilent(s, l); }
    else if l.Splice? { SpliceSilent(s, l.t); }
    else if l.Start? { StartSilent(s, l.t); }
    else if l.QueueKicked? { KickedSilent(s, l.r); }
    else if l.ReadCopy? || l.ReadAdvance? { ReadSilent(s, l); }
    else if l.FinishRetry? || l.FinishDrop? { FinishSilent(s, l); }
    else if l.CompleteSilent? { CompleteSilentSilent(s, l); }
    else if l.FputFinish? { FputSilent(s, l.r); }
    else if OnContext(l) { ContextSilent(s, l); }
    else if OnRequest(l) { LocalSilent(s, l); }
    else { ThreadsSilent(s, l); }
  }

  lemma StepOrigins(s: State, l: Label)
    requires Origins(s) && Inv(s) && Exec(s, l).Next?
    ensures Origins(Exec(s, l).s)
  {
    hide Inv, Origins, AdmitStep, CompleteStep, PublishStep, Silent;
    if l.Admit? {
      AdmitOrigins(s, l.r, l.obj, l.data);
    } else if l.CompleteWrite? {
      WriteOrigins(s, l);
    } else if l.CompletePublish? {
      PublishOrigins(s, l.lastFile);
    } else {
      StepSilent(s, l);
      hide Exec;
      SilentKeeps(s, Exec(s, l));
    }
  }

  lemma {:induction false} RunOrigins(s: State, ls: seq<Label>)
    requires Origins(s) && Inv(s) && Run(s, ls).Next?
    ensures Origins(Run(s, ls).s)
    decreases ls
  {
    hide Inv, Exec, Origins, Breaks;
    if ls != [] {
      StepKeeps(s, ls[0]);
      if Exec(s, ls[0]).Next? {
        StepOrigins(s, ls[0]);
        RunOrigins(Exec(s, ls[0]).s, ls[1..]);
      } else {
        RunOrigins(s, ls[1..]);
      }
    }
  }

  /** In every reachable state each event completed is that of one admitted request, carrying its iocb address and data,
      no request has more than one, and none of them is still to complete. */
  lemma EventsBelong(s: State)
    requires Reachable(s)
    ensures |s.doneBy| == |s.ring.done|
    ensures forall i | 0 <= i < |s.doneBy| :: s.doneBy[i] in s.origin && Matches(s.ring.done[i], s.origin[s.doneBy[i]])
    ensures forall i, j | 0 <= i < j < |s.doneBy| :: s.doneBy[i] != s.doneBy[j]
    ensures forall r | r in s.reqs && s.reqs[r].io :: r !in s.doneBy
  {
    hide Inv, Run;
    var nr: nat, slots: seq<Event>, ls: seq<Label> :| 0 < nr == |slots| && Run(IoctxAlloc(nr, slots), ls) == Next(s);
    InitOk(nr, slots);
    RunOrigins(IoctxAlloc(nr, slots), ls);
  }

  // ---- the results

  /** A completion with the results of the event is among the steps ls. */
  predicate Reports(ls: seq<Label>, r: ReqId, ev: Event) {
    CompleteWrite(r, ev.res, ev.res2) in ls
  }

  /** The event being written, and those published, report results that were given. */
  predicate Logged(s: State, ls: seq<Label>) {
    && |s.doneBy| == |s.ring.done|
    && (forall i | 0 <= i < |s.doneBy| :: Reports(ls, s.doneBy[i], s.ring.done[i]))
    && (s.ring.writing.Some? ==> Reports(ls, s.ring.writing.value.0, s.ring.writing.value.1))
  }

  lemma SilentLogs(s: State, o: Outcome, ls: seq<Label>, l: Label)
    requires Logged(s, ls) && Silent(s, o) && o.Next?
    ensures Logged(o.s, ls + [l])
  {
  }

  lemma AdmitLogs(s: State, l: Label, ls: seq<Label>)
    requires Logged(s, ls) && l.Admit? && AdmitStep(s, l.r, l.obj, l.data).Next?
    ensures Logged(AdmitStep(s, l.r, l.obj, l.data).s, ls + [l])
  {
    hide RingAvail;
  }

  lemma WriteLogs(s: State, l: Label, ls: seq<Label>)
    requires Logged(s, ls) && l.CompleteWrite? && CompleteStep(s, l).Next?
    ensures Logged(CompleteStep(s, l).s, ls + [l])
  {
    hide Unlist, Completed;
    assert l == CompleteWrite(l.r, l.res, l.res2);
  }

  lemma PublishLogs(s: State, l: Label, ls: seq<Label>)
    requires Logged(s, ls) && Inv(s) && l.CompletePublish? && PublishStep(s, l.lastFile).Next?
    ensures Logged(PublishStep(s, l.lastFile).s, ls + [l])
  {
    hide Inv, PutCompleted, Kept, TailMoved;
    var r := s.ring.writing.value.0;
    var q, s1 := s.reqs[r].(io := false, completing := false), s.(ring := TailMoved(s.ring), doneBy := s.doneBy + [r]);
    TailMovedDone(s.ring);
    CompletedSilent(s1, r, q, l.lastFile);
  }

  lemma StepLogs(s: State, l: Label, ls: seq<Label>)
    requires Logged(s, ls) && Inv(s) && Exec(s, l).Next?
    ensures Logged(Exec(s, l).s, ls + [l])
  {
    hide Inv, Logged, AdmitStep, CompleteStep, PublishStep, Silent;
    if l.Admit? {
      AdmitLogs(s, l, ls);
    } else if l.CompleteWrite? {
      WriteLogs(s, l, ls);
    } else if l.CompletePublish? {
      PublishLogs(s, l, ls);
    } else {
      StepSilent(s, l);
      hide Exec;
      SilentLogs(s, Exec(s, l), ls, l);
    }
  }

  lemma {:induction false} RunLogs(s: State, past: seq<Label>, ls: seq<Label>)
    requires Logged(s, past) && Inv(s) && Run(s, ls).Next?
    ensures Logged(Run(s, ls).s, past + ls)
    decreases ls
  {
    hide Inv, Exec, Breaks;
    if ls == [] {
      assert past + ls == past;
    } else {
      assert past + [ls[0]] + ls[1..] == past + ls;
      StepKeeps(s, ls[0]);
      if Exec(s, ls[0]).Next? {
        StepLogs(s, ls[0], past);
        RunLogs(Exec(s, ls[0]).s, past + [ls[0]], ls[1..]);
      } else {
        assert Logged(s, past + [ls[0]]);
        RunLogs(s, past + [ls[0]], ls[1..]);
      }
    }
  }

  /** After any run, every event completed carries the results that aio_complete was given for its request. */
  lemma EventsReport(nr: nat, slots: seq<Event>, ls: seq<Label>)
    requires 0 < nr == |slots| && Run(IoctxAlloc(nr, slots), ls).Next?
    ensures var s := Run(IoctxAlloc(nr, slots), ls).s;
            && |s.doneBy| == |s.ring.done|
            && forall i | 0 <= i < |s.doneBy| ::
                 CompleteWrite(s.doneBy[i], s.ring.done[i].res, s.ring.done[i].res2) in ls
  {
    hide Inv, Run;
    InitOk(nr, slots);
    RunLogs(IoctxAlloc(nr, slots), [], ls);
    assert [] + ls == ls;
  }
}
