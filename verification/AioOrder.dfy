/** The run lists of fs/aio.c are queues: a request is put behind those that are there, and none is retried before one
    that is ahead of it on the same list. */
module AioOrder {
  import opened Wrappers
  import opened AioModel
  import opened AioInv
  import opened AioSteps
  import opened Aio

  /** Request a is ahead of request b on list t. */
  predicate AheadOf(lists: map<ListId, seq<ReqId>>, t: ListId, a: ReqId, b: ReqId) {
    t in lists && exists i, j | 0 <= i < j < |lists[t]| :: lists[t][i] == a && lists[t][j] == b
  }

  /** What a step does to the lists: nothing; it adds a request at the end of the run list; it takes the run list over
      as a local list; or it takes the first request off a local list. */
  datatype Change = Same | Added(r: ReqId) | Spliced(t: ListId) | FirstTaken(t: ListId)

  predicate Makes(s: State, lists: map<ListId, seq<ReqId>>, c: Change) {
    match c
    case Same => lists == s.lists
    case Added(r) => r in s.reqs && s.reqs[r].link != Listed && lists == s.lists[RUN_LIST := ListOf(s, RUN_LIST) + [r]]
    case Spliced(t) =>
      t != RUN_LIST && ListOf(s, t) == [] && lists == s.lists[t := ListOf(s, RUN_LIST)][RUN_LIST := []]
    case FirstTaken(t) => t != RUN_LIST && ListOf(s, t) != [] && lists == s.lists[t := ListOf(s, t)[1..]]
  }

  /** The change that goes with a step. */
  function ChangeOf(s: State, l: Label): Change {
    match l
    case Queue(r, _) => Added(r)
    case QueueKicked(r) => if r in s.reqs && s.reqs[r].link == Self then Added(r) else Same
    case FinishRetry(r) => if r in s.reqs && s.reqs[r].kicked then Added(r) else Same
    case Splice(t) => Spliced(t)
    case Start(t) => FirstTaken(t)
    case _ => Same
  }

  lemma PutLists(s: State, r: ReqId, q: Req, lastFile: bool, who: Option<ListId>)
    requires AioPutReq(s, r, q, lastFile, who).Next?
    ensures AioPutReq(s, r, q, lastFile, who).s.lists == s.lists
  {
    hide AioPutReq, Unheld, Quiet, SameRefs, OwesOnly;
    PutFrame(s, r, q, lastFile, who);
  }

  lemma SubmitMakes(s: State, l: Label)
    requires Inv(s) && (l.Queue? || l.Abort? || l.PutSubmit? || l.Cancel? || l.PutCancel?) && SubmitStep(s, l).Next?
    ensures Makes(s, SubmitStep(s, l).s.lists, ChangeOf(s, l))
  {
    hide InvBut, AioPutReq, Unlocked, ReqOk;
    var q := s.reqs[l.r];
    match l
    case Queue(_, _) => Unqueued(s, l.r);
    case Cancel(_, _, _) =>
    case Abort(_, lastFile) => PutLists(s, l.r, q.(io := false), lastFile, None);
    case PutSubmit(_, lastFile) => PutLists(s, l.r, q.(submit := false), lastFile, None);
    case PutCancel(_, lastFile) => PutLists(s, l.r, q.(cancels := q.cancels - 1), lastFile, None);
  }

  lemma Unqueued(s: State, r: ReqId)
    requires Inv(s) && r in s.reqs && !s.reqs[r].queued
    ensures s.reqs[r].link != Listed
  {
    hide InvBut;
    ReqOf(s, r);
  }

  lemma FinishMakes(s: State, l: Label)
    requires Inv(s) && (l.FinishRetry? || l.FinishDrop?) && FinishStep(s, l).Next?
    ensures Makes(s, FinishStep(s, l).s.lists, ChangeOf(s, l))
  {
    hide InvBut, AioPutReq, Unlocked, ReqOk;
    var r, q := l.r, s.reqs[l.r];
    var s1, q1, who := Returned(s, q.runner), q.(link := Self, run := None), Some(q.runner);
    Running(s, r);
    if l.FinishDrop? {
      PutLists(s1, r, q.(run := None), l.lastFile, who);
    } else if q.kicked {
      PutLists(QueueKickedIocb(s1, r, q1), r, q1.(link := Listed), false, who);
    } else {
      PutLists(s1, r, q1, false, who);
    }
  }

  lemma Running(s: State, r: ReqId)
    requires Inv(s) && r in s.reqs && (s.reqs[r].run.Some? || s.reqs[r].handed)
    ensures s.reqs[r].link != Listed
  {
    hide InvBut;
    ReqOf(s, r);
  }

  lemma CompleteMakes(s: State, l: Label)
    requires Inv(s) && (l.CompleteWrite? || l.CompleteSilent?) && CompleteStep(s, l).Next?
    ensures CompleteStep(s, l).s.lists == s.lists
  {
    hide InvBut, PutCompleted, Unlocked, ReqOk;
    var r, q := l.r, s.reqs[l.r];
    Running(s, r);
    if l.CompleteSilent? {
      CompletedLists(s, r, Completed(q).(link := q.link, io := false), l.lastFile);
    }
  }

  lemma CompletedLists(s: State, r: ReqId, q: Req, lastFile: bool)
    requires PutCompleted(s, r, q, lastFile).Next?
    ensures PutCompleted(s, r, q, lastFile).s.lists == s.lists
  {
    hide AioPutReq;
    if q.users > 1 && q.run != Some(Waking) {
      PutLists(s.(crew := s.crew.(completers := s.crew.completers + 1)), r, q, lastFile, None);
    } else {
      PutLists(s, r, q, lastFile, None);
    }
  }

  lemma PublishMakes(s: State, lastFile: bool)
    requires PublishStep(s, lastFile).Next?
    ensures PublishStep(s, lastFile).s.lists == s.lists
  {
    hide PutCompleted, TailMoved;
    var r := s.ring.writing.value.0;
    CompletedLists(s.(ring := TailMoved(s.ring), doneBy := s.doneBy + [r]), r,
                   s.reqs[r].(io := false, completing := false), lastFile);
  }

  lemma ListMakes(s: State, l: Label)
    requires (l.Splice? || l.Start? || l.QueueKicked?) && Exec(s, l).Next?
    ensures Makes(s, Exec(s, l).s.lists, ChangeOf(s, l))
  {
    hide Mine, Idle, Unlocked;
  }

  lemma OtherMakes(s: State, l: Label)
    requires l.Admit? || l.ReadCopy? || l.ReadAdvance? || l.Enter? || l.Leave? || l.FputFinish? || l.WakeOwn?
             || l.WakeBare? || l.QueueWork? || l.StrayWake? || OnContext(l) || OnRequest(l)
    requires Exec(s, l).Next?
    ensures Exec(s, l).s.lists == s.lists
  {
    hide ContextStep, LocalStep, FputFinishStep, AdmitStep, ReadStep, CrewStep, TouchStep;
    if OnContext(l) { ContextOnly(s, l); }
    else if OnRequest(l) { LocalLists(s, l); }
    else if l.FputFinish? { FputLists(s, l.r); }
    else if l.Admit? { AdmitLists(s, l.r, l.obj, l.data); }
    else if l.ReadCopy? || l.ReadAdvance? { ReadLists(s, l); }
    else { ThreadLists(s, l); }
  }

  lemma AdmitLists(s: State, r: ReqId, obj: int, data: int)
    requires AdmitStep(s, r, obj, data).Next?
    ensures AdmitStep(s, r, obj, data).s.lists == s.lists
  {
    hide Unlocked, RingAvail;
  }

  lemma ReadLists(s: State, l: Label)
    requires (l.ReadCopy? || l.ReadAdvance?) && ReadStep(s, l).Next?
    ensures ReadStep(s, l).s.lists == s.lists
  {
  }

  lemma ThreadLists(s: State, l: Label)
    requires l.Enter? || l.Leave? || l.WakeOwn? || l.WakeBare? || l.QueueWork? || l.StrayWake?
    ensures var o := if l.Enter? || l.Leave? then CrewStep(s, l) else TouchStep(s, l); o.Next? ==> o.s.lists == s.lists
  {
    hide Unlocked, Mine, Idle, MayEnter;
  }

  lemma LocalLists(s: State, l: Label)
    requires OnRequest(l) && LocalStep(s, l).Next?
    ensures LocalStep(s, l).s.lists == s.lists
  {
    hide RetryReq, WakeReq;
  }

  lemma FputLists(s: State, r: ReqId)
    requires FputFinishStep(s, r).Next?
    ensures FputFinishStep(s, r).s.lists == s.lists
  {
    hide Unlocked, Quiet;
  }

  lemma StepMakes(s: State, l: Label)
    requires Inv(s) && Exec(s, l).Next?
    ensures Makes(s, Exec(s, l).s.lists, ChangeOf(s, l))
  {
    hide Inv, SubmitStep, FinishStep, CompleteStep, PublishStep, Makes;
    if l.Queue? || l.Abort? || l.PutSubmit? || l.Cancel? || l.PutCancel? { SubmitMakes(s, l); }
    else if l.FinishRetry? || l.FinishDrop? { FinishMakes(s, l); }
    else if l.CompleteWrite? || l.CompleteSilent? { CompleteMakes(s, l); NoChange(s, Exec(s, l).s.lists); }
    else if l.CompletePublish? { PublishMakes(s, l.lastFile); NoChange(s, Exec(s, l).s.lists); }
    else {
      hide Exec;
      if l.Splice? || l.Start? || l.QueueKicked? { ListMakes(s, l); }
      else { OtherMakes(s, l); NoChange(s, Exec(s, l).s.lists); }
    }
  }

  lemma NoChange(s: State, lists: map<ListId, seq<ReqId>>)
    requires lists == s.lists
    ensures Makes(s, lists, Same)
  {
  }

  // ---- first come, first served

  lemma Behind(lists: map<ListId, seq<ReqId>>, lists': map<ListId, seq<ReqId>>, t: ListId, u: ListId, a: ReqId,
               b: ReqId)
    requires AheadOf(lists, t, a, b) && u in lists' && lists[t] <= lists'[u]
    ensures AheadOf(lists', u, a, b)
  {
    var i, j :| 0 <= i < j < |lists[t]| && lists[t][i] == a && lists[t][j] == b;
    assert lists'[u][i] == a && lists'[u][j] == b;
  }

  /** While b is behind a, b is not started: it stays on a list, and a stays ahead of it until a is started. */
  lemma OrderKept(s: State, l: Label, t: ListId, a: ReqId, b: ReqId)
    requires Inv(s) && Exec(s, l).Next? && AheadOf(s.lists, t, a, b)
    ensures var s' := Exec(s, l).s;
            || (exists u :: AheadOf(s'.lists, u, a, b))
            || (l == Start(t) && ListOf(s, t)[0] == a && b in ListOf(s', t))
  {
    StepMakes(s, l);
    hide Inv, Exec;
    var s', c := Exec(s, l).s, ChangeOf(s, l);
    if c.FirstTaken? && c.t == t {
      FirstOff(s, s', t, a, b);
    } else {
      OrderMoved(s, s'.lists, c, t, a, b);
    }
  }

  lemma OrderMoved(s: State, lists': map<ListId, seq<ReqId>>, c: Change, t: ListId, a: ReqId, b: ReqId)
    requires Makes(s, lists', c) && AheadOf(s.lists, t, a, b) && !(c.FirstTaken? && c.t == t)
    ensures exists u :: AheadOf(lists', u, a, b)
  {
    Behind(s.lists, lists', t, if c.Spliced? && t == RUN_LIST then c.t else t, a, b);
  }

  lemma FirstOff(s: State, s': State, t: ListId, a: ReqId, b: ReqId)
    requires AheadOf(s.lists, t, a, b) && s'.lists == s.lists[t := ListOf(s, t)[1..]]
    ensures AheadOf(s'.lists, t, a, b) || (ListOf(s, t)[0] == a && b in ListOf(s', t))
  {
    var i, j :| 0 <= i < j < |s.lists[t]| && s.lists[t][i] == a && s.lists[t][j] == b;
    assert s'.lists[t][j - 1] == b;
    if i > 0 {
      assert s'.lists[t][i - 1] == a;
    }
  }

  /** A request that comes onto a list is the last of the run list, behind all that were there. */
  lemma QueuedLast(s: State, l: Label, r: ReqId)
    requires Inv(s) && Exec(s, l).Next? && !OnList(s.lists, r) && OnList(Exec(s, l).s.lists, r)
    ensures ListOf(Exec(s, l).s, RUN_LIST) == ListOf(s, RUN_LIST) + [r]
  {
    StepMakes(s, l);
    hide Inv, Exec;
    AddedLast(s, Exec(s, l).s.lists, ChangeOf(s, l), r);
  }

  lemma AddedLast(s: State, lists': map<ListId, seq<ReqId>>, c: Change, r: ReqId)
    requires Makes(s, lists', c) && !OnList(s.lists, r) && OnList(lists', r)
    ensures c == Added(r)
  {
    var t :| t in lists' && r in lists'[t];
    assert t in s.lists ==> r !in s.lists[t];
    assert RUN_LIST in s.lists ==> r !in s.lists[RUN_LIST];
  }

  /** It is the first request of its list that a thread takes up. */
  lemma FirstStarted(s: State, t: ListId)
    requires Inv(s) && StartStep(s, t).Next?
    ensures ListOf(s, t) != [] && ListOf(s, t)[0] in StartStep(s, t).s.reqs
    ensures var r, s' := ListOf(s, t)[0], StartStep(s, t).s;
            && s'.reqs[r].retried == s.reqs[r].retried + 1
            && ((s'.reqs[r].run == Some(Starting) && s'.reqs[r].runner == t) || s'.reqs[r].link == Poisoned)
            && forall y | y in s.reqs && y != r :: y in s'.reqs && s'.reqs[y] == s.reqs[y]
  {
    hide InvBut, Mine, Idle;
  }
}
