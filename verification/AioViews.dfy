/** Runs of the asynchronous I/O machine with one request, numbered 0, step by step: what each step does to the little
    there is to see of the state. */
module AioViews {
  import opened Wrappers
  import opened AioModel
  import opened AioInv
  import opened AioSteps
  import opened Aio

  /** A state with at most the one request: the counts, the threads, the request, the run list it is on, whether its
      event is being written, and the freed requests that a wake-up leads to. */
  datatype View = View(c: Ctx, w: Crew, q: Option<Req>, on: Option<ListId>, writing: bool, strays: nat)

  ghost predicate Sees(s: State, v: View) {
    && s.ctx == v.c && s.crew == v.w && s.strays == v.strays
    && s.reqs == (if v.q.Some? then map[0 := v.q.value] else map[])
    && (v.q.Some? ==> 0 !in s.gone)
    && ListsSeen(s, v.on) && RingSeen(s.ring, v.writing)
  }

  ghost predicate ListsSeen(s: State, on: Option<ListId>) {
    forall t: ListId :: ListOf(s, t) == if on == Some(t) then [0] else []
  }

  predicate RingSeen(g: Ring, writing: bool) {
    && 2 <= g.nr == |g.slots| && g.tail < g.nr && g.reading.None?
    && g.writing.Some? == writing && (writing ==> g.writing.value.0 == 0)
  }

  /** The run from s0 goes through and ends in a state seen as v. */
  ghost predicate Leads(s0: State, ls: seq<Label>, v: View) {
    Run(s0, ls).Next? && Sees(Run(s0, ls).s, v)
  }

  lemma OneMore(s0: State, ls: seq<Label>, l: Label)
    requires Run(s0, ls).Next?
    ensures Run(s0, ls + [l]) == Run(Run(s0, ls).s, [l])
    ensures !Exec(Run(s0, ls).s, l).Disabled? ==> Run(s0, ls + [l]) == Exec(Run(s0, ls).s, l)
  {
    hide Exec;
    RunConcat(s0, ls, [l]);
  }

  // ---- the steps

  lemma ListsSame(s: State, s': State, on: Option<ListId>)
    requires s'.lists == s.lists && ListsSeen(s, on)
    ensures ListsSeen(s', on)
  {
    assert forall t :: ListOf(s', t) == ListOf(s, t);
  }

  lemma ThreadsAt(s: State, v: View, c: Ctx, w: Crew)
    requires Sees(s, v)
    ensures Sees(s.(ctx := c, crew := w), v.(c := c, w := w))
  {
    hide ListsSeen, RingSeen;
    ListsSame(s, s.(ctx := c, crew := w), v.on);
  }

  /** ctx_lock is free, or held by thread t at most. */
  predicate Free(v: View) {
    !v.writing && forall t | t in v.w.workers + v.w.callers :: t in v.w.running
  }

  predicate Own(v: View, t: ListId) {
    !v.writing && forall u | u in v.w.workers + v.w.callers :: u != t ==> u in v.w.running
  }

  lemma FreeLock(s: State, v: View)
    requires Sees(s, v) && Free(v)
    ensures Unlocked(s) && s.ring.writing.None? && s.ring.reading.None?
  {
    hide ListsSeen;
  }

  lemma OwnLock(s: State, v: View, t: ListId)
    requires Sees(s, v) && Own(v, t)
    ensures Mine(s, t) && s.ring.writing.None? && s.ring.reading.None?
  {
    hide ListsSeen;
  }

  lemma ExecContext(s: State, l: Label)
    requires OnContext(l)
    ensures Exec(s, l) == ContextStep(s, l)
  {
    hide ContextStep;
  }

  lemma DestroyAt(s: State, v: View)
    requires Sees(s, v) && v.c.lookups > |v.w.callers| && !v.c.freed && !v.c.dead
    ensures Exec(s, Destroy).Next?
    ensures Sees(Exec(s, Destroy).s,
                 v.(c := v.c.(dead := true, listed := false, listRef := false, owed := v.c.owed + 1)))
  {
    hide Exec, ListsSeen, RingSeen;
    ExecContext(s, Destroy);
    RingFree(s.ring, v.writing);
    ThreadsAt(s, v, v.c.(dead := true, listed := false, listRef := false, owed := v.c.owed + 1), v.w);
  }

  /** A put of the context that is not the last. */
  lemma PutAt(s: State, v: View, l: Label)
    requires Sees(s, v) && v.c.users > 1 && !v.c.freed && (l.OwedPut? || l.DropLookup? || l.DrainPut?)
    requires l.OwedPut? ==> v.c.owed > 0
    requires l.DropLookup? ==> v.c.lookups > |v.w.callers|
    requires l.DrainPut? ==> l.t in v.w.owing && Own(v, l.t)
    ensures Exec(s, l).Next?
    ensures Sees(Exec(s, l).s, v.(c := v.c.(users := v.c.users - 1, owed := v.c.owed - (if l.OwedPut? then 1 else 0),
                                            lookups := v.c.lookups - (if l.DropLookup? then 1 else 0)),
                                  w := if l.DrainPut? then v.w.(owing := v.w.owing - {l.t}) else v.w))
  {
    hide Exec, ListsSeen, RingSeen, Mine, Own;
    ExecContext(s, l);
    RingFree(s.ring, v.writing);
    if l.DrainPut? {
      OwnLock(s, v, l.t);
    }
    ThreadsAt(s, v, v.c.(users := v.c.users - 1, owed := v.c.owed - (if l.OwedPut? then 1 else 0),
                         lookups := v.c.lookups - (if l.DropLookup? then 1 else 0)),
              if l.DrainPut? then v.w.(owing := v.w.owing - {l.t}) else v.w);
  }

  /** The put that frees the context. */
  lemma FreeAt(s: State, v: View, l: Label)
    requires Sees(s, v) && v.c.users == 1 && !v.c.freed && v.c.reqsActive == 0 && (l.DropLookup? || l.DrainPut?)
    requires l.DropLookup? ==> v.c.lookups > |v.w.callers| && v.w.workers == {}
    requires l.DrainPut? ==> l.t in v.w.owing && v.w.workers == {l.t} && Own(v, l.t)
    ensures Exec(s, l).Next? && Exec(s, l).s.ctx.freed && (forall t :: ListOf(Exec(s, l).s, t) == ListOf(s, t))
    ensures Exec(s, l).s.ring == s.ring && (s.ring.writing.Some? <==> v.writing)
    ensures Exec(s, l).s.crew == v.w.(work := false, owing := if l.DrainPut? then v.w.owing - {l.t} else v.w.owing)
  {
    hide Exec, ListsSeen, RingSeen, Mine, Own;
    ExecContext(s, l);
    RingFree(s.ring, v.writing);
    if l.DrainPut? {
      OwnLock(s, v, l.t);
    }
  }

  lemma ReqAt(s: State, v: View, q: Req)
    requires Sees(s, v) && v.q.Some?
    ensures Sees(WithReq(s, 0, q), v.(q := Some(q)))
  {
    hide ListsSeen, RingSeen;
    ListsSame(s, WithReq(s, 0, q), v.on);
    assert s.reqs[0 := q] == map[0 := q];
  }

  lemma ExecLocal(s: State, l: Label)
    requires OnRequest(l)
    ensures Exec(s, l) == LocalStep(s, l)
  {
    hide LocalStep;
  }

  lemma LocalAt(s: State, v: View, l: Label, q: Req)
    requires Sees(s, v) && v.q.Some? && OnRequest(l) && l.r == 0 && !l.FputTake?
    requires (if l.Wake? || l.TryKick? then WakeReq(v.q.value, l) else RetryReq(v.q.value, l)) == Some(q)
    ensures Exec(s, l).Next? && Sees(Exec(s, l).s, v.(q := Some(q)))
  {
    hide RetryReq, WakeReq, Exec, ListsSeen, RingSeen;
    ExecLocal(s, l);
    ReqAt(s, v, q);
    hide WithReq;
    assert s.reqs[0] == v.q.value;
  }

  lemma EnterAt(s: State, v: View, t: ListId, worker: bool)
    requires Sees(s, v) && Free(v) && t != RUN_LIST && t !in v.w.used + v.w.callers && v.on != Some(t) && !v.c.freed
    requires if worker then v.w.work else v.c.lookups > |v.w.callers|
    ensures Exec(s, Enter(t, worker)).Next?
    ensures Sees(Exec(s, Enter(t, worker)).s,
                 v.(w := if worker then v.w.(workers := v.w.workers + {t}, work := false, used := v.w.used + {t})
                         else Entered(v.w, t)))
  {
    hide RingSeen, Unlocked, Entered;
    assert ListOf(s, t) == [];
    FreeLock(s, v);
    ListsSame(s, CrewStep(s, Enter(t, worker)).s, v.on);
    hide ListsSeen, ListOf;
  }

  /** A handler that leaves requests behind goes on to queue itself again. */
  lemma LeaveAt(s: State, v: View, t: ListId)
    requires Sees(s, v) && Own(v, t) && Idle(v.w, t) && t != RUN_LIST && !v.c.freed
    requires v.on.None? || (v.on == Some(RUN_LIST) && t !in v.w.callers)
    ensures Exec(s, Leave(t)).Next?
    ensures Sees(Exec(s, Leave(t)).s,
                 v.(w := v.w.(workers := v.w.workers - {t}, callers := v.w.callers - {t},
                              kickers := if v.on.None? then v.w.kickers else v.w.kickers + 1)))
  {
    hide RingSeen, Mine;
    assert ListOf(s, t) == [] && ListOf(s, RUN_LIST) == if v.on.None? then [] else [0];
    OwnLock(s, v, t);
    ListsSame(s, CrewStep(s, Leave(t)).s, v.on);
    hide ListsSeen, ListOf, Idle;
  }

  lemma SpliceAt(s: State, v: View, t: ListId)
    requires Sees(s, v) && Own(v, t) && Idle(v.w, t) && v.on == Some(RUN_LIST) && t != RUN_LIST && !v.c.freed
    ensures Exec(s, Splice(t)).Next? && Sees(Exec(s, Splice(t)).s, v.(on := Some(t)))
  {
    hide RingSeen, Idle, Mine;
    assert ListOf(s, t) == [] && ListOf(s, RUN_LIST) == [0];
    SpliceLists(s, s.(lists := s.lists[t := [0]][RUN_LIST := []]), t);
    hide ListsSeen, ListOf;
    OwnLock(s, v, t);
  }

  lemma RingFree(g: Ring, writing: bool)
    requires RingSeen(g, writing)
    ensures g.nr > 0 && g.reading.None? && g.writing.Some? == writing
  {
  }

  lemma SpliceLists(s: State, s': State, t: ListId)
    requires ListsSeen(s, Some(RUN_LIST)) && s'.lists == s.lists[t := [0]][RUN_LIST := []] && t != RUN_LIST
    ensures ListsSeen(s', Some(t))
  {
    forall u: ListId
      ensures ListOf(s', u) == if Some(t) == Some(u) then [0] else []
    {
      assert ListOf(s, u) == if u == RUN_LIST then [0] else [];
    }
  }

  lemma StartAt(s: State, v: View, t: ListId)
    requires Sees(s, v) && v.q.Some? && Own(v, t) && Idle(v.w, t) && v.on == Some(t) && t != RUN_LIST && !v.c.freed
    requires v.q.value.retried <= RETRY_CAP
    ensures Exec(s, Start(t)).Next?
    ensures Sees(Exec(s, Start(t)).s,
                 v.(q := Some(Started(v.q.value.(retried := v.q.value.retried + 1), t)), on := None,
                    w := v.w.(running := v.w.running[t := 0])))
  {
    hide RingSeen, Idle, Started, Mine;
    assert ListOf(s, t) == [0];
    var q := Started(v.q.value.(retried := v.q.value.retried + 1), t);
    OwnLock(s, v, t);
    assert StartStep(s, t).s.lists == s.lists[t := [0][1..]];
    StartLists(s, StartStep(s, t).s, t);
    hide ListsSeen, ListOf;
    assert s.reqs[0 := q] == map[0 := q];
  }

  lemma StartLists(s: State, s': State, t: ListId)
    requires ListsSeen(s, Some(t)) && s'.lists == s.lists[t := [0][1..]]
    ensures ListsSeen(s', None)
  {
    assert [0][1..] == [];
    forall u: ListId
      ensures ListOf(s', u) == []
    {
      assert ListOf(s, u) == if u == t then [0] else [];
    }
  }

  lemma FinishRetryAt(s: State, v: View)
    requires Sees(s, v) && v.q.Some? && Free(v) && !v.c.freed
    requires var q := v.q.value; q.run == Some(Requeue) && !q.kicked && q.users > 1
    ensures Exec(s, FinishRetry(0)).Next?
    ensures var q := v.q.value;
            Sees(Exec(s, FinishRetry(0)).s, v.(q := Some(q.(link := Self, run := None, users := q.users - 1)),
                                               w := v.w.(running := v.w.running - {q.runner})))
  {
    hide ListsSeen, RingSeen, AioPutReq, Unlocked;
    var q := v.q.value;
    FreeLock(s, v);
    NotLast(Returned(s, q.runner), 0, q.(link := Self, run := None), false, Some(q.runner));
    ThreadsAt(s, v, v.c, Returned(s, q.runner).crew);
    ReqAt(Returned(s, q.runner), v.(w := Returned(s, q.runner).crew),
          q.(link := Self, run := None, users := q.users - 1));
  }

  /** The put of a request that is not the last. */
  lemma SomePutAt(s: State, v: View, q: Req, who: Option<ListId>)
    requires Sees(s, v) && v.q.Some? && !v.c.freed && q.users > 1
    ensures AioPutReq(s, 0, q, false, who).Next?
    ensures Sees(AioPutReq(s, 0, q, false, who).s, v.(q := Some(q.(users := q.users - 1))))
  {
    hide AioPutReq, ListsSeen, RingSeen;
    NotLast(s, 0, q, false, who);
    ReqAt(s, v, q.(users := q.users - 1));
  }

  /** The put that frees the request. */
  lemma LastPutAt(s: State, v: View, q: Req, who: Option<ListId>)
    requires Sees(s, v) && v.q.Some? && !v.c.freed && q.users == 1 && Unheld(q)
    ensures AioPutReq(s, 0, q, false, who).Next?
    ensures Sees(AioPutReq(s, 0, q, false, who).s,
                 v.(q := None, strays := if Quiet(q) then v.strays else v.strays + 1,
                    c := v.c.(reqsActive := v.c.reqsActive - 1, owed := v.c.owed + (if who.None? then 1 else 0)),
                    w := if who.Some? then v.w.(owing := v.w.owing + {who.value}) else v.w))
  {
    hide AioPutReq, ListsSeen, RingSeen, Unheld, Quiet;
    LastIs(s, 0, q, who);
    var s' := AioPutReq(s, 0, q, false, who).s;
    assert s.reqs[0 := q] - {0} == map[];
    ListsSame(s, s', v.on);
  }

  lemma PutSubmitAt(s: State, v: View)
    requires Sees(s, v) && v.q.Some? && Free(v) && v.q.value.submit && v.q.value.submitter !in v.w.callers
    ensures Exec(s, PutSubmit(0, false)) == AioPutReq(s, 0, v.q.value.(submit := false), false, None)
  {
    hide ListsSeen, RingSeen, AioPutReq, Unlocked;
    FreeLock(s, v);
  }

  lemma FinishDropAt(s: State, v: View)
    requires Sees(s, v) && v.q.Some? && Free(v) && v.q.value.run == Some(Drop)
    ensures var q := v.q.value; var s1 := Returned(s, q.runner);
            && Exec(s, FinishDrop(0, false)) == AioPutReq(s1, 0, q.(run := None), false, Some(q.runner))
            && Sees(s1, v.(w := v.w.(running := v.w.running - {q.runner})))
  {
    hide ListsSeen, RingSeen, AioPutReq, Unlocked;
    FreeLock(s, v);
    ThreadsAt(s, v, v.c, Returned(s, v.q.value.runner).crew);
  }

  lemma CompleteAt(s: State, v: View)
    requires Sees(s, v) && v.q.Some? && Free(v) && !v.c.freed
    requires var q := v.q.value; MayComplete(q) && q.link == Null && !q.cancelled && !StillQueued(q)
    ensures Exec(s, CompleteWrite(0, 0, 0)).Next?
    ensures Sees(Exec(s, CompleteWrite(0, 0, 0)).s,
                 v.(q := Some(Completed(v.q.value).(link := Null, completing := true)), writing := true))
  {
    hide ListsSeen, MayComplete, StillQueued, Completed, Unlocked;
    FreeLock(s, v);
    var q, g := v.q.value, s.ring;
    var s' := CompleteStep(s, CompleteWrite(0, 0, 0)).s;
    assert s'.lists == s.lists;
    ListsSame(s, s', v.on);
    assert s'.reqs == map[0 := Completed(q).(link := Null, completing := true)];
  }

  /** The end of aio_complete by a thread that is not the last user. */
  lemma PublishAt(s: State, v: View)
    requires Sees(s, v) && v.q.Some? && v.writing && !v.c.freed && v.q.value.users > 1
    ensures Exec(s, CompletePublish(false)).Next?
    ensures var q := v.q.value;
            Sees(Exec(s, CompletePublish(false)).s,
                 v.(q := Some(q.(io := false, completing := false, users := q.users - 1)), writing := false,
                    w := if q.run == Some(Waking) then v.w else v.w.(completers := v.w.completers + 1)))
  {
    hide Exec, ListsSeen, AioPutReq, PutCompleted, TailMoved, RingSeen;
    var q := v.q.value.(io := false, completing := false);
    var s1 := s.(ring := TailMoved(s.ring), doneBy := s.doneBy + [0]) by { RingFree(s.ring, true); }
    TailInRange(s.ring);
    ListsSame(s, s1, v.on);
    ExecPublish(s);
    assert Sees(s1, v.(writing := false));
    CompletedAt(s1, v.(writing := false), q);
  }

  lemma ExecPublish(s: State)
    requires RingSeen(s.ring, true) && 0 in s.reqs
    ensures Exec(s, CompletePublish(false))
         == PutCompleted(s.(ring := TailMoved(s.ring), doneBy := s.doneBy + [0]), 0,
                         s.reqs[0].(io := false, completing := false), false)
  {
    hide PutCompleted, TailMoved;
  }

  lemma CompletedAt(s: State, v: View, q: Req)
    requires Sees(s, v) && v.q.Some? && !v.c.freed && q.users > 1
    ensures PutCompleted(s, 0, q, false).Next?
    ensures Sees(PutCompleted(s, 0, q, false).s,
                 v.(q := Some(q.(users := q.users - 1)),
                    w := if q.run == Some(Waking) then v.w else v.w.(completers := v.w.completers + 1)))
  {
    hide Sees, AioPutReq;
    if q.run == Some(Waking) {
      SomePutAt(s, v, q, None);
    } else {
      assert s.ctx == v.c && s.crew == v.w by { Counts(s, v); }
      var w := v.w.(completers := v.w.completers + 1);
      ThreadsAt(s, v, v.c, w);
      SomePutAt(s.(ctx := v.c, crew := w), v.(w := w), q, None);
      assert s.(ctx := v.c, crew := w) == s.(crew := s.crew.(completers := s.crew.completers + 1));
    }
  }

  lemma Counts(s: State, v: View)
    requires Sees(s, v)
    ensures s.ctx == v.c && s.crew == v.w
  {
  }

  lemma TailInRange(g: Ring)
    requires RingSeen(g, true)
    ensures RingSeen(TailMoved(g), false)
  {
    assert 0 <= (g.tail + 1) % g.nr < g.nr;
  }

  lemma WakeOwnAt(s: State, v: View)
    requires Sees(s, v) && v.q.Some? && v.q.value.run == Some(Waking) && !v.q.value.completing && !v.c.freed
    ensures Exec(s, WakeOwn(0)).Next? && Sees(Exec(s, WakeOwn(0)).s, v.(q := Some(v.q.value.(run := Some(Drop)))))
  {
    hide ListsSeen, RingSeen;
    ReqAt(s, v, v.q.value.(run := Some(Drop)));
  }

  lemma QueueKickedAt(s: State, v: View)
    requires Sees(s, v) && v.q.Some? && Free(v) && !v.c.freed && v.on.None?
    requires var q := v.q.value; q.kicking > 0 && q.link == Self
    ensures Exec(s, QueueKicked(0)).Next?
    ensures var q := v.q.value;
            Sees(Exec(s, QueueKicked(0)).s, v.(q := Some(q.(kicking := q.kicking - 1, link := Listed)),
                                               on := Some(RUN_LIST), w := v.w.(kickers := v.w.kickers + 1)))
  {
    hide Exec, RingSeen, ListsSeen, AddTail, Unlocked;
    FreeLock(s, v);
    var q, w := v.q.value.(kicking := v.q.value.kicking - 1), v.w.(kickers := v.w.kickers + 1);
    ExecQueueKicked(s);
    var s1 := s.(ctx := v.c, crew := w);
    ThreadsAt(s, v, v.c, w);
    ReqAt(s1, v.(w := w), q.(link := Listed));
    var s2 := WithReq(s1, 0, q.(link := Listed)).(lists := AddTail(s1, 0));
    AddSeen(s1, s2);
    assert Exec(s, QueueKicked(0)) == Next(s2);
  }

  lemma ExecQueueKicked(s: State)
    ensures Exec(s, QueueKicked(0)) == QueueKickedStep(s, 0)
  {
    hide QueueKickedStep;
  }

  lemma AddSeen(s: State, s': State)
    requires ListsSeen(s, None) && s'.lists == AddTail(s, 0)
    ensures ListsSeen(s', Some(RUN_LIST))
  {
    forall u: ListId
      ensures ListOf(s', u) == if u == RUN_LIST then [0] else []
    {
      assert ListOf(s, u) == [];
    }
  }

  lemma QueueWorkAt(s: State, v: View)
    requires Sees(s, v) && v.w.kickers > 0 && !v.c.freed
    ensures Exec(s, QueueWork).Next?
    ensures Sees(Exec(s, QueueWork).s, v.(w := v.w.(kickers := v.w.kickers - 1, work := true)))
  {
    hide ListsSeen, RingSeen;
    ThreadsAt(s, v, v.c, v.w.(kickers := v.w.kickers - 1, work := true));
  }

  /** A retry that was kicked in the meantime goes back to the run list. */
  lemma FinishKickedAt(s: State, v: View)
    requires Sees(s, v) && v.q.Some? && Free(v) && !v.c.freed && v.on.None?
    requires var q := v.q.value; q.run == Some(Requeue) && q.kicked && q.users > 1
    ensures Exec(s, FinishRetry(0)).Next?
    ensures var q := v.q.value;
            Sees(Exec(s, FinishRetry(0)).s,
                 v.(q := Some(q.(link := Listed, run := None, users := q.users - 1)), on := Some(RUN_LIST),
                    w := v.w.(running := v.w.running - {q.runner})))
  {
    hide Sees, AioPutReq, Returned, QueueKickedIocb, AddTail, WithReq, Unlocked;
    var q, w := v.q.value, v.w.(running := v.w.running - {v.q.value.runner});
    var s1, q1 := Returned(s, q.runner), q.(link := Self, run := None);
    var q2 := q1.(link := Listed, users := q.users - 1);
    SeenParts(s, v);
    FreeLock(s, v);
    ThreadsAt(s, v, v.c, w);
    assert s1 == s.(ctx := v.c, crew := w) by { ReturnedIs(s, v); }
    ReqAt(s1, v.(w := w), q2);
    AddedAt(WithReq(s1, 0, q2), v.(w := w, q := Some(q2)));
    SetTwice(s1, 0, q1, q2);
    NotLast(QueueKickedIocb(s1, 0, q1), 0, q1.(link := Listed), false, Some(q.runner));
    AddTailSame(s1, WithReq(s1, 0, q2), 0) by { WithReqLists(s1, q2); }
  }

  lemma WithReqLists(s: State, q: Req)
    ensures WithReq(s, 0, q).lists == s.lists
  {
  }

  lemma ReturnedIs(s: State, v: View)
    requires Sees(s, v) && v.q.Some?
    ensures Returned(s, v.q.value.runner)
         == s.(ctx := v.c, crew := v.w.(running := v.w.running - {v.q.value.runner}))
  {
  }

  lemma SeenParts(s: State, v: View)
    requires Sees(s, v) && v.q.Some?
    ensures 0 in s.reqs && s.reqs[0] == v.q.value && s.ctx == v.c && (s.ring.writing.Some? <==> v.writing)
  {
  }

  lemma AddedAt(s: State, v: View)
    requires Sees(s, v) && v.on.None?
    ensures Sees(s.(lists := AddTail(s, 0)), v.(on := Some(RUN_LIST)))
  {
    hide ListsSeen, RingSeen, AddTail;
    AddSeen(s, s.(lists := AddTail(s, 0)));
  }

  // ---- the beginning of every run: the request is submitted and queued

  function Held(users: int, owed: nat, alive: bool): Ctx {
    Ctx(1, users, alive, alive, !alive, false, false, 1, owed)
  }

  /** Nobody is in __aio_run_iocbs; threads with the given names have been. */
  function Nobody(used: set<ListId>): Crew {
    Crew({}, {}, map[], {}, 0, 0, false, used)
  }

  /** The request is on the run list, and its submitter, thread 1, in __aio_run_iocbs. */
  function Submitted(): View {
    View(Held(3, 0, true), Nobody({1}).(callers := {1}),
         Some(NewReq(0, 0).(link := Listed, queued := true, submitter := 1)), Some(RUN_LIST), false, 0)
  }

  function Submitting(): seq<Label> {
    [Lookup] + [Admit(0, 0, 0)] + [Queue(0, 1)]
  }

  lemma SubmittedLeads(nr: nat, slots: seq<Event>)
    requires 2 <= nr == |slots|
    ensures Leads(IoctxAlloc(nr, slots), Submitting(), Submitted())
  {
    hide Run, Exec, AdmitStep, ContextStep, SubmitStep;
    var s0 := IoctxAlloc(nr, slots);
    var s1 := s0.(ctx := Ctx(0, 2, true, true, false, false, false, 1, 0));
    LookupFirst(nr, slots);
    OneStep(s0, Lookup);
    AdmitFirst(nr, slots);
    OneMore(s0, [Lookup], Admit(0, 0, 0));
    var s2 := Run(s0, [Lookup] + [Admit(0, 0, 0)]).s;
    QueueFirst(s2);
    OneMore(s0, [Lookup] + [Admit(0, 0, 0)], Queue(0, 1));
  }

  function LookedUp(nr: nat, slots: seq<Event>): State {
    IoctxAlloc(nr, slots).(ctx := Ctx(0, 2, true, true, false, false, false, 1, 0))
  }

  function Admitted(nr: nat, slots: seq<Event>): State {
    WithReq(IoctxAlloc(nr, slots), 0, NewReq(0, 0)).(ctx := Held(3, 0, true), origin := map[0 := (0, 0)])
  }

  lemma LookupFirst(nr: nat, slots: seq<Event>)
    ensures Exec(IoctxAlloc(nr, slots), Lookup) == Next(LookedUp(nr, slots))
  {
  }

  lemma AdmitFirst(nr: nat, slots: seq<Event>)
    requires nr >= 2
    ensures Exec(LookedUp(nr, slots), Admit(0, 0, 0)) == Next(Admitted(nr, slots))
  {
    assert (0 + nr - 1 - 0) % nr == nr - 1;
  }

  lemma QueueFirst(s: State)
    requires exists nr: nat, slots: seq<Event> :: 2 <= nr == |slots| && s == Admitted(nr, slots)
    ensures Exec(s, Queue(0, 1)).Next? && Sees(Exec(s, Queue(0, 1)).s, Submitted())
  {
    AddSeen(s, Exec(s, Queue(0, 1)).s);
    hide ListsSeen;
    var q := NewReq(0, 0).(link := Listed, queued := true, submitter := 1);
    assert s.reqs[0 := q] == map[0 := q];
    assert Entered(s.crew, 1) == Nobody({1}).(callers := {1});
  }
}
