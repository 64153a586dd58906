/** What can still become of a request. Wherever a run has got to, a request whose I/O is not over can be completed by
    careful steps alone, with any result, unless aio_run_iocb will give up on it; and then it never is. */
module AioProgress {
  import opened Wrappers
  import opened AioModel
  import opened AioInv
  import opened AioSteps
  import opened Aio
  import opened AioThreads
  import opened AioCareful
  import opened AioDrive
  import opened AioEnabled

  // ---- everybody leaves __aio_run_iocbs

  predicate Deserted(s: State) {
    s.crew.workers == {} && s.crew.callers == {} && s.ring.writing.None?
  }

  lemma {:induction false} OutAll(s: State, r: ReqId) returns (s': State)
    requires Ready(s) && s.ring.writing.None? && r in s.reqs
    ensures Ready(s') && Reaches(s, s') && Track(s, s', r) && (r in s'.reqs ==> Deserted(s'))
    decreases |s.crew.workers + s.crew.callers|
  {
    hide Ready, Reaches, Track, Claimed;
    if Deserted(s) {
      s' := s;
      ReachesSelf(s);
      TrackSame(s, s, r);
    } else {
      var t :| t in s.crew.workers + s.crew.callers;
      var s1 := ThreadOut(s, r, t);
      s' := s1;
      if r in s1.reqs {
        FewerThreads(s.crew.workers + s.crew.callers, s1.crew.workers + s1.crew.callers, t);
        s' := OutAll(s1, r);
        ReachesOn(s, s1, s');
        TrackOn(s, s1, s', r);
      }
    }
  }

  lemma FewerThreads(a: set<ListId>, b: set<ListId>, t: ListId)
    requires b <= a && t in a && t !in b
    ensures |b| < |a|
  {
    Smaller(b, a - {t});
    assert a == (a - {t}) + {t};
  }

  /** With nobody in __aio_run_iocbs no retry goes on, and what is queued is on the run list. */
  lemma DesertedFacts(s: State, r: ReqId)
    requires Ready(s) && Deserted(s) && r in s.reqs
    ensures Unlocked(s) && s.reqs[r].run.None? && ReqOk(s.reqs[r]) && !s.ctx.freed && !s.reqs[r].completing
    ensures s.reqs[r].link == Listed ==> r in ListOf(s, RUN_LIST)
    ensures r in ListOf(s, RUN_LIST) ==> s.crew.kickers > 0 || s.crew.work
  {
    hide RingOk, Pending, CtxOk, CrewOk, OneHolder, ReqOk;
    ReqOf(s, r);
  }

  // ---- the wake-ups arrive

  function Wakings(q: Req): nat {
    3 * One(q.waiting) + 2 * q.woken + q.kicking
  }

  function WakeStep(r: ReqId, q: Req): Label {
    if q.waiting then Wake(r) else if q.woken > 0 then TryKick(r) else QueueKicked(r)
  }

  /** The request is as it was but for its wake-ups, and may have been put on the run list. */
  predicate Woken(q: Req, q': Req) {
    && q' == q.(waiting := q'.waiting, woken := q'.woken, kicking := q'.kicking, kicked := q'.kicked, link := q'.link)
    && Wakings(q') < Wakings(q)
  }

  lemma OneWaking(s: State, r: ReqId) returns (s': State)
    requires Ready(s) && Deserted(s) && r in s.reqs && !Quiet(s.reqs[r])
    ensures Ready(s') && Reaches(s, s') && Deserted(s') && r in s'.reqs && Woken(s.reqs[r], s'.reqs[r])
    ensures s'.doneBy == s.doneBy && s'.ring == s.ring && s'.strays == s.strays
  {
    DesertedFacts(s, r);
    var l := WakeStep(r, s.reqs[r]);
    WakingIs(s, r);
    hide Ready, Reaches, Exec, ReqOk;
    s' := Exec(s, l).s;
    ReadyAfter(s, l);
    ReachesOne(s, l);
  }

  /** What a waking leaves of the state. */
  predicate OnlyWoken(s: State, o: Outcome, r: ReqId) {
    && o.Next? && r in s.reqs && r in o.s.reqs && Woken(s.reqs[r], o.s.reqs[r]) && o.s.doneBy == s.doneBy
    && o.s.ring == s.ring && o.s.crew.workers == s.crew.workers && o.s.crew.callers == s.crew.callers
    && o.s.strays == s.strays
  }

  lemma WakingIs(s: State, r: ReqId)
    requires Unlocked(s) && r in s.reqs && !Quiet(s.reqs[r]) && !s.ctx.freed
    ensures var l := WakeStep(r, s.reqs[r]); Careful(s, l) && OnlyWoken(s, Exec(s, l), r)
  {
    hide LocalStep, QueueKickedStep, OnlyWoken, Unlocked;
    if WakeStep(r, s.reqs[r]).QueueKicked? {
      KickArrives(s, r);
    } else {
      WakeArrives(s, r);
    }
  }

  lemma WakeArrives(s: State, r: ReqId)
    requires r in s.reqs && (s.reqs[r].waiting || s.reqs[r].woken > 0)
    ensures OnlyWoken(s, LocalStep(s, WakeStep(r, s.reqs[r])), r)
  {
  }

  lemma KickArrives(s: State, r: ReqId)
    requires Unlocked(s) && r in s.reqs && s.reqs[r].kicking > 0 && !s.ctx.freed
    ensures OnlyWoken(s, QueueKickedStep(s, r), r)
  {
    var q := s.reqs[r];
    if q.link == Self {
      KickQueues(s, r);
      WokenKick(q, Listed);
    } else {
      KickQueuesNot(s, r);
      WokenKick(q, q.link);
    }
    hide QueueKickedStep, Woken, Unlocked, AddTail;
  }

  lemma KickQueues(s: State, r: ReqId)
    requires Unlocked(s) && r in s.reqs && s.reqs[r].kicking > 0 && !s.ctx.freed && s.reqs[r].link == Self
    ensures var q, s1 := s.reqs[r], s.(crew := s.crew.(kickers := s.crew.kickers + 1));
            var s2 := WithReq(s1, r, q.(kicking := q.kicking - 1, link := Listed)).(lists := AddTail(s1, r));
            QueueKickedStep(s, r) == Next(s2)
  {
    hide AddTail, Unlocked, WithReq;
  }

  lemma KickQueuesNot(s: State, r: ReqId)
    requires Unlocked(s) && r in s.reqs && s.reqs[r].kicking > 0 && !s.ctx.freed && s.reqs[r].link != Self
    ensures var q := s.reqs[r];
            QueueKickedStep(s, r) == Next(WithReq(s, r, q.(kicking := q.kicking - 1, link := q.link)))
  {
    hide Unlocked, WithReq;
    var q := s.reqs[r];
    assert q.(kicking := q.kicking - 1) == q.(kicking := q.kicking - 1, link := q.link);
  }

  lemma WokenKick(q: Req, link: Link)
    requires q.kicking > 0
    ensures Woken(q, q.(kicking := q.kicking - 1, link := link))
  {
  }

  /** The request is as it was but for its wake-ups and its link. */
  predicate SameIo(q: Req, q': Req) {
    q' == q.(waiting := q'.waiting, woken := q'.woken, kicking := q'.kicking, kicked := q'.kicked, link := q'.link)
  }

  /** All wake-ups arrive; or as many as it takes for the request to be on the run list. */
  lemma {:induction false} Hush(s: State, r: ReqId, relist: bool) returns (s': State)
    requires Ready(s) && Deserted(s) && r in s.reqs
    ensures Ready(s') && Reaches(s, s') && Deserted(s') && r in s'.reqs && SameIo(s.reqs[r], s'.reqs[r])
    ensures Quiet(s'.reqs[r]) || (relist && s'.reqs[r].link == Listed)
    ensures s'.doneBy == s.doneBy && s'.ring == s.ring && s'.strays == s.strays
    decreases Wakings(s.reqs[r])
  {
    hide Ready, Reaches, Wakings;
    if Quiet(s.reqs[r]) || (relist && s.reqs[r].link == Listed) {
      s' := s;
      ReachesSelf(s);
    } else {
      hide Quiet;
      var s1 := OneWaking(s, r);
      s' := Hush(s1, r, relist);
      ReachesOn(s, s1, s');
      SameIoOn(s.reqs[r], s1.reqs[r], s'.reqs[r]);
    }
  }

  lemma SameIoOn(q: Req, q1: Req, q2: Req)
    requires SameIo(q, q1) && SameIo(q1, q2)
    ensures SameIo(q, q2)
  {
  }

  // ---- a request that has been handed over is completed

  /** The I/O is over. */
  predicate Over(s: State, r: ReqId) {
    r in s.reqs ==> !s.reqs[r].io
  }

  /** Its event is the last that has been published. */
  predicate LastEvent(s: State, r: ReqId, ev: Event) {
    && |s.doneBy| > 0 && s.doneBy[|s.doneBy| - 1] == r
    && |s.ring.done| > 0 && s.ring.done[|s.ring.done| - 1] == ev
  }

  lemma PutOver(s: State, r: ReqId, q: Req, lastFile: bool)
    requires !q.io && PutCompleted(s, r, q, lastFile).Next?
    ensures var s' := PutCompleted(s, r, q, lastFile).s;
            && Over(s', r) && s'.ring == s.ring && s'.doneBy == s.doneBy
            && forall y | y in s.reqs && y != r :: y in s'.reqs && s'.reqs[y] == s.reqs[y]
  {
    hide AioPutReq, Over;
    if q.users > 1 && q.run != Some(Waking) {
      PutOverAny(s.(crew := s.crew.(completers := s.crew.completers + 1)), r, q, lastFile);
    } else {
      PutOverAny(s, r, q, lastFile);
    }
  }

  lemma PutOverAny(s: State, r: ReqId, q: Req, lastFile: bool)
    requires !q.io && AioPutReq(s, r, q, lastFile, None).Next?
    ensures var s' := AioPutReq(s, r, q, lastFile, None).s;
            && Over(s', r) && s'.ring == s.ring && s'.doneBy == s.doneBy
            && forall y | y in s.reqs && y != r :: y in s'.reqs && s'.reqs[y] == s.reqs[y]
  {
    hide *;
    PutFrame(s, r, q, lastFile, None);
    OverAny(s.reqs, AioPutReq(s, r, q, lastFile, None).s, r, q);
  }

  lemma OverAny(reqs: map<ReqId, Req>, s: State, r: ReqId, q: Req)
    requires !q.io
    requires s.reqs == reqs[r := q.(users := q.users - 1)] || s.reqs == reqs - {r} || s.reqs == reqs[r := Deferring(q)]
    ensures Over(s, r) && forall y | y in reqs && y != r :: y in s.reqs && s.reqs[y] == reqs[y]
  {
  }

  lemma SilentOver(s: State, r: ReqId)
    requires CompleteStep(s, CompleteSilent(r, false)).Next?
    ensures Over(CompleteStep(s, CompleteSilent(r, false)).s, r)
  {
    hide PutCompleted, Unlist, Over, Unlocked;
    var q := s.reqs[r];
    var link := if q.link == Listed then Self else q.link;
    PutOver(s.(lists := Unlist(s, r, q)), r, Completed(q).(link := link, io := false), false);
  }

  lemma PublishOver(s: State)
    requires s.ring.writing.Some? && PublishStep(s, false).Next?
    ensures var s' := PublishStep(s, false).s; var w := s.ring.writing.value;
            && s'.ring.writing.None? && Over(s', w.0) && LastEvent(s', w.0, w.1)
            && forall y | y in s.reqs && y != w.0 :: y in s'.reqs && s'.reqs[y] == s.reqs[y]
  {
    hide PutCompleted, Over;
    var r := s.ring.writing.value.0;
    PutOver(s.(ring := TailMoved(s.ring), doneBy := s.doneBy + [r]), r, s.reqs[r].(io := false, completing := false),
            false);
  }

  lemma WriteIs(s: State, r: ReqId, res: int, res2: int)
    requires CompleteStep(s, CompleteWrite(r, res, res2)).Next?
    ensures var s' := CompleteStep(s, CompleteWrite(r, res, res2)).s;
            r in s.reqs && s'.ring.writing == Some((r, Event(s.reqs[r].obj, s.reqs[r].data, res, res2)))
  {
    hide Unlist, Unlocked;
  }

  lemma ExecCompletes(s: State, l: Label)
    ensures l.CompleteWrite? || l.CompleteSilent? ==> Exec(s, l) == CompleteStep(s, l)
    ensures l.CompletePublish? ==> Exec(s, l) == PublishStep(s, l.lastFile)
  {
    hide CompleteStep, PublishStep;
  }

  lemma Publish(s: State) returns (s': State)
    requires Ready(s) && s.ring.writing.Some?
    ensures Ready(s') && Reaches(s, s') && s'.ring.writing.None?
    ensures var w := s.ring.writing.value;
            && Over(s', w.0) && LastEvent(s', w.0, w.1)
            && forall y | y in s.reqs && y != w.0 :: y in s'.reqs && s'.reqs[y] == s.reqs[y]
  {
    var l := CompletePublish(false);
    assert Careful(s, l);
    InvOf(s);
    PublishExactly(s, false);
    ExecCompletes(s, l);
    PublishOver(s);
    hide Ready, Reaches, Exec;
    s' := Exec(s, l).s;
    ReadyAfter(s, l);
    ReachesOne(s, l);
  }

  lemma CompleteHanded(s: State, r: ReqId, res: int, res2: int) returns (s': State)
    requires Ready(s) && Deserted(s) && r in s.reqs && s.reqs[r].io && s.reqs[r].handed && Quiet(s.reqs[r])
    ensures Ready(s') && Reaches(s, s') && Over(s', r)
    ensures !s.reqs[r].cancelled ==> LastEvent(s', r, Event(s.reqs[r].obj, s.reqs[r].data, res, res2))
  {
    var l := if s.reqs[r].cancelled then CompleteSilent(r, false) else CompleteWrite(r, res, res2);
    HandedStep(s, r, l);
    hide Ready, Reaches, Exec, Over, LastEvent, CompleteStep, Deserted, Quiet;
    ReadyAfter(s, l);
    ReachesOne(s, l);
    var s1 := Exec(s, l).s;
    if l.CompleteSilent? {
      SilentOver(s, r);
      s' := s1;
    } else {
      WriteIs(s, r, res, res2);
      s' := Publish(s1);
      ReachesOn(s, s1, s');
    }
  }

  lemma HandedStep(s: State, r: ReqId, l: Label)
    requires Ready(s) && Deserted(s) && r in s.reqs && s.reqs[r].io && s.reqs[r].handed && Quiet(s.reqs[r])
    requires (l.CompleteSilent? && s.reqs[r].cancelled) || (l.CompleteWrite? && !s.reqs[r].cancelled)
    requires l.r == r
    ensures Exec(s, l).Next? && Careful(s, l) && Exec(s, l) == CompleteStep(s, l)
  {
    hide Ready, ReqOk, CompleteStep, LockFree, Unlocked, Exec;
    DesertedFacts(s, r);
    InvOf(s);
    LockIs(s, 0);
    CompleteExactly(s, l);
    ExecCompletes(s, l);
  }

  // ---- a handler comes for what is on the run list

  lemma {:induction false} FreshName(used: set<ListId>) returns (t: ListId)
    ensures t > 0 && t !in used && forall u | u in used :: u < t
  {
    if used == {} {
      t := 1;
    } else {
      var u :| u in used;
      var v := FreshName(used - {u});
      t := if v > u then v else u + 1;
      assert used == (used - {u}) + {u};
    }
  }

  /** The state but for the work queue and the threads. */
  predicate SameRequests(s: State, s': State) {
    s'.reqs == s.reqs && s'.ring == s.ring && s'.ctx == s.ctx && s'.lists == s.lists && s'.doneBy == s.doneBy
    && s'.strays == s.strays
  }

  lemma WorkQueued(s: State, r: ReqId) returns (s': State)
    requires Ready(s) && Deserted(s) && r in s.reqs && s.reqs[r].link == Listed
    ensures Ready(s') && Reaches(s, s') && Deserted(s') && s'.crew.work && SameRequests(s, s')
  {
    DesertedFacts(s, r);
    if s.crew.work {
      s' := s;
      ReachesSelf(s);
    } else {
      hide Exec, Ready, Reaches, Careful;
      ExecQueueWork(s);
      s' := TouchStep(s, QueueWork).s;
      ReadyAfter(s, QueueWork);
      ReachesOne(s, QueueWork);
    }
  }

  lemma ExecQueueWork(s: State)
    ensures Exec(s, QueueWork) == TouchStep(s, QueueWork) && Careful(s, QueueWork)
  {
    hide TouchStep;
  }

  lemma HandlerEnters(s: State, r: ReqId) returns (s': State, t: ListId)
    requires Ready(s) && Deserted(s) && r in s.reqs && s.crew.work
    ensures Ready(s') && Reaches(s, s') && SameRequests(s, s')
    ensures s'.crew.workers == {t} && s'.crew.callers == {} && t !in s'.crew.running && t !in s'.crew.owing
    ensures t != RUN_LIST && ListOf(s', t) == []
  {
    t := FreshName(s.crew.used);
    EnterFacts(s, r, t);
    var l := Enter(t, true);
    s' := CrewStep(s, l).s;
    hide Exec, Ready, Reaches, ListOf, Careful;
    EnterIs(s, t);
    SameLists(s, s');
    ReadyAfter(s, l);
    ReachesOne(s, l);
  }

  lemma EnterFacts(s: State, r: ReqId, t: ListId)
    requires Ready(s) && Deserted(s) && r in s.reqs && t !in s.crew.used && t > 0
    ensures Unlocked(s) && !s.ctx.freed && ListOf(s, t) == [] && t !in s.crew.running && t !in s.crew.owing
  {
    DesertedFacts(s, r);
    hide InvBut, OneHolder, Busy, Served;
  }

  lemma EnterIs(s: State, t: ListId)
    ensures Exec(s, Enter(t, true)) == CrewStep(s, Enter(t, true)) && Careful(s, Enter(t, true))
  {
    hide CrewStep;
  }

  lemma HandlerSplices(s: State, r: ReqId, t: ListId) returns (s': State)
    requires Ready(s) && r in s.reqs && r in ListOf(s, RUN_LIST) && s.crew.workers == {t} && s.crew.callers == {}
    requires t !in s.crew.running && t !in s.crew.owing && t != RUN_LIST && ListOf(s, t) == [] && s.ring.writing.None?
    ensures Ready(s') && Reaches(s, s') && s'.reqs == s.reqs && s'.ring == s.ring && s'.crew == s.crew
    ensures r in ListOf(s', t) && s'.strays == s.strays
  {
    NotFreedNow(s, r);
    hide Exec, Ready, Reaches, Careful;
    var l := Splice(t);
    ExecSplice(s, t);
    s' := SpliceStep(s, t).s;
    ReadyAfter(s, l);
    ReachesOne(s, l);
  }

  lemma ExecSplice(s: State, t: ListId)
    ensures Exec(s, Splice(t)) == SpliceStep(s, t) && Careful(s, Splice(t))
  {
    hide SpliceStep;
  }

  lemma NotFreedNow(s: State, r: ReqId)
    requires Ready(s) && r in s.reqs
    ensures !s.ctx.freed
  {
    hide InvBut, Orderly;
    ReqOf(s, r);
  }

  /** A request on the run list is retried, and handed over or completed. */
  lemma Retried(s: State, r: ReqId) returns (s': State)
    requires Ready(s) && Deserted(s) && r in s.reqs && s.reqs[r].link == Listed && !Spent(s.reqs[r])
    ensures Ready(s') && Reaches(s, s') && Track(s, s', r) && Settled(s', r) && (r in s'.reqs ==> Deserted(s'))
  {
    DesertedFacts(s, r);
    hide Ready, Reaches, Track, Spent, ReqOk, Unlocked;
    var s1 := WorkQueued(s, r);
    var s2, t := HandlerEnters(s1, r);
    SameRunList(s, s1);
    SameRunList(s1, s2);
    var s3 := HandlerSplices(s2, r, t);
    TrackSame(s, s3, r);
    s' := ThreadOut(s3, r, t);
    ReachesOn(s, s1, s2);
    ReachesOn(s, s2, s3);
    ReachesOn(s, s3, s');
    TrackOn(s, s3, s', r);
  }

  lemma SameRunList(s: State, s1: State)
    requires s1.lists == s.lists
    ensures ListOf(s1, RUN_LIST) == ListOf(s, RUN_LIST)
  {
  }

  // ---- a request is completed

  lemma Aborted(s: State, r: ReqId) returns (s': State)
    requires Ready(s) && Deserted(s) && r in s.reqs && s.reqs[r].io && !s.reqs[r].queued
    ensures Ready(s') && Reaches(s, s') && Over(s', r)
  {
    DesertedFacts(s, r);
    hide Ready, Exec, Reaches, ReqOk, Unlocked, AioPutReq, Careful, Over;
    var l := Abort(r, false);
    AbortIs(s, r);
    InvOf(s);
    SubmitKeeps(s, l);
    PutAtOnce(s, r, s.reqs[r].(io := false), false, None);
    s' := SubmitStep(s, l).s;
    PutOverAny(s, r, s.reqs[r].(io := false), false);
    ReadyAfter(s, l);
    ReachesOne(s, l);
  }

  lemma AbortIs(s: State, r: ReqId)
    requires Unlocked(s) && r in s.reqs && s.reqs[r].io && !s.reqs[r].queued
    ensures var l := Abort(r, false);
            Exec(s, l) == SubmitStep(s, l) == AioPutReq(s, r, s.reqs[r].(io := false), false, None) && Careful(s, l)
  {
    hide AioPutReq, Unlocked;
  }

  /** The request is brought into the hands of somebody who can complete it. */
  lemma Settle(s: State, r: ReqId) returns (s': State)
    requires Ready(s) && Deserted(s) && r in s.reqs && s.reqs[r].io && s.reqs[r].queued && !Spent(s.reqs[r])
    ensures Ready(s') && Reaches(s, s') && Track(s, s', r) && Settled(s', r) && (r in s'.reqs ==> Deserted(s'))
  {
    hide Ready, Reaches, Track;
    if s.reqs[r].handed {
      s' := s;
      ReachesSelf(s);
      TrackSame(s, s, r);
    } else {
      var s1 := Hush(s, r, true);
      Relisted(s1, r);
      s' := Retried(s1, r);
      ReachesOn(s, s1, s');
      HushTrack(s, s1, s', r);
    }
  }

  lemma Relisted(s: State, r: ReqId)
    requires Ready(s) && Deserted(s) && r in s.reqs && s.reqs[r].io && s.reqs[r].queued && !s.reqs[r].handed
    requires !Spent(s.reqs[r]) && (Quiet(s.reqs[r]) || s.reqs[r].link == Listed)
    ensures s.reqs[r].link == Listed
  {
    hide Ready;
    DesertedFacts(s, r);
  }

  /** The wake-ups that have arrived do not matter to what becomes of a request that is not over. */
  lemma HushTrack(s: State, s1: State, s': State, r: ReqId)
    requires r in s.reqs && r in s1.reqs && SameIo(s.reqs[r], s1.reqs[r]) && s.reqs[r].io && s1.strays >= s.strays
    requires Track(s1, s', r)
    ensures Track(s, s', r)
  {
    hide Rest, Quiet;
  }

  /** Wherever a run has got to, a request whose I/O is not over, and whose retries are not used up, can be completed
      by careful steps alone, with any result. */
  lemma Complete(s: State, r: ReqId, res: int, res2: int) returns (s': State)
    requires Ready(s) && r in s.reqs && s.reqs[r].io && !Spent(s.reqs[r])
    ensures Ready(s') && Reaches(s, s') && Over(s', r)
    ensures s.reqs[r].queued && !s.reqs[r].cancelled && !s.reqs[r].completing ==>
              LastEvent(s', r, Event(s.reqs[r].obj, s.reqs[r].data, res, res2))
  {
    hide Ready, Reaches, Over, LastEvent;
    if s.ring.writing.Some? {
      WriterIs(s);
      s' := Publish(s);
      if r != s.ring.writing.value.0 {
        var s1 := s';
        s' := CompleteUnwritten(s1, r, res, res2);
        ReachesOn(s, s1, s');
      }
    } else {
      s' := CompleteUnwritten(s, r, res, res2);
    }
  }

  lemma WriterIs(s: State)
    requires Ready(s) && s.ring.writing.Some?
    ensures s.ring.writing.value.0 in s.reqs && s.reqs[s.ring.writing.value.0].completing
  {
    hide RingOk, ListsOk, ReqsOk, CtxOk, CrewOk, Pending, RunnersOk, Orderly;
  }

  lemma CompleteUnwritten(s: State, r: ReqId, res: int, res2: int) returns (s': State)
    requires Ready(s) && s.ring.writing.None? && r in s.reqs && s.reqs[r].io && !Spent(s.reqs[r])
    ensures Ready(s') && Reaches(s, s') && Over(s', r)
    ensures s.reqs[r].queued && !s.reqs[r].cancelled ==>
              LastEvent(s', r, Event(s.reqs[r].obj, s.reqs[r].data, res, res2))
  {
    hide Ready, Reaches, LastEvent, Spent;
    var s1 := OutAll(s, r);
    s' := s1;
    TrackedOver(s, s1, r);
    if r in s1.reqs && s1.reqs[r].io {
      if !s1.reqs[r].queued {
        s' := Aborted(s1, r);
      } else {
        s' := CompleteQueued(s1, r, res, res2);
      }
      ReachesOn(s, s1, s');
    }
  }

  lemma TrackedOver(s: State, s1: State, r: ReqId)
    requires Track(s, s1, r) && s.reqs[r].io
    ensures r !in s1.reqs || !s1.reqs[r].io ==> s.reqs[r].cancelled
    ensures r in s1.reqs ==>
              && s1.reqs[r].queued == s.reqs[r].queued && s1.reqs[r].cancelled == s.reqs[r].cancelled
              && s1.reqs[r].obj == s.reqs[r].obj && s1.reqs[r].data == s.reqs[r].data
              && (!Spent(s.reqs[r]) ==> !Spent(s1.reqs[r]))
  {
    hide Rest, Quiet, Spent;
  }

  lemma CompleteQueued(s: State, r: ReqId, res: int, res2: int) returns (s': State)
    requires Ready(s) && Deserted(s) && r in s.reqs && s.reqs[r].io && s.reqs[r].queued && !Spent(s.reqs[r])
    ensures Ready(s') && Reaches(s, s') && Over(s', r)
    ensures !s.reqs[r].cancelled ==> LastEvent(s', r, Event(s.reqs[r].obj, s.reqs[r].data, res, res2))
  {
    hide Ready, Reaches, LastEvent, Spent, Track;
    var s1 := Settle(s, r);
    TrackedOver(s, s1, r);
    s' := s1;
    if r in s1.reqs && s1.reqs[r].io {
      var s2 := Hush(s1, r, false);
      s' := CompleteHanded(s2, r, res, res2);
      ReachesOn(s, s1, s2);
      ReachesOn(s, s2, s');
    }
  }

  // ---- a request whose retries are used up

  /** What a step leaves of a request whose retries are used up. */
  predicate StaysSpent(s: State, o: Outcome, r: ReqId) {
    o.Next? && r in s.reqs && Spent(s.reqs[r]) ==> r in o.s.reqs && Spent(o.s.reqs[r])
  }

  lemma PutSpent(s: State, x: ReqId, q: Req, lastFile: bool, who: Option<ListId>, r: ReqId)
    requires r in s.reqs && (x == r ==> Spent(q)) && AioPutReq(s, x, q, lastFile, who).Next?
    ensures var s' := AioPutReq(s, x, q, lastFile, who).s; r in s'.reqs && (Spent(s.reqs[r]) ==> Spent(s'.reqs[r]))
  {
    hide AioPutReq, Quiet, SameRefs, OwesOnly;
    PutFrame(s, x, q, lastFile, who);
  }

  lemma SubmitSpent(s: State, l: Label, r: ReqId)
    requires l.Queue? || l.Abort? || l.PutSubmit? || l.Cancel? || l.PutCancel?
    ensures StaysSpent(s, SubmitStep(s, l), r)
  {
    hide AioPutReq, AddTail, Unlocked;
    if SubmitStep(s, l).Next? && r in s.reqs && Spent(s.reqs[r]) {
      var q := s.reqs[l.r];
      match l
      case Queue(_, _) =>
      case Cancel(_, _, _) =>
      case Abort(_, lastFile) => PutSpent(s, l.r, q.(io := false), lastFile, None, r);
      case PutSubmit(_, lastFile) => PutSpent(s, l.r, q.(submit := false), lastFile, None, r);
      case PutCancel(_, lastFile) => PutSpent(s, l.r, q.(cancels := q.cancels - 1), lastFile, None, r);
    }
  }

  lemma FinishSpent(s: State, l: Label, r: ReqId)
    requires l.FinishRetry? || l.FinishDrop?
    ensures StaysSpent(s, FinishStep(s, l), r)
  {
    hide AioPutReq, AddTail, Unlocked;
    if FinishStep(s, l).Next? && r in s.reqs && Spent(s.reqs[r]) {
      var q := s.reqs[l.r];
      var s1, q1, who := Returned(s, q.runner), q.(link := Self, run := None), Some(q.runner);
      if l.FinishDrop? {
        PutSpent(s1, l.r, q.(run := None), l.lastFile, who, r);
      } else if q.kicked {
        PutSpent(QueueKickedIocb(s1, l.r, q1), l.r, q1.(link := Listed), false, who, r);
      } else {
        PutSpent(s1, l.r, q1, false, who, r);
      }
    }
  }

  lemma CompleteSpent(s: State, l: Label, r: ReqId)
    requires l.CompleteWrite? || l.CompleteSilent?
    ensures StaysSpent(s, CompleteStep(s, l), r)
  {
    hide PutCompleted, Unlist, Unlocked;
    if l.CompleteSilent? && CompleteStep(s, l).Next? && r in s.reqs && Spent(s.reqs[r]) {
      var q := s.reqs[l.r];
      var link := if q.link == Listed then Self else q.link;
      PutOver(s.(lists := Unlist(s, l.r, q)), l.r, Completed(q).(link := link, io := false), l.lastFile);
    }
  }

  lemma PublishSpent(s: State, lastFile: bool, r: ReqId)
    requires Inv(s)
    ensures StaysSpent(s, PublishStep(s, lastFile), r)
  {
    hide InvBut, PutCompleted, TailMoved;
    if PublishStep(s, lastFile).Next? && r in s.reqs && Spent(s.reqs[r]) {
      var x := s.ring.writing.value.0;
      ReqOf(s, r);
      WritesOther(s, r);
      PutOver(s.(ring := TailMoved(s.ring), doneBy := s.doneBy + [x]), x,
              s.reqs[x].(io := false, completing := false), lastFile);
    }
  }

  lemma WritesOther(s: State, r: ReqId)
    requires Inv(s) && s.ring.writing.Some? && r in s.reqs && Spent(s.reqs[r])
    ensures s.ring.writing.value.0 != r
  {
    hide RingOk, ListsOk, CtxOk, CrewOk, Pending, RunnersOk;
    ReqOf(s, r);
  }

  lemma LocalSpent(s: State, l: Label, r: ReqId)
    requires OnRequest(l)
    ensures StaysSpent(s, LocalStep(s, l), r)
  {
    hide RetryReq, WakeReq, Spent;
    if l.r in s.reqs && Spent(s.reqs[l.r]) {
      ReqSpent(s.reqs[l.r], l);
    }
  }

  lemma ReqSpent(q: Req, l: Label)
    requires Spent(q)
    ensures RetryReq(q, l).None? && (WakeReq(q, l).Some? ==> Spent(WakeReq(q, l).value)) && Spent(q.(fput := Taken))
  {
  }

  lemma ListSpent(s: State, l: Label, r: ReqId)
    requires Inv(s) && (l.Start? || l.Splice? || l.QueueKicked? || l.FputFinish?)
    ensures StaysSpent(s, Exec(s, l), r)
  {
    hide Inv, StartStep, SpliceStep, QueueKickedStep, FputFinishStep, StaysSpent;
    if l.Start? { StartSpent(s, l.t, r); }
    else if l.Splice? { SpliceSpent(s, l.t, r); }
    else if l.QueueKicked? { KickedSpent(s, l.r, r); }
    else { FputSpent(s, l.r, r); }
  }

  lemma StartSpent(s: State, t: ListId, r: ReqId)
    ensures StaysSpent(s, StartStep(s, t), r)
  {
    hide Mine, Idle;
  }

  lemma SpliceSpent(s: State, t: ListId, r: ReqId)
    ensures StaysSpent(s, SpliceStep(s, t), r)
  {
    hide Mine, Idle, ListOf;
  }

  lemma KickedSpent(s: State, x: ReqId, r: ReqId)
    ensures StaysSpent(s, QueueKickedStep(s, x), r)
  {
    hide AddTail, Unlocked;
  }

  lemma FputSpent(s: State, x: ReqId, r: ReqId)
    ensures StaysSpent(s, FputFinishStep(s, x), r)
  {
    hide Unlocked, Quiet;
  }

  lemma OtherSpent(s: State, l: Label, r: ReqId)
    requires l.Admit? || l.ReadCopy? || l.ReadAdvance? || OnContext(l) || l.Enter? || l.Leave? || l.WakeOwn?
             || l.WakeBare? || l.QueueWork? || l.StrayWake?
    ensures StaysSpent(s, Exec(s, l), r)
  {
    hide AdmitStep, ReadStep, ContextStep, CrewStep, TouchStep, StaysSpent;
    if l.Admit? { AdmitSpent(s, l.r, l.obj, l.data, r); }
    else if l.ReadCopy? || l.ReadAdvance? { ReadSpent(s, l, r); }
    else if OnContext(l) { ContextSpent(s, l, r); }
    else { ThreadsSpent(s, l, r); }
  }

  lemma AdmitSpent(s: State, x: ReqId, obj: int, data: int, r: ReqId)
    ensures StaysSpent(s, AdmitStep(s, x, obj, data), r)
  {
    hide Unlocked, RingAvail;
  }

  lemma ReadSpent(s: State, l: Label, r: ReqId)
    requires l.ReadCopy? || l.ReadAdvance?
    ensures StaysSpent(s, ReadStep(s, l), r)
  {
  }

  lemma ContextSpent(s: State, l: Label, r: ReqId)
    ensures StaysSpent(s, ContextStep(s, l), r)
  {
    hide ContextStep;
    if ContextStep(s, l).Next? {
      ContextOnly(s, l);
    }
  }

  lemma ThreadsSpent(s: State, l: Label, r: ReqId)
    requires l.Enter? || l.Leave? || l.WakeOwn? || l.WakeBare? || l.QueueWork? || l.StrayWake?
    ensures StaysSpent(s, if l.Enter? || l.Leave? then CrewStep(s, l) else TouchStep(s, l), r)
  {
    hide Unlocked, Mine, Idle, MayEnter;
  }

  lemma StepSpent(s: State, l: Label, r: ReqId)
    requires Inv(s)
    ensures StaysSpent(s, Exec(s, l), r)
  {
    hide Inv, SubmitStep, FinishStep, CompleteStep, PublishStep, LocalStep, StaysSpent;
    if l.Queue? || l.Abort? || l.PutSubmit? || l.Cancel? || l.PutCancel? { SubmitSpent(s, l, r); }
    else if l.FinishRetry? || l.FinishDrop? { FinishSpent(s, l, r); }
    else if l.CompleteWrite? || l.CompleteSilent? { CompleteSpent(s, l, r); }
    else if l.CompletePublish? { PublishSpent(s, l.lastFile, r); }
    else if OnRequest(l) { LocalSpent(s, l, r); }
    else {
      hide Exec;
      if l.Start? || l.Splice? || l.QueueKicked? || l.FputFinish? { ListSpent(s, l, r); }
      else { OtherSpent(s, l, r); }
    }
  }

  /** Such a request is never completed, whatever happens. */
  lemma {:induction false} SpentForever(s: State, r: ReqId, ls: seq<Label>)
    requires Inv(s) && r in s.reqs && Spent(s.reqs[r])
    ensures Run(s, ls).Next? ==> r in Run(s, ls).s.reqs && Run(s, ls).s.reqs[r].io
    decreases ls
  {
    hide Inv, Exec, Breaks;
    if ls != [] && !Exec(s, ls[0]).Bug? {
      StepKeeps(s, ls[0]);
      if Exec(s, ls[0]).Next? {
        StepSpent(s, ls[0], r);
        SpentForever(Exec(s, ls[0]).s, r, ls[1..]);
      } else {
        SpentForever(s, r, ls[1..]);
      }
    }
  }

  /** After any run, a request can still be completed if and only if its retries are not used up; and then by careful
      steps alone, and, if it has been queued and not cancelled, with any result. */
  lemma CompletedExactly(s: State, r: ReqId, res: int, res2: int)
    requires Reachable(s) && r in s.reqs
    ensures Spent(s.reqs[r]) ==> !exists ls :: Run(s, ls).Next? && Over(Run(s, ls).s, r)
    ensures !Spent(s.reqs[r]) ==> exists ls :: CarefulRun(s, ls) && Run(s, ls).Next? && Over(Run(s, ls).s, r)
    ensures var q := s.reqs[r];
            !Spent(q) && q.io && q.queued && !q.cancelled && !q.completing ==>
              exists ls :: CarefulRun(s, ls) && Run(s, ls).Next?
                           && LastEvent(Run(s, ls).s, r, Event(q.obj, q.data, res, res2))
  {
    hide Inv, Orderly, Reachable, Run, CarefulRun, LastEvent;
    ReachableOk(s);
    ReachableOrderly(s);
    if Spent(s.reqs[r]) {
      forall ls
        ensures !(Run(s, ls).Next? && Over(Run(s, ls).s, r))
      {
        SpentForever(s, r, ls);
      }
    } else {
      var s' := s;
      if s.reqs[r].io {
        s' := Complete(s, r, res, res2);
      } else {
        ReachesSelf(s);
      }
      var ls :| CarefulRun(s, ls) && Run(s, ls) == Next(s');
    }
  }
}
