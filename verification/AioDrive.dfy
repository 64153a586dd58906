/** Threads and requests brought further by careful steps alone: whoever holds ctx_lock is made to go on, a retry to
    end, and a thread to come to the end of its run lists and leave __aio_run_iocbs, while a request is watched. */
module AioDrive {
  import opened Wrappers
  import opened AioModel
  import opened AioInv
  import opened AioSteps
  import opened Aio
  import opened AioThreads
  import opened AioCareful

  ghost predicate Ready(s: State) {
    Inv(s) && Orderly(s)
  }

  lemma ReadyAfter(s: State, l: Label)
    requires Ready(s) && Exec(s, l).Next?
    ensures Ready(Exec(s, l).s)
  {
    hide Inv, Orderly, Exec, Breaks;
    StepKeeps(s, l);
    StepOrderly(s, l);
  }

  // ---- careful runs from one state to another

  ghost predicate Reaches(s: State, s': State) {
    exists ls :: CarefulRun(s, ls) && Run(s, ls) == Next(s')
  }

  lemma {:induction false} CarefulConcat(s: State, a: seq<Label>, b: seq<Label>)
    requires CarefulRun(s, a) && Run(s, a).Next? && CarefulRun(Run(s, a).s, b)
    ensures CarefulRun(s, a + b)
    decreases a
  {
    hide Exec, Careful;
    if a == [] {
      assert a + b == b;
    } else {
      assert (a + b)[1..] == a[1..] + b;
      CarefulConcat(if Exec(s, a[0]).Next? then Exec(s, a[0]).s else s, a[1..], b);
    }
  }

  lemma ReachesSelf(s: State)
    ensures Reaches(s, s)
  {
    hide Exec;
    assert CarefulRun(s, []) && Run(s, []) == Next(s);
  }

  lemma ReachesOn(s: State, s1: State, s': State)
    requires Reaches(s, s1) && Reaches(s1, s')
    ensures Reaches(s, s')
  {
    hide Run, CarefulRun;
    var a :| CarefulRun(s, a) && Run(s, a) == Next(s1);
    var b :| CarefulRun(s1, b) && Run(s1, b) == Next(s');
    CarefulConcat(s, a, b);
    RunConcat(s, a, b);
  }

  lemma ReachesOne(s: State, l: Label)
    requires Exec(s, l).Next? && Careful(s, l)
    ensures Reaches(s, Exec(s, l).s)
  {
    hide Exec, Careful;
    OneStep(s, l);
    OneCareful(s, l);
  }

  lemma OneCareful(s: State, l: Label)
    requires Careful(s, l)
    ensures CarefulRun(s, [l])
  {
    hide Exec, Careful;
    assert [l][1..] == [];
  }

  // ---- what becomes of the request that is watched

  /** aio_run_iocb will give up on the request, or has: it is to be retried again, and has used up its retries. */
  predicate Spent(q: Req) {
    q.io && q.queued && !q.handed && (q.run.None? || q.run == Some(Requeue)) && q.retried > RETRY_CAP
  }

  /** What those who hold the request have still to do until it is freed. */
  function Rest(q: Req): nat {
    3 * Holders(q) + (if q.run == Some(Retrying) || q.run == Some(Waking) then 1 else 0)
    + (if q.fput == Deferred then 1 else 0)
  }

  /** The request is nearer to its end, or as near. */
  predicate Onward(q: Req, q': Req) {
    && (q'.io ==> q.io) && (q.io && !q.cancelled ==> q'.io) && (q.handed ==> q'.handed) && q'.queued == q.queued
    && q'.cancelled == q.cancelled && q'.obj == q.obj && q'.data == q.data && q'.submitter == q.submitter
    && (!Spent(q) ==> !Spent(q'))
    && (!q.io ==> Rest(q') <= Rest(q) && (Quiet(q') <==> Quiet(q)))
  }

  /** The same of request r, which may have been freed if its I/O was over or it had been cancelled; and then a wake-up
      that led to it leads astray. */
  predicate Track(s: State, s': State, r: ReqId) {
    && r in s.reqs && s'.strays >= s.strays
    && if r in s'.reqs then Onward(s.reqs[r], s'.reqs[r])
       else (s.reqs[r].io ==> s.reqs[r].cancelled) && (!s.reqs[r].io && !Quiet(s.reqs[r]) ==> s'.strays > 0)
  }

  lemma TrackSame(s: State, s': State, r: ReqId)
    requires r in s.reqs && r in s'.reqs && s'.reqs[r] == s.reqs[r] && s'.strays >= s.strays
    ensures Track(s, s', r)
  {
  }

  lemma TrackOn(s: State, s1: State, s2: State, r: ReqId)
    requires Track(s, s1, r) && r in s1.reqs && Track(s1, s2, r)
    ensures Track(s, s2, r)
  {
    hide Rest, Quiet, Spent;
  }

  // ---- the holder of ctx_lock goes on

  /** Requests that are on no list are as they were. */
  predicate OnlyListed(reqs: map<ReqId, Req>, reqs': map<ReqId, Req>) {
    forall y | y in reqs && reqs[y].link != Listed :: y in reqs' && reqs'[y] == reqs[y]
  }

  function RunLength(s: State): nat {
    |ListOf(s, RUN_LIST)|
  }

  /** What the holder of ctx_lock leaves: requests on no list, retries that are going on, and their threads' lists. */
  predicate Calm(s: State, s': State) {
    && OnlyListed(s.reqs, s'.reqs) && s'.ring.writing.None? && s'.crew.callers <= s.crew.callers
    && s'.crew.workers <= s.crew.workers
    && RunLength(s') <= RunLength(s)
    && (forall u | u in s.crew.running ::
          u in s'.crew.running && s'.crew.running[u] == s.crew.running[u]
          && (u in s.crew.callers ==> u in s'.crew.callers) && (u != RUN_LIST ==> ListOf(s', u) == ListOf(s, u)))
  }

  lemma CalmSelf(s: State)
    requires s.ring.writing.None?
    ensures Calm(s, s)
  {
  }

  lemma CalmOn(s: State, s1: State, s2: State)
    requires Calm(s, s1) && Calm(s1, s2)
    ensures Calm(s, s2)
  {
    hide ListOf, RunLength;
  }

  predicate Holder(s: State, t: ListId) {
    Inside(s.crew, t) && t !in s.crew.running
  }

  function HolderStep(s: State, t: ListId): Label {
    if t in s.crew.owing then DrainPut(t)
    else if ListOf(s, t) != [] then Start(t)
    else if t in s.crew.callers && ListOf(s, RUN_LIST) != [] then Splice(t)
    else Leave(t)
  }

  /** What the holder has before it, at most. */
  function Ahead(s: State, t: ListId): nat {
    4 * RunLength(s) + 3 * |ListOf(s, t)| + One(t in s.crew.owing)
  }

  lemma HolderFacts(s: State, r: ReqId, t: ListId)
    requires Ready(s) && Holder(s, t) && r in s.reqs
    ensures Mine(s, t) && t != RUN_LIST && !s.ctx.freed && s.ctx.users > 0
    ensures t in s.crew.owing ==> s.ctx.users > 1
    ensures t !in s.crew.owing ==> Idle(s.crew, t)
    ensures ListsOk(s.lists, s.reqs)
  {
    hide RingOk, ListsOk, ReqsOk, WriterOk, Pending, RunnersOk, CrewOk, Busy, LocalsOk, Served;
    Alive(s, r);
    assert |s.reqs.Keys| > 0;
    assert t in s.crew.owing ==> |s.crew.owing| > 0;
  }

  /** The holder has less before it, or the lock is free. */
  predicate Moved(s: State, s': State, t: ListId) {
    && Calm(s, s')
    && if Holder(s', t) then Ahead(s', t) < Ahead(s, t) && s'.crew.callers == s.crew.callers
       else Unlocked(s') && (t in s'.crew.running ==>
                               && s'.crew.callers == s.crew.callers && s'.crew.running[t] in s'.reqs
                               && s'.reqs[s'.crew.running[t]].run == Some(Starting)
                               && 3 * |ListOf(s', t)| + 3 == 3 * |ListOf(s, t)|)
  }

  lemma DrainMoves(s: State, r: ReqId, t: ListId)
    requires Ready(s) && Holder(s, t) && r in s.reqs && t in s.crew.owing
    ensures var o := ContextStep(s, DrainPut(t)); o.Next? && Moved(s, o.s, t)
  {
    hide Ready;
    HolderFacts(s, r, t);
  }

  lemma StartMoves(s: State, r: ReqId, t: ListId)
    requires Ready(s) && Holder(s, t) && r in s.reqs && t !in s.crew.owing && ListOf(s, t) != []
    ensures StartStep(s, t).Next? && Moved(s, StartStep(s, t).s, t)
  {
    hide Ready, ListsOk;
    HolderFacts(s, r, t);
    ListedLive(s.lists, s.reqs, t, ListOf(s, t)[0]);
  }

  lemma SpliceMoves(s: State, r: ReqId, t: ListId)
    requires Ready(s) && Holder(s, t) && r in s.reqs && t !in s.crew.owing && ListOf(s, t) == []
    requires ListOf(s, RUN_LIST) != []
    ensures SpliceStep(s, t).Next? && Moved(s, SpliceStep(s, t).s, t)
  {
    hide Ready;
    HolderFacts(s, r, t);
  }

  lemma LeaveMoves(s: State, r: ReqId, t: ListId)
    requires Ready(s) && Holder(s, t) && r in s.reqs && t !in s.crew.owing && ListOf(s, t) == []
    requires t in s.crew.callers ==> ListOf(s, RUN_LIST) == []
    ensures CrewStep(s, Leave(t)).Next? && Moved(s, CrewStep(s, Leave(t)).s, t)
    ensures t !in CrewStep(s, Leave(t)).s.crew.callers
  {
    hide Ready;
    HolderFacts(s, r, t);
  }

  lemma HolderMoves(s: State, r: ReqId, t: ListId)
    requires Ready(s) && Holder(s, t) && r in s.reqs
    ensures var l := HolderStep(s, t);
            && Exec(s, l).Next? && Ready(Exec(s, l).s) && Reaches(s, Exec(s, l).s) && Moved(s, Exec(s, l).s, t)
            && (t !in Exec(s, l).s.crew.running ==> Holder(Exec(s, l).s, t) || t !in Exec(s, l).s.crew.callers)
  {
    hide Ready, Reaches, Moved, ContextStep, StartStep, SpliceStep, CrewStep, Holder, ListOf;
    var l := HolderStep(s, t);
    if l.DrainPut? {
      DrainMoves(s, r, t);
    } else if l.Start? {
      StartMoves(s, r, t);
    } else if l.Splice? {
      SpliceMoves(s, r, t);
    } else {
      LeaveMoves(s, r, t);
    }
    HolderCareful(s, r, t);
    hide Exec;
    ReadyAfter(s, l);
    ReachesOne(s, l);
    if t !in Exec(s, l).s.crew.running && t in Exec(s, l).s.crew.callers {
      InsideStill(s, Exec(s, l).s, t);
    }
  }

  lemma InsideStill(s: State, s': State, t: ListId)
    requires Moved(s, s', t) && Holder(s, t) && t !in s'.crew.running && t in s'.crew.callers
    ensures Holder(s', t)
  {
  }

  lemma HolderCareful(s: State, r: ReqId, t: ListId)
    requires Ready(s) && Holder(s, t) && r in s.reqs
    ensures Careful(s, HolderStep(s, t))
  {
    hide Ready;
    HolderFacts(s, r, t);
    hide Mine, Idle, ListsOk, Untouched;
  }

  lemma HolderTracks(s: State, r: ReqId, t: ListId)
    requires Ready(s) && Holder(s, t) && r in s.reqs && Exec(s, HolderStep(s, t)).Next?
    ensures Track(s, Exec(s, HolderStep(s, t)).s, r) && r in Exec(s, HolderStep(s, t)).s.reqs
  {
    hide Ready, Track, ContextStep, StartStep, SpliceStep, CrewStep, Holder, ListOf;
    var l := HolderStep(s, t);
    if l.Start? {
      StartTracks(s, r, t) by { InvOf(s); }
    } else {
      SameReqs(s, l);
      hide Exec;
      TrackSame(s, Exec(s, l).s, r);
    }
  }

  lemma InvOf(s: State)
    requires Ready(s)
    ensures Inv(s)
  {
  }

  lemma SameReqs(s: State, l: Label)
    requires (l.DrainPut? || l.Splice? || l.Leave?) && Exec(s, l).Next?
    ensures Exec(s, l).s.reqs == s.reqs && Exec(s, l).s.strays == s.strays
  {
    if l.DrainPut? {
      hide ContextStep;
      ContextOnly(s, l);
    }
  }

  lemma StartTracks(s: State, r: ReqId, t: ListId)
    requires Inv(s) && r in s.reqs && StartStep(s, t).Next?
    ensures Track(s, StartStep(s, t).s, r) && r in StartStep(s, t).s.reqs
  {
    hide InvBut, Onward, ReqOk;
    var x := ListOf(s, t)[0];
    if x == r {
      ReqOf(s, r);
      ListedLive(s.lists, s.reqs, t, r) by { ListsOf(s); }
      StartOnward(s.reqs[r], t);
    } else {
      hide Started;
      TrackSame(s, StartStep(s, t).s, r);
    }
  }

  lemma ListsOf(s: State)
    requires Inv(s)
    ensures ListsOk(s.lists, s.reqs)
  {
  }

  lemma StartOnward(q: Req, t: ListId)
    requires ReqOk(q) && q.link == Listed
    ensures var q' := q.(retried := q.retried + 1);
            Onward(q, if q.retried > RETRY_CAP then q'.(link := Poisoned) else Started(q', t))
  {
  }

  /** The holder goes on until it gives the lock up. */
  lemma {:induction false} Release(s: State, r: ReqId, t: ListId) returns (s': State)
    requires Ready(s) && Holder(s, t) && r in s.reqs
    ensures Ready(s') && Reaches(s, s') && Calm(s, s') && Unlocked(s') && r in s'.reqs && Track(s, s', r)
    decreases Ahead(s, t)
  {
    HolderMoves(s, r, t);
    HolderTracks(s, r, t);
    hide Ready, Reaches, Exec, HolderStep, Track;
    s' := Exec(s, HolderStep(s, t)).s;
    assert Calm(s, s');
    if Holder(s', t) {
      hide Holder;
      var s1 := s';
      s' := Release(s1, r, t);
      hide Calm;
      ReachesOn(s, s1, s');
      CalmOn(s, s1, s');
      TrackOn(s, s1, s', r);
    }
  }

  lemma Unlock(s: State, r: ReqId) returns (s': State)
    requires Ready(s) && s.ring.writing.None? && r in s.reqs
    ensures Ready(s') && Reaches(s, s') && Calm(s, s') && Unlocked(s') && r in s'.reqs && Track(s, s', r)
  {
    hide Ready, Reaches;
    if Unlocked(s) {
      s' := s;
      ReachesSelf(s);
      CalmSelf(s);
      TrackSame(s, s, r);
    } else {
      hide Track;
      var t :| t in s.crew.workers + s.crew.callers && t !in s.crew.running;
      s' := Release(s, r, t);
    }
  }

  // ---- a retry is brought to its end

  /** What the retry method does next, if it never asks to be called again; a cancelled request is completed when its
      wake-ups have arrived. */
  function RunStep(x: ReqId, q: Req): Label {
    if q.run == Some(Starting) then
      if !q.cancelled then BeginRetry(x)
      else if q.waiting then Wake(x)
      else if q.woken > 0 then TryKick(x)
      else if q.kicking > 0 then QueueKicked(x)
      else CompleteSilent(x, false)
    else if q.run == Some(Retrying) then if q.handed then ReturnQueued(x) else HandOff(x)
    else if q.run == Some(Waking) then WakeOwn(x)
    else if q.run == Some(Drop) then FinishDrop(x, false)
    else FinishRetry(x)
  }

  predicate Ending(q: Req) {
    q.run == Some(Drop) || q.run == Some(Requeue)
  }

  /** What becomes of the request. */
  function RunNext(q: Req): Req {
    if q.run == Some(Starting) then
      if !q.cancelled then q.(run := Some(Retrying))
      else if q.waiting then q.(waiting := false, woken := q.woken + 1)
      else if q.woken > 0 then
        if q.kicked then q.(woken := q.woken - 1)
        else q.(woken := q.woken - 1, kicked := true, kicking := q.kicking + 1)
      else if q.kicking > 0 then q.(kicking := q.kicking - 1)
      else q.(run := Some(Waking), io := false, users := q.users - 1)
    else if q.run == Some(Retrying) && !q.handed then q.(handed := true)
    else q.(run := Some(Drop))
  }

  function Rank(q: Req): nat {
    if q.run == Some(Starting) then 10 + 3 * One(q.waiting) + 2 * q.woken + q.kicking
    else if q.run == Some(Retrying) then if q.handed then 3 else 4
    else if q.run == Some(Waking) then 2
    else 1
  }

  lemma RunNextOk(q: Req)
    requires ReqOk(q) && q.run.Some? && !Ending(q)
    ensures Rank(RunNext(q)) < Rank(q) && RunNext(q).run.Some? && RunNext(q).run != Some(Requeue)
    ensures RunNext(q).runner == q.runner
  {
    match q.run.value
    case Starting =>
    case Retrying =>
    case Requeue =>
    case Waking =>
    case Drop =>
  }

  /** What a step of a retry leaves of the request. */
  predicate SameButRun(q: Req, q': Req) {
    && q'.queued == q.queued && q'.cancelled == q.cancelled && q'.obj == q.obj && q'.data == q.data
    && q'.submitter == q.submitter && q'.submit == q.submit && q'.cancels == q.cancels && q'.fput == q.fput
    && (q.handed ==> q'.handed) && (q'.io ==> q.io) && (q.io && !q.cancelled ==> q'.io)
  }

  lemma RunNextSame(q: Req)
    requires ReqOk(q) && q.run.Some? && !Ending(q)
    ensures SameButRun(q, RunNext(q))
  {
    match q.run.value
    case Starting => StartingSame(q);
    case Retrying =>
    case Requeue =>
    case Waking =>
    case Drop =>
  }

  lemma StartingSame(q: Req)
    requires q.run == Some(Starting)
    ensures SameButRun(q, RunNext(q))
  {
    if q.cancelled {
      if q.waiting {
        assert RunNext(q) == q.(waiting := false, woken := q.woken + 1);
      } else if q.woken > 0 {
        if !q.kicked {
          assert RunNext(q) == q.(woken := q.woken - 1, kicked := true, kicking := q.kicking + 1);
        }
      } else if q.kicking > 0 {
        assert RunNext(q) == q.(kicking := q.kicking - 1);
      }
    }
  }

  lemma RunNextOver(q: Req)
    requires ReqOk(q) && q.run.Some? && !Ending(q) && !q.io
    ensures var q' := RunNext(q); (Quiet(q') <==> Quiet(q)) && (q'.run == q.run || q'.run == Some(Drop)) && !q'.io
  {
    match q.run.value
    case Starting =>
    case Retrying =>
    case Requeue =>
    case Waking =>
    case Drop =>
  }

  lemma RunNextOnward(q: Req)
    requires ReqOk(q) && q.run.Some? && !Ending(q)
    ensures Onward(q, RunNext(q))
  {
    hide RunNext, ReqOk, Quiet, Rank;
    RunNextSame(q);
    RunNextOk(q);
    if !q.io {
      RunNextOver(q);
    }
  }

  lemma RunLocal(s: State, x: ReqId)
    requires x in s.reqs && OnRequest(RunStep(x, s.reqs[x])) && s.reqs[x].run.Some? && !Ending(s.reqs[x])
    ensures LocalStep(s, RunStep(x, s.reqs[x])) == Next(WithReq(s, x, RunNext(s.reqs[x])))
  {
    hide WithReq;
  }

  lemma RunKicked(s: State, x: ReqId)
    requires Unlocked(s) && x in s.reqs && ReqOk(s.reqs[x]) && !s.ctx.freed && s.reqs[x].run.Some?
    requires RunStep(x, s.reqs[x]).QueueKicked?
    ensures QueueKickedStep(s, x) == Next(WithReq(s, x, RunNext(s.reqs[x])))
  {
    hide WithReq;
  }

  lemma RunSilent(s: State, x: ReqId)
    requires Unlocked(s) && x in s.reqs && ReqOk(s.reqs[x]) && !s.ctx.freed && s.reqs[x].run.Some? && !Ending(s.reqs[x])
    requires RunStep(x, s.reqs[x]).CompleteSilent?
    ensures CompleteStep(s, CompleteSilent(x, false)) == Next(WithReq(s, x, RunNext(s.reqs[x])))
  {
    hide WithReq;
    var q := s.reqs[x];
    CompletedOk(q);
    var q1 := Completed(q).(link := q.link, io := false);
    NotLast(s, x, q1, false, None);
    hide AioPutReq;
    assert s.(lists := s.lists) == s;
  }

  lemma RunWake(s: State, x: ReqId)
    requires x in s.reqs && !s.reqs[x].completing && !s.ctx.freed && RunStep(x, s.reqs[x]).WakeOwn?
    requires s.reqs[x].run.Some? && !Ending(s.reqs[x])
    ensures TouchStep(s, WakeOwn(x)) == Next(WithReq(s, x, RunNext(s.reqs[x])))
  {
    hide WithReq;
  }

  /** One step of a retry that does not end it. */
  lemma RunMoves(s: State, x: ReqId)
    requires Ready(s) && Unlocked(s) && x in s.reqs && s.reqs[x].run.Some? && !Ending(s.reqs[x])
    ensures var l := RunStep(x, s.reqs[x]);
            && Exec(s, l) == Next(WithReq(s, x, RunNext(s.reqs[x]))) && Careful(s, l)
            && Ready(WithReq(s, x, RunNext(s.reqs[x]))) && Reaches(s, WithReq(s, x, RunNext(s.reqs[x])))
  {
    hide Inv, Orderly, Reaches, ReqOk, LocalStep, QueueKickedStep, CompleteStep, TouchStep, RunNext, WithReq;
    var l := RunStep(x, s.reqs[x]);
    ReqOf(s, x);
    RunKinds(x, s.reqs[x]);
    if OnRequest(l) {
      RunLocal(s, x);
    } else if l.QueueKicked? {
      RunKicked(s, x);
    } else if l.CompleteSilent? {
      RunSilent(s, x);
    } else {
      RunWake(s, x);
    }
    RunCareful(s, x);
    hide Exec, Careful;
    ReadyAfter(s, l);
    ReachesOne(s, l);
  }

  lemma RunCareful(s: State, x: ReqId)
    requires x in s.reqs && s.reqs[x].run.Some?
    ensures Careful(s, RunStep(x, s.reqs[x]))
  {
  }

  lemma RunKinds(x: ReqId, q: Req)
    requires q.run.Some? && !Ending(q)
    ensures var l := RunStep(x, q); OnRequest(l) || l.QueueKicked? || l.CompleteSilent? || l.WakeOwn?
  {
    match q.run.value
    case Starting =>
    case Retrying =>
    case Requeue =>
    case Waking =>
    case Drop =>
  }

  /** The thread is back in __aio_run_iocbs, with the lock; only its request has changed, and may be on the run list. */
  predicate Back(s: State, s': State, x: ReqId, t: ListId) {
    && s'.crew == s.crew.(running := s.crew.running - {t}, owing := s'.crew.owing) && s'.ring == s.ring
    && (forall y | y in s.reqs && y != x :: y in s'.reqs && s'.reqs[y] == s.reqs[y])
    && RunLength(s') <= RunLength(s) + (if x in s.reqs && s.reqs[x].run == Some(Requeue) then 1 else 0)
    && ListOf(s', t) == ListOf(s, t) && s'.strays >= s.strays
  }

  /** The request at the end of its retry, and the state, before the put. */
  function EndedReq(q: Req): Req {
    q.(link := if q.run == Some(Drop) then q.link else if q.kicked then Listed else Self, run := None)
  }

  function Ended(q: Req): Req {
    EndedReq(q).(users := q.users - 1)
  }

  function EndedState(s: State, x: ReqId, q: Req): State {
    if q.run == Some(Requeue) && q.kicked
    then QueueKickedIocb(Returned(s, q.runner), x, q.(link := Self, run := None))
    else Returned(s, q.runner)
  }

  lemma FinishIs(s: State, x: ReqId)
    requires Unlocked(s) && x in s.reqs && Ending(s.reqs[x])
    ensures var q := s.reqs[x];
            FinishStep(s, RunStep(x, q)) == AioPutReq(EndedState(s, x, q), x, EndedReq(q), false, Some(q.runner))
  {
    hide AioPutReq, Unlocked, Returned, QueueKickedIocb;
  }

  lemma EndedLists(s: State, x: ReqId, q: Req)
    requires x in s.reqs && Ending(q)
    ensures var s1 := EndedState(s, x, q);
            && s1.crew == s.crew.(running := s.crew.running - {q.runner}) && s1.ring == s.ring && s1.strays == s.strays
            && (forall y | y in s.reqs && y != x :: y in s1.reqs && s1.reqs[y] == s.reqs[y])
            && RunLength(s1) <= RunLength(s) + (if q.run == Some(Requeue) then 1 else 0)
            && (q.runner != RUN_LIST ==> ListOf(s1, q.runner) == ListOf(s, q.runner))
  {
    hide AddTail;
    OneLonger(Returned(s, q.runner), x);
  }

  lemma FinishMoves(s: State, x: ReqId, r: ReqId)
    requires Ready(s) && Unlocked(s) && x in s.reqs && Ending(s.reqs[x]) && s.reqs[x].runner != RUN_LIST && r in s.reqs
    ensures var q, l := s.reqs[x], RunStep(x, s.reqs[x]);
            && FinishStep(s, l).Next? && Back(s, FinishStep(s, l).s, x, q.runner) && Track(s, FinishStep(s, l).s, r)
            && (x in FinishStep(s, l).s.reqs ==> FinishStep(s, l).s.reqs[x] == Ended(q))
  {
    hide Inv, Orderly, AioPutReq, Track, Onward, EndedState, EndedReq, FinishStep, ReqOk, RunLength, ListOf, RunStep;
    var q, l := s.reqs[x], RunStep(x, s.reqs[x]);
    var s1, q1, who := EndedState(s, x, q), EndedReq(q), Some(q.runner);
    FinishIs(s, x);
    FinishKinds(x, q);
    FinishKeeps(s, l);
    ReqOf(s, x);
    EndedLists(s, x, q);
    EndedShape(q);
    PutHappens(s1, x, q1, who);
    PutFrame(s1, x, q1, false, who);
    PutOnward(s1, x, q, q1, who);
    ListsBack(s1, FinishStep(s, l).s);
    TrackBack(s, FinishStep(s, l).s, x, r, q1);
  }

  lemma FinishKinds(x: ReqId, q: Req)
    requires Ending(q)
    ensures RunStep(x, q).FinishRetry? || RunStep(x, q).FinishDrop?
  {
  }

  lemma EndedShape(q: Req)
    ensures var q1 := EndedReq(q); q1 == q.(link := q1.link, run := None)
  {
  }

  lemma ListsBack(s: State, s': State)
    requires s'.lists == s.lists
    ensures RunLength(s') == RunLength(s) && forall t :: ListOf(s', t) == ListOf(s, t)
  {
  }

  lemma DropPhase(q: Req)
    requires ReqOk(q)
    ensures q.run == Some(Drop) ==> q.handed || !q.io
    ensures q.run == Some(Requeue) ==> q.io && !q.handed
  {
  }

  /** What a put makes of the request, if it is not freed. */
  predicate PutResult(s: State, s': State, x: ReqId, q: Req, q1: Req) {
    && s'.strays >= s.strays
    && if x in s'.reqs then s'.reqs[x] == q1.(users := q1.users - 1)
       else !q.io && (!Quiet(q) ==> s'.strays > 0)
  }

  lemma PutOnward(s: State, x: ReqId, q: Req, q1: Req, who: Option<ListId>)
    requires q1 == q.(link := q1.link, run := None) && AioPutReq(s, x, q1, false, who).Next?
    ensures PutResult(s, AioPutReq(s, x, q1, false, who).s, x, q, q1)
  {
    if q1.users == 1 {
      var q0 := q1.(users := 0, onActive := false);
      assert Quiet(q0) == Quiet(q);
      OweOnly(WithReq(s, x, q0), who);
      hide Owe, Quiet;
    }
  }

  lemma TrackBack(s: State, s': State, x: ReqId, r: ReqId, q1: Req)
    requires x in s.reqs && r in s.reqs && ReqOk(s.reqs[x]) && Ending(s.reqs[x]) && s'.strays >= s.strays
    requires forall y | y in s.reqs && y != x :: y in s'.reqs && s'.reqs[y] == s.reqs[y]
    requires q1 == EndedReq(s.reqs[x]) && PutResult(s, s', x, s.reqs[x], q1)
    ensures Track(s, s', r)
  {
    if r != x {
      TrackSame(s, s', r);
    } else if x in s'.reqs {
      EndedOnward(s.reqs[x]);
      hide Onward;
    }
  }

  lemma EndedOnward(q: Req)
    requires ReqOk(q) && Ending(q)
    ensures Onward(q, Ended(q))
  {
  }

  lemma OneLonger(s: State, x: ReqId)
    ensures |AddTail(s, x)[RUN_LIST]| == RunLength(s) + 1
    ensures forall t | t != RUN_LIST && t in s.lists :: t in AddTail(s, x) && AddTail(s, x)[t] == s.lists[t]
    ensures forall t | t != RUN_LIST && t in AddTail(s, x) :: t in s.lists
  {
  }

  lemma PutHappens(s: State, r: ReqId, q: Req, who: Option<ListId>)
    ensures !AioPutReq(s, r, q, false, who).Disabled?
  {
  }

  lemma RunFacts(s: State, t: ListId)
    requires Ready(s) && t in s.crew.running
    ensures t != RUN_LIST && Inside(s.crew, t)
    ensures var x := s.crew.running[t];
            x in s.reqs && s.reqs[x].run.Some? && s.reqs[x].runner == t && ReqOk(s.reqs[x]) && s.reqs[x].link != Listed
  {
    hide InvBut, OneHolder, LocalsOk, Served;
    ReqOf(s, s.crew.running[t]);
  }

  lemma FinishCareful(s: State, x: ReqId, q: Req)
    requires Ending(q)
    ensures Careful(s, RunStep(x, q)) && Exec(s, RunStep(x, q)) == FinishStep(s, RunStep(x, q))
  {
    hide FinishStep, Quiet;
  }

  /** The last step of a retry. */
  lemma RunEnd(s: State, r: ReqId, t: ListId) returns (s': State)
    requires Ready(s) && Unlocked(s) && t in s.crew.running && r in s.reqs
    requires s.crew.running[t] in s.reqs && Ending(s.reqs[s.crew.running[t]])
    ensures Ready(s') && Reaches(s, s') && Track(s, s', r) && Back(s, s', s.crew.running[t], t)
    ensures var x := s.crew.running[t];
            x in s'.reqs ==> s'.reqs[x] == Ended(s.reqs[x])
  {
    var x := s.crew.running[t];
    RunFacts(s, t);
    hide *;
    var l := RunStep(x, s.reqs[x]);
    FinishMoves(s, x, r);
    FinishCareful(s, x, s.reqs[x]);
    s' := Exec(s, l).s;
    ReadyAfter(s, l);
    ReachesOne(s, l);
  }

  /** The I/O is over, or in the hands of somebody else. */
  predicate Settled(s: State, x: ReqId) {
    x in s.reqs ==> s.reqs[x].handed || !s.reqs[x].io
  }

  /** Thread t is out of its retry; its lists, and the other threads, are as they were. */
  predicate OutOfRetry(s: State, s': State, t: ListId) {
    && s'.ring.writing.None? && t in s.crew.running && s'.crew.running == s.crew.running - {t}
    && s'.crew.workers == s.crew.workers && s'.crew.callers == s.crew.callers && ListOf(s', t) == ListOf(s, t)
    && RunLength(s') <= RunLength(s) + (if s.crew.running[t] in s.reqs
                                           && s.reqs[s.crew.running[t]].run == Some(Requeue) then 1 else 0)
  }

  /** One step of a retry, and its end, while request r is watched. */
  lemma RunGoes(s: State, r: ReqId, t: ListId) returns (s': State)
    requires Ready(s) && Unlocked(s) && t in s.crew.running && r in s.reqs
    requires s.crew.running[t] in s.reqs && !Ending(s.reqs[s.crew.running[t]])
    ensures Ready(s') && Reaches(s, s') && Track(s, s', r) && r in s'.reqs && Unlocked(s')
    ensures s'.crew == s.crew && RunLength(s') == RunLength(s) && ListOf(s', t) == ListOf(s, t)
    ensures var x := s.crew.running[t];
            x in s'.reqs && Rank(s'.reqs[x]) < Rank(s.reqs[x]) && s'.reqs[x].run != Some(Requeue)
  {
    var x := s.crew.running[t];
    RunFacts(s, t);
    hide Ready, Reaches, Rank, ListOf, RunLength, ReqOk, RunNext, Exec, Careful, Track, Onward, Ending;
    s' := WithReq(s, x, RunNext(s.reqs[x]));
    RunMoves(s, x);
    RunNextOk(s.reqs[x]);
    RunNextOnward(s.reqs[x]);
    TrackOne(s, x, RunNext(s.reqs[x]), r);
    SameLists(s, s');
    SameRun(s, s');
  }

  lemma RunEnds(s: State, r: ReqId, t: ListId) returns (s': State)
    requires Ready(s) && Unlocked(s) && t in s.crew.running && r in s.reqs
    requires s.crew.running[t] in s.reqs && Ending(s.reqs[s.crew.running[t]])
    ensures Ready(s') && Reaches(s, s') && Track(s, s', r) && OutOfRetry(s, s', t)
    ensures var x := s.crew.running[t]; s.reqs[x].run != Some(Requeue) ==> Settled(s', x)
  {
    RunFacts(s, t);
    EndSettles(s.reqs[s.crew.running[t]]);
    hide Ready, Reaches, ListOf, RunLength, ReqOk, Track, Ended;
    s' := RunEnd(s, r, t);
  }

  /** Thread t finishes the request it is at work on, while request r is watched. */
  lemma {:induction false} RunOut(s: State, r: ReqId, t: ListId) returns (s': State)
    requires Ready(s) && Unlocked(s) && t in s.crew.running && r in s.reqs
    ensures Ready(s') && Reaches(s, s') && Track(s, s', r) && OutOfRetry(s, s', t)
    ensures var x := s.crew.running[t]; x in s.reqs && s.reqs[x].run != Some(Requeue) ==> Settled(s', x)
    decreases if s.crew.running[t] in s.reqs then Rank(s.reqs[s.crew.running[t]]) else 0
  {
    RunFacts(s, t);
    hide Ready, Reaches, Rank, ListOf, RunLength, ReqOk, Track, Ending, Settled;
    if Ending(s.reqs[s.crew.running[t]]) {
      s' := RunEnds(s, r, t);
    } else {
      var s1 := RunGoes(s, r, t);
      s' := RunOut(s1, r, t);
      ReachesOn(s, s1, s');
      TrackOn(s, s1, s', r);
    }
  }

  lemma TrackOne(s: State, x: ReqId, q: Req, r: ReqId)
    requires x in s.reqs && r in s.reqs && Onward(s.reqs[x], q)
    ensures Track(s, WithReq(s, x, q), r)
  {
    hide Onward;
    if r != x {
      TrackSame(s, WithReq(s, x, q), r);
    }
  }

  lemma EndSettles(q: Req)
    requires ReqOk(q) && Ending(q)
    ensures q.run != Some(Requeue) ==> Ended(q).handed || !Ended(q).io
  {
  }

  lemma SameRun(s: State, s1: State)
    requires forall t :: ListOf(s1, t) == ListOf(s, t)
    ensures RunLength(s1) == RunLength(s)
  {
  }

  // ---- a thread comes to the end of its run lists

  /** What thread t has before it, at most. */
  function ToDrain(s: State, t: ListId): nat {
    if t !in s.crew.running then Ahead(s, t)
    else
      var x := s.crew.running[t];
      4 * RunLength(s) + 3 * |ListOf(s, t)| + (if x in s.reqs && s.reqs[x].run == Some(Requeue) then 6 else 2)
  }

  /** Request r is on the local list of thread t, or in its hands, or settled. */
  predicate Claimed(s: State, t: ListId, r: ReqId) {
    || r in ListOf(s, t)
    || (t in s.crew.running && s.crew.running[t] == r && r in s.reqs && s.reqs[r].run.Some?
        && s.reqs[r].run != Some(Requeue))
    || Settled(s, r)
  }

  /** One step of thread t, which holds the lock. */
  lemma HolderTurn(s: State, r: ReqId, t: ListId) returns (s': State)
    requires Ready(s) && Holder(s, t) && r in s.reqs
    ensures Ready(s') && Reaches(s, s') && Track(s, s', r) && r in s'.reqs && s'.ring.writing.None?
    ensures s'.crew.workers <= s.crew.workers && s'.crew.callers <= s.crew.callers
    ensures Inside(s'.crew, t) ==> ToDrain(s', t) < ToDrain(s, t)
    ensures Claimed(s, t, r) && !Spent(s.reqs[r]) ==> Claimed(s', t, r)
  {
    HolderMoves(s, r, t);
    HolderTracks(s, r, t);
    s' := Exec(s, HolderStep(s, t)).s;
    HolderClaims(s, r, t);
    hide Ready, Reaches, Exec, HolderStep, Track, Claimed;
    assert Calm(s, s');
  }

  lemma HolderClaims(s: State, r: ReqId, t: ListId)
    requires Ready(s) && Holder(s, t) && r in s.reqs && Exec(s, HolderStep(s, t)).Next?
    ensures var s' := Exec(s, HolderStep(s, t)).s; Claimed(s, t, r) && !Spent(s.reqs[r]) ==> Claimed(s', t, r)
  {
    hide Ready, ContextStep, StartStep, SpliceStep, CrewStep, Claimed, ListOf;
    var l := HolderStep(s, t);
    if l.Start? {
      StartClaims(s, r, t) by { InvOf(s); }
    } else {
      SameReqs(s, l);
      if l.DrainPut? {
        DrainLists(s, t);
      }
      hide Exec;
      OthersClaim(s, Exec(s, l).s, r, t);
    }
  }

  lemma DrainLists(s: State, t: ListId)
    requires ContextStep(s, DrainPut(t)).Next?
    ensures forall u :: ListOf(ContextStep(s, DrainPut(t)).s, u) == ListOf(s, u)
  {
    hide ContextStep;
    ContextOnly(s, DrainPut(t));
  }

  lemma OthersClaim(s: State, s': State, r: ReqId, t: ListId)
    requires Holder(s, t) && s'.reqs == s.reqs
    requires ListOf(s, t) != [] ==> ListOf(s', t) == ListOf(s, t)
    ensures Claimed(s, t, r) ==> Claimed(s', t, r)
  {
  }

  lemma StartClaims(s: State, r: ReqId, t: ListId)
    requires Inv(s) && r in s.reqs && t !in s.crew.running && StartStep(s, t).Next?
    ensures Claimed(s, t, r) && !Spent(s.reqs[r]) ==> Claimed(StartStep(s, t).s, t, r)
  {
    hide InvBut, ReqOk;
    var x := ListOf(s, t)[0];
    if x == r {
      ReqOf(s, r);
      ListedLive(s.lists, s.reqs, t, r) by { ListsOf(s); }
      ListedWaits(s.reqs[r]);
    } else {
      hide Started, Spent;
    }
  }

  lemma ListedWaits(q: Req)
    requires ReqOk(q) && q.link == Listed
    ensures q.io && q.queued && !q.handed && q.run.None?
  {
  }

  /** Thread t comes back from the retry it is in. */
  lemma RunTurn(s: State, r: ReqId, t: ListId) returns (s': State)
    requires Ready(s) && s.ring.writing.None? && t in s.crew.running && r in s.reqs
    ensures Ready(s') && Reaches(s, s') && Track(s, s', r) && s'.ring.writing.None?
    ensures s'.crew.workers <= s.crew.workers && s'.crew.callers <= s.crew.callers
    ensures t !in s'.crew.running && Inside(s'.crew, t) && ToDrain(s', t) < ToDrain(s, t)
    ensures Claimed(s, t, r) ==> Claimed(s', t, r)
  {
    var s0 := Unlock(s, r);
    UnlockDrain(s, s0, t);
    UnlockClaims(s, s0, r, t);
    RunFacts(s0, t);
    hide Ready, Reaches, Track, Claimed;
    s' := RunOut(s0, r, t);
    BackDrain(s0, s', t);
    BackClaims(s0, s', r, t);
    hide Calm, Unlocked;
    ReachesOn(s, s0, s');
    TrackOn(s, s0, s', r);
  }

  lemma UnlockDrain(s: State, s0: State, t: ListId)
    requires Ready(s) && Calm(s, s0) && t in s.crew.running
    ensures t in s0.crew.running && ToDrain(s0, t) <= ToDrain(s, t)
    ensures s0.crew.workers <= s.crew.workers && s0.crew.callers <= s.crew.callers
  {
    RunFacts(s, t);
    hide Ready;
  }

  lemma UnlockClaims(s: State, s0: State, r: ReqId, t: ListId)
    requires Ready(s) && Calm(s, s0) && t in s.crew.running && Track(s, s0, r) && r in s0.reqs
    ensures Claimed(s, t, r) ==> Claimed(s0, t, r)
  {
    RunFacts(s, t);
    hide Ready, Rest, Quiet, Spent;
  }

  lemma BackDrain(s0: State, s1: State, t: ListId)
    requires OutOfRetry(s0, s1, t)
    ensures ToDrain(s1, t) < ToDrain(s0, t)
  {
    hide ListOf, RunLength;
  }

  lemma BackClaims(s0: State, s1: State, r: ReqId, t: ListId)
    requires OutOfRetry(s0, s1, t) && Track(s0, s1, r)
    requires var x := s0.crew.running[t]; x in s0.reqs && s0.reqs[x].run != Some(Requeue) ==> Settled(s1, x)
    ensures Claimed(s0, t, r) ==> Claimed(s1, t, r)
  {
    hide ListOf, RunLength, Rest, Quiet, Spent;
  }

  /** Thread t drains its lists and leaves __aio_run_iocbs, while request r is watched; what was on its list is settled,
      unless its retries were used up. */
  lemma {:induction false} ThreadOut(s: State, r: ReqId, t: ListId) returns (s': State)
    requires Ready(s) && s.ring.writing.None? && Inside(s.crew, t) && r in s.reqs
    ensures Ready(s') && Reaches(s, s') && Track(s, s', r) && s'.ring.writing.None?
    ensures s'.crew.workers <= s.crew.workers && s'.crew.callers <= s.crew.callers
    ensures r in s'.reqs ==> !Inside(s'.crew, t)
    ensures Claimed(s, t, r) && !Spent(s.reqs[r]) ==> Settled(s', r)
    decreases ToDrain(s, t)
  {
    hide Ready, Reaches, Track, ToDrain;
    if t in s.crew.running {
      hide Claimed;
      s' := RunTurn(s, r, t);
    } else {
      hide Claimed;
      s' := HolderTurn(s, r, t);
    }
    if r in s'.reqs {
      NotSpent(s, s', r);
    }
    if r in s'.reqs && Inside(s'.crew, t) {
      var s1 := s';
      s' := ThreadOut(s1, r, t);
      ReachesOn(s, s1, s');
      TrackOn(s, s1, s', r);
    } else if r in s'.reqs {
      InsideName(s, t);
      OutSettles(s', r, t);
    }
  }

  lemma InsideName(s: State, t: ListId)
    requires Ready(s) && Inside(s.crew, t)
    ensures t != RUN_LIST
  {
    hide InvBut, OneHolder, Busy, LocalsOk, Served;
  }

  lemma OutSettles(s: State, r: ReqId, t: ListId)
    requires Ready(s) && !Inside(s.crew, t) && t != RUN_LIST
    ensures Claimed(s, t, r) ==> Settled(s, r)
  {
    hide InvBut, OneHolder, Busy, Served, Settled;
  }

  lemma NotSpent(s: State, s': State, r: ReqId)
    requires Track(s, s', r) && r in s'.reqs
    ensures !Spent(s.reqs[r]) ==> !Spent(s'.reqs[r])
  {
  }
}
