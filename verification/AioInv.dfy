/** What every step of the asynchronous I/O machine keeps. */
module AioInv {
  import opened Wrappers
  import opened AioModel

  function One(b: bool): nat {
    if b then 1 else 0
  }

  /** Who holds a reference on a request. */
  function Holders(q: Req): nat {
    One(q.submit) + One(q.io) + One(q.run.Some?) + q.cancels
  }

  /** ki_users is the number of holders, with d more; it is 0 only while the release of the file is pending. */
  predicate Counted(q: Req, d: nat) {
    && q.users == Holders(q) + d
    && (q.users == 0 <==> q.fput != NoFput)
    && (q.fput != NoFput ==> !q.onActive)
  }

  /** A retry that is over, or has not been started, will be started again: the request is queued, or a wake-up is to
      come that will queue it, unless aio_run_iocb gave up on it. */
  predicate RetryOk(q: Req) {
    && (q.completing ==> q.io && (q.handed || q.run == Some(Waking)))
    && (!q.queued ==> q.link == Self && Quiet(q) && !q.handed && q.run.None? && !q.completing)
    && (q.run.Some? ==> q.link == Null)
    && (q.handed ==> q.link == Null)
    && (q.link == Listed ==> q.io)
    && (q.link == Null ==> q.run.Some? || q.handed || !q.io)
    && (q.run == Some(Starting) || q.run == Some(Requeue) ==> q.io && !q.handed)
    && (q.run == Some(Retrying) ==> q.io || q.handed)
    && (q.run == Some(Waking) ==> !q.handed && (!q.io || q.completing))
    && (q.run == Some(Drop) ==> !q.io || q.handed)
    && (q.run == Some(Requeue) ==> q.kicked || q.waiting || q.woken > 0)
    && (q.link == Self && q.queued ==> q.io && !Quiet(q) && (q.kicked ==> q.kicking > 0))
    && (q.link == Poisoned ==> q.io)
    && (q.link == Poisoned <==> q.retried > RETRY_CAP + 1)
  }

  predicate ReqOk(q: Req) {
    Counted(q, 0) && RetryOk(q)
  }

  /** The references on the context: of the list, the lookups, the n requests, and the threads that owe a put. */
  function Refs(c: Ctx, n: nat, owing: nat): nat {
    One(c.listRef) + c.lookups + n + c.owed + owing
  }

  predicate FlagsOk(c: Ctx) {
    && (c.freed <==> c.users == 0)
    && (!c.dead <==> c.listed)
    && (c.listRef <==> c.listed || c.exiting)
    && (c.exiting ==> !c.listed && c.lookups == 0)
  }

  predicate CtxOk(c: Ctx, n: nat, owing: nat) {
    c.reqsActive == n && c.users == Refs(c, n, owing) && FlagsOk(c)
  }

  /** A thread in __aio_run_iocbs is in a retry or has a put to make, not both; every caller, as well as the reader in
      aio_read_evt, has a lookup of its own; and no handler is left on the work queue for a freed context. */
  predicate CrewOk(w: Crew, lookups: nat, reading: bool, freed: bool) {
    && (forall t | t in w.owing :: t !in w.running)
    && |w.callers| + One(reading) <= lookups
    && (freed ==> !w.work)
  }

  /** A request in aio_run_iocb is the one its thread is at work on. */
  predicate RunnersOk(running: map<ListId, ReqId>, reqs: map<ReqId, Req>) {
    forall r | r in reqs && reqs[r].run.Some? :: reqs[r].runner in running && running[reqs[r].runner] == r
  }

  /** Requests whose I/O is not complete. */
  function Pending(reqs: map<ReqId, Req>): set<ReqId> {
    set r | r in reqs && reqs[r].io
  }

  function Unread(g: Ring): int {
    |g.done| - |g.seen|
  }

  predicate Holds(g: Ring, i: nat)
    requires g.nr > 0 && |g.slots| == g.nr
  {
    |g.seen| + i < |g.done| && g.slots[(g.head + i) % g.nr] == g.done[|g.seen| + i]
  }

  /** The n requests still to complete and the unread events fit the ring together; the unread events stand in it in
      order from the head to the tail; those read are the first of those completed. */
  predicate RingOk(g: Ring, n: nat) {
    && 0 < g.nr == |g.slots| && g.head < g.nr && g.tail < g.nr
    && g.seen <= g.done && n + Unread(g) <= g.nr - 1
    && g.tail == (g.head + Unread(g)) % g.nr
    && (forall i | 0 <= i < Unread(g) :: Holds(g, i))
    && (g.reading.Some? ==> Unread(g) > 0 && g.reading.value == g.done[|g.seen|])
    && (g.writing.Some? ==> n > 0 && g.slots[g.tail] == g.writing.value.1)
  }

  predicate OnList(lists: map<ListId, seq<ReqId>>, r: ReqId) {
    exists t | t in lists :: r in lists[t]
  }

  predicate NoRepeat(l: seq<ReqId>) {
    forall i, j | 0 <= i < j < |l| :: l[i] != l[j]
  }

  /** A request is on a run list exactly when its link says so, on one list only and there only once. */
  predicate ListsOk(lists: map<ListId, seq<ReqId>>, reqs: map<ReqId, Req>) {
    && (forall t, r | t in lists && r in lists[t] :: r in reqs && reqs[r].link == Listed)
    && (forall t | t in lists :: NoRepeat(lists[t]))
    && (forall t, u, r | t in lists && u in lists && t != u && r in lists[t] :: r !in lists[u])
    && (forall r | r in reqs && reqs[r].link == Listed :: OnList(lists, r))
  }

  /** ctx_lock is held over the writing and publishing of an event, so there is one such completion at a time. */
  predicate WriterOk(g: Ring, reqs: map<ReqId, Req>) {
    && (g.writing.Some? ==> g.writing.value.0 in reqs && reqs[g.writing.value.0].completing)
    && (forall r | r in reqs && reqs[r].completing :: g.writing.Some? && g.writing.value.0 == r)
  }

  predicate ReqsOk(reqs: map<ReqId, Req>, x: int) {
    forall r | r in reqs && r != x :: ReqOk(reqs[r])
  }

  /** All of the invariant but what request x has to satisfy. */
  predicate InvBut(s: State, x: int) {
    && ReqsOk(s.reqs, x)
    && CtxOk(s.ctx, |s.reqs.Keys|, |s.crew.owing|)
    && CrewOk(s.crew, s.ctx.lookups, s.ring.reading.Some?, s.ctx.freed)
    && RunnersOk(s.crew.running, s.reqs)
    && RingOk(s.ring, |Pending(s.reqs)|)
    && ListsOk(s.lists, s.reqs)
    && WriterOk(s.ring, s.reqs)
    && GoneOk(s.gone, s.reqs)
  }

  /** What has been freed is not there any more. */
  predicate GoneOk(gone: set<ReqId>, reqs: map<ReqId, Req>) {
    gone !! reqs.Keys
  }

  predicate Inv(s: State) {
    InvBut(s, -1)
  }

  // ---- the parts of the invariant that a change to one request leaves alone

  lemma PendingFewer(reqs: map<ReqId, Req>, reqs': map<ReqId, Req>)
    requires forall r | r in reqs' :: r in reqs && (reqs'[r].io ==> reqs[r].io)
    ensures |Pending(reqs')| <= |Pending(reqs)|
  {
    Smaller(Pending(reqs'), Pending(reqs));
  }

  lemma Smaller(a: set<ReqId>, b: set<ReqId>)
    requires a <= b
    ensures |a| <= |b|
  {
    if a != {} {
      var x :| x in a;
      Smaller(a - {x}, b - {x});
    }
  }

  lemma ReqsKept(reqs: map<ReqId, Req>, r: ReqId, q: Req, x: int, y: int)
    requires ReqsOk(reqs, x) && (x == -1 || x == r) && (y == r || (y == -1 && ReqOk(q)))
    ensures ReqsOk(reqs[r := q], y)
  {
    hide ReqOk;
  }

  lemma ListsKept(lists: map<ListId, seq<ReqId>>, reqs: map<ReqId, Req>, r: ReqId, q: Req)
    requires ListsOk(lists, reqs) && r in reqs && (q.link == Listed <==> reqs[r].link == Listed)
    ensures ListsOk(lists, reqs[r := q])
  {
  }

  lemma ListsWithout(lists: map<ListId, seq<ReqId>>, reqs: map<ReqId, Req>, r: ReqId)
    requires ListsOk(lists, reqs) && r in reqs && reqs[r].link != Listed
    ensures ListsOk(lists, reqs - {r})
  {
  }

  lemma WriterWithout(g: Ring, reqs: map<ReqId, Req>, r: ReqId)
    requires WriterOk(g, reqs) && g.writing.None?
    ensures WriterOk(g, reqs - {r})
  {
  }

  lemma WriterKept(g: Ring, reqs: map<ReqId, Req>, r: ReqId, q: Req)
    requires WriterOk(g, reqs) && r in reqs && q.completing == reqs[r].completing
    ensures WriterOk(g, reqs[r := q])
  {
  }

  lemma RunnersKept(running: map<ListId, ReqId>, reqs: map<ReqId, Req>, r: ReqId, q: Req)
    requires RunnersOk(running, reqs) && r in reqs
    requires q.run.Some? ==> reqs[r].run.Some? && q.runner == reqs[r].runner
    ensures RunnersOk(running, reqs[r := q])
  {
  }

  lemma Alive(s: State, r: ReqId)
    requires CtxOk(s.ctx, |s.reqs.Keys|, |s.crew.owing|) && r in s.reqs
    ensures !s.ctx.freed && s.ctx.users > 0
  {
    assert |s.reqs.Keys| > 0;
  }

  /** A step that changes one request, keeps its I/O pending or not, and does not move it between lists. */
  lemma OneRequest(s: State, r: ReqId, q: Req, x: int)
    requires Inv(s) && r in s.reqs && (q.io ==> s.reqs[r].io) && (q.link == Listed <==> s.reqs[r].link == Listed)
    requires q.completing == s.reqs[r].completing && (s.ring.writing.Some? ==> q.io == s.reqs[r].io)
    requires q.run.Some? ==> s.reqs[r].run.Some? && q.runner == s.reqs[r].runner
    requires x == r || (x == -1 && ReqOk(q))
    ensures InvBut(WithReq(s, r, q), x) && !s.ctx.freed
  {
    hide RingOk, ListsOk, ReqsOk, ReqOk, CtxOk, WriterOk, CrewOk, RunnersOk, Pending, Quiet;
    Alive(s, r);
    WriterKept(s.ring, s.reqs, r, q);
    RunnersKept(s.crew.running, s.reqs, r, q);
    ReqsKept(s.reqs, r, q, -1, x);
    var s' := WithReq(s, r, q);
    assert s'.reqs.Keys == s.reqs.Keys;
    PendingFewer(s.reqs, s'.reqs);
    if s.ring.writing.Some? {
      PendingFewer(s'.reqs, s.reqs);
    }
    RingFewerUnlessEqual(s.ring, |Pending(s.reqs)|, |Pending(s'.reqs)|);
    ListsKept(s.lists, s.reqs, r, q);
  }

  lemma RingFewerUnlessEqual(g: Ring, n: nat, m: nat)
    requires RingOk(g, n) && m <= n && (g.writing.Some? ==> m == n)
    ensures RingOk(g, m)
  {
  }

  /** A step that changes the counts and the threads, but starts and ends no retry. */
  lemma OnlyThreads(s: State, c: Ctx, w: Crew)
    requires Inv(s) && CtxOk(c, |s.reqs.Keys|, |w.owing|) && w.running == s.crew.running
    requires CrewOk(w, c.lookups, s.ring.reading.Some?, c.freed)
    ensures Inv(s.(ctx := c, crew := w))
  {
    hide RingOk, ListsOk, ReqsOk, CtxOk, WriterOk, Pending, CrewOk, RunnersOk;
  }

  /** A thread that has given up its place in a request is back in __aio_run_iocbs. */
  lemma ReturnedOk(s: State, r: ReqId, t: ListId)
    requires InvBut(s, r) && r in s.reqs && s.reqs[r].run.None? && t in s.crew.running && s.crew.running[t] == r
    ensures InvBut(Returned(s, t), r) && MayOwe(Returned(s, t).crew, Some(t))
  {
    hide RingOk, ListsOk, ReqsOk, CtxOk, WriterOk, Pending;
  }

  // ---- __aio_put_req

  /** The thread can become one that owes a put. */
  predicate MayOwe(w: Crew, who: Option<ListId>) {
    who.Some? ==> who.value !in w.owing && who.value !in w.running
  }

  lemma OweOk(s: State, who: Option<ListId>, n: nat)
    requires MayOwe(s.crew, who) && CrewOk(s.crew, s.ctx.lookups, s.ring.reading.Some?, s.ctx.freed)
    requires s.ctx.reqsActive == n && s.ctx.users == Refs(s.ctx, n, |s.crew.owing|) + 1 && FlagsOk(s.ctx)
    ensures var s' := Owe(s, who);
            && CtxOk(s'.ctx, n, |s'.crew.owing|)
            && CrewOk(s'.crew, s'.ctx.lookups, s'.ring.reading.Some?, s'.ctx.freed)
  {
  }

  /** A holder that has given up its place in q puts its reference: line 501 is not reached, nothing that is freed is
      still held, and the counts agree again. */
  lemma PutKeeps(s: State, r: ReqId, q: Req, lastFile: bool, who: Option<ListId>)
    requires InvBut(WithReq(s, r, q), r) && r in s.reqs && s.ring.writing.None? && Counted(q, 1) && RetryOk(q)
    requires MayOwe(s.crew, who)
    ensures AioPutReq(s, r, q, lastFile, who).Next? && Inv(AioPutReq(s, r, q, lastFile, who).s)
  {
    hide InvBut, MayOwe, Owe;
    var s1 := WithReq(s, r, q);
    AliveBut(s1, r);
    if q.users > 1 {
      PutSome(s1, r, q.(users := q.users - 1));
      assert AioPutReq(s, r, q, lastFile, who).s == WithReq(s1, r, q.(users := q.users - 1));
    } else if lastFile {
      PutDeferred(s1, r, q, who);
      assert WithReq(s1, r, Deferring(q)) == WithReq(s, r, Deferring(q));
    } else {
      PutLast(s1, r, q, who);
      LastIs(s, r, q, who);
    }
  }

  lemma AliveBut(s: State, r: ReqId)
    requires InvBut(s, r) && r in s.reqs
    ensures !s.ctx.freed && s.ctx.users > 0
  {
    Alive(s, r);
  }

  lemma PutSome(s1: State, r: ReqId, q': Req)
    requires InvBut(s1, r) && r in s1.reqs && s1.ring.writing.None? && ReqOk(q')
    requires q'.io == s1.reqs[r].io && q'.link == s1.reqs[r].link && q'.completing == s1.reqs[r].completing
    requires q'.run == s1.reqs[r].run && q'.runner == s1.reqs[r].runner
    ensures Inv(WithReq(s1, r, q'))
  {
    hide RingOk, ListsOk, Pending, ReqOk, ReqsOk, CtxOk, WriterOk, CrewOk, RunnersOk;
    WriterKept(s1.ring, s1.reqs, r, q');
    RunnersKept(s1.crew.running, s1.reqs, r, q');
    ReqsKept(s1.reqs, r, q', r, -1);
    var s' := WithReq(s1, r, q');
    assert s'.reqs.Keys == s1.reqs.Keys;
    PendingFewer(s1.reqs, s'.reqs);
    RingFewerUnlessEqual(s1.ring, |Pending(s1.reqs)|, |Pending(s'.reqs)|);
    ListsKept(s1.lists, s1.reqs, r, q');
  }

  /** The request waits for the release of its file. */
  function Deferring(q: Req): Req {
    q.(users := 0, onActive := false, fput := Deferred)
  }

  lemma PutDeferred(s1: State, r: ReqId, q: Req, who: Option<ListId>)
    requires InvBut(s1, r) && r in s1.reqs && s1.ring.writing.None? && Counted(q, 1) && RetryOk(q) && q.users == 1
    requires q == s1.reqs[r] && MayOwe(s1.crew, who)
    ensures Unheld(q) && s1.ctx.users > 0
    ensures Inv(Owe(WithReq(s1, r, Deferring(q)).(ctx := s1.ctx.(users := s1.ctx.users + 1)), who))
  {
    hide RingOk, ListsOk, Pending, WriterOk, ReqsOk, MayOwe, CrewOk, RunnersOk;
    Released(q);
    hide RetryOk;
    DeferringOk(q);
    Alive(s1, r);
    PutSome(s1, r, Deferring(q));
    var s' := WithReq(s1, r, Deferring(q)).(ctx := s1.ctx.(users := s1.ctx.users + 1));
    OweOk(s', who, |s'.reqs.Keys|);
    OweOnly(s', who);
    hide Owe;
  }

  lemma DeferringOk(q: Req)
    requires Counted(q, 1) && RetryOk(q) && q.users == 1
    ensures ReqOk(Deferring(q))
  {
  }

  lemma OweOnly(s: State, who: Option<ListId>)
    ensures var s' := Owe(s, who);
            && s'.ring == s.ring && s'.reqs == s.reqs && s'.lists == s.lists && s'.gone == s.gone
            && s'.crew.running == s.crew.running && s'.strays == s.strays
            && s'.origin == s.origin && s'.doneBy == s.doneBy
  {
  }

  /** What is left when the last holder has gone. */
  function Freed(s: State, r: ReqId, quiet: bool): State {
    s.(reqs := s.reqs - {r}, ctx := s.ctx.(reqsActive := s.ctx.reqsActive - 1), gone := s.gone + {r},
       strays := if quiet then s.strays else s.strays + 1)
  }

  lemma LastIs(s: State, r: ReqId, q: Req, who: Option<ListId>)
    requires !s.ctx.freed && q.users == 1 && Unheld(q) && r !in s.gone
    ensures AioPutReq(s, r, q, false, who) == Next(Freed(Owe(WithReq(s, r, q), who), r, Quiet(q)))
  {
    var q0 := q.(users := 0, onActive := false);
    assert s.reqs[r := q0] - {r} == s.reqs[r := q] - {r};
    assert Quiet(q0) == Quiet(q);
  }

  lemma PutLast(s1: State, r: ReqId, q: Req, who: Option<ListId>)
    requires InvBut(s1, r) && r in s1.reqs && s1.ring.writing.None? && Counted(q, 1) && RetryOk(q) && q.users == 1
    requires q == s1.reqs[r] && MayOwe(s1.crew, who)
    ensures Unheld(q) && r !in s1.gone
    ensures Inv(Freed(Owe(s1, who), r, Quiet(q)))
  {
    hide RingOk, ListsOk, Pending, RetryOk, Counted, WriterOk, Unheld, ReqOk, CtxOk, GoneOk, ReqsOk, CrewOk, RunnersOk,
         MayOwe, Quiet;
    Released(q);
    FreedParts(s1, r);
    var s2 := s1.(ctx := s1.ctx.(reqsActive := s1.ctx.reqsActive - 1));
    CtxLess(s1.ctx, |s1.reqs.Keys|, |s1.crew.owing|);
    OweOk(s2, who, |s1.reqs.Keys| - 1);
    OweOnly(s1, who);
    OweSame(s1, s2, who);
    hide Owe;
  }

  lemma OweSame(s1: State, s2: State, who: Option<ListId>)
    requires s2 == s1.(ctx := s1.ctx.(reqsActive := s1.ctx.reqsActive - 1))
    ensures Owe(s2, who).ctx == Owe(s1, who).ctx.(reqsActive := s1.ctx.reqsActive - 1)
    ensures Owe(s1, who).ctx.reqsActive == s1.ctx.reqsActive && Owe(s2, who).crew == Owe(s1, who).crew
  {
  }

  /** Without the request that is freed, all but the counts is in order. */
  lemma FreedParts(s1: State, r: ReqId)
    requires InvBut(s1, r) && r in s1.reqs && s1.ring.writing.None? && s1.reqs[r].link != Listed
    ensures r !in s1.gone && GoneOk(s1.gone + {r}, s1.reqs - {r}) && ReqsOk(s1.reqs - {r}, -1)
    ensures |(s1.reqs - {r}).Keys| == |s1.reqs.Keys| - 1 && RunnersOk(s1.crew.running, s1.reqs - {r})
    ensures RingOk(s1.ring, |Pending(s1.reqs - {r})|) && ListsOk(s1.lists, s1.reqs - {r})
    ensures WriterOk(s1.ring, s1.reqs - {r})
  {
    hide RingOk, ListsOk, Pending, WriterOk, ReqOk, CtxOk, GoneOk, ReqsOk, CrewOk, RunnersOk;
    WriterWithout(s1.ring, s1.reqs, r);
    RunnersWithout(s1.crew.running, s1.reqs, r);
    OneGone(s1.gone, s1.reqs, r);
    ReqsWithout(s1.reqs, r);
    PendingFewer(s1.reqs, s1.reqs - {r});
    RingFewerUnlessEqual(s1.ring, |Pending(s1.reqs)|, |Pending(s1.reqs - {r})|);
    ListsWithout(s1.lists, s1.reqs, r);
  }

  lemma RunnersWithout(running: map<ListId, ReqId>, reqs: map<ReqId, Req>, r: ReqId)
    requires RunnersOk(running, reqs)
    ensures RunnersOk(running, reqs - {r})
  {
  }

  lemma OneGone(gone: set<ReqId>, reqs: map<ReqId, Req>, r: ReqId)
    requires GoneOk(gone, reqs) && r in reqs
    ensures GoneOk(gone + {r}, reqs - {r}) && r !in gone && |reqs.Keys| > 0
    ensures |(reqs - {r}).Keys| == |reqs.Keys| - 1
  {
    assert (reqs - {r}).Keys == reqs.Keys - {r};
  }

  lemma CtxLess(c: Ctx, n: nat, owing: nat)
    requires CtxOk(c, n, owing) && n > 0
    ensures var c' := c.(reqsActive := c.reqsActive - 1);
            c'.reqsActive == n - 1 && c'.users == Refs(c', n - 1, owing) + 1 && FlagsOk(c')
  {
  }

  lemma ReqsWithout(reqs: map<ReqId, Req>, r: ReqId)
    requires ReqsOk(reqs, r)
    ensures ReqsOk(reqs - {r}, -1)
  {
    hide ReqOk;
  }

  lemma Released(q: Req)
    requires Counted(q, 1) && RetryOk(q) && q.users == 1
    ensures Unheld(q) && q.link != Listed
  {
  }

  /** What a put may change: one count goes down, or the request waits for its file, or it is gone; and a put of the
      context may be owed. */
  lemma PutFrame(s: State, r: ReqId, q: Req, lastFile: bool, who: Option<ListId>)
    requires AioPutReq(s, r, q, lastFile, who).Next?
    ensures var s' := AioPutReq(s, r, q, lastFile, who).s;
            && s'.ring == s.ring && s'.lists == s.lists && s'.origin == s.origin && s'.doneBy == s.doneBy
            && s'.crew == s.crew.(owing := s'.crew.owing) && OwesOnly(s.crew.owing, s'.crew.owing, who)
            && SameRefs(s.ctx, s'.ctx) && !s'.ctx.freed
            && s'.strays >= s.strays && (s'.strays == s.strays || (Unheld(q) && !Quiet(q)))
            && (s'.reqs == s.reqs[r := q.(users := q.users - 1)]
                || (Unheld(q) && (s'.reqs == s.reqs - {r} || s'.reqs == s.reqs[r := Deferring(q)])))
  {
    if q.users > 1 {
      hide ReallyPutReq, Owe;
    } else if lastFile {
      hide ReallyPutReq, Unheld, Quiet;
    } else {
      var q0 := q.(users := 0, onActive := false);
      assert Quiet(q0) == Quiet(q) && Unheld(q0) == Unheld(q);
      assert s.reqs[r := q0] - {r} == s.reqs - {r};
      hide Unheld, Quiet;
    }
  }

  predicate OwesOnly(owing: set<ListId>, owing': set<ListId>, who: Option<ListId>) {
    match who
    case None => owing' == owing
    case Some(t) => owing' == owing || owing' == owing + {t}
  }

  /** The references of the list and the lookups are the same. */
  predicate SameRefs(c: Ctx, c': Ctx) {
    c'.listRef == c.listRef && c'.lookups == c.lookups && c'.freed == c.freed
  }
}
