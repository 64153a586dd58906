/** Runs of fs/aio.c that go wrong, one for each way in which a step can fail to be careful. Each is a sequence of
    steps from a fresh context with one request, numbered 0; thread 1 is its submitter, thread 2 the aio_kick_handler,
    thread 3 a system call that reads events. */
module AioHazards {
  import opened Wrappers
  import opened AioModel
  import opened AioViews

  /** The request in the hands of thread t. */
  function InRetry(users: int, submit: bool, run: Phase, t: ListId, retried: nat): Req {
    Req(0, 0, users, submit, true, Some(run), t, 1, 0, NoFput, false, true, false, Null, false, false, 0, 0, true,
        false, retried)
  }

  function Retrying(): View {
    View(Held(3, 0, true), Nobody({1}).(callers := {1}, running := map[1 := 0]),
         Some(InRetry(3, true, Phase.Retrying, 1, 1)), None, false, 0)
  }

  function FirstRetry(): seq<Label> {
    Submitting() + [Splice(1)] + [Start(1)] + [BeginRetry(0)]
  }

  lemma RetryingLeads(nr: nat, slots: seq<Event>)
    requires 2 <= nr == |slots|
    ensures Leads(IoctxAlloc(nr, slots), FirstRetry(), Retrying())
  {
    hide Run, Exec, Sees, Submitting, IoctxAlloc;
    var s0, a, v := IoctxAlloc(nr, slots), Submitting(), Submitted();
    SubmittedLeads(nr, slots);
    SpliceAt(Run(s0, a).s, v, 1);
    OneMore(s0, a, Splice(1));
    var v2, a2 := v.(on := Some(1)), a + [Splice(1)];
    StartAt(Run(s0, a2).s, v2, 1);
    OneMore(s0, a2, Start(1));
    var q := InRetry(3, true, Starting, 1, 1);
    var v3, a3 := Retrying().(q := Some(q)), a2 + [Start(1)];
    assert v.w.running[1 := 0] == map[1 := 0];
    LocalAt(Run(s0, a3).s, v3, BeginRetry(0), q.(run := Some(Phase.Retrying)));
    OneMore(s0, a3, BeginRetry(0));
  }

  /** The retry method returns a result although its wait entry is still queued: the BUG_ON of line 732. */
  lemma QueuedEntryBreaks(nr: nat, slots: seq<Event>)
    requires 2 <= nr == |slots|
    ensures Run(IoctxAlloc(nr, slots), FirstRetry() + [AddWait(0)] + [CompleteWrite(0, 0, 0)]).Bug?
  {
    hide Run, Exec, Sees, FirstRetry, IoctxAlloc;
    var s0, a, v := IoctxAlloc(nr, slots), FirstRetry(), Retrying();
    RetryingLeads(nr, slots);
    var q := v.q.value.(waiting := true);
    LocalAt(Run(s0, a).s, v, AddWait(0), q);
    OneMore(s0, a, AddWait(0));
    var s1 := Run(s0, a + [AddWait(0)]).s;
    StillQueuedAt(s1, v.(q := Some(q)));
    OneMore(s0, a + [AddWait(0)], CompleteWrite(0, 0, 0));
  }

  lemma StillQueuedAt(s: State, v: View)
    requires Sees(s, v) && v.q.Some? && Free(v) && v.q.value.io && StillQueued(v.q.value)
    ensures Exec(s, CompleteWrite(0, 0, 0)).Bug?
  {
    hide ListsSeen, Unlocked;
    FreeLock(s, v);
  }

  lemma TouchBreaks(s: State, l: Label)
    requires s.ctx.freed || l.StrayWake?
    requires l.WakeBare? ==> s.crew.completers > 0
    requires l.QueueWork? ==> s.crew.kickers > 0
    requires l.StrayWake? ==> s.strays > 0
    requires l.Leave? ==> Mine(s, l.t) && Idle(s.crew, l.t) && ListOf(s, l.t) == [] && l.t !in s.crew.callers
    requires l.WakeBare? || l.QueueWork? || l.StrayWake? || l.Leave?
    ensures Exec(s, l).Bug?
  {
    hide Idle, ListOf, Mine;
  }

  function WokenRun(): seq<Label> {
    FirstRetry() + [AddWait(0)] + [Wake(0)] + [CompleteWrite(0, 0, 0)] + [CompletePublish(false)] + [WakeOwn(0)]
    + [FinishDrop(0, false)] + [Leave(1)] + [PutSubmit(0, false)]
  }

  /** The retry method returns a result while a wake-up is past list_del_init: the request is freed, and the wake-up
      arrives at it. */
  lemma WakeUpBreaks(nr: nat, slots: seq<Event>)
    requires 2 <= nr == |slots|
    ensures Run(IoctxAlloc(nr, slots), WokenRun() + [StrayWake]).Bug?
  {
    hide Run, Exec, Sees, FirstRetry, IoctxAlloc, AioPutReq, Returned;
    var s0, a, v := IoctxAlloc(nr, slots), FirstRetry(), Retrying();
    RetryingLeads(nr, slots);
    var q := v.q.value;
    LocalAt(Run(s0, a).s, v, AddWait(0), q.(waiting := true));
    OneMore(s0, a, AddWait(0));
    var a1, q1 := a + [AddWait(0)], q.(woken := 1);
    LocalAt(Run(s0, a1).s, v.(q := Some(q.(waiting := true))), Wake(0), q1);
    OneMore(s0, a1, Wake(0));
    var a2 := a1 + [Wake(0)];
    CompletedLeads(s0, a2, v.(q := Some(q1)));
    var a3, v3 := a2 + Completing(), Done(v.(q := Some(q1)));
    assert a3 == a2 + [CompleteWrite(0, 0, 0)] + [CompletePublish(false)] + [WakeOwn(0)];
    FinishDropAt(Run(s0, a3).s, v3);
    var q3 := v3.q.value;
    var v4 := v3.(w := v3.w.(running := v3.w.running - {1}), q := Some(q3.(run := None, users := 1)));
    SomePutAt(Returned(Run(s0, a3).s, 1), v3.(w := v4.w), q3.(run := None), Some(1));
    OneMore(s0, a3, FinishDrop(0, false));
    StrayArrives(s0, a3 + [FinishDrop(0, false)], v4);
  }

  /** The submitter drops the last reference on the request. */
  lemma StrayArrives(s0: State, a: seq<Label>, v: View)
    requires Leads(s0, a, v) && Own(v, 1) && Idle(v.w, 1) && v.w.callers == {1} && v.w.workers == {} && v.on.None?
    requires !v.c.freed && v.strays == 0 && v.q.Some?
    requires var q := v.q.value.(submit := false);
             q.users == 1 && Unheld(q) && !Quiet(q) && v.q.value.submit && q.submitter == 1
    ensures Run(s0, a + [Leave(1)] + [PutSubmit(0, false)] + [StrayWake]).Bug?
  {
    hide Run, Exec, Sees, AioPutReq, Unheld, Quiet, Idle;
    LeaveAt(Run(s0, a).s, v, 1);
    OneMore(s0, a, Leave(1));
    var a1, v1 := a + [Leave(1)], v.(w := v.w.(workers := v.w.workers - {1}, callers := v.w.callers - {1}));
    PutSubmitAt(Run(s0, a1).s, v1);
    LastPutAt(Run(s0, a1).s, v1, v.q.value.(submit := false), None);
    OneMore(s0, a1, PutSubmit(0, false));
    var a2 := a1 + [PutSubmit(0, false)];
    StraysAt(Run(s0, a2).s, 1);
    TouchBreaks(Run(s0, a2).s, StrayWake);
    OneMore(s0, a2, StrayWake);
  }

  lemma StraysAt(s: State, n: nat)
    requires exists v :: Sees(s, v) && v.strays == n
    ensures s.strays == n
  {
  }

  function Completing(): seq<Label> {
    [CompleteWrite(0, 0, 0)] + [CompletePublish(false)] + [WakeOwn(0)]
  }

  /** The request after aio_complete by its own retry. */
  function Done(v: View): View
    requires v.q.Some?
  {
    v.(q := Some(v.q.value.(run := Some(Drop), io := false, users := v.q.value.users - 1)))
  }

  lemma CompletedLeads(s0: State, a: seq<Label>, v: View)
    requires Leads(s0, a, v) && v.q.Some? && Free(v) && !v.c.freed
    requires var q := v.q.value; q.io && !q.handed && q.run == Some(Phase.Retrying) && !q.waiting && !q.cancelled
    requires var q := v.q.value; q.link == Null && q.users > 1 && !q.completing
    ensures Leads(s0, a + Completing(), Done(v))
  {
    hide Run, Exec, Sees;
    var q := v.q.value;
    CompleteAt(Run(s0, a).s, v);
    OneMore(s0, a, CompleteWrite(0, 0, 0));
    var a1, q1 := a + [CompleteWrite(0, 0, 0)], q.(run := Some(Waking), completing := true);
    PublishAt(Run(s0, a1).s, v.(q := Some(q1), writing := true));
    OneMore(s0, a1, CompletePublish(false));
    var a2, q2 := a1 + [CompletePublish(false)], q1.(io := false, completing := false, users := q.users - 1);
    WakeOwnAt(Run(s0, a2).s, v.(q := Some(q2)));
    OneMore(s0, a2, WakeOwn(0));
    assert a2 + [WakeOwn(0)] == a + Completing();
  }

  // ---- a completer that is not the last user touches ctx->wait after the context has been freed

  function HandedRun(): seq<Label> {
    FirstRetry() + [HandOff(0)] + [CompleteWrite(0, 0, 0)] + [CompletePublish(false)] + [ReturnQueued(0)]
    + [FinishDrop(0, false)] + [Leave(1)] + [PutSubmit(0, false)] + [OwedPut]
  }

  function Handed(): View {
    View(Held(2, 0, true).(reqsActive := 0), Nobody({1}).(completers := 1), None, None, false, 0)
  }

  lemma HandedLeads(nr: nat, slots: seq<Event>)
    requires 2 <= nr == |slots|
    ensures Leads(IoctxAlloc(nr, slots), HandedRun(), Handed())
  {
    hide Run, Exec, Sees, FirstRetry, IoctxAlloc, AioPutReq, Returned;
    var s0, a, v := IoctxAlloc(nr, slots), FirstRetry(), Retrying();
    RetryingLeads(nr, slots);
    var q := v.q.value.(handed := true);
    LocalAt(Run(s0, a).s, v, HandOff(0), q);
    OneMore(s0, a, HandOff(0));
    var a1, v1 := a + [HandOff(0)], v.(q := Some(q));
    CompleteAt(Run(s0, a1).s, v1);
    OneMore(s0, a1, CompleteWrite(0, 0, 0));
    var a2 := a1 + [CompleteWrite(0, 0, 0)];
    PublishAt(Run(s0, a2).s, v1.(q := Some(q.(completing := true)), writing := true));
    OneMore(s0, a2, CompletePublish(false));
    var a3, w3, q3 := a2 + [CompletePublish(false)], v.w.(completers := 1), q.(io := false, users := 2);
    LocalAt(Run(s0, a3).s, v.(q := Some(q3), w := w3), ReturnQueued(0), q3.(run := Some(Drop)));
    OneMore(s0, a3, ReturnQueued(0));
    HandedOver(s0, a3 + [ReturnQueued(0)], v.(q := Some(q3.(run := Some(Drop))), w := w3));
  }

  lemma HandedOver(s0: State, a: seq<Label>, v: View)
    requires Leads(s0, a, v)
    requires v == Retrying().(w := Retrying().w.(completers := 1),
                              q := Some(InRetry(2, true, Drop, 1, 1).(io := false, handed := true)))
    ensures Leads(s0, a + [FinishDrop(0, false)] + [Leave(1)] + [PutSubmit(0, false)] + [OwedPut], Handed())
  {
    hide Run, Exec, Sees, AioPutReq, Returned;
    var q := v.q.value;
    var w1, q1 := v.w.(running := v.w.running - {1}), q.(run := None, users := 1);
    FinishDropAt(Run(s0, a).s, v);
    SomePutAt(Returned(Run(s0, a).s, 1), v.(w := w1), q.(run := None), Some(1));
    OneMore(s0, a, FinishDrop(0, false));
    var a1, v1 := a + [FinishDrop(0, false)], v.(w := w1, q := Some(q1));
    LeaveAt(Run(s0, a1).s, v1, 1);
    OneMore(s0, a1, Leave(1));
    var a2, v2 := a1 + [Leave(1)], v1.(w := Nobody({1}).(completers := 1));
    assert w1.callers - {1} == {} && w1.workers - {1} == {} && w1.running == map[];
    PutSubmitAt(Run(s0, a2).s, v2);
    LastPutAt(Run(s0, a2).s, v2, q1.(submit := false), None);
    OneMore(s0, a2, PutSubmit(0, false));
    var a3, v3 := a2 + [PutSubmit(0, false)], Handed().(c := Held(3, 1, true).(reqsActive := 0));
    PutAt(Run(s0, a3).s, v3, OwedPut);
    OneMore(s0, a3, OwedPut);
  }

  function Ending(): seq<Label> {
    [Destroy] + [OwedPut] + [DropLookup]
  }

  /** io_destroy drops the reference of the list and then its own. */
  lemma EndingFrees(s0: State, a: seq<Label>, v: View)
    requires Leads(s0, a, v) && v.c == Held(2, 0, true).(reqsActive := 0) && v.w.workers == {} && v.w.callers == {}
    ensures Run(s0, a + Ending()).Next?
    ensures var s := Run(s0, a + Ending()).s; s.ctx.freed && s.crew == v.w.(work := false)
  {
    hide Run, Exec, Sees;
    DestroyAt(Run(s0, a).s, v);
    OneMore(s0, a, Destroy);
    var a1, v1 := a + [Destroy], v.(c := Held(2, 1, false).(reqsActive := 0));
    PutAt(Run(s0, a1).s, v1, OwedPut);
    OneMore(s0, a1, OwedPut);
    var a2, v2 := a1 + [OwedPut], v.(c := Held(1, 0, false).(reqsActive := 0));
    FreeAt(Run(s0, a2).s, v2, DropLookup);
    OneMore(s0, a2, DropLookup);
    assert a2 + [DropLookup] == a + Ending();
  }

  lemma CompleterBreaks(nr: nat, slots: seq<Event>)
    requires 2 <= nr == |slots|
    ensures Run(IoctxAlloc(nr, slots), HandedRun() + Ending() + [WakeBare]).Bug?
  {
    hide Run, Exec, Sees, HandedRun, Ending, IoctxAlloc;
    var s0, a := IoctxAlloc(nr, slots), HandedRun();
    HandedLeads(nr, slots);
    EndingFrees(s0, a, Handed());
    TouchBreaks(Run(s0, a + Ending()).s, WakeBare);
    OneMore(s0, a + Ending(), WakeBare);
  }

  // ---- a wake-up brings the request back to the run list

  function KickedRun(): seq<Label> {
    FirstRetry() + [AddWait(0)] + [ReturnRetry(0)] + [FinishRetry(0)] + [Leave(1)] + [PutSubmit(0, false)] + [Wake(0)]
    + [TryKick(0)] + [QueueKicked(0)]
  }

  /** The request between two retries, the last by thread t, with nothing but its I/O to hold it. */
  function Parked(waiting: bool, woken: nat, kicked: bool, kicking: nat, t: ListId, retried: nat): Req {
    Req(0, 0, 1, false, true, None, t, 1, 0, NoFput, false, true, false, Self, kicked, waiting, woken, kicking, true,
        false, retried)
  }

  /** It is on the run list, and a thread on its way to put the handler on the work queue. */
  function Kicked(t: ListId, retried: nat, used: set<ListId>): View {
    View(Held(3, 0, true), Nobody(used).(kickers := 1), Some(Parked(false, 0, true, 0, t, retried).(link := Listed)),
         Some(RUN_LIST), false, 0)
  }

  lemma KickedLeads(nr: nat, slots: seq<Event>)
    requires 2 <= nr == |slots|
    ensures Leads(IoctxAlloc(nr, slots), KickedRun(), Kicked(1, 1, {1}))
  {
    hide Run, Exec, Sees, FirstRetry, IoctxAlloc, AioPutReq, Returned;
    var s0, a, v := IoctxAlloc(nr, slots), FirstRetry(), Retrying();
    RetryingLeads(nr, slots);
    var q := v.q.value.(waiting := true);
    LocalAt(Run(s0, a).s, v, AddWait(0), q);
    OneMore(s0, a, AddWait(0));
    var a1, q1 := a + [AddWait(0)], q.(run := Some(Requeue));
    LocalAt(Run(s0, a1).s, v.(q := Some(q)), ReturnRetry(0), q1);
    OneMore(s0, a1, ReturnRetry(0));
    var a2 := a1 + [ReturnRetry(0)];
    FinishRetryAt(Run(s0, a2).s, v.(q := Some(q1)));
    OneMore(s0, a2, FinishRetry(0));
    var a3, q3 := a2 + [FinishRetry(0)], Parked(true, 0, false, 0, 1, 1).(users := 2, submit := true);
    var v3 := v.(q := Some(q3), w := Nobody({1}).(callers := {1}));
    assert v.w.running - {1} == map[];
    LeaveAt(Run(s0, a3).s, v3, 1);
    OneMore(s0, a3, Leave(1));
    assert v3.w.callers - {1} == {} && v3.w.workers - {1} == {};
    ParkedKicked(s0, a3 + [Leave(1)], v.(q := Some(q3), w := Nobody({1})));
  }

  lemma ParkedKicked(s0: State, a: seq<Label>, v: View)
    requires Leads(s0, a, v)
    requires v == Kicked(1, 1, {1}).(q := Some(Parked(true, 0, false, 0, 1, 1).(users := 2, submit := true)),
                                     on := None, w := Nobody({1}))
    ensures Leads(s0, a + [PutSubmit(0, false)] + [Wake(0)] + [TryKick(0)] + [QueueKicked(0)], Kicked(1, 1, {1}))
  {
    hide Run, Exec, Sees, AioPutReq;
    PutSubmitAt(Run(s0, a).s, v);
    SomePutAt(Run(s0, a).s, v, v.q.value.(submit := false), None);
    OneMore(s0, a, PutSubmit(0, false));
    WokenKicked(s0, a + [PutSubmit(0, false)], v.(q := Some(Parked(true, 0, false, 0, 1, 1))));
  }

  lemma WokenKicked(s0: State, a: seq<Label>, v: View)
    requires Leads(s0, a, v)
    requires v == Kicked(1, 1, {1}).(q := Some(Parked(true, 0, false, 0, 1, 1)), on := None, w := Nobody({1}))
    ensures Leads(s0, a + [Wake(0)] + [TryKick(0)] + [QueueKicked(0)], Kicked(1, 1, {1}))
  {
    hide Run, Exec, Sees;
    var q1, q2 := Parked(false, 1, false, 0, 1, 1), Parked(false, 0, true, 1, 1, 1);
    LocalAt(Run(s0, a).s, v, Wake(0), q1);
    OneMore(s0, a, Wake(0));
    var a1, v1 := a + [Wake(0)], v.(q := Some(q1));
    LocalAt(Run(s0, a1).s, v1, TryKick(0), q2);
    OneMore(s0, a1, TryKick(0));
    var a2, v2 := a1 + [TryKick(0)], v.(q := Some(q2));
    QueueKickedAt(Run(s0, a2).s, v2);
    OneMore(s0, a2, QueueKicked(0));
  }

  // ---- thread t takes the request up again

  function Taking(t: ListId): seq<Label> {
    [Splice(t)] + [Start(t)] + [BeginRetry(0)]
  }

  /** The request in the retry method, called by thread t. */
  function Taken(v: View, t: ListId, retried: nat): View {
    v.(on := None, q := Some(InRetry(2, false, Phase.Retrying, t, retried)), w := v.w.(running := v.w.running[t := 0]))
  }

  lemma TakenLeads(s0: State, a: seq<Label>, v: View, t: ListId, from: ListId, retried: nat)
    requires Leads(s0, a, v) && Own(v, t) && Idle(v.w, t) && t != RUN_LIST && retried <= RETRY_CAP
    requires v == Kicked(from, retried, {}).(w := v.w)
    ensures Leads(s0, a + Taking(t), Taken(v, t, retried + 1))
  {
    hide Run, Exec, Sees, Idle, Own;
    SpliceAt(Run(s0, a).s, v, t);
    OneMore(s0, a, Splice(t));
    var a1, v1 := a + [Splice(t)], v.(on := Some(t));
    OwnSame(v, v1, t);
    StartAt(Run(s0, a1).s, v1, t);
    OneMore(s0, a1, Start(t));
    var a2, q := a1 + [Start(t)], InRetry(2, false, Starting, t, retried + 1);
    var v2 := v.(on := None, q := Some(q), w := v.w.(running := v.w.running[t := 0]));
    LocalAt(Run(s0, a2).s, v2, BeginRetry(0), q.(run := Some(Phase.Retrying)));
    OneMore(s0, a2, BeginRetry(0));
    assert a2 + [BeginRetry(0)] == a + Taking(t);
  }

  lemma OwnSame(v: View, v1: View, t: ListId)
    requires Own(v, t) && v1.w == v.w && v1.writing == v.writing
    ensures Own(v1, t)
  {
  }

  lemma FinishLast(s0: State, a: seq<Label>, v: View, t: ListId)
    requires Leads(s0, a, v) && v.q.Some? && Free(v) && !v.c.freed
    requires var q := v.q.value;
             q.run == Some(Drop) && q.runner == t && q.users == 1 && Unheld(q.(run := None)) && Quiet(q)
    ensures Leads(s0, a + [FinishDrop(0, false)],
                  v.(q := None, c := v.c.(reqsActive := v.c.reqsActive - 1),
                     w := v.w.(running := v.w.running - {t}, owing := v.w.owing + {t})))
  {
    hide Run, Exec, Sees, AioPutReq, Returned, Unheld, Free;
    FinishDropAt(Run(s0, a).s, v);
    LastPutAt(Returned(Run(s0, a).s, t), v.(w := v.w.(running := v.w.running - {t})), v.q.value.(run := None), Some(t));
    OneMore(s0, a, FinishDrop(0, false));
  }

  // ---- a thread is on its way to put the handler on the work queue

  function Draining(): seq<Label> {
    [Enter(3, false)] + Taking(3) + Completing() + [FinishDrop(0, false)] + [DrainPut(3)] + [Leave(3)]
  }

  /** A system call that reads events takes the request off the run list and completes it. */
  lemma DrainedLeads(s0: State, a: seq<Label>, from: ListId, retried: nat, used: set<ListId>)
    requires Leads(s0, a, Kicked(from, retried, used)) && retried <= RETRY_CAP && 3 !in used
    ensures Leads(s0, a + Draining(), View(Held(2, 0, true).(reqsActive := 0), Nobody(used + {3}).(kickers := 1), None,
                                           None, false, 0))
  {
    hide Run, Exec, Sees, Completing, Taking;
    var v := Kicked(from, retried, used);
    EnterAt(Run(s0, a).s, v, 3, false);
    OneMore(s0, a, Enter(3, false));
    var a1, w1 := a + [Enter(3, false)], Nobody(used + {3}).(kickers := 1, callers := {3});
    assert v.w.callers + {3} == {3};
    TakenLeads(s0, a1, v.(w := w1), 3, from, retried);
    var a2, v2 := a1 + Taking(3), Taken(v.(w := w1), 3, retried + 1);
    CompletedLeads(s0, a2, v2);
    FinishLast(s0, a2 + Completing(), Done(v2), 3);
    assert v2.w.running - {3} == map[] && v2.w.owing + {3} == {3};
    DrainedLeaves(s0, a2 + Completing() + [FinishDrop(0, false)], used);
    assert a2 + Completing() + [FinishDrop(0, false)] + [DrainPut(3)] + [Leave(3)] == a + Draining();
  }

  lemma DrainedLeaves(s0: State, a: seq<Label>, used: set<ListId>)
    requires Leads(s0, a, View(Held(3, 0, true).(reqsActive := 0),
                               Nobody(used + {3}).(kickers := 1, callers := {3}, owing := {3}), None, None, false, 0))
    ensures Leads(s0, a + [DrainPut(3)] + [Leave(3)], View(Held(2, 0, true).(reqsActive := 0),
                                                           Nobody(used + {3}).(kickers := 1), None, None, false, 0))
  {
    hide Run, Exec, Sees;
    var w := Nobody(used + {3}).(kickers := 1, callers := {3});
    var v := View(Held(3, 0, true).(reqsActive := 0), w.(owing := {3}), None, None, false, 0);
    PutAt(Run(s0, a).s, v, DrainPut(3));
    OneMore(s0, a, DrainPut(3));
    assert v.w.owing - {3} == {};
    var a1, v1 := a + [DrainPut(3)], v.(c := Held(2, 0, true).(reqsActive := 0), w := w);
    LeaveAt(Run(s0, a1).s, v1, 3);
    OneMore(s0, a1, Leave(3));
    assert w.callers - {3} == {} && w.workers - {3} == {};
  }

  /** The request is drained and completed and the context destroyed before the thread gets there. */
  lemma LateBreaks(s0: State, a: seq<Label>, from: ListId, retried: nat, used: set<ListId>)
    requires Leads(s0, a, Kicked(from, retried, used)) && retried <= RETRY_CAP && 3 !in used
    ensures Run(s0, a + Draining() + Ending() + [QueueWork]).Bug?
  {
    hide Run, Exec, Sees, Draining, Ending;
    DrainedLeads(s0, a, from, retried, used);
    var a1 := a + Draining();
    EndingFrees(s0, a1, View(Held(2, 0, true).(reqsActive := 0), Nobody(used + {3}).(kickers := 1), None, None, false,
                             0));
    TouchBreaks(Run(s0, a1 + Ending()).s, QueueWork);
    OneMore(s0, a1 + Ending(), QueueWork);
  }

  /** queue_kicked_iocb has queued the request and gets into aio_queue_work (line 894) when the context is gone. */
  lemma KickerBreaks(nr: nat, slots: seq<Event>)
    requires 2 <= nr == |slots|
    ensures Run(IoctxAlloc(nr, slots), KickedRun() + Draining() + Ending() + [QueueWork]).Bug?
  {
    hide Run, KickedRun, Draining, Ending, IoctxAlloc, Leads;
    KickedLeads(nr, slots);
    LateBreaks(IoctxAlloc(nr, slots), KickedRun(), 1, 1, {1});
  }

  // ---- the handler

  function Handling(): seq<Label> {
    KickedRun() + [QueueWork] + [Enter(2, true)] + Taking(2)
  }

  /** The handler is in the retry method of the request. */
  function Handled(): View {
    Kicked(1, 1, {}).(on := None, q := Some(InRetry(2, false, Phase.Retrying, 2, 2)),
                      w := Nobody({1, 2}).(workers := {2}, running := map[2 := 0]))
  }

  lemma HandledLeads(nr: nat, slots: seq<Event>)
    requires 2 <= nr == |slots|
    ensures Leads(IoctxAlloc(nr, slots), Handling(), Handled())
  {
    hide Run, Exec, Sees, KickedRun, Taking, IoctxAlloc;
    var s0, a, v := IoctxAlloc(nr, slots), KickedRun(), Kicked(1, 1, {1});
    KickedLeads(nr, slots);
    QueueWorkAt(Run(s0, a).s, v);
    OneMore(s0, a, QueueWork);
    var a1, v1 := a + [QueueWork], v.(w := Nobody({1}).(work := true));
    EnterAt(Run(s0, a1).s, v1, 2, true);
    OneMore(s0, a1, Enter(2, true));
    var a2, v2 := a1 + [Enter(2, true)], v.(w := Nobody({1, 2}).(workers := {2}));
    assert v1.w.workers + {2} == {2} && v1.w.used + {2} == {1, 2};
    TakenLeads(s0, a2, v2, 2, 1, 1);
    assert v2.w.running[2 := 0] == map[2 := 0];
  }

  function RequeueRun(): seq<Label> {
    Handling() + [ReturnRetry(0)] + [FinishRetry(0)] + [Leave(2)]
  }

  /** The handler's retry ends with the request on the run list again; the handler gives the lock up (line 866) and
      comes to queue itself (line 872) when the last put is already waiting for it in flush_workqueue, so that the
      handler it queues will find the context gone. */
  lemma RequeueBreaks(nr: nat, slots: seq<Event>)
    requires 2 <= nr == |slots|
    ensures Run(IoctxAlloc(nr, slots), RequeueRun() + Draining() + Ending() + [QueueWork]).Bug?
  {
    hide Run, Exec, Sees, Handling, Draining, Ending, IoctxAlloc;
    var s0, a, v := IoctxAlloc(nr, slots), Handling(), Handled();
    HandledLeads(nr, slots);
    var q := InRetry(2, false, Requeue, 2, 2).(kicked := true);
    LocalAt(Run(s0, a).s, v, ReturnRetry(0), q);
    OneMore(s0, a, ReturnRetry(0));
    var a1 := a + [ReturnRetry(0)];
    FinishKickedAt(Run(s0, a1).s, v.(q := Some(q)));
    OneMore(s0, a1, FinishRetry(0));
    var a2, v2 := a1 + [FinishRetry(0)], Kicked(2, 2, {1, 2}).(w := Nobody({1, 2}).(workers := {2}));
    assert v.w.running - {2} == map[];
    LeaveAt(Run(s0, a2).s, v2, 2);
    OneMore(s0, a2, Leave(2));
    assert v2.w.workers - {2} == {} && v2.w.callers - {2} == {};
    LateBreaks(s0, a2 + [Leave(2)], 2, 2, {1, 2});
  }

  function HandlerRun(): seq<Label> {
    Handling() + Completing() + [Destroy] + [OwedPut] + [Cancel(0, true, false)] + [FinishDrop(0, false)] + [DropLookup]
    + [DrainPut(2)]
  }

  /** io_destroy gives the list's reference up and cancels while the handler is past aio_complete and before line 745.
      The handler frees the request, wait_for_all_aios finds none left, without the lock, and io_destroy drops its own
      reference; so the put_ioctx of line 790 frees the context, and the handler goes on to read its run list. */
  lemma HandlerBreaks(nr: nat, slots: seq<Event>)
    requires 2 <= nr == |slots|
    ensures Run(IoctxAlloc(nr, slots), HandlerRun() + [Leave(2)]).Bug?
  {
    hide Run, Exec, Sees, Handling, Completing, IoctxAlloc;
    var s0, a, v := IoctxAlloc(nr, slots), Handling(), Handled();
    HandledLeads(nr, slots);
    CompletedLeads(s0, a, v);
    var a1, v1 := a + Completing(), Done(v);
    DestroyAt(Run(s0, a1).s, v1);
    OneMore(s0, a1, Destroy);
    var a2, v2 := a1 + [Destroy], v1.(c := Held(3, 1, false));
    PutAt(Run(s0, a2).s, v2, OwedPut);
    OneMore(s0, a2, OwedPut);
    var a3, v3 := a2 + [OwedPut], v1.(c := Held(2, 0, false));
    CancelAt(Run(s0, a3).s, v3);
    OneMore(s0, a3, Cancel(0, true, false));
    var a4, v4 := a3 + [Cancel(0, true, false)], v3.(q := Some(v3.q.value.(cancelled := true, onActive := false)));
    FinishLast(s0, a4, v4, 2);
    assert v4.w.running - {2} == map[] && v4.w.owing + {2} == {2};
    HandlerFrees(s0, a4 + [FinishDrop(0, false)],
                 v4.(q := None, c := Held(2, 0, false).(reqsActive := 0),
                     w := Nobody({1, 2}).(workers := {2}, owing := {2})));
  }

  lemma CancelAt(s: State, v: View)
    requires Sees(s, v) && Free(v) && v.q.Some? && v.q.value.onActive && v.c.lookups > |v.w.callers| && !v.c.freed
    ensures Exec(s, Cancel(0, true, false)).Next?
    ensures Sees(Exec(s, Cancel(0, true, false)).s, v.(q := Some(v.q.value.(cancelled := true, onActive := false))))
  {
    hide ListsSeen, RingSeen, Unlocked;
    FreeLock(s, v);
    ReqAt(s, v, v.q.value.(cancelled := true, onActive := false));
  }

  lemma HandlerFrees(s0: State, a: seq<Label>, v: View)
    requires Leads(s0, a, v) && v.q.None? && v.on.None? && !v.writing
    requires v.c == Held(2, 0, false).(reqsActive := 0) && v.w == Nobody({1, 2}).(workers := {2}, owing := {2})
    ensures Run(s0, a + [DropLookup] + [DrainPut(2)] + [Leave(2)]).Bug?
  {
    hide Run, Exec, Sees;
    PutAt(Run(s0, a).s, v, DropLookup);
    OneMore(s0, a, DropLookup);
    var a1, v1 := a + [DropLookup], v.(c := Held(1, 0, false).(reqsActive := 0, lookups := 0));
    FreeAt(Run(s0, a1).s, v1, DrainPut(2));
    OneMore(s0, a1, DrainPut(2));
    var a2 := a1 + [DrainPut(2)];
    NotListed(Run(s0, a1).s, v1, 2);
    TouchBreaks(Run(s0, a2).s, Leave(2));
    OneMore(s0, a2, Leave(2));
  }

  lemma NotListed(s: State, v: View, t: ListId)
    requires Sees(s, v) && v.on.None?
    ensures ListOf(s, t) == []
  {
  }
}
