/** fs/aio.c as a machine of atomic steps. Threads interleave at lock boundaries: a step is a stretch of code run under
    ctx_lock, or a single access made without it. One context is modelled, with any number of requests and threads.
    A thread in the middle of an operation is recorded by what it still has to do: the references it holds, the puts it
    owes, the local run list it drains, the retry it is in, the wake-up it delivers, the access to the context it has
    still to make without a reference. Steps are taken one at a time in any order (memory is sequentially consistent),
    so every interleaving of the operations is a run of the machine. */
module AioModel {
  import opened Wrappers

  type ReqId = nat
  type ListId = nat

  /** iocb->ki_retried may reach this before aio_run_iocb gives up. */
  const RETRY_CAP: nat := 1024 * 1024

  /** List 0 is ctx->run_list; the others are the local lists of threads in __aio_run_iocbs. */
  const RUN_LIST: ListId := 0

  /** struct io_event. */
  datatype Event = Event(obj: int, data: int, res: int, res2: int)

  /** What iocb->ki_run_list holds: NULL pointers, itself, its neighbours on a list, or what list_del leaves. */
  datatype Link = Null | Self | Listed | Poisoned

  /** Where the thread in aio_run_iocb is: before it looks at KIF_CANCELLED; inside the retry method; past the check of
      the wait entry, on its way to take the request up again; in aio_complete, on its way to ctx->wait; or on its way
      to let the request go. */
  datatype Phase = Starting | Retrying | Requeue | Waking | Drop

  /** Whether the request is on fput_head, or has been taken from it by aio_fput_routine. */
  datatype Fput = NoFput | Deferred | Taken

  /** struct kiocb, and the threads at work on it.
      The reference holders are submit, io, run (with the place of the retry) and cancels (the number of cancellers).
      completing is set between the writing and the publishing of its event. woken and kicking count the wake-ups in
      flight: past list_del_init in aio_wake_function but before kiocbTryKick, and past a successful kiocbTryKick but
      before __queue_kicked_iocb. queued says that io_submit_one has put the request on the run list; handed that its
      retry method has given it away with EIOCBQUEUED. runner is the thread in aio_run_iocb, if there is one, and
      submitter the one in io_submit_one, once the request is queued. */
  datatype Req = Req(obj: int, data: int, users: int, submit: bool, io: bool, run: Option<Phase>, runner: ListId,
                     submitter: ListId, cancels: nat, fput: Fput, completing: bool, onActive: bool, cancelled: bool,
                     link: Link, kicked: bool, waiting: bool, woken: nat, kicking: nat, queued: bool, handed: bool,
                     retried: nat)

  /** No wait queue entry and no wake-up in flight. */
  predicate Quiet(q: Req) {
    !q.waiting && q.woken == 0 && q.kicking == 0
  }

  /** No thread with a reference and no list can reach the request any more. */
  predicate Unheld(q: Req) {
    !q.submit && !q.io && q.run.None? && q.cancels == 0 && !q.completing && q.link != Listed
  }

  /** The event ring. writing is a completion that has written its event and not yet published the tail, with ctx_lock
      held; reading an event that a reader has copied without having advanced the head, with ring_lock held.
      done and seen are history: the events published and the events read. */
  datatype Ring = Ring(nr: nat, slots: seq<Event>, head: nat, tail: nat, writing: Option<(ReqId, Event)>,
                       reading: Option<Event>, done: seq<Event>, seen: seq<Event>)

  /** The counts of struct kioctx. listRef is the reference of the mm's list, kept by exit_aio for a while; lookups are
      the references from lookup_ioctx; owed the calls of put_ioctx that threads have still to make. */
  datatype Ctx = Ctx(reqsActive: int, users: int, listRef: bool, listed: bool, dead: bool, exiting: bool, freed: bool,
                     lookups: nat, owed: nat)

  /** The threads in __aio_run_iocbs, named by their local lists: workers come from aio_kick_handler and hold no
      reference on the context, callers are system calls and hold a lookup. running says which request a thread is in
      aio_run_iocb with; owing are those that have still to make the put_ioctx of line 790. A thread in __aio_run_iocbs
      holds ctx_lock unless it is in aio_run_iocb. completers and kickers count the threads that have still to touch
      the context without a reference: past the unlock in aio_complete, on their way to ctx->wait (line 1020), and past
      the unlock in queue_kicked_iocb or, with requests left, in aio_kick_handler, on their way to put the handler on
      the work queue (lines 894 and 872). work says that it is there. used is history: the names of threads so far. */
  datatype Crew = Crew(workers: set<ListId>, callers: set<ListId>, running: map<ListId, ReqId>, owing: set<ListId>,
                       completers: nat, kickers: nat, work: bool, used: set<ListId>)

  /** strays counts the requests that were freed while a wait queue entry or a wake-up in flight still leads to them.
      gone, origin and doneBy are history: the requests freed, the user's iocb address and data of every request ever
      admitted, and the requests whose events have been published. */
  datatype State = State(ring: Ring, ctx: Ctx, crew: Crew, reqs: map<ReqId, Req>, lists: map<ListId, seq<ReqId>>,
                         strays: nat, gone: set<ReqId>, origin: map<ReqId, (int, int)>, doneBy: seq<ReqId>)

  /** Bug stands for a BUG() in the code and for freeing or touching memory that it must not. */
  datatype Outcome = Next(s: State) | Disabled | Bug

  datatype Label =
    | Lookup | DropLookup | Destroy | Exit | ExitPut | OwedPut | DrainPut(t: ListId)
    | Admit(r: ReqId, obj: int, data: int) | Queue(r: ReqId, t: ListId) | Abort(r: ReqId, lastFile: bool)
    | PutSubmit(r: ReqId, lastFile: bool)
    | Enter(t: ListId, worker: bool) | Splice(t: ListId) | Start(t: ListId) | Leave(t: ListId) | BeginRetry(r: ReqId)
    | AddWait(r: ReqId) | RemoveWait(r: ReqId) | HandOff(r: ReqId)
    | ReturnQueued(r: ReqId) | ReturnRetry(r: ReqId) | FinishRetry(r: ReqId) | FinishDrop(r: ReqId, lastFile: bool)
    | Wake(r: ReqId) | TryKick(r: ReqId) | QueueKicked(r: ReqId)
    | CompleteWrite(r: ReqId, res: int, res2: int) | CompletePublish(lastFile: bool)
    | CompleteSilent(r: ReqId, lastFile: bool)
    | Cancel(r: ReqId, all: bool, callback: bool) | PutCancel(r: ReqId, lastFile: bool)
    | ReadCopy | ReadAdvance
    | FputTake(r: ReqId) | FputFinish(r: ReqId)
    | WakeOwn(r: ReqId) | WakeBare | QueueWork | StrayWake

  function ListOf(s: State, t: ListId): seq<ReqId> {
    if t in s.lists then s.lists[t] else []
  }

  /** aio_ring_avail. */
  function RingAvail(g: Ring): nat
    requires g.tail < g.nr
  {
    (g.head + g.nr - 1 - g.tail) % g.nr
  }

  /** ioctx_alloc, with the ring aio_setup_ring has made. */
  function IoctxAlloc(nr: nat, slots: seq<Event>): State {
    State(Ring(nr, slots, 0, 0, None, None, [], []), Ctx(0, 1, true, true, false, false, false, 0, 0),
          Crew({}, {}, map[], {}, 0, 0, false, {}), map[], map[], 0, {}, map[], [])
  }

  function WithCtx(s: State, c: Ctx): Outcome {
    Next(s.(ctx := c))
  }

  function WithReq(s: State, r: ReqId, q: Req): State {
    s.(reqs := s.reqs[r := q])
  }

  /** put_ioctx and __put_ioctx, by the thread in me or by one outside __aio_run_iocbs. The thread that is to free the
      context waits in flush_workqueue until every aio_kick_handler but its own has returned, but not for one that is
      put on the work queue after that began: from then on the context counts as freed. */
  function PutIoctx(s: State, me: set<ListId>): Outcome {
    if s.ctx.freed || s.ctx.users - 1 < 0 then Bug
    else if s.ctx.users - 1 > 0 then Next(s.(ctx := s.ctx.(users := s.ctx.users - 1)))
    else if s.ctx.reqsActive != 0 then Bug
    else if !(s.crew.workers <= me) then Disabled
    else Next(s.(ctx := s.ctx.(users := 0, freed := true), crew := s.crew.(work := false)))
  }

  /** really_put_req. */
  function ReallyPutReq(s: State, r: ReqId): Outcome {
    if s.ctx.freed || r !in s.reqs || !Unheld(s.reqs[r]) || r in s.gone then Bug
    else Next(s.(reqs := s.reqs - {r}, ctx := s.ctx.(reqsActive := s.ctx.reqsActive - 1), gone := s.gone + {r},
                 strays := if Quiet(s.reqs[r]) then s.strays else s.strays + 1))
  }

  /** A thread in __aio_run_iocbs, or another one, has a put of the context to make. */
  function Owe(s: State, who: Option<ListId>): State {
    match who
    case None => s.(ctx := s.ctx.(owed := s.ctx.owed + 1))
    case Some(t) => s.(crew := s.crew.(owing := s.crew.owing + {t}))
  }

  /** __aio_put_req on the request in state q; when it returns 1 its caller owes a put of the context. */
  function AioPutReq(s: State, r: ReqId, q: Req, lastFile: bool, who: Option<ListId>): Outcome {
    if s.ctx.freed || q.users - 1 < 0 then Bug
    else if q.users - 1 > 0 then Next(WithReq(s, r, q.(users := q.users - 1)))
    else if lastFile then
      if s.ctx.users <= 0 || !Unheld(q) then Bug
      else Next(Owe(WithReq(s, r, q.(users := 0, onActive := false, fput := Deferred))
                    .(ctx := s.ctx.(users := s.ctx.users + 1)), who))
    else ReallyPutReq(Owe(WithReq(s, r, q.(users := 0, onActive := false)), who), r)
  }

  /** The put at the end of aio_complete. A completer that is not the last user goes on to ctx->wait without a
      reference, unless it is the request's own retry, which holds one on the request. */
  function PutCompleted(s: State, r: ReqId, q: Req, lastFile: bool): Outcome {
    if q.users > 1 && q.run != Some(Waking)
    then AioPutReq(s.(crew := s.crew.(completers := s.crew.completers + 1)), r, q, lastFile, None)
    else AioPutReq(s, r, q, lastFile, None)
  }

  predicate Inside(w: Crew, t: ListId) {
    t in w.workers || t in w.callers
  }

  /** ctx_lock is held neither by a completion nor by a thread in __aio_run_iocbs. */
  predicate Unlocked(s: State) {
    s.ring.writing.None? && forall t | t in s.crew.workers + s.crew.callers :: t in s.crew.running
  }

  /** It is not, unless by t. */
  predicate Mine(s: State, t: ListId) {
    s.ring.writing.None? && forall u | u in s.crew.workers + s.crew.callers :: u != t ==> u in s.crew.running
  }

  /** list_add_tail to a run list. */
  function AddTail(s: State, r: ReqId): map<ListId, seq<ReqId>> {
    s.lists[RUN_LIST := ListOf(s, RUN_LIST) + [r]]
  }

  /** __queue_kicked_iocb on the request in state q. */
  function QueueKickedIocb(s: State, r: ReqId, q: Req): State {
    if q.link == Self then WithReq(s, r, q.(link := Listed)).(lists := AddTail(s, r)) else WithReq(s, r, q)
  }

  /** Some system call on the context is neither in __aio_run_iocbs nor in aio_read_evt. */
  predicate Spare(s: State) {
    s.ctx.lookups > |s.crew.callers| + (if s.ring.reading.Some? then 1 else 0)
  }

  /** The I/O of a request may be completed: by whoever it was handed to, or by its own retry, with a result or because
      it has been cancelled. */
  predicate MayComplete(q: Req) {
    q.io && (q.handed || OwnRetry(q))
  }

  predicate OwnRetry(q: Req) {
    !q.handed && (q.run == Some(Retrying) || (q.run == Some(Starting) && q.cancelled))
  }

  /** A retry method returns a result although the wait entry is still queued: BUG_ON at line 732. */
  predicate StillQueued(q: Req) {
    !q.handed && q.run == Some(Retrying) && q.waiting
  }

  /** The thread that completes a request from its own retry will wake the readers and let the request go. */
  function Completed(q: Req): Req {
    if OwnRetry(q) then q.(run := Some(Waking)) else q
  }

  function Without(l: seq<ReqId>, r: ReqId): seq<ReqId> {
    if l == [] then [] else (if l[0] == r then [] else [l[0]]) + Without(l[1..], r)
  }

  /** aio_complete takes the request off a run list it finds it on. */
  function Unlist(s: State, r: ReqId, q: Req): map<ListId, seq<ReqId>> {
    if q.link == Listed then map t | t in s.lists :: Without(s.lists[t], r) else s.lists
  }

  predicate OnContext(l: Label) {
    l.Lookup? || l.DropLookup? || l.Destroy? || l.Exit? || l.ExitPut? || l.OwedPut? || l.DrainPut?
  }

  predicate OnRequest(l: Label) {
    || l.BeginRetry? || l.AddWait? || l.RemoveWait? || l.HandOff? || l.ReturnQueued? || l.ReturnRetry? || l.Wake?
    || l.TryKick? || l.FputTake?
  }

  /** The references on the context. */
  function ContextStep(s: State, l: Label): Outcome {
    var c := s.ctx;
    match l
    case Lookup =>
      // lookup_ioctx
      if !c.listed || c.dead then Disabled
      else if c.freed || c.users <= 0 then Bug
      else WithCtx(s, c.(users := c.users + 1, lookups := c.lookups + 1))
    case DropLookup =>
      if !Spare(s) then Disabled else PutIoctx(s.(ctx := c.(lookups := c.lookups - 1)), {})
    case Destroy =>
      // io_destroy, up to the write_unlock: the list's reference is dropped by whoever finds the context alive
      if !Spare(s) then Disabled
      else if c.freed then Bug
      else if c.dead then WithCtx(s, c.(listed := false))
      else WithCtx(s, c.(dead := true, listed := false, listRef := false, owed := c.owed + 1))
    case Exit =>
      // exit_aio unlinks the context and marks it dead; no system call can be using it
      if !c.listed || c.lookups != 0 then Disabled
      else if c.freed then Bug
      else WithCtx(s, c.(listed := false, dead := true, exiting := true))
    case ExitPut =>
      // after wait_for_all_aios and flush_workqueue
      if !c.exiting || c.reqsActive != 0 || s.crew.workers != {} then Disabled
      else PutIoctx(s.(ctx := c.(exiting := false, listRef := false)), {})
    case OwedPut =>
      if c.owed == 0 then Disabled else PutIoctx(s.(ctx := c.(owed := c.owed - 1)), {})
    case DrainPut(t) =>
      if t !in s.crew.owing || !Mine(s, t) then Disabled
      else PutIoctx(s.(crew := s.crew.(owing := s.crew.owing - {t})), {t})
    case _ => Disabled
  }

  function NewReq(obj: int, data: int): Req {
    Req(obj, data, 2, true, true, None, 0, 0, 0, NoFput, false, true, false, Self, false, false, 0, 0, false, false, 0)
  }

  /** __aio_get_req. */
  function AdmitStep(s: State, r: ReqId, obj: int, data: int): Outcome {
    if !Unlocked(s) || !Spare(s) || r in s.reqs || r in s.gone || r in s.origin then Disabled
    else if s.ctx.freed || s.ctx.users <= 0 || s.ring.tail >= s.ring.nr then Bug
    else if s.ctx.reqsActive >= RingAvail(s.ring) then Disabled
    else Next(WithReq(s, r, NewReq(obj, data))
              .(ctx := s.ctx.(users := s.ctx.users + 1, reqsActive := s.ctx.reqsActive + 1),
                origin := s.origin[r := (obj, data)]))
  }

  predicate MayEnter(s: State, t: ListId) {
    t != RUN_LIST && t !in s.crew.used && t !in s.crew.callers && ListOf(s, t) == []
  }

  /** A system call comes into __aio_run_iocbs. */
  function Entered(w: Crew, t: ListId): Crew {
    w.(callers := w.callers + {t}, used := w.used + {t})
  }

  /** io_submit_one and the drop of its extra reference; and the put a canceller makes. */
  function SubmitStep(s: State, l: Label): Outcome
    requires l.Queue? || l.Abort? || l.PutSubmit? || l.Cancel? || l.PutCancel?
  {
    if !Unlocked(s) || l.r !in s.reqs then Disabled
    else
      var r, q := l.r, s.reqs[l.r];
      match l
      case Queue(_, t) =>
        // io_submit_one keeps the lock and goes on into __aio_run_iocbs
        if !q.submit || !q.io || q.queued || !MayEnter(s, t) || !Spare(s) then Disabled
        else if s.ctx.freed then Bug
        else Next(WithReq(s, r, q.(link := Listed, queued := true, submitter := t))
                  .(lists := AddTail(s, r), crew := Entered(s.crew, t)))
      case Abort(_, lastFile) =>
        // out_put_req: the I/O reference of a request that was never queued
        if !q.io || q.queued then Disabled else AioPutReq(s, r, q.(io := false), lastFile, None)
      case PutSubmit(_, lastFile) =>
        // once the submitter has drained the run list
        if !q.submit || (q.queued && q.submitter in s.crew.callers) then Disabled
        else AioPutReq(s, r, q.(submit := false), lastFile, None)
      case Cancel(_, all, callback) =>
        // sys_io_cancel, and aio_cancel_all for io_destroy and exit_aio
        if (!Spare(s) && !s.ctx.exiting) || !q.onActive || !(all || callback) then Disabled
        else if s.ctx.freed then Bug
        else
          var q1 := q.(cancelled := true, onActive := !all);
          Next(WithReq(s, r, if callback then q1.(users := q1.users + 1, cancels := q1.cancels + 1) else q1))
      case PutCancel(_, lastFile) =>
        if q.cancels == 0 then Disabled else AioPutReq(s, r, q.(cancels := q.cancels - 1), lastFile, None)
  }

  /** The thread in __aio_run_iocbs is between two turns of its loop. */
  predicate Idle(w: Crew, t: ListId) {
    t in w.workers + w.callers && t !in w.running && t !in w.owing
  }

  /** A thread comes into __aio_run_iocbs, or leaves it for good. A system call stays until the run list is empty
      (lines 841 and 1547). aio_kick_handler looks at the run list and at ctx->mm (lines 794 and 865), and if there are
      requests left it goes on, without the lock, to queue itself again (line 872): flush_workqueue will wait for it,
      but not for what it queues. */
  function CrewStep(s: State, l: Label): Outcome
    requires l.Enter? || l.Leave?
  {
    var w, t := s.crew, l.t;
    match l
    case Enter(_, worker) =>
      if !Unlocked(s) || !MayEnter(s, t) then Disabled
      else if worker then
        if !w.work then Disabled
        else if s.ctx.freed then Bug
        else Next(s.(crew := w.(workers := w.workers + {t}, work := false, used := w.used + {t})))
      else if !Spare(s) then Disabled
      else if s.ctx.freed then Bug
      else Next(s.(crew := Entered(w, t)))
    case Leave(_) =>
      var more := ListOf(s, RUN_LIST) != [];
      if !Mine(s, t) || !Idle(w, t) || ListOf(s, t) != [] || (t in w.callers && more) then Disabled
      else if s.ctx.freed then Bug
      else Next(s.(crew := w.(workers := w.workers - {t}, callers := w.callers - {t},
                              kickers := if more then w.kickers + 1 else w.kickers)))
  }

  /** list_splice_init in __aio_run_iocbs. */
  function SpliceStep(s: State, t: ListId): Outcome {
    if !Mine(s, t) || !Idle(s.crew, t) || t == RUN_LIST || ListOf(s, t) != [] || ListOf(s, RUN_LIST) == []
    then Disabled
    else if s.ctx.freed then Bug
    else Next(s.(lists := s.lists[t := ListOf(s, RUN_LIST)][RUN_LIST := []]))
  }

  /** One turn of __aio_run_iocbs up to the point where aio_run_iocb releases the lock. */
  function StartStep(s: State, t: ListId): Outcome {
    if !Mine(s, t) || !Idle(s.crew, t) || t == RUN_LIST || ListOf(s, t) == [] then Disabled
    else
      var r := ListOf(s, t)[0];
      if s.ctx.freed || r !in s.reqs then Bug
      else
        var s1, q := s.(lists := s.lists[t := ListOf(s, t)[1..]]), s.reqs[r].(retried := s.reqs[r].retried + 1);
        if s.reqs[r].retried > RETRY_CAP then Next(WithReq(s1, r, q.(link := Poisoned)))
        else Next(WithReq(s1, r, Started(q, t)).(crew := s.crew.(running := s.crew.running[t := r])))
  }

  /** The thread holds a reference and has cleared the link. */
  function Started(q: Req, t: ListId): Req {
    q.(users := q.users + 1, kicked := false, link := Null, run := Some(Starting), runner := t)
  }

  /** The rest of aio_run_iocb, and the retry method: what becomes of the request. */
  function RetryReq(q: Req, l: Label): Option<Req> {
    match l
    case BeginRetry(_) => if q.run != Some(Starting) || q.cancelled then None else Some(q.(run := Some(Retrying)))
    case AddWait(_) => if q.run != Some(Retrying) || q.handed then None else Some(q.(waiting := true))
    case RemoveWait(_) => if q.run != Some(Retrying) then None else Some(q.(waiting := false))
    case HandOff(_) => if q.run != Some(Retrying) then None else Some(q.(handed := true))
    case ReturnQueued(_) => if q.run != Some(Retrying) || !q.handed then None else Some(q.(run := Some(Drop)))
    case ReturnRetry(_) =>
      if q.run != Some(Retrying) || q.handed then None
      else Some(q.(kicked := q.kicked || !q.waiting, run := Some(Requeue)))
    case _ => None
  }

  /** aio_wake_function and kick_iocb. */
  function WakeReq(q: Req, l: Label): Option<Req> {
    match l
    case Wake(_) => if !q.waiting then None else Some(q.(waiting := false, woken := q.woken + 1))
    case TryKick(_) =>
      if q.woken == 0 then None
      else if q.kicked then Some(q.(woken := q.woken - 1))
      else Some(q.(woken := q.woken - 1, kicked := true, kicking := q.kicking + 1))
    case _ => None
  }

  /** A step that changes nothing but one request and needs no lock. */
  function LocalStep(s: State, l: Label): Outcome
    requires OnRequest(l)
  {
    if l.r !in s.reqs then Disabled
    else
      var q := s.reqs[l.r];
      var q' := if l.FputTake? then (if q.fput != Deferred then None else Some(q.(fput := Taken)))
                else if l.Wake? || l.TryKick? then WakeReq(q, l)
                else RetryReq(q, l);
      if q'.None? then Disabled else Next(WithReq(s, l.r, q'.value))
  }

  /** queue_kicked_iocb, up to the unlock; if it has queued the request its thread goes on into aio_queue_work. */
  function QueueKickedStep(s: State, r: ReqId): Outcome {
    if !Unlocked(s) || r !in s.reqs || s.reqs[r].kicking == 0 then Disabled
    else if s.ctx.freed then Bug
    else
      var q := s.reqs[r].(kicking := s.reqs[r].kicking - 1);
      var s1 := if q.link == Self then s.(crew := s.crew.(kickers := s.crew.kickers + 1)) else s;
      Next(QueueKickedIocb(s1, r, q))
  }

  /** An access to memory that no reference of the thread protects, or, for WakeOwn, only one on the request. */
  function TouchStep(s: State, l: Label): Outcome
    requires l.WakeOwn? || l.WakeBare? || l.QueueWork? || l.StrayWake?
  {
    match l
    case WakeOwn(r) =>
      // the end of aio_complete, called by the request's own retry
      if r !in s.reqs || s.reqs[r].run != Some(Waking) || s.reqs[r].completing then Disabled
      else if s.ctx.freed then Bug
      else Next(WithReq(s, r, s.reqs[r].(run := Some(Drop))))
    case WakeBare =>
      // the end of aio_complete, called by anyone else
      if s.crew.completers == 0 then Disabled
      else if s.ctx.freed then Bug
      else Next(s.(crew := s.crew.(completers := s.crew.completers - 1)))
    case QueueWork =>
      // aio_queue_work, called by queue_kicked_iocb, or queue_work, called by aio_kick_handler
      if s.crew.kickers == 0 then Disabled
      else if s.ctx.freed then Bug
      else Next(s.(crew := s.crew.(kickers := s.crew.kickers - 1, work := true)))
    case StrayWake =>
      // aio_wake_function or kick_iocb on a request that has been freed
      if s.strays == 0 then Disabled else Bug
  }

  /** aio_run_iocb has returned to __aio_run_iocbs. */
  function Returned(s: State, t: ListId): State {
    s.(crew := s.crew.(running := s.crew.running - {t}))
  }

  /** The end of aio_run_iocb, with the lock taken again, and the drop of the reference held during the retry. */
  function FinishStep(s: State, l: Label): Outcome
    requires l.FinishRetry? || l.FinishDrop?
  {
    if !Unlocked(s) || l.r !in s.reqs then Disabled
    else
      var r, q := l.r, s.reqs[l.r];
      match l
      case FinishRetry(_) =>
        if q.run != Some(Requeue) then Disabled
        else
          var s1, q1 := Returned(s, q.runner), q.(link := Self, run := None);
          if q.kicked then AioPutReq(QueueKickedIocb(s1, r, q1), r, q1.(link := Listed), false, Some(q.runner))
          else AioPutReq(s1, r, q1, false, Some(q.runner))
      case FinishDrop(_, lastFile) =>
        if q.run != Some(Drop) then Disabled
        else AioPutReq(Returned(s, q.runner), r, q.(run := None), lastFile, Some(q.runner))
  }

  /** aio_complete. A cancelled request gets no event. */
  function CompleteStep(s: State, l: Label): Outcome
    requires l.CompleteWrite? || l.CompleteSilent?
  {
    if !Unlocked(s) || l.r !in s.reqs || !MayComplete(s.reqs[l.r]) then Disabled
    else
      var r, q, g := l.r, s.reqs[l.r], s.ring;
      var link := if q.link == Listed then Self else q.link;
      if s.ctx.freed || q.link == Poisoned || StillQueued(q) then Bug
      else match l
        case CompleteWrite(_, res, res2) =>
          if q.cancelled then Disabled
          else if g.tail >= |g.slots| then Bug
          else
            var ev := Event(q.obj, q.data, res, res2);
            Next(WithReq(s, r, Completed(q).(link := link, completing := true))
                 .(lists := Unlist(s, r, q), ring := g.(slots := g.slots[g.tail := ev], writing := Some((r, ev)))))
        case CompleteSilent(_, lastFile) =>
          if !q.cancelled then Disabled
          else PutCompleted(s.(lists := Unlist(s, r, q)), r, Completed(q).(link := link, io := false), lastFile)
  }

  /** The end of aio_complete: the tail moves on, and the reference of the I/O is dropped. */
  function PublishStep(s: State, lastFile: bool): Outcome {
    if s.ring.writing.None? then Disabled
    else
      var r := s.ring.writing.value.0;
      if s.ring.nr == 0 || r !in s.reqs then Bug
      else PutCompleted(s.(ring := TailMoved(s.ring), doneBy := s.doneBy + [r]), r,
                        s.reqs[r].(io := false, completing := false), lastFile)
  }

  /** The event written becomes the last of those published. */
  function TailMoved(g: Ring): Ring
    requires g.nr > 0 && g.writing.Some?
  {
    g.(tail := (g.tail + 1) % g.nr, done := g.done + [g.writing.value.1], writing := None)
  }

  /** aio_read_evt. */
  function ReadStep(s: State, l: Label): Outcome
    requires l.ReadCopy? || l.ReadAdvance?
  {
    var g := s.ring;
    match l
    case ReadCopy =>
      if g.reading.Some? || !Spare(s) then Disabled
      else if s.ctx.freed || g.nr == 0 || |g.slots| != g.nr then Bug
      else
        var head := g.head % g.nr;
        if head == g.tail then Disabled else Next(s.(ring := g.(reading := Some(g.slots[head]))))
    case ReadAdvance =>
      if g.reading.None? then Disabled
      else if s.ctx.freed || g.nr == 0 then Bug
      else Next(s.(ring := g.(head := (g.head % g.nr + 1) % g.nr, seen := g.seen + [g.reading.value], reading := None)))
  }

  /** aio_fput_routine, once it has taken the request from fput_head and released the file. */
  function FputFinishStep(s: State, r: ReqId): Outcome {
    if !Unlocked(s) || r !in s.reqs || s.reqs[r].fput != Taken then Disabled
    else ReallyPutReq(s.(ctx := s.ctx.(owed := s.ctx.owed + 1)), r)
  }

  function Exec(s: State, l: Label): Outcome {
    if l.Admit? then AdmitStep(s, l.r, l.obj, l.data)
    else if l.Queue? || l.Abort? || l.PutSubmit? || l.Cancel? || l.PutCancel? then SubmitStep(s, l)
    else if l.Enter? || l.Leave? then CrewStep(s, l)
    else if l.Splice? then SpliceStep(s, l.t)
    else if l.Start? then StartStep(s, l.t)
    else if l.FinishRetry? || l.FinishDrop? then FinishStep(s, l)
    else if l.QueueKicked? then QueueKickedStep(s, l.r)
    else if l.CompleteWrite? || l.CompleteSilent? then CompleteStep(s, l)
    else if l.CompletePublish? then PublishStep(s, l.lastFile)
    else if l.ReadCopy? || l.ReadAdvance? then ReadStep(s, l)
    else if l.FputFinish? then FputFinishStep(s, l.r)
    else if l.WakeOwn? || l.WakeBare? || l.QueueWork? || l.StrayWake? then TouchStep(s, l)
    else if OnContext(l) then ContextStep(s, l)
    else LocalStep(s, l)
  }

  /** A run of the machine: it stops at the first Bug, and a step that is not enabled does not happen. */
  function Run(s: State, ls: seq<Label>): Outcome
    decreases ls
  {
    if ls == [] then Next(s)
    else match Exec(s, ls[0])
      case Next(s') => Run(s', ls[1..])
      case Disabled => Run(s, ls[1..])
      case Bug => Bug
  }
}
