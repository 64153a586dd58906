/** The retry cap of aio_run_iocb is reached: a request whose retry method always asks to be called again ends up with a
    link that no kick can mend. */
module AioCap {
  import opened Wrappers
  import opened AioModel
  import opened Aio
  import opened AioViews

  function Kiocb(users: int, run: Option<Phase>, link: Link, kicked: bool, k: nat): Req {
    Req(0, 0, users, true, true, run, if k == 0 then 0 else 1, 1, 0, NoFput, false, true, false, link, kicked, false,
        0, 0, true, false, k)
  }

  /** The request is queued after k retries, and its submitter is in __aio_run_iocbs. */
  function Again(k: nat): View {
    View(Held(3, 0, true), Nobody({1}).(callers := {1}), Some(Kiocb(2, None, Listed, k > 0, k)), Some(RUN_LIST), false,
         0)
  }

  function Round(): seq<Label> {
    [Splice(1)] + [Start(1)] + [BeginRetry(0)] + [ReturnRetry(0)] + [FinishRetry(0)]
  }

  /** The attempt after the cap: list_del has poisoned the link, and aio_run_iocb gives up. */
  lemma PoisonAt(s: State, v: View)
    requires Sees(s, v) && v.q.Some? && Own(v, 1) && Idle(v.w, 1) && v.on == Some(1) && !v.c.freed
    requires v.q.value.retried > RETRY_CAP && v.q.value.io
    ensures Exec(s, Start(1)).Next? && Stuck(Exec(s, Start(1)).s, 0)
  {
    hide RingSeen, Idle, Mine;
    OwnLock(s, v, 1);
    assert ListOf(s, 1) == [0];
  }

  /** From the run list through a retry that asks for another, back to the run list. */
  lemma OneRound(s0: State, a: seq<Label>, k: nat)
    requires Leads(s0, a, Again(k)) && k <= RETRY_CAP
    ensures Leads(s0, a + Round(), Again(k + 1))
  {
    hide Run, Exec, Sees;
    var v := Again(k);
    SpliceAt(Run(s0, a).s, v, 1);
    OneMore(s0, a, Splice(1));
    var a1, v1 := a + [Splice(1)], v.(on := Some(1));
    StartAt(Run(s0, a1).s, v1, 1);
    OneMore(s0, a1, Start(1));
    var q := Kiocb(3, Some(Starting), Null, false, k + 1);
    var a2, v2 := a1 + [Start(1)], v.(on := None, q := Some(q), w := v.w.(running := map[1 := 0]));
    assert v.w.running[1 := 0] == map[1 := 0];
    LocalAt(Run(s0, a2).s, v2, BeginRetry(0), q.(run := Some(Phase.Retrying)));
    OneMore(s0, a2, BeginRetry(0));
    RoundEnd(s0, a2 + [BeginRetry(0)], v2.(q := Some(q.(run := Some(Phase.Retrying)))), k);
    assert a2 + [BeginRetry(0)] + [ReturnRetry(0)] + [FinishRetry(0)] == a + Round();
  }

  lemma RoundEnd(s0: State, a: seq<Label>, v: View, k: nat)
    requires Leads(s0, a, v)
    requires v == Again(k).(on := None, q := Some(Kiocb(3, Some(Phase.Retrying), Null, false, k + 1)),
                            w := Again(k).w.(running := map[1 := 0]))
    ensures Leads(s0, a + [ReturnRetry(0)] + [FinishRetry(0)], Again(k + 1))
  {
    hide Run, Exec, Sees;
    var q := Kiocb(3, Some(Requeue), Null, true, k + 1);
    LocalAt(Run(s0, a).s, v, ReturnRetry(0), q);
    OneMore(s0, a, ReturnRetry(0));
    var a1 := a + [ReturnRetry(0)];
    FinishKickedAt(Run(s0, a1).s, v.(q := Some(q)));
    OneMore(s0, a1, FinishRetry(0));
    assert v.w.running - {1} == map[];
  }

  lemma {:induction false} ManyRounds(nr: nat, slots: seq<Event>, k: nat) returns (ls: seq<Label>)
    requires 2 <= nr == |slots| && k <= RETRY_CAP + 1
    ensures Leads(IoctxAlloc(nr, slots), ls, Again(k))
    decreases k
  {
    hide Run, Exec, Sees, IoctxAlloc, Submitting;
    if k == 0 {
      SubmittedLeads(nr, slots);
      ls := Submitting();
    } else {
      var before := ManyRounds(nr, slots, k - 1);
      OneRound(IoctxAlloc(nr, slots), before, k - 1);
      ls := before + Round();
    }
  }

  /** The next attempt after RETRY_CAP + 1 retries leaves the request stuck, so the cap is the exact limit of
      NoLostKick. */
  lemma CapReached(nr: nat, slots: seq<Event>)
    requires 2 <= nr == |slots|
    ensures exists s :: Reachable(s) && Stuck(s, 0)
  {
    hide Run, Exec, Sees, IoctxAlloc, Stuck;
    var k, s0 := RETRY_CAP + 1, IoctxAlloc(nr, slots);
    var a := ManyRounds(nr, slots, k);
    SpliceAt(Run(s0, a).s, Again(k), 1);
    OneMore(s0, a, Splice(1));
    PoisonAt(Run(s0, a + [Splice(1)]).s, Again(k).(on := Some(1)));
    OneMore(s0, a + [Splice(1)], Start(1));
    assert Reachable(Run(s0, a + [Splice(1)] + [Start(1)]).s);
  }
}
