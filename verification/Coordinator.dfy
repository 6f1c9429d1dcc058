/** The coordinator's own operations on the two stores, as they run: live
    operations in place, and start-up recovery row by row. */
module Coordinator {
  import opened Wrappers
  import opened JobTables
  import opened JobRuns

  const MAX_WORKERS: nat := 8

  function Iterate(w: World, e: Event, n: nat): World
    decreases n
  {
    if n == 0 then w else Iterate(Step(w, e), e, n - 1)
  }

  /** An operation as a run: its first step and then n continuations. */
  function Operation(first: Event, accepted: bool, outcome: LedgerState, n: nat): seq<Event> {
    [first] + seq(n, _ => Continue(accepted, outcome))
  }

  lemma {:induction false} IterateIsRun(w: World, e: Event, n: nat)
    ensures Run(w, seq(n, _ => e)) == Iterate(w, e, n)
    decreases n
  {
    if n > 0 {
      assert seq(n, _ => e)[1..] == seq(n - 1, _ => e);
      IterateIsRun(Step(w, e), e, n - 1);
    }
  }

  lemma OperationIsRun(w: World, first: Event, accepted: bool, outcome: LedgerState, n: nat)
    ensures Run(w, Operation(first, accepted, outcome, n)) == Iterate(Step(w, first), Continue(accepted, outcome), n)
  {
    assert Operation(first, accepted, outcome, n)[1..] == seq(n, _ => Continue(accepted, outcome));
    IterateIsRun(Step(w, first), Continue(accepted, outcome), n);
  }

  lemma IterateTwice(w: World, e: Event, n: nat)
    ensures Iterate(w, e, n + 2) == Iterate(Step(Step(w, e), e), e, n)
  {
    assert Iterate(w, e, n + 2) == Iterate(Step(w, e), e, n + 1);
  }

  lemma RunOneIsFiveSteps(w: World, dependenciesLive: bool, outcome: LedgerState)
    requires w.up && w.activity.Idle?
    ensures var taken := Step(w, Take(dependenciesLive));
            Run(w, Operation(Take(dependenciesLive), true, outcome, 5)) ==
            if w.jobs == [] then w
            else if taken.activity.Sending? then
              var started :=
                Proceed(Proceed(Proceed(taken, true, LedgerState.Unknown), true, LedgerState.Unknown), true, outcome);
              Proceed(Proceed(started, true, outcome), true, outcome)
            else Proceed(Proceed(taken, true, LedgerState.Unknown), true, LedgerState.Unknown)
  {
    var c := Continue(true, outcome);
    var taken := Step(w, Take(dependenciesLive));
    OperationIsRun(w, Take(dependenciesLive), true, outcome, 5);
    IterateTwice(taken, c, 3);
    var third := Step(Step(taken, c), c);
    IterateTwice(third, c, 1);
    assert Iterate(Step(Step(third, c), c), c, 1) == Step(Step(Step(third, c), c), c);
  }

  class Host {
    var queue: map<Job, Row>
    var ledger: map<Child, LedgerState>
    var epoch: nat
    var jobs: seq<Queued>
    var running: set<Job>
    var active: nat
    ghost var starts: seq<Start>

    ghost function Now(activity: Activity): World
      reads this
    {
      World(Durable(queue, ledger, epoch), true, jobs, activity, starts)
    }

    method EnqueueChild(root: int, job: Job, createdAt: int, prompt: string, dependencies: seq<string>, admitted: bool,
        accepted: bool)
        returns (ok: bool)
      modifies this
      ensures Now(Idle) == Run(old(Now(Idle)),
                               Operation(Enqueue(root, job, createdAt, prompt, dependencies, admitted), accepted,
                                 LedgerState.Unknown, 2))
      ensures ok <==> jobs != old(jobs)
      ensures active == old(active) && running == old(running)
    {
      ghost var e := Enqueue(root, job, createdAt, prompt, dependencies, admitted);
      ghost var c := Continue(accepted, LedgerState.Unknown);
      OperationIsRun(Now(Idle), e, accepted, LedgerState.Unknown, 2);
      ghost var w1 := Step(Now(Idle), e);
      IterateTwice(w1, c, 0);
      if |jobs| >= MAX_JOBS || |prompt| > MAX_SUMMARY_BYTES || |dependencies| > MAX_DEPENDENCIES
         || (exists i | 0 <= i < |jobs| :: jobs[i].job == job) || !admitted || job in queue {
        return false;
      }
      var q := Queued(job, Child(root, job), epoch, false);
      queue := queue[job := Row(q.child, epoch, createdAt, prompt, dependencies, Intent)];
      if !accepted || q.child in ledger {
        return false;
      }
      ledger := ledger[q.child := LedgerState.Reserved];
      queue := MoveRow(queue, job, Intent, RowState.Reserved);
      jobs := jobs + [q];
      ok := true;
    }

    /** The next job that may still be dispatched; one that may not is released
        and its row deleted. */
    method TakeReadyJob(dependenciesLive: bool) returns (ready: Option<Queued>)
      modifies this
      ensures var taken := Step(old(Now(Idle)), Take(dependenciesLive));
              if old(active) >= MAX_WORKERS || old(jobs) == [] then ready == None && Now(Idle) == old(Now(Idle))
              else if taken.activity.Sending? then ready == Some(taken.activity.q) && Now(Sending(ready.value)) == taken
              else
                && ready == None
                && Now(Idle) == Proceed(Proceed(taken, true, LedgerState.Unknown), true, LedgerState.Unknown)
      ensures active == old(active) && running == old(running)
    {
      if active >= MAX_WORKERS || jobs == [] {
        return None;
      }
      var q := jobs[0];
      jobs := jobs[1..];
      if epoch != q.epoch || !dependenciesLive || q.cancelled {
        ledger := Release(ledger, q.child);
        queue := map j | j in queue && !(j == q.job && queue[j].state.Reserved?) :: queue[j];
        return None;
      }
      ready := Some(q);
    }

    method BeginDispatch(q: Queued)
      modifies this
      ensures Now(Starting(q))
              == Proceed(Proceed(old(Now(Sending(q))), true, LedgerState.Unknown), true, LedgerState.Unknown)
      ensures active == old(active) + 1 && running == old(running) + {q.job}
    {
      active := active + 1;
      running := running + {q.job};
      ledger := Dispatch(ledger, q.child);
      queue := MoveRow(queue, q.job, RowState.Reserved, RowState.Dispatched);
    }

    method FinishDispatch(q: Queued, outcome: LedgerState)
      requires active > 0
      modifies this
      ensures Now(Idle) == Proceed(Proceed(old(Now(Working(q))), true, outcome), true, outcome)
      ensures active == old(active) - 1 && running == old(running) - {q.job}
    {
      var o := if outcome.Completed? || outcome.Failed? then outcome else LedgerState.Unknown;
      ledger := RecordOutcome(ledger, q.child, o);
      queue := MoveRow(queue, q.job, RowState.Dispatched, RowOutcome(o));
      running := running - {q.job};
      active := active - 1;
    }

    /** Runs at most one job; `outcome` is what its worker answers. */
    method RunOne(dependenciesLive: bool, outcome: LedgerState) returns (ran: bool)
      modifies this
      ensures Now(Idle) == if old(active) >= MAX_WORKERS then old(Now(Idle))
                           else Run(old(Now(Idle)), Operation(Take(dependenciesLive), true, outcome, 5))
      ensures ran <==> |starts| == |old(starts)| + 1
      ensures active == old(active)
    {
      RunOneIsFiveSteps(Now(Idle), dependenciesLive, outcome);
      var ready := TakeReadyJob(dependenciesLive);
      if ready.None? {
        return false;
      }
      var q := ready.value;
      BeginDispatch(q);
      starts := starts + [Start(q.job, q.epoch, epoch)];
      FinishDispatch(q, outcome);
      ran := true;
    }

    method CancelJob(job: Job) returns (found: bool)
      modifies this`jobs
      ensures Now(Idle) == Step(old(Now(Idle)), Cancel(job))
      ensures found <==> (exists i | 0 <= i < |old(jobs)| :: old(jobs)[i].job == job) || job in running
    {
      var waiting := jobs;
      found := (exists i | 0 <= i < |waiting| :: waiting[i].job == job) || job in running;
      jobs := seq(|waiting|, i requires 0 <= i < |waiting| =>
          if waiting[i].job == job then waiting[i].(cancelled := true) else waiting[i]);
      assert jobs == Step(old(Now(Idle)), Cancel(job)).jobs;
    }

    method ForgetAll()
      modifies this
      ensures Now(Idle) == Run(old(Now(Idle)), Operation(Forget, true, LedgerState.Unknown, |old(jobs)| + 1))
      ensures epoch == old(epoch) + 1 && jobs == []
      ensures active == old(active) && running == old(running)
    {
      ghost var c := Continue(true, LedgerState.Unknown);
      OperationIsRun(Now(Idle), Forget, true, LedgerState.Unknown, |jobs| + 1);
      ghost var end := Iterate(Step(Now(Idle), Forget), c, |jobs| + 1);
      var pending := jobs;
      epoch := epoch + 1;
      jobs := [];
      while pending != []
        invariant end == Iterate(Now(Forgetting(pending)), c, |pending| + 1)
        invariant epoch == old(epoch) + 1 && jobs == [] && active == old(active) && running == old(running)
        decreases |pending|
      {
        ghost var before := Now(Forgetting(pending));
        ledger := Release(ledger, pending[0].child);
        pending := pending[1..];
        assert Step(before, c) == Now(Forgetting(pending));
      }
      assert end == Step(Now(Forgetting([])), c);
      queue := map j | j in queue && !queue[j].state.Reserved? && !queue[j].state.Intent? :: queue[j];
    }
  }
}
