/** What the coordinator's operations come to, over whole runs: what a
    cancellation prevents, when a queued job starts, whose answer a row's outcome
    is, and what forgetting and recovery leave behind. */
module JobEffects {
  import opened Wrappers
  import opened JobTables
  import opened JobRuns

  // Cancellation.

  /** The job is past its enqueueing or its last checks in the live process. */
  predicate OnItsWay(a: Activity, j: Job) {
    (a.Reserving? || a.Marking? || a.Sending? || a.Recording? || a.Starting?) && a.q.job == j
  }

  /** No step of the live process leads to a start of this job: wherever it
      waits it is cancelled. */
  predicate Barred(w: World, j: Job) {
    && w.up && !w.activity.Recovering? && !OnItsWay(w.activity, j)
    && forall i | 0 <= i < |w.jobs| && w.jobs[i].job == j :: w.jobs[i].cancelled
  }

  /** The process does not die, and the job is not enqueued anew. */
  predicate Undisturbed(events: seq<Event>, j: Job) {
    forall i | 0 <= i < |events| :: !events[i].Crash? && (events[i].Enqueue? ==> events[i].job != j)
  }

  predicate NoStartOf(j: Job, before: World, after: World) {
    before.starts <= after.starts && forall i | |before.starts| <= i < |after.starts| :: after.starts[i].job != j
  }

  lemma ProceedKeepsBarred(w: World, accepted: bool, outcome: LedgerState, j: Job)
    requires Barred(w, j)
    ensures Barred(Proceed(w, accepted, outcome), j) && NoStartOf(j, w, Proceed(w, accepted, outcome))
  {
    ProceedExtends(w, accepted, outcome);
  }

  lemma StepKeepsBarred(w: World, e: Event, j: Job)
    requires Barred(w, j) && !e.Crash? && (e.Enqueue? ==> e.job != j)
    ensures Barred(Step(w, e), j) && NoStartOf(j, w, Step(w, e))
  {
    if e.Continue? { ProceedKeepsBarred(w, e.accepted, e.outcome, j); }
  }

  lemma {:induction false} BarredNeverStarts(w: World, events: seq<Event>, j: Job)
    requires Barred(w, j) && Undisturbed(events, j)
    ensures NoStartOf(j, w, Run(w, events))
    decreases |events|
  {
    if events != [] {
      StepKeepsBarred(w, events[0], j);
      BarredNeverStarts(Step(w, events[0]), events[1..], j);
    }
  }

  /** Wherever a run has come, once a waiting job is cancelled its worker is not
      started by any events, unless the process dies or the job is enqueued anew. */
  lemma CancelledNeverStarts(before: seq<Event>, after: seq<Event>, j: Job)
    requires Holds(Run(START, before).jobs, j) && Undisturbed(after, j)
    ensures var past := Run(START, before);
            NoStartOf(j, past, Run(Step(past, Cancel(j)), after))
  {
    RunKeeps(START, before);
    BarredNeverStarts(Step(Run(START, before), Cancel(j)), after, j);
  }

  /** A job that was taken when a record it depends on was gone is not started by
      any events, under the same two exceptions. */
  lemma OrphanNeverStarts(before: seq<Event>, after: seq<Event>)
    requires var past := Run(START, before);
             past.up && past.activity.Idle? && past.jobs != [] && Undisturbed(after, past.jobs[0].job)
    ensures var past := Run(START, before);
            NoStartOf(past.jobs[0].job, past, Run(Step(past, Take(false)), after))
  {
    RunKeeps(START, before);
    var past := Run(START, before);
    BarredNeverStarts(Step(past, Take(false)), after, past.jobs[0].job);
  }

  /** The row and the reservation of a job that may be dispatched. */
  function Ready(root: int, j: Job): World {
    var q := Queued(j, Child(root, j), 0, false);
    World(Durable(map[j := Row(q.child, 0, 0, "", [], RowState.Reserved)], map[q.child := LedgerState.Reserved], 0),
          true, [q], Idle, [])
  }

  lemma ReadyIsReached(root: int, j: Job)
    ensures Run(Run(START, [Restart, Resume([]), Enqueue(root, j, 0, "", [], true)]), [GO_ON, GO_ON]) == Ready(root, j)
  {
    RunThree(START, Restart, Resume([]), Enqueue(root, j, 0, "", [], true));
    var idle := Step(Step(START, Restart), Resume([]));
    assert idle == World(Durable(map[], map[], 0), true, [], Idle, []);
    RunThree(Step(idle, Enqueue(root, j, 0, "", [], true)), GO_ON, GO_ON, GO_ON);
  }

  /** The exception: the flag is not stored. When the process dies between the
      cancellation and the job's turn, recovery restores the job unflagged, and it
      starts. */
  lemma CrashForgetsCancellation(root: int, j: Job)
    ensures var ready := Run(Run(START, [Restart, Resume([]), Enqueue(root, j, 0, "", [], true)]), [GO_ON, GO_ON]);
            var restored := Run(Run(ready, [Cancel(j), Crash, Restart]), [Resume(ready.jobs), Take(true), GO_ON]);
            Holds(ready.jobs, j) && Run(restored, [GO_ON, GO_ON]).starts == [Start(j, 0, 0)]
  {
    ReadyIsReached(root, j);
    var ready := Ready(root, j);
    assert ready.jobs[0].job == j;
    RunThree(ready, Cancel(j), Crash, Restart);
    ReadyIsRestored(root, j);
    var risen := ready.(jobs := [], activity := Recovering(0));
    RunThree(risen, Resume(ready.jobs), Take(true), GO_ON);
    RunThree(Step(Step(ready, Take(true)), GO_ON), GO_ON, GO_ON, GO_ON);
  }

  lemma ReadyIsRestored(root: int, j: Job)
    ensures var ready := Ready(root, j);
            && Step(Step(Step(ready, Cancel(j)), Crash), Restart) == ready.(jobs := [], activity := Recovering(0))
            && Step(ready.(jobs := [], activity := Recovering(0)), Resume(ready.jobs)) == ready
  {
    var ready := Ready(root, j);
    var risen := ready.(jobs := [], activity := Recovering(0));
    assert Settled(Seen(risen));
    assert ready.jobs[0].job == j;
    assert Restores(Seen(risen), ready.jobs);
  }

  // Taking a job.

  /** The head of the queue was started or dropped, and nothing else changed. */
  predicate HeadHandled(w: World, now: World, starts: bool)
    requires w.jobs != []
  {
    var q := w.jobs[0];
    && now.starts == w.starts + (if starts then [Start(q.job, q.epoch, q.epoch)] else [])
    && now.jobs == w.jobs[1..] && q.job in w.d.queue
    && now.d.ledger == w.d.ledger[q.child := if starts then LedgerState.Dispatched else LedgerState.Released]
    && now.d.queue == if starts then w.d.queue[q.job := w.d.queue[q.job].(state := RowState.Dispatched)]
                      else w.d.queue - {q.job}
  }

  lemma HeadIsHandled(w: World, dependenciesLive: bool)
    requires w.up && w.activity.Idle? && w.jobs != []
    requires Stands(w.d, w.jobs[0], RowState.Reserved, LedgerState.Reserved)
    ensures var q := w.jobs[0];
            HeadHandled(w, Run(Run(w, [Take(dependenciesLive), GO_ON, GO_ON]), [GO_ON]),
                        q.epoch == w.d.epoch && dependenciesLive && !q.cancelled)
  {
    var q := w.jobs[0];
    RunThree(w, Take(dependenciesLive), GO_ON, GO_ON);
    var third := Step(Step(Step(w, Take(dependenciesLive)), GO_ON), GO_ON);
    RunThree(third, GO_ON, GO_ON, GO_ON);
    if !(q.epoch == w.d.epoch && dependenciesLive && !q.cancelled) {
      assert third.d.queue == w.d.queue - {q.job};
    }
  }

  /** The job at the head of the queue starts exactly when the epoch is still its
      own, the records it depends on are there and it was not cancelled. When it
      does not, its reservation is released and its row is gone; either way
      nothing else changes in the two stores. */
  lemma HeadStartsExactlyWhen(before: seq<Event>, dependenciesLive: bool)
    requires var w := Run(START, before); w.up && w.activity.Idle? && w.jobs != []
    ensures var w := Run(START, before);
            var q := w.jobs[0];
            HeadHandled(w, Run(Run(w, [Take(dependenciesLive), GO_ON, GO_ON]), [GO_ON]),
                        q.epoch == w.d.epoch && dependenciesLive && !q.cancelled)
  {
    RunKeeps(START, before);
    HeadIsHandled(Run(START, before), dependenciesLive);
  }

  /** Enqueueing. The job joins the end of the queue exactly when the bounds hold,
      it was admitted, neither its job id nor its child id is known, and the ledger
      accepts. A reservation refused after the row was written leaves the intent
      row; every other refusal leaves everything. */
  lemma EnqueuedExactlyWhen(w: World, e: Event, accepted: bool)
    requires w.up && w.activity.Idle? && e.Enqueue?
    ensures var now := Run(w, [e, Continue(accepted, LedgerState.Unknown), Continue(accepted, LedgerState.Unknown)]);
            var child := Child(e.root, e.job);
            var asked :=
              && |w.jobs| < 128 && |e.prompt| <= 4096 && |e.dependencies| <= 64 && e.admitted
              && e.job !in w.d.queue && forall i | 0 <= i < |w.jobs| :: w.jobs[i].job != e.job;
            var row := Row(child, w.d.epoch, e.createdAt, e.prompt, e.dependencies, Intent);
            now == if asked && accepted && child !in w.d.ledger
                   then w.(jobs := w.jobs + [Queued(e.job, child, w.d.epoch, false)],
                           d := w.d.(queue := w.d.queue[e.job := row.(state := RowState.Reserved)],
                                     ledger := w.d.ledger[child := LedgerState.Reserved]))
                   else if asked then w.(d := w.d.(queue := w.d.queue[e.job := row]))
                   else w
  {
    var c := Continue(accepted, LedgerState.Unknown);
    RunThree(w, e, c, c);
    if Acceptable(w, e) {
      var row := Row(Child(e.root, e.job), w.d.epoch, e.createdAt, e.prompt, e.dependencies, Intent);
      assert w.d.queue[e.job := row][e.job := row.(state := RowState.Reserved)]
          == w.d.queue[e.job := row.(state := RowState.Reserved)];
    }
  }

  // Outcomes.

  /** What a worker's answer leaves: the row and the ledger both have completed or
      failed exactly when the worker said so, and unknown otherwise. */
  lemma OutcomeIsTheAnswer(before: seq<Event>, accepted: bool, outcome: LedgerState)
    requires Run(START, before).up && Run(START, before).activity.Working?
    ensures var w := Run(START, before);
            var q := w.activity.q;
            var now := Proceed(Proceed(w, accepted, outcome), accepted, outcome);
            && q.job in now.d.queue && q.child in now.d.ledger
            && (now.d.queue[q.job].state.Completed? <==> outcome.Completed?)
            && (now.d.queue[q.job].state.Failed? <==> outcome.Failed?)
            && (now.d.queue[q.job].state.Unknown? <==> !outcome.Completed? && !outcome.Failed?)
            && (now.d.ledger[q.child].Completed? <==> outcome.Completed?)
            && (now.d.ledger[q.child].Failed? <==> outcome.Failed?)
            && (now.d.ledger[q.child].Unknown? <==> !outcome.Completed? && !outcome.Failed?)
            && now.activity.Idle? && now.starts == w.starts
  {
    RunKeeps(START, before);
  }

  /** The worker of the job answered so at some point of the run. */
  ghost predicate Answered(events: seq<Event>, j: Job, o: LedgerState) {
    exists i :: 0 <= i < |events| && AnsweredAt(events, i, j, o)
  }

  ghost predicate AnsweredAt(events: seq<Event>, i: nat, j: Job, o: LedgerState)
    requires i < |events|
  {
    var w := Run(START, events[..i]);
    w.up && w.activity.Working? && w.activity.q.job == j && events[i].Continue? && events[i].outcome == o
  }

  /** Said by the row, by the ledger, or about to be. */
  predicate Says(w: World, j: Job, row: RowState, o: LedgerState) {
    || w.d.In(j, row)
    || (exists c | c in w.d.ledger :: c.job == j && w.d.ledger[c] == o)
    || (w.activity.Closing? && w.activity.q.job == j && w.activity.outcome == o)
  }

  predicate Ended(row: RowState, o: LedgerState) {
    (row.Completed? && o.Completed?) || (row.Failed? && o.Failed?)
  }

  lemma {:induction false} RunOneMore(w: World, events: seq<Event>, e: Event)
    ensures Run(w, events + [e]) == Step(Run(w, events), e)
    decreases |events|
  {
    if events == [] {
      assert [] + [e] == [e] && [e][1..] == [];
    } else {
      assert (events + [e])[1..] == events[1..] + [e];
      RunOneMore(Step(w, events[0]), events[1..], e);
    }
  }

  lemma RepairSaysNothingNew(d: Durable, rows: set<Job>, j: Job, row: RowState, o: LedgerState)
    requires WellFiled(d) && Ended(row, o)
    ensures Repair(d, rows).In(j, row) ==> d.In(j, row)
    ensures var after := Repair(d, rows).ledger;
            forall c | c in after && after[c] == o :: c in d.ledger && d.ledger[c] == o
  {
    if j in d.queue { RepairedCell(d, rows, j); }
  }

  lemma ProceedSaysTheAnswer(w: World, accepted: bool, outcome: LedgerState, j: Job, row: RowState, o: LedgerState)
    requires Ended(row, o) && Inv(w) && w.up && Says(Proceed(w, accepted, outcome), j, row, o)
    ensures Says(w, j, row, o) || (w.activity.Working? && w.activity.q.job == j && outcome == o)
  {
    var w' := Proceed(w, accepted, outcome);
    ProceedRowSays(w, accepted, outcome, j, row, o);
    if c :| c in w'.d.ledger && c.job == j && w'.d.ledger[c] == o {
      ProceedEntrySays(w, accepted, outcome, c, o);
    }
  }

  lemma ProceedRowSays(w: World, accepted: bool, outcome: LedgerState, j: Job, row: RowState, o: LedgerState)
    requires Ended(row, o)
    ensures var w' := Proceed(w, accepted, outcome);
            && (w'.d.In(j, row) ==>
                  w.d.In(j, row) || (w.activity.Closing? && w.activity.q.job == j && w.activity.outcome == o))
            && (w'.activity.Closing? && w'.activity.q.job == j && w'.activity.outcome == o ==>
                  w.activity.Working? && w.activity.q.job == j && outcome == o)
  {
  }

  lemma ProceedEntrySays(w: World, accepted: bool, outcome: LedgerState, c: Child, o: LedgerState)
    requires (o.Completed? || o.Failed?) && Inv(w) && w.up
    requires c in Proceed(w, accepted, outcome).d.ledger && Proceed(w, accepted, outcome).d.ledger[c] == o
    ensures (c in w.d.ledger && w.d.ledger[c] == o)
            || (w.activity.Working? && w.activity.q.job == c.job && outcome == o)
  {
  }

  lemma StepSaysTheAnswer(w: World, e: Event, j: Job, row: RowState, o: LedgerState)
    requires Ended(row, o) && Inv(w) && Says(Step(w, e), j, row, o)
    ensures Says(w, j, row, o)
            || (w.up && w.activity.Working? && w.activity.q.job == j && e.Continue? && e.outcome == o)
  {
    match e {
      case Continue(accepted, outcome) => if w.up { ProceedSaysTheAnswer(w, accepted, outcome, j, row, o); }
      case RecoveryWrite(rows) =>
        if w.up && w.activity.Recovering? { RepairSaysNothingNew(Seen(w), rows, j, row, o); }
      case _ =>
    }
  }

  lemma {:induction false} SaidIsAnswered(events: seq<Event>, j: Job, row: RowState, o: LedgerState)
    requires Ended(row, o) && Says(Run(START, events), j, row, o)
    ensures Answered(events, j, o)
    decreases |events|
  {
    if events != [] {
      var n := |events| - 1;
      var past := Run(START, events[..n]);
      assert events[..n] + [events[n]] == events;
      RunOneMore(START, events[..n], events[n]);
      RunKeeps(START, events[..n]);
      StepSaysTheAnswer(past, events[n], j, row, o);
      if Says(past, j, row, o) {
        SaidIsAnswered(events[..n], j, row, o);
        var i :| 0 <= i < n && AnsweredAt(events[..n], i, j, o);
        assert events[..n][..i] == events[..i];
        assert AnsweredAt(events, i, j, o);
      } else {
        assert AnsweredAt(events, n, j, o);
      }
    }
  }

  /** Over any run, with any crashes and recoveries: a row is completed or failed,
      and so is a reservation, only if its job's own worker answered so. */
  lemma OutcomesAreAnswered(events: seq<Event>, c: Child)
    ensures var d := Run(START, events).d;
            && (d.In(c.job, RowState.Completed) || d.Entry(c) == Some(LedgerState.Completed) ==>
                  Answered(events, c.job, LedgerState.Completed))
            && (d.In(c.job, RowState.Failed) || d.Entry(c) == Some(LedgerState.Failed) ==>
                  Answered(events, c.job, LedgerState.Failed))
  {
    var w := Run(START, events);
    if Says(w, c.job, RowState.Completed, LedgerState.Completed) {
      SaidIsAnswered(events, c.job, RowState.Completed, LedgerState.Completed);
    }
    if Says(w, c.job, RowState.Failed, LedgerState.Failed) {
      SaidIsAnswered(events, c.job, RowState.Failed, LedgerState.Failed);
    }
  }

  // Forgetting.

  function ReleaseAll(ledger: map<Child, LedgerState>, qs: seq<Queued>): map<Child, LedgerState> {
    if qs == [] then ledger else ReleaseAll(Release(ledger, qs[0].child), qs[1..])
  }

  lemma {:induction false} ReleaseAllReleases(ledger: map<Child, LedgerState>, qs: seq<Queued>)
    requires forall i | 0 <= i < |qs| :: qs[i].child in ledger && ledger[qs[i].child].Reserved?
    requires forall i, k | 0 <= i < k < |qs| :: qs[i].child != qs[k].child
    ensures var l := ReleaseAll(ledger, qs);
            && (forall c :: c in l <==> c in ledger)
            && (forall i | 0 <= i < |qs| :: l[qs[i].child].Released?)
            && (forall c | c in l && (forall i | 0 <= i < |qs| :: qs[i].child != c) :: l[c] == ledger[c])
  {
    if qs != [] {
      var next, rest := Release(ledger, qs[0].child), qs[1..];
      assert forall i | 0 <= i < |rest| :: rest[i] == qs[i + 1];
      ReleaseAllReleases(next, rest);
      assert forall i | 0 < i < |qs| :: qs[i] == rest[i - 1];
    }
  }

  lemma WaitingAreReleased(w: World)
    requires Waiting(w, w.jobs)
    ensures var l := ReleaseAll(w.d.ledger, w.jobs);
            && (forall c :: c in l <==> c in w.d.ledger)
            && (forall c | c in l ::
                  l[c] == if exists i :: 0 <= i < |w.jobs| && w.jobs[i].child == c
                          then LedgerState.Released else w.d.ledger[c])
  {
    assert forall i | 0 <= i < |w.jobs| :: Stands(w.d, w.jobs[i], RowState.Reserved, LedgerState.Reserved);
    ReleaseAllReleases(w.d.ledger, w.jobs);
  }

  function Undispatchable(queue: map<Job, Row>): map<Job, Row> {
    map j | j in queue && !queue[j].state.Reserved? && !queue[j].state.Intent? :: queue[j]
  }

  lemma {:induction false} ReleasingEnds(w: World, pending: seq<Queued>)
    requires w.up && w.activity == Forgetting(pending)
    ensures Run(w, seq(|pending| + 1, _ => GO_ON))
            == w.(d := w.d.(queue := Undispatchable(w.d.queue), ledger := ReleaseAll(w.d.ledger, pending)),
                  activity := Idle)
    decreases |pending|
  {
    var steps := seq(|pending| + 1, _ => GO_ON);
    assert steps[0] == GO_ON && steps[1..] == seq(|pending|, _ => GO_ON);
    if pending != [] {
      ReleasingEnds(Step(w, GO_ON), pending[1..]);
    }
  }

  /** No row is left that could still be dispatched, every waiting reservation is
      released, and every other row and reservation is as it was. */
  ghost predicate Forgotten(w: World, now: World) {
    && now.activity.Idle? && now.jobs == [] && now.d.epoch == w.d.epoch + 1
    && (forall j :: j in now.d.queue <==>
          j in w.d.queue && !w.d.queue[j].state.Reserved? && !w.d.queue[j].state.Intent?)
    && (forall j | j in now.d.queue :: now.d.queue[j] == w.d.queue[j])
    && (forall c :: c in now.d.ledger <==> c in w.d.ledger)
    && forall c | c in w.d.ledger ::
         now.d.ledger[c] == if exists i :: 0 <= i < |w.jobs| && w.jobs[i].child == c
                            then LedgerState.Released else w.d.ledger[c]
  }

  function Cleared(w: World): World {
    var d := Durable(Undispatchable(w.d.queue), ReleaseAll(w.d.ledger, w.jobs), w.d.epoch + 1);
    w.(d := d, jobs := [], activity := Idle)
  }

  lemma ForgettingClears(w: World)
    requires w.up && w.activity.Idle?
    ensures Run(w, [Forget] + seq(|w.jobs| + 1, _ => GO_ON)) == Cleared(w)
  {
    var steps := seq(|w.jobs| + 1, _ => GO_ON);
    assert ([Forget] + steps)[1..] == steps;
    ReleasingEnds(Step(w, Forget), w.jobs);
  }

  lemma ClearedIsForgotten(w: World)
    requires Waiting(w, w.jobs)
    ensures Forgotten(w, Cleared(w))
  {
    WaitingAreReleased(w);
  }

  /** Wherever a run has come, forgetting runs to its end with nothing left to
      start. */
  lemma ForgettingLeavesNothing(before: seq<Event>)
    requires var w := Run(START, before); w.up && w.activity.Idle?
    ensures var w := Run(START, before); Forgotten(w, Run(w, [Forget] + seq(|w.jobs| + 1, _ => GO_ON)))
  {
    RunKeeps(START, before);
    ForgettingClears(Run(START, before));
    ClearedIsForgotten(Run(START, before));
  }

  // Recovery.

  /** What recovery makes of a row and its reservation. A row is still waiting
      afterwards exactly when it was reserved under the current epoch and its
      reservation stands, and then nothing changed. One that may have been
      dispatched is unknown, in row and reservation; one that was set aside
      carries no prompt and no dependency any more. What was finished stays. No
      reservation is left dispatched, and none reserved for a row that is not
      waiting. */
  lemma RecoveryDecides(d: Durable, j: Job)
    requires WellFiled(d) && j in d.queue
    ensures var row, child := d.queue[j], d.queue[j].child;
            var end := Recovered(d);
            var l := d.Entry(child);
            && (end.In(j, RowState.Reserved) <==>
                  row.state.Reserved? && row.epoch == d.epoch && l == Some(LedgerState.Reserved))
            && (end.In(j, RowState.Reserved) ==> end.queue[j] == row && end.Entry(child) == l)
            && (j in end.queue ==> !end.queue[j].state.Intent? && !end.queue[j].state.Dispatched?)
            && (j !in end.queue ==>
                  && (row.state.Intent? || (row.state.Reserved? && row.epoch != d.epoch))
                  && l != Some(LedgerState.Dispatched) && l != Some(LedgerState.Unknown)
                  && end.Entry(child) == if l == Some(LedgerState.Reserved) then Some(LedgerState.Released) else l)
            && (row.state.Completed? || row.state.Failed? ==>
                  j in end.queue && end.queue[j] == row && end.Entry(child) == l)
            && (row.state.Dispatched? ==> end.In(j, RowState.Unknown))
            && (l == Some(LedgerState.Dispatched) && !row.state.Completed? && !row.state.Failed? ==>
                  end.Entry(child) == Some(LedgerState.Unknown) && end.In(j, RowState.Unknown))
            && (end.In(j, RowState.Unknown) && (row.state.Intent? || row.state.Reserved?) ==>
                  end.queue[j].prompt == "" && end.queue[j].dependencies == [])
  {
  }

  // The ledger.

  /** The entry is where it was, and still settled for good. */
  predicate SettledStays(before: map<Child, LedgerState>, after: map<Child, LedgerState>, c: Child) {
    c in before && !before[c].Reserved? && !before[c].Dispatched? ==> c in after && after[c] == before[c]
  }

  /** And so is a row that has come to its end. */
  predicate FinishedStays(before: map<Job, Row>, after: map<Job, Row>, j: Job) {
    j in before && !before[j].state.Intent? && !before[j].state.Reserved? && !before[j].state.Dispatched? ==>
      j in after && after[j] == before[j]
  }

  lemma ProceedKeepsSettled(w: World, accepted: bool, outcome: LedgerState, c: Child)
    ensures SettledStays(w.d.ledger, Proceed(w, accepted, outcome).d.ledger, c)
  {
  }

  lemma ProceedKeepsFinished(w: World, accepted: bool, outcome: LedgerState, j: Job)
    ensures FinishedStays(w.d.queue, Proceed(w, accepted, outcome).d.queue, j)
  {
  }

  lemma RepairKeepsSettled(d: Durable, rows: set<Job>, c: Child, j: Job)
    ensures SettledStays(d.ledger, Repair(d, rows).ledger, c) && FinishedStays(d.queue, Repair(d, rows).queue, j)
  {
  }

  /** From any two stores whatever: an entry that is completed, failed, unknown or
      released is so for ever, and a completed, failed or unknown row stays as it
      is. */
  lemma {:induction false} SettledForEver(w: World, events: seq<Event>, c: Child, j: Job)
    ensures var d := Run(w, events).d;
            SettledStays(w.d.ledger, d.ledger, c) && FinishedStays(w.d.queue, d.queue, j)
    decreases |events|
  {
    if events != [] {
      var e, next := events[0], Step(w, events[0]);
      match e {
        case Continue(accepted, outcome) =>
          if w.up {
            ProceedKeepsSettled(w, accepted, outcome, c);
            ProceedKeepsFinished(w, accepted, outcome, j);
          }
        case RecoveryWrite(rows) =>
          if w.up && w.activity.Recovering? { RepairKeepsSettled(Seen(w), rows, c, j); }
        case _ =>
      }
      assert SettledStays(w.d.ledger, next.d.ledger, c) && FinishedStays(w.d.queue, next.d.queue, j);
      SettledForEver(next, events[1..], c, j);
    }
  }
}
