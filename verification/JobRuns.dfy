/** The coordinator's runs: every durable write is a step of its own, and the
    process may die between any two of them. */
module JobRuns {
  import opened Wrappers
  import opened JobTables

  const MAX_JOBS: nat := 128
  const MAX_SUMMARY_BYTES: nat := 4 * 1024
  const MAX_DEPENDENCIES: nat := 64

  datatype Queued = Queued(job: Job, child: Child, epoch: nat, cancelled: bool)

  /** What the live process is in the middle of. */
  datatype Activity =
    | Idle
    | Reserving(q: Queued)                    // the intent row is written
    | Marking(q: Queued)                      // the ledger has reserved
    | Sending(q: Queued)                      // taken from the queue, all checks passed
    | Recording(q: Queued)                    // the ledger says dispatched
    | Starting(q: Queued)                     // so does the row
    | Working(q: Queued)                      // the worker runs
    | Closing(q: Queued, outcome: LedgerState) // the ledger has the outcome
    | Dropping(q: Queued, released: bool)     // stale, revoked or cancelled before dispatch
    | Forgetting(pending: seq<Queued>)        // the epoch is raised
    | Recovering(epoch: nat)                  // under the forget epoch read at start-up

  /** A worker's start: the epoch its job was enqueued under, and the epoch then. */
  datatype Start = Start(job: Job, enqueued: nat, current: nat)

  datatype World = World(
    d: Durable,
    up: bool,
    jobs: seq<Queued>,
    activity: Activity,
    starts: seq<Start>)

  datatype Event =
    | Enqueue(root: int, job: Job, createdAt: int, prompt: string, dependencies: seq<string>, admitted: bool)
    | Take(dependenciesLive: bool)
    | Cancel(job: Job)
    | Forget
    | ForgetElsewhere                         // another holder of the memory store forgets
    | Continue(accepted: bool, outcome: LedgerState)
    | Crash
    | Restart
    | RecoveryWrite(rows: set<Job>)
    | Resume(restored: seq<Queued>)

  const START: World := World(Durable(map[], map[], 0), false, [], Idle, [])

  predicate Acceptable(w: World, e: Event)
    requires e.Enqueue?
  {
    && |w.jobs| < MAX_JOBS
    && |e.prompt| <= MAX_SUMMARY_BYTES
    && |e.dependencies| <= MAX_DEPENDENCIES
    && (forall i | 0 <= i < |w.jobs| :: w.jobs[i].job != e.job)
    && e.admitted
    && e.job !in w.d.queue
  }

  predicate Before(a: Row, i: Job, b: Row, j: Job) {
    a.createdAt < b.createdAt || (a.createdAt == b.createdAt && i < j)
  }

  /** The queue as recovery rebuilds it: each reserved row once, in the order of
      creation and then of job id. */
  predicate Restores(d: Durable, jobs: seq<Queued>) {
    && (forall i | 0 <= i < |jobs| ::
          var q := jobs[i];
          d.In(q.job, RowState.Reserved) && d.queue[q.job].child == q.child && d.queue[q.job].epoch == q.epoch
            && !q.cancelled)
    && (forall i, k | 0 <= i < k < |jobs| ::
           Before(d.queue[jobs[i].job], jobs[i].job, d.queue[jobs[k].job], jobs[k].job))
    && (forall j | j in d.queue && d.queue[j].state.Reserved? :: exists i :: 0 <= i < |jobs| && jobs[i].job == j)
  }

  /** The stores as recovery sees them, under the epoch it read. */
  function Seen(w: World): Durable
    requires w.activity.Recovering?
  {
    w.d.(epoch := w.activity.epoch)
  }

  function Step(w: World, e: Event): World {
    match e
    case Crash => w.(up := false, jobs := [], activity := Idle)
    case Restart => if w.up then w else w.(up := true, jobs := [], activity := Recovering(w.d.epoch))
    case RecoveryWrite(rows) =>
      if w.up && w.activity.Recovering? then w.(d := Repair(Seen(w), rows).(epoch := w.d.epoch)) else w
    case Resume(restored) =>
      if w.up && w.activity.Recovering? && Settled(Seen(w)) && Restores(Seen(w), restored)
      then w.(jobs := restored, activity := Idle) else w
    case ForgetElsewhere => w.(d := w.d.(epoch := w.d.epoch + 1))
    case Continue(accepted, outcome) => if w.up then Proceed(w, accepted, outcome) else w
    case Cancel(job) =>
      w.(jobs := seq(|w.jobs|, i requires 0 <= i < |w.jobs| =>
           if w.jobs[i].job == job then w.jobs[i].(cancelled := true) else w.jobs[i]))
    case _ => if w.up && w.activity.Idle? then Begin(w, e) else w
  }

  function Begin(w: World, e: Event): World
    requires e.Enqueue? || e.Take? || e.Forget?
  {
    match e
    case Enqueue(root, job, createdAt, prompt, dependencies, _) =>
      if !Acceptable(w, e) then w else
      var row := Row(Child(root, job), w.d.epoch, createdAt, prompt, dependencies, Intent);
      w.(d := w.d.(queue := w.d.queue[job := row]), activity := Reserving(Queued(job, row.child, row.epoch, false)))
    case Take(dependenciesLive) =>
      if w.jobs == [] then w else
      var q := w.jobs[0];
      w.(jobs := w.jobs[1..],
         activity := if q.epoch == w.d.epoch && dependenciesLive && !q.cancelled then Sending(q)
           else Dropping(q, false))
    case Forget => w.(d := w.d.(epoch := w.d.epoch + 1), jobs := [], activity := Forgetting(w.jobs))
  }

  function WithLedger(w: World, ledger: map<Child, LedgerState>): World { w.(d := w.d.(ledger := ledger)) }

  /** UPDATE ... WHERE job_id = j AND state = from */
  function MoveRow(queue: map<Job, Row>, j: Job, from: RowState, to: RowState): map<Job, Row> {
    if j in queue && queue[j].state == from then queue[j := queue[j].(state := to)] else queue
  }

  function WithRow(w: World, j: Job, from: RowState, to: RowState): World {
    w.(d := w.d.(queue := MoveRow(w.d.queue, j, from, to)))
  }

  function RowOutcome(outcome: LedgerState): RowState {
    match outcome
    case Completed => RowState.Completed
    case Failed => RowState.Failed
    case _ => RowState.Unknown
  }

  function Proceed(w: World, accepted: bool, outcome: LedgerState): World {
    match w.activity
    case Idle => w
    case Recovering(_) => w
    case Reserving(q) =>
      // The ledger refuses an id it already knows, and may refuse for its own reasons.
      if accepted && q.child !in w.d.ledger
      then WithLedger(w, w.d.ledger[q.child := LedgerState.Reserved]).(activity := Marking(q))
      else w.(activity := Idle)
    case Marking(q) => WithRow(w, q.job, Intent, RowState.Reserved).(jobs := w.jobs + [q], activity := Idle)
    case Sending(q) =>
      WithLedger(w, Dispatch(w.d.ledger, q.child)).(activity := Recording(q))
    case Recording(q) => WithRow(w, q.job, RowState.Reserved, RowState.Dispatched).(activity := Starting(q))
    case Starting(q) => w.(activity := Working(q), starts := w.starts + [Start(q.job, q.epoch, w.d.epoch)])
    case Working(q) =>
      var o := if outcome.Completed? || outcome.Failed? then outcome else LedgerState.Unknown;
      WithLedger(w, RecordOutcome(w.d.ledger, q.child, o)).(activity := Closing(q, o))
    case Closing(q, o) => WithRow(w, q.job, RowState.Dispatched, RowOutcome(o)).(activity := Idle)
    case Dropping(q, released) =>
      if !released then WithLedger(w, Release(w.d.ledger, q.child)).(activity := Dropping(q, true))
      else
        var kept := map j | j in w.d.queue && !(j == q.job && w.d.queue[j].state.Reserved?) :: w.d.queue[j];
        w.(d := w.d.(queue := kept), activity := Idle)
    case Forgetting(pending) =>
      if pending != []
      then WithLedger(w, Release(w.d.ledger, pending[0].child)).(activity := Forgetting(pending[1..]))
      else
        var kept := map j | j in w.d.queue && !w.d.queue[j].state.Reserved? && !w.d.queue[j].state.Intent? ::
                      w.d.queue[j];
        w.(d := w.d.(queue := kept), activity := Idle)
  }

  function Run(w: World, events: seq<Event>): World
    decreases |events|
  {
    if events == [] then w else Run(Step(w, events[0]), events[1..])
  }

  // The invariant.

  /** The queued job's row and reservation stand as given. */
  ghost predicate Stands(d: Durable, q: Queued, row: RowState, entry: LedgerState) {
    && q.child.job == q.job
    && d.In(q.job, row)
    && d.queue[q.job].child == q.child
    && d.queue[q.job].epoch == q.epoch
    && d.Entry(q.child) == Some(entry)
  }

  ghost predicate Started(w: World, j: Job) { exists i :: 0 <= i < |w.starts| && w.starts[i].job == j }

  ghost predicate Waiting(w: World, qs: seq<Queued>) {
    && (forall i | 0 <= i < |qs| :: Stands(w.d, qs[i], RowState.Reserved, LedgerState.Reserved))
    && (forall i, k | 0 <= i < k < |qs| :: qs[i].job != qs[k].job)
  }

  ghost predicate Holds(qs: seq<Queued>, j: Job) { exists i :: 0 <= i < |qs| && qs[i].job == j }

  /** What the live process knows of the job in its hands. */
  ghost predicate Handling(w: World) {
    match w.activity
    case Idle => true
    case Recovering(epoch) => epoch <= w.d.epoch
    case Reserving(q) => q.child.job == q.job && w.d.In(q.job, Intent) && w.d.queue[q.job].child == q.child
                         && w.d.queue[q.job].epoch == q.epoch && q.epoch <= w.d.epoch && !q.cancelled
                         && !Charged(w.d.Entry(q.child))
    case Marking(q) => Stands(w.d, q, Intent, LedgerState.Reserved) && q.epoch <= w.d.epoch && !q.cancelled
    case Sending(q) => Stands(w.d, q, RowState.Reserved, LedgerState.Reserved) && q.epoch <= w.d.epoch
    case Recording(q) => Stands(w.d, q, RowState.Reserved, LedgerState.Dispatched) && q.epoch <= w.d.epoch
    case Starting(q) => Stands(w.d, q, RowState.Dispatched, LedgerState.Dispatched) && q.epoch <= w.d.epoch
      && !Started(w, q.job)
    case Working(q) => Stands(w.d, q, RowState.Dispatched, LedgerState.Dispatched)
    case Closing(q, o) => Stands(w.d, q, RowState.Dispatched, o) && !o.Reserved? && !o.Dispatched? && !o.Released?
    case Dropping(q, released) =>
      Stands(w.d, q, RowState.Reserved, if released then Released else LedgerState.Reserved)
    case Forgetting(pending) => Waiting(w, pending) && w.jobs == []
  }

  ghost predicate InHand(w: World, j: Job) {
    match w.activity
    case Idle => false
    case Recovering(_) => false
    case Forgetting(pending) => Holds(pending, j)
    case _ => w.activity.q.job == j
  }

  /** History: nothing that started can start again, and no start was from the future. */
  ghost predicate History(w: World) {
    && WellFiled(w.d)
    && (forall i, k | 0 <= i < k < |w.starts| :: w.starts[i].job != w.starts[k].job)
    && (forall i | 0 <= i < |w.starts| :: w.starts[i].enqueued <= w.starts[i].current <= w.d.epoch)
    && (forall i | 0 <= i < |w.starts| ::
          var j := w.starts[i].job;
          j in w.d.queue && !w.d.queue[j].state.Intent? && !w.d.queue[j].state.Reserved?)
  }

  /** No charged reservation without its durable row. */
  ghost predicate WrittenAhead(d: Durable) {
    forall c | c in d.ledger && Charged(d.Entry(c)) :: d.HasRow(c)
  }

  /** A live, recovered process holds every row that could still be charged. */
  ghost predicate Accounted(w: World) {
    && Waiting(w, w.jobs)
    && (forall i | 0 <= i < |w.jobs| :: w.jobs[i].epoch <= w.d.epoch && !InHand(w, w.jobs[i].job))
    && (forall j | && j in w.d.queue && (w.d.queue[j].state.Intent? || w.d.queue[j].state.Reserved?)
                   && Charged(w.d.Entry(w.d.queue[j].child)) ::
          Holds(w.jobs, j) || InHand(w, j))
  }

  ghost predicate Inv(w: World) {
    && History(w) && WrittenAhead(w.d)
    && (w.up ==> Handling(w))
    && (w.up && !w.activity.Recovering? ==> Accounted(w))
    && (!w.up || w.activity.Recovering? ==> w.jobs == [])
    && (!w.up ==> w.activity.Idle?)
  }

  lemma EnqueueKeeps(w: World, e: Event)
    requires Inv(w) && w.up && w.activity.Idle? && e.Enqueue?
    ensures Inv(Begin(w, e))
  {
  }

  lemma BeginKeeps(w: World, e: Event)
    requires Inv(w) && w.up && w.activity.Idle? && (e.Enqueue? || e.Take? || e.Forget?)
    ensures Inv(Begin(w, e))
  {
    if e.Enqueue? { EnqueueKeeps(w, e); }
  }

  lemma ReservingKeeps(w: World, accepted: bool, outcome: LedgerState)
    requires Inv(w) && w.up && w.activity.Reserving?
    ensures Inv(Proceed(w, accepted, outcome))
  {
  }

  lemma MarkingKeeps(w: World, accepted: bool, outcome: LedgerState)
    requires Inv(w) && w.up && w.activity.Marking?
    ensures Inv(Proceed(w, accepted, outcome))
  {
    var q, w' := w.activity.q, Proceed(w, accepted, outcome);
    assert w'.jobs[|w.jobs|] == q;
    forall j | Holds(w.jobs, j) ensures Holds(w'.jobs, j) {
      var i :| 0 <= i < |w.jobs| && w.jobs[i].job == j;
      assert w'.jobs[i].job == j;
    }
  }

  lemma SendingKeeps(w: World, accepted: bool, outcome: LedgerState)
    requires Inv(w) && w.up && w.activity.Sending?
    ensures Inv(Proceed(w, accepted, outcome))
  {
  }

  lemma RecordingKeeps(w: World, accepted: bool, outcome: LedgerState)
    requires Inv(w) && w.up && w.activity.Recording?
    ensures Inv(Proceed(w, accepted, outcome))
  {
  }

  lemma StartingKeeps(w: World, accepted: bool, outcome: LedgerState)
    requires Inv(w) && w.up && w.activity.Starting?
    ensures Inv(Proceed(w, accepted, outcome))
  {
  }

  lemma WorkingKeeps(w: World, accepted: bool, outcome: LedgerState)
    requires Inv(w) && w.up && w.activity.Working?
    ensures Inv(Proceed(w, accepted, outcome))
  {
  }

  lemma ClosingKeeps(w: World, accepted: bool, outcome: LedgerState)
    requires Inv(w) && w.up && w.activity.Closing?
    ensures Inv(Proceed(w, accepted, outcome))
  {
  }

  lemma ReleasingKeeps(w: World, accepted: bool, outcome: LedgerState)
    requires Inv(w) && w.up && w.activity.Dropping? && !w.activity.released
    ensures Inv(Proceed(w, accepted, outcome))
  {
  }

  lemma DroppingKeeps(w: World, accepted: bool, outcome: LedgerState)
    requires Inv(w) && w.up && w.activity.Dropping?
    ensures Inv(Proceed(w, accepted, outcome))
  {
    if !w.activity.released { ReleasingKeeps(w, accepted, outcome); }
  }

  lemma ForgettingKeeps(w: World, accepted: bool, outcome: LedgerState)
    requires Inv(w) && w.up && w.activity.Forgetting?
    ensures Inv(Proceed(w, accepted, outcome))
  {
  }

  lemma ProceedKeeps(w: World, accepted: bool, outcome: LedgerState)
    requires Inv(w) && w.up
    ensures Inv(Proceed(w, accepted, outcome))
  {
    match w.activity {
      case Reserving(_) => ReservingKeeps(w, accepted, outcome);
      case Marking(_) => MarkingKeeps(w, accepted, outcome);
      case Sending(_) => SendingKeeps(w, accepted, outcome);
      case Recording(_) => RecordingKeeps(w, accepted, outcome);
      case Starting(_) => StartingKeeps(w, accepted, outcome);
      case Working(_) => WorkingKeeps(w, accepted, outcome);
      case Closing(_, _) => ClosingKeeps(w, accepted, outcome);
      case Dropping(_, _) => DroppingKeeps(w, accepted, outcome);
      case Forgetting(_) => ForgettingKeeps(w, accepted, outcome);
      case _ =>
    }
  }

  lemma RepairKeepsHistory(w: World, rows: set<Job>)
    requires History(w) && w.activity.Recovering?
    ensures History(w.(d := Repair(Seen(w), rows).(epoch := w.d.epoch)))
  {
    RepairLeavesEnd(Seen(w), rows);
    forall i | 0 <= i < |w.starts| {
      RepairedCell(Seen(w), rows, w.starts[i].job);
    }
  }

  lemma RepairKeepsWrittenAhead(d: Durable, rows: set<Job>)
    requires WellFiled(d) && WrittenAhead(d)
    ensures WrittenAhead(Repair(d, rows))
  {
    forall c | c in d.ledger && d.HasRow(c) {
      RepairedCell(d, rows, c.job);
    }
  }

  lemma RepairKeeps(w: World, rows: set<Job>)
    requires Inv(w) && w.up && w.activity.Recovering?
    ensures Inv(Step(w, RecoveryWrite(rows)))
  {
    RepairKeepsHistory(w, rows);
    RepairKeepsWrittenAhead(Seen(w), rows);
  }

  lemma CancelKeeps(w: World, job: Job)
    requires Inv(w)
    ensures Inv(Step(w, Cancel(job)))
  {
    var w' := Step(w, Cancel(job));
    assert w' == w.(jobs := w'.jobs);
    forall i | 0 <= i < |w.jobs|
      ensures w'.jobs[i] == w.jobs[i].(cancelled := w'.jobs[i].cancelled)
    {
    }
    forall j | Holds(w.jobs, j) ensures Holds(w'.jobs, j) {
      var i :| 0 <= i < |w.jobs| && w.jobs[i].job == j;
      assert w'.jobs[i].job == j;
    }
  }

  lemma RestoredJobsWait(w: World, restored: seq<Queued>)
    requires WellFiled(w.d) && w.activity.Recovering? && w.activity.epoch <= w.d.epoch
    requires Settled(Seen(w)) && Restores(Seen(w), restored)
    ensures Waiting(w, restored)
    ensures forall i | 0 <= i < |restored| :: restored[i].epoch <= w.d.epoch
  {
    forall i | 0 <= i < |restored|
      ensures Stands(w.d, restored[i], RowState.Reserved, LedgerState.Reserved) && restored[i].epoch <= w.d.epoch
    {
      var q := restored[i];
      assert Seen(w).In(q.job, RowState.Reserved) && Owed(Seen(w), q.job).Nothing?;
    }
  }

  lemma ResumeKeeps(w: World, restored: seq<Queued>)
    requires Inv(w) && w.up && w.activity.Recovering? && Settled(Seen(w)) && Restores(Seen(w), restored)
    ensures Inv(w.(jobs := restored, activity := Idle))
  {
    RestoredJobsWait(w, restored);
    var w' := w.(jobs := restored, activity := Idle);
    forall j | j in w.d.queue && (w.d.queue[j].state.Intent? || w.d.queue[j].state.Reserved?)
      ensures Holds(w'.jobs, j)
    {
      assert Owed(Seen(w), j).Nothing?;
    }
  }

  lemma RiseKeeps(w: World)
    requires Inv(w)
    ensures Inv(Step(w, ForgetElsewhere))
  {
  }

  lemma StepKeeps(w: World, e: Event)
    requires Inv(w)
    ensures Inv(Step(w, e))
  {
    match e {
      case Crash =>
      case Restart =>
      case RecoveryWrite(rows) => if w.up && w.activity.Recovering? { RepairKeeps(w, rows); }
      case Resume(restored) =>
        if w.up && w.activity.Recovering? && Settled(Seen(w)) && Restores(Seen(w), restored) {
          ResumeKeeps(w, restored);
        }
      case Continue(accepted, outcome) => if w.up { ProceedKeeps(w, accepted, outcome); }
      case Cancel(job) => CancelKeeps(w, job);
      case ForgetElsewhere => RiseKeeps(w);
      case _ => if w.up && w.activity.Idle? { BeginKeeps(w, e); }
    }
  }

  lemma {:induction false} RunKeeps(w: World, events: seq<Event>)
    requires Inv(w)
    ensures Inv(Run(w, events))
    decreases |events|
  {
    if events != [] {
      StepKeeps(w, events[0]);
      RunKeeps(Step(w, events[0]), events[1..]);
    }
  }

  // What any step adds.

  predicate Final(l: LedgerState) { !l.Reserved? && !l.Released? }

  lemma ProceedExtends(w: World, accepted: bool, outcome: LedgerState)
    ensures var w' := Proceed(w, accepted, outcome);
            && w'.d.epoch == w.d.epoch
            && (|| w'.starts == w.starts
                || (&& w.activity.Starting?
                    && w'.starts == w.starts + [Start(w.activity.q.job, w.activity.q.epoch, w.d.epoch)]))
  {
  }

  lemma LedgerMovesForward(w: World, accepted: bool, outcome: LedgerState, c: Child)
    requires c in w.d.ledger
    ensures var ledger := Proceed(w, accepted, outcome).d.ledger;
            c in ledger && (Final(w.d.ledger[c]) ==> Final(ledger[c]))
  {
  }

  lemma {:induction false} RunExtends(w: World, events: seq<Event>)
    ensures var w' := Run(w, events);
            && w.d.epoch <= w'.d.epoch
            && w.starts <= w'.starts
            && (forall i | |w.starts| <= i < |w'.starts| :: w.d.epoch <= w'.starts[i].current)
            && (forall c | c in w.d.ledger && Final(w.d.ledger[c]) :: c in w'.d.ledger && Final(w'.d.ledger[c]))
    decreases |events|
  {
    if events != [] {
      if events[0].Continue? {
        ProceedExtends(w, events[0].accepted, events[0].outcome);
        forall c | c in w.d.ledger { LedgerMovesForward(w, events[0].accepted, events[0].outcome, c); }
      }
      RunExtends(Step(w, events[0]), events[1..]);
    }
  }

  // The results.

  /** Over any run, through any crashes and recoveries, a job's worker starts at
      most once. */
  lemma WorkerStartsAtMostOnce(events: seq<Event>, i: nat, k: nat)
    requires i < |Run(START, events).starts| && k < |Run(START, events).starts|
    requires Run(START, events).starts[i].job == Run(START, events).starts[k].job
    ensures i == k
  {
    RunKeeps(START, events);
  }

  /** A reservation that was ever dispatched is never released, and never
      reserved again. */
  lemma DispatchedIsNeverReleased(before: seq<Event>, after: seq<Event>, c: Child)
    requires Run(START, before).d.Entry(c) == Some(LedgerState.Dispatched)
    ensures var l := Run(Run(START, before), after).d.Entry(c);
            l.Some? && !l.value.Released? && !l.value.Reserved?
  {
    RunExtends(Run(START, before), after);
  }

  /** At no point of any run is a reservation reserved or dispatched in the
      ledger without a durable row that names it. */
  lemma ReservationsAreWrittenAhead(events: seq<Event>, c: Child)
    requires Charged(Run(START, events).d.Entry(c))
    ensures Run(START, events).d.HasRow(c)
  {
    RunKeeps(START, events);
  }

  // The forget fence.

  /** The job that has passed the last check of the epoch and not yet started. */
  predicate Fenceless(a: Activity) { a.Sending? || a.Recording? || a.Starting? }

  /** A job of an older epoch is past its last check. */
  predicate OldInHand(w: World) { Fenceless(w.activity) && w.activity.q.epoch < w.d.epoch }

  /** Nothing enqueued below the epoch of `past` starts after it. */
  predicate NoOldStarts(past: World, after: seq<Event>) {
    var now := Run(past, after);
    forall i | |past.starts| <= i < |now.starts| :: now.starts[i].enqueued >= past.d.epoch
  }

  ghost predicate Fenced(w: World, epoch: nat) {
    epoch <= w.d.epoch && (Fenceless(w.activity) ==> w.activity.q.epoch >= epoch)
  }

  lemma StepStaysFenced(w: World, e: Event, epoch: nat)
    requires Fenced(w, epoch)
    ensures var w' := Step(w, e);
            && Fenced(w', epoch) && w.starts <= w'.starts
            && forall i | |w.starts| <= i < |w'.starts| :: w'.starts[i].enqueued >= epoch
  {
    if e.Continue? { ProceedExtends(w, e.accepted, e.outcome); }
  }

  lemma {:induction false} FencedRunsStartNothingOld(w: World, events: seq<Event>, epoch: nat)
    requires Fenced(w, epoch)
    ensures var w' := Run(w, events);
            w.starts <= w'.starts && forall i | |w.starts| <= i < |w'.starts| :: w'.starts[i].enqueued >= epoch
    decreases |events|
  {
    if events != [] {
      StepStaysFenced(w, events[0], epoch);
      FencedRunsStartNothingOld(Step(w, events[0]), events[1..], epoch);
    }
  }

  lemma RunThree(w: World, a: Event, b: Event, c: Event)
    ensures Run(w, [a]) == Step(w, a)
    ensures Run(w, [a, b]) == Step(Step(w, a), b)
    ensures Run(w, [a, b, c]) == Step(Step(Step(w, a), b), c)
  {
    assert [a, b, c][1..] == [b, c] && [b, c][1..] == [c] && [a, b][1..] == [b];
    assert [a][1..] == [] && [b][1..] == [] && [c][1..] == [];
    assert Run(Step(w, a), [b]) == Step(Step(w, a), b);
    assert Run(Step(Step(w, a), b), [c]) == Step(Step(Step(w, a), b), c);
    assert Run(Step(w, a), [b, c]) == Run(Step(Step(w, a), b), [c]);
  }

  /** An old job past its last check is started by the steps that remain. */
  lemma OldInHandStarts(w: World) returns (after: seq<Event>)
    requires w.up && OldInHand(w)
    ensures !NoOldStarts(w, after)
  {
    var c := Continue(true, LedgerState.Unknown);
    RunThree(w, c, c, c);
    after := if w.activity.Sending? then [c, c, c] else if w.activity.Recording? then [c, c] else [c];
    var now := Run(w, after);
    assert now.starts == w.starts + [Start(w.activity.q.job, w.activity.q.epoch, w.d.epoch)];
    assert now.starts[|w.starts|].enqueued < w.d.epoch;
  }

  /** Wherever a run has come, and however the forget epoch rose, through the
      coordinator or past it: nothing enqueued under an older epoch ever starts
      again, through any crashes and recoveries, exactly unless an older job has
      already passed its last check of the epoch. */
  lemma ForgottenJobsNeverStart(before: seq<Event>)
    ensures var past := Run(START, before); (forall after :: NoOldStarts(past, after)) <==> !OldInHand(past)
  {
    RunKeeps(START, before);
    var past := Run(START, before);
    if OldInHand(past) {
      var after := OldInHandStarts(past);
    } else {
      forall after ensures NoOldStarts(past, after) { FencedRunsStartNothingOld(past, after, past.d.epoch); }
    }
  }

  ghost predicate AllCurrent(w: World) {
    && (Fenceless(w.activity) ==> w.activity.q.epoch == w.d.epoch)
    && forall i | 0 <= i < |w.starts| :: w.starts[i].enqueued == w.starts[i].current
  }

  lemma {:induction false} CurrentRunsStayCurrent(w: World, events: seq<Event>)
    requires AllCurrent(w) && forall i | 0 <= i < |events| :: !events[i].ForgetElsewhere?
    ensures AllCurrent(Run(w, events))
    decreases |events|
  {
    if events != [] {
      if events[0].Continue? { ProceedExtends(w, events[0].accepted, events[0].outcome); }
      CurrentRunsStayCurrent(Step(w, events[0]), events[1..]);
    }
  }

  /** When only the coordinator forgets, no older job is ever past its check:
      every start is of the epoch it was enqueued under. */
  lemma OwnForgettingIsAbsolute(events: seq<Event>)
    requires forall i | 0 <= i < |events| :: !events[i].ForgetElsewhere?
    ensures var w := Run(START, events);
            !OldInHand(w) && forall i | 0 <= i < |w.starts| :: w.starts[i].enqueued == w.starts[i].current
  {
    CurrentRunsStayCurrent(START, events);
  }

  /** A job enqueued from nothing and taken, its check of the epoch passed. */
  function OneJobTaken(): World {
    var q := Queued(2, Child(1, 2), 0, false);
    var row := Row(q.child, 0, 0, "", [], RowState.Reserved);
    World(Durable(map[2 := row], map[q.child := LedgerState.Reserved], 0), true, [], Sending(q), [])
  }

  const GO_ON := Continue(true, LedgerState.Unknown)

  lemma OneJobIsTaken()
    ensures Run(Run(START, [Restart, Resume([]), Enqueue(1, 2, 0, "", [], true)]), [GO_ON, GO_ON, Take(true)])
            == OneJobTaken()
  {
    RunThree(START, Restart, Resume([]), Enqueue(1, 2, 0, "", [], true));
    var idle := Step(Step(START, Restart), Resume([]));
    assert idle == World(Durable(map[], map[], 0), true, [], Idle, []);
    var queued := Step(idle, Enqueue(1, 2, 0, "", [], true));
    RunThree(queued, GO_ON, GO_ON, Take(true));
  }

  /** The one way through: the epoch rises elsewhere between the check and the
      dispatch mark, and the job still starts. */
  lemma RiseAfterCheckIsMissed()
    ensures var taken :=
            Run(Run(START, [Restart, Resume([]), Enqueue(1, 2, 0, "", [], true)]), [GO_ON, GO_ON, Take(true)]);
            var risen := Run(taken, [ForgetElsewhere]);
            OldInHand(risen) && risen.starts == [] && Run(risen, [GO_ON, GO_ON, GO_ON]).starts == [Start(2, 0, 1)]
  {
    OneJobIsTaken();
    RunThree(OneJobTaken(), ForgetElsewhere, GO_ON, GO_ON);
    RunThree(Step(OneJobTaken(), ForgetElsewhere), GO_ON, GO_ON, GO_ON);
  }
}
