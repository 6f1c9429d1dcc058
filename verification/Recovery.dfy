/** Start-up recovery as it runs: the phases in order, row by row, each durable
    write one that the process may not live to make. */
module Recovery {
  import opened Wrappers
  import opened JobTables
  import opened JobRuns
  import Sets

  // A single write, as it changes the two stores.

  lemma RepairOne(d: Durable, j: Job)
    requires WellFiled(d) && j in d.queue
    ensures var e, w := Repair(d, {j}), Owed(d, j);
            && (w.Settle? ==> d.queue[j].child in d.ledger && e == d.(ledger := d.ledger[d.queue[j].child := w.entry]))
            && (w.MarkUnknown? || w.Quarantine? ==> e == d.(queue := d.queue[j := Written(d.queue[j], w)]))
            && (w.Delete? ==> e == d.(queue := map k | k in d.queue && k != j :: d.queue[k]))
  {
    var e, w := Repair(d, {j}), Owed(d, j);
    forall k | k in d.queue { RepairedCell(d, {j}, k); }
    if w.Settle? {
      assert e.queue == d.queue;
      assert e.ledger == d.ledger[d.queue[j].child := w.entry];
    } else {
      assert e.ledger == d.ledger;
      if w.Delete? {
        assert e.queue == map k | k in d.queue && k != j :: d.queue[k];
      } else if w.MarkUnknown? || w.Quarantine? {
        assert e.queue == d.queue[j := Written(d.queue[j], w)];
      }
    }
  }

  lemma RepairKeepsOthers(d: Durable, s: set<Job>, j: Job)
    requires WellFiled(d) && j in d.queue && j !in s
    ensures j in Repair(d, s).queue && Repair(d, s).queue[j] == d.queue[j] && Owed(Repair(d, s), j) == Owed(d, j)
  {
    RepairedCell(d, s, j);
  }

  // Which rows recovery has dealt with so far.

  function Rows(d: Durable, state: RowState): set<Job> {
    set j | j in d.queue && d.queue[j].state == state
  }

  function StaleRows(d: Durable): set<Job> {
    set j | j in d.queue && d.queue[j].state.Reserved? && d.queue[j].epoch != d.epoch
  }

  function CurrentRows(d: Durable): set<Job> {
    set j | j in d.queue && d.queue[j].state.Reserved? && d.queue[j].epoch == d.epoch
  }

  ghost predicate Lists(ids: seq<Job>, s: set<Job>) {
    && (forall i | 0 <= i < |ids| :: ids[i] in s)
    && (forall j | j in s :: j in ids)
    && (forall i, k | 0 <= i < k < |ids| :: ids[i] != ids[k])
  }

  /** Every row but j's stands as before, and is owed what it was. */
  ghost predicate OnlyRow(d: Durable, e: Durable, j: Job) {
    && (forall k | k in d.queue && k != j :: k in e.queue && e.queue[k] == d.queue[k] && Owed(e, k) == Owed(d, k))
    && (forall k | k in e.queue :: k in d.queue)
    && e.epoch == d.epoch
  }

  lemma AfterWrite(d: Durable, j: Job)
    requires WellFiled(d) && j in d.queue
    ensures var e, w := Repair(d, {j}), Owed(d, j);
            && WellFiled(e) && Recovered(e) == Recovered(d) && OnlyRow(d, e, j)
            && (w.Settle? ==> d.queue[j].child in d.ledger && e == d.(ledger := d.ledger[d.queue[j].child := w.entry]))
            && (w.MarkUnknown? || w.Quarantine? ==> e == d.(queue := d.queue[j := Written(d.queue[j], w)]))
            && (w.Delete? ==> e == d.(queue := map k | k in d.queue && k != j :: d.queue[k]))
  {
    RepairOne(d, j);
    RepairLeavesEnd(d, {j});
    forall k | k in d.queue && k != j { RepairKeepsOthers(d, {j}, k); }
  }

  /** The unknown rows are listed, each once, and owed nothing; no row is
      dispatched any more. */
  ghost predicate SetAside(d: Durable, quarantined: seq<Job>) {
    && WellFiled(d)
    && (forall j | j in d.queue :: !d.queue[j].state.Dispatched?)
    && (forall j | j in d.queue && d.queue[j].state.Unknown? :: Owed(d, j).Nothing?)
    && Lists(quarantined, Rows(d, RowState.Unknown))
  }

  lemma ListsMore(ids: seq<Job>, s: set<Job>, j: Job)
    requires Lists(ids, s) && j !in s
    ensures Lists(ids + [j], s + {j})
  {
    forall k | k in s + {j} ensures k in ids + [j] {
      if k == j { assert (ids + [j])[|ids|] == j; }
    }
  }

  /** Of the current rows, those no longer to do are queued in order, each once,
      and come before all that are. */
  ghost predicate RestoredSoFar(d: Durable, jobs: seq<Queued>, todo: set<Job>) {
    && (forall i | 0 <= i < |jobs| ::
          var q := jobs[i];
          && d.In(q.job, RowState.Reserved) && d.queue[q.job].child == q.child && d.queue[q.job].epoch == q.epoch
          && !q.cancelled
          && Owed(d, q.job).Nothing? && q.job !in todo)
    && (forall i, k | 0 <= i < k < |jobs| ::
           Before(d.queue[jobs[i].job], jobs[i].job, d.queue[jobs[k].job], jobs[k].job))
    && (forall i, k | 0 <= i < |jobs| && k in todo && k in d.queue ::
           Before(d.queue[jobs[i].job], jobs[i].job, d.queue[k], k))
    && (forall j | d.In(j, RowState.Reserved) && j !in todo :: exists i :: 0 <= i < |jobs| && jobs[i].job == j)
  }

  lemma RestoredStep(d: Durable, e: Durable, jobs: seq<Queued>, todo: set<Job>, j: Job, jobs': seq<Queued>)
    requires RestoredSoFar(d, jobs, todo) && j in todo && j in d.queue && j in e.queue && OnlyRow(d, e, j)
    requires forall k | k in todo && k != j :: k in d.queue && Before(d.queue[j], j, d.queue[k], k)
    requires if e.queue[j].state.Reserved?
             then e == d && Owed(e, j).Nothing?
               && jobs' == jobs + [Queued(j, e.queue[j].child, e.queue[j].epoch, false)]
             else jobs' == jobs
    ensures RestoredSoFar(e, jobs', todo - {j})
  {
    forall k | e.In(k, RowState.Reserved) && k !in todo - {j}
      ensures exists i :: 0 <= i < |jobs'| && jobs'[i].job == k
    {
      if k == j {
        assert jobs'[|jobs|].job == j;
      } else {
        assert d.In(k, RowState.Reserved);
        var i :| 0 <= i < |jobs| && jobs[i].job == k;
        assert jobs'[i].job == k;
      }
    }
  }

  lemma RestoredEnd(d: Durable, jobs: seq<Queued>, quarantined: seq<Job>)
    requires SetAside(d, quarantined) && RestoredSoFar(d, jobs, {})
    requires forall j | j in d.queue :: !d.queue[j].state.Intent? && j !in StaleRows(d)
    ensures Settled(d) && Restores(d, jobs)
  {
    forall j | j in d.queue && d.queue[j].state.Reserved?
      ensures Owed(d, j).Nothing? && exists i :: 0 <= i < |jobs| && jobs[i].job == j
    {
      assert d.In(j, RowState.Reserved);
    }
  }

  /** The row an ordered query gives first. */
  method FirstOf(queue: map<Job, Row>, s: set<Job>) returns (first: Job)
    requires s != {} && forall j | j in s :: j in queue
    ensures first in s && forall j | j in s && j != first :: Before(queue[first], first, queue[j], j)
  {
    first := Sets.AnyOf(s);
    var rest := s - {first};
    while rest != {}
      invariant first in s && rest <= s && first !in rest
      invariant forall j | j in s && j !in rest && j != first :: Before(queue[first], first, queue[j], j)
      decreases rest
    {
      var j := Sets.AnyOf(rest);
      rest := rest - {j};
      if Before(queue[j], j, queue[first], first) {
        first := j;
      }
    }
  }

  class Process {
    var queue: map<Job, Row>
    var ledger: map<Child, LedgerState>
    const epoch: nat
    var quarantined: seq<Job>
    var jobs: seq<Queued>
    /** The durable writes the process still lives to make. */
    var writesLeft: nat

    ghost function State(): Durable
      reads this
    {
      Durable(queue, ledger, epoch)
    }

    method Live() returns (alive: bool)
      modifies this`writesLeft
      ensures alive ==> State() == old(State())
    {
      alive := writesLeft > 0;
      writesLeft := if alive then writesLeft - 1 else 0;
    }

    /** The call of an unknown row that is still dispatched in the ledger gets
        its unknown outcome there. */
    method SettleUnknown(j: Job) returns (alive: bool)
      requires WellFiled(State()) && j in queue && queue[j].state.Unknown?
      modifies this`ledger, this`writesLeft
      ensures WellFiled(State()) && Recovered(State()) == Recovered(old(State()))
      ensures alive ==> OnlyRow(old(State()), State(), j) && Owed(State(), j).Nothing?
    {
      var child := queue[j].child;
      alive := true;
      if child in ledger && ledger[child].Dispatched? {
        alive := Live();
        if !alive { return; }
        AfterWrite(State(), j);
        ledger := RecordOutcome(ledger, child, LedgerState.Unknown);
        assert State() == Repair(old(State()), {j});
      }
    }

    /** Every unknown row is listed, its call settled. */
    method QuarantineUnknown() returns (alive: bool)
      requires WellFiled(State())
      requires forall j | j in queue :: !queue[j].state.Dispatched?
      modifies this
      ensures WellFiled(State()) && Recovered(State()) == Recovered(old(State()))
      ensures alive ==> SetAside(State(), quarantined)
    {
      quarantined := [];
      var todo := Rows(Durable(queue, ledger, epoch), RowState.Unknown);
      ghost var all := todo;
      while todo != {}
        invariant WellFiled(State()) && Recovered(State()) == Recovered(old(State())) && queue == old(queue)
        invariant todo <= all == Rows(State(), RowState.Unknown)
        invariant Lists(quarantined, all - todo)
        invariant forall j | j in all - todo :: Owed(State(), j).Nothing?
        decreases todo
      {
        var j := Sets.AnyOf(todo);
        alive := SettleUnknown(j);
        if !alive { return; }
        ListsMore(quarantined, all - todo, j);
        assert all - (todo - {j}) == all - todo + {j};
        quarantined := quarantined + [j];
        todo := todo - {j};
      }
      assert all - todo == all;
      alive := true;
    }

    /** Sets a row aside as unknown and forgets its prompt. */
    method QuarantineJob(j: Job) returns (alive: bool)
      requires SetAside(State(), quarantined) && j in queue && Owed(State(), j).Quarantine?
      modifies this
      ensures WellFiled(State()) && Recovered(State()) == Recovered(old(State()))
      ensures alive ==> SetAside(State(), quarantined) && OnlyRow(old(State()), State(), j)
      ensures alive ==> j in queue && queue[j].state.Unknown? && jobs == old(jobs)
    {
      ghost var before := State();
      alive := Live();
      if !alive { return; }
      AfterWrite(before, j);
      queue := queue[j := queue[j].(state := RowState.Unknown, prompt := "", dependencies := [])];
      assert State() == Repair(before, {j});
      ListsMore(quarantined, Rows(before, RowState.Unknown), j);
      quarantined := quarantined + [j];
      assert Rows(State(), RowState.Unknown) == Rows(before, RowState.Unknown) + {j};
    }

    /** Gives the ledger the entry recovery owes a row: a release, or the
        unknown outcome of a call that may have been sent. */
    method SettleEntry(j: Job) returns (alive: bool)
      requires SetAside(State(), quarantined) && j in queue && Owed(State(), j).Settle? && !queue[j].state.Unknown?
      modifies this
      ensures WellFiled(State()) && Recovered(State()) == Recovered(old(State()))
      ensures alive ==> SetAside(State(), quarantined) && OnlyRow(old(State()), State(), j)
      ensures alive ==> queue == old(queue) && jobs == old(jobs)
                        && ledger == old(ledger)[queue[j].child := Owed(old(State()), j).entry]
    {
      ghost var before := State();
      alive := Live();
      if !alive { return; }
      AfterWrite(before, j);
      var child := queue[j].child;
      ledger := if ledger[child].Reserved? then Release(ledger, child)
        else RecordOutcome(ledger, child, LedgerState.Unknown);
      assert State() == Repair(before, {j});
      assert Rows(State(), RowState.Unknown) == Rows(before, RowState.Unknown);
    }

    method DeleteRow(j: Job) returns (alive: bool)
      requires SetAside(State(), quarantined) && j in queue && Owed(State(), j).Delete?
      modifies this
      ensures WellFiled(State()) && Recovered(State()) == Recovered(old(State()))
      ensures alive ==>
                SetAside(State(), quarantined) && OnlyRow(old(State()), State(), j) && j !in queue && jobs == old(jobs)
    {
      ghost var before := State();
      alive := Live();
      if !alive { return; }
      AfterWrite(before, j);
      queue := map k | k in queue && k != j :: queue[k];
      assert State() == Repair(before, {j});
      assert Rows(State(), RowState.Unknown) == Rows(before, RowState.Unknown);
    }

    /** An intent's reservation is released, or its call taken as unknown and
        the row set aside; every other intent is left to be deleted. */
    method RecoverIntent(j: Job) returns (alive: bool)
      requires SetAside(State(), quarantined) && j in queue && queue[j].state.Intent?
      modifies this
      ensures WellFiled(State()) && Recovered(State()) == Recovered(old(State()))
      ensures alive ==> SetAside(State(), quarantined) && OnlyRow(old(State()), State(), j) && jobs == old(jobs)
      ensures alive ==> j in queue && (queue[j].state.Unknown? || (queue[j].state.Intent? && Owed(State(), j).Delete?))
    {
      var child := queue[j].child;
      alive := true;
      if child !in ledger { return; }
      match ledger[child]
      case Reserved => alive := SettleEntry(j);
      case Dispatched =>
        alive := SettleEntry(j);
        if alive { alive := QuarantineJob(j); }
      case Unknown => alive := QuarantineJob(j);
      case _ =>
    }

    method RecoverIntents() returns (alive: bool)
      requires SetAside(State(), quarantined)
      modifies this
      ensures WellFiled(State()) && Recovered(State()) == Recovered(old(State()))
      ensures alive ==> SetAside(State(), quarantined)
      ensures alive ==> forall j | j in Rows(State(), Intent) :: Owed(State(), j).Delete?
    {
      var todo := Rows(Durable(queue, ledger, epoch), Intent);
      while todo != {}
        invariant SetAside(State(), quarantined) && Recovered(State()) == Recovered(old(State()))
        invariant forall j | j in todo :: j in queue && queue[j].state.Intent?
        invariant forall j | j in Rows(State(), Intent) && j !in todo :: Owed(State(), j).Delete?
        decreases todo
      {
        var j := Sets.AnyOf(todo);
        alive := RecoverIntent(j);
        if !alive { return; }
        todo := todo - {j};
      }
      alive := true;
    }

    /** One statement deletes every intent. */
    method DeleteIntents() returns (alive: bool)
      requires SetAside(State(), quarantined)
      requires forall j | j in Rows(State(), Intent) :: Owed(State(), j).Delete?
      modifies this
      ensures WellFiled(State()) && Recovered(State()) == Recovered(old(State()))
      ensures alive ==> SetAside(State(), quarantined) && Rows(State(), Intent) == {}
    {
      ghost var before := State();
      ghost var all := Rows(before, Intent);
      alive := Live();
      if !alive { return; }
      RepairLeavesEnd(before, all);
      forall k | k in queue && k !in all { RepairKeepsOthers(before, all, k); }
      queue := map k | k in queue && !queue[k].state.Intent? :: queue[k];
      assert State().ledger == Repair(before, all).ledger;
      assert State() == Repair(before, all);
      assert Rows(State(), RowState.Unknown) == Rows(before, RowState.Unknown);
      if Rows(State(), Intent) != {} { Sets.Inhabited(Rows(State(), Intent)); }
    }

    method RecoverStale(j: Job) returns (alive: bool)
      requires SetAside(State(), quarantined) && j in StaleRows(State())
      modifies this
      ensures WellFiled(State()) && Recovered(State()) == Recovered(old(State()))
      ensures alive ==> SetAside(State(), quarantined) && OnlyRow(old(State()), State(), j) && jobs == old(jobs)
      ensures alive ==> j in queue ==> queue[j].state.Unknown?
    {
      var child := queue[j].child;
      alive := true;
      if child in ledger && (ledger[child].Dispatched? || ledger[child].Unknown?) {
        if ledger[child].Dispatched? {
          alive := SettleEntry(j);
          if !alive { return; }
        }
        alive := QuarantineJob(j);
        return;
      }
      if child in ledger && ledger[child].Reserved? {
        alive := SettleEntry(j);
        if !alive { return; }
      }
      alive := DeleteRow(j);
    }

    method RecoverStaleReservations() returns (alive: bool)
      requires SetAside(State(), quarantined) && Rows(State(), Intent) == {}
      modifies this
      ensures WellFiled(State()) && Recovered(State()) == Recovered(old(State()))
      ensures alive ==> SetAside(State(), quarantined)
      ensures alive ==> forall j | j in queue :: !queue[j].state.Intent? && j !in StaleRows(State())
    {
      var todo := StaleRows(Durable(queue, ledger, epoch));
      assert forall j | j in queue && queue[j].state.Intent? :: j in Rows(State(), Intent);
      while todo != {}
        invariant SetAside(State(), quarantined) && Recovered(State()) == Recovered(old(State()))
        invariant forall j | j in todo :: j in StaleRows(State())
        invariant forall j | j in queue :: !queue[j].state.Intent? && (j in StaleRows(State()) ==> j in todo)
        decreases todo
      {
        var j := Sets.AnyOf(todo);
        alive := RecoverStale(j);
        if !alive { return; }
        todo := todo - {j};
      }
      alive := true;
    }

    /** Puts a current row back in the queue, or sets it aside when its call can
        no longer be known not to have been sent. */
    method RestoreReservedJob(j: Job) returns (alive: bool)
      requires SetAside(State(), quarantined) && j in CurrentRows(State())
      modifies this
      ensures WellFiled(State()) && Recovered(State()) == Recovered(old(State()))
      ensures alive ==> SetAside(State(), quarantined) && OnlyRow(old(State()), State(), j) && j in queue
      ensures alive ==> if queue[j].state.Reserved?
                        then State() == old(State()) && Owed(State(), j).Nothing?
                             && jobs == old(jobs) + [Queued(j, queue[j].child, queue[j].epoch, false)]
                        else queue[j].state.Unknown? && jobs == old(jobs)
    {
      var child := queue[j].child;
      alive := true;
      if child in ledger && ledger[child].Reserved? {
        jobs := jobs + [Queued(j, child, epoch, false)];
        return;
      }
      if child in ledger && ledger[child].Dispatched? {
        alive := SettleEntry(j);
        if !alive { return; }
      }
      alive := QuarantineJob(j);
    }

    method RestoreReservedJobs() returns (alive: bool)
      requires SetAside(State(), quarantined)
      requires forall j | j in queue :: !queue[j].state.Intent? && j !in StaleRows(State())
      modifies this
      ensures WellFiled(State()) && Recovered(State()) == Recovered(old(State()))
      ensures alive ==> SetAside(State(), quarantined) && Settled(State()) && Restores(State(), jobs)
    {
      jobs := [];
      var todo := CurrentRows(Durable(queue, ledger, epoch));
      while todo != {}
        invariant SetAside(State(), quarantined) && Recovered(State()) == Recovered(old(State()))
        invariant forall j | j in queue :: !queue[j].state.Intent? && j !in StaleRows(State())
        invariant forall j | j in todo :: j in CurrentRows(State())
        invariant RestoredSoFar(State(), jobs, todo)
        decreases todo
      {
        var j := FirstOf(queue, todo);
        ghost var before, queued := State(), jobs;
        alive := RestoreReservedJob(j);
        if !alive { return; }
        RestoredStep(before, State(), queued, todo, j, jobs);
        todo := todo - {j};
      }
      RestoredEnd(State(), jobs, quarantined);
      alive := true;
    }

    /** The whole of recovery. Wherever the process dies, what it leaves still
        ends where the stores it found end; when it lives, it is there: the
        queue and the list of jobs set aside are rebuilt exactly. */
    method RecoverQueuedJobs() returns (alive: bool)
      requires WellFiled(State())
      modifies this
      ensures WellFiled(State()) && Recovered(State()) == Recovered(old(State()))
      ensures alive ==> State() == Recovered(old(State())) && Clean(State())
      ensures alive ==> Restores(State(), jobs)
      ensures alive ==> Lists(quarantined, Rows(State(), RowState.Unknown))
    {
      EndIsClean(State());
      alive := MarkDispatchedUnknown();
      if !alive { return; }
      alive := QuarantineUnknown();
      if !alive { return; }
      alive := RecoverIntents();
      if !alive { return; }
      alive := DeleteIntents();
      if !alive { return; }
      alive := RecoverStaleReservations();
      if !alive { return; }
      alive := RestoreReservedJobs();
      if alive { SettledIsTheEnd(State()); }
    }

    /** One statement takes every dispatched row for unknown. */
    method MarkDispatchedUnknown() returns (alive: bool)
      requires WellFiled(State())
      modifies this
      ensures WellFiled(State()) && Recovered(State()) == Recovered(old(State()))
      ensures alive ==> forall j | j in queue :: !queue[j].state.Dispatched?
    {
      ghost var before := State();
      ghost var all := Rows(before, RowState.Dispatched);
      alive := Live();
      if !alive { return; }
      RepairLeavesEnd(before, all);
      forall k | k in queue { RepairedCell(before, all, k); }
      queue := map k | k in queue ::
          if queue[k].state.Dispatched? then queue[k].(state := RowState.Unknown) else queue[k];
      assert State().ledger == Repair(before, all).ledger;
      assert State() == Repair(before, all);
    }
  }
}
