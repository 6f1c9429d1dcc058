/** The two durable stores of a child job: its row in the queue table and its
    reservation in the call ledger; and what recovery does to each pair. */
module JobTables {
  import opened Wrappers

  /** Ids compare as their texts do. */
  type Job = int

  /** The reservation id of a job's child: its root's id with the job's. */
  datatype Child = Child(root: int, job: Job)

  datatype RowState = Intent | Reserved | Dispatched | Completed | Failed | Unknown

  datatype LedgerState = Reserved | Dispatched | Completed | Failed | Unknown | Released

  datatype Row = Row(child: Child, epoch: nat, createdAt: int, prompt: string, dependencies: seq<string>,
      state: RowState)

  datatype Durable = Durable(queue: map<Job, Row>, ledger: map<Child, LedgerState>, epoch: nat) {
    function Entry(c: Child): Option<LedgerState> { if c in ledger then Some(ledger[c]) else None }

    predicate HasRow(c: Child) { c.job in queue && queue[c.job].child == c }

    predicate In(j: Job, s: RowState) { j in queue && queue[j].state == s }
  }

  /** Every row is filed under the job of its child. */
  predicate WellFiled(d: Durable) {
    forall j | j in d.queue :: d.queue[j].child.job == j
  }

  predicate Charged(l: Option<LedgerState>) { l == Some(LedgerState.Reserved) || l == Some(LedgerState.Dispatched) }

  // The ledger's own rules: states only move forward.

  function Release(ledger: map<Child, LedgerState>, c: Child): map<Child, LedgerState> {
    if c in ledger && ledger[c].Reserved? then ledger[c := Released] else ledger
  }

  function Dispatch(ledger: map<Child, LedgerState>, c: Child): map<Child, LedgerState> {
    if c in ledger && ledger[c].Reserved? then ledger[c := LedgerState.Dispatched] else ledger
  }

  function RecordOutcome(ledger: map<Child, LedgerState>, c: Child, outcome: LedgerState): map<Child, LedgerState> {
    if c in ledger && (ledger[c].Reserved? || ledger[c].Dispatched?) then ledger[c := outcome] else ledger
  }

  // Recovery, one durable write at a time.

  /** The next write recovery owes a row, given its ledger entry. */
  datatype Write = Nothing | MarkUnknown | Quarantine | Delete | Settle(entry: LedgerState)

  function NextWrite(row: Row, l: Option<LedgerState>, epoch: nat): Write {
    match row.state
    case Dispatched => MarkUnknown
    case Unknown => if l == Some(LedgerState.Dispatched) then Settle(LedgerState.Unknown) else Nothing
    case Completed => Nothing
    case Failed => Nothing
    case _ =>
      if row.state.Reserved? && row.epoch == epoch then
        match l
        case Some(Reserved) => Nothing
        case Some(Dispatched) => Settle(LedgerState.Unknown)
        case _ => Quarantine
      else
        match l
        case Some(Reserved) => Settle(Released)
        case Some(Dispatched) => Settle(LedgerState.Unknown)
        case Some(Unknown) => Quarantine
        case _ => Delete
  }

  function Owed(d: Durable, j: Job): Write
    requires j in d.queue
  {
    NextWrite(d.queue[j], d.Entry(d.queue[j].child), d.epoch)
  }

  function Written(row: Row, w: Write): Row {
    match w
    case MarkUnknown => row.(state := RowState.Unknown)
    case Quarantine => row.(state := RowState.Unknown, prompt := "", dependencies := [])
    case _ => row
  }

  /** One atomic write: what recovery owes each of the given rows. */
  function Repair(d: Durable, s: set<Job>): Durable {
    Durable(
      map j | j in d.queue && !(j in s && Owed(d, j).Delete?) ::
          if j in s then Written(d.queue[j], Owed(d, j)) else d.queue[j],
      map c | c in d.ledger ::
        if c.job in s && d.HasRow(c) && Owed(d, c.job).Settle? then Owed(d, c.job).entry else d.ledger[c],
      d.epoch)
  }

  // Where recovery ends, said without steps.

  function FinalRow(row: Row, l: Option<LedgerState>, epoch: nat): Option<Row> {
    match row.state
    case Dispatched => Some(row.(state := RowState.Unknown))
    case Unknown => Some(row)
    case Completed => Some(row)
    case Failed => Some(row)
    case _ =>
      if row.state.Reserved? && row.epoch == epoch then
        Some(if l == Some(LedgerState.Reserved) then row else Written(row, Quarantine))
      else if l == Some(LedgerState.Dispatched) || l == Some(LedgerState.Unknown) then Some(Written(row, Quarantine))
      else None
  }

  function FinalEntry(row: Row, l: LedgerState, epoch: nat): LedgerState {
    match row.state
    case Completed => l
    case Failed => l
    case _ =>
      if l.Dispatched? then LedgerState.Unknown
      else if l.Reserved? && (row.state.Intent? || (row.state.Reserved? && row.epoch != epoch)) then Released
      else l
  }

  function EndRow(d: Durable, j: Job): Option<Row> {
    if j in d.queue then FinalRow(d.queue[j], d.Entry(d.queue[j].child), d.epoch) else None
  }

  function EndEntry(d: Durable, c: Child): Option<LedgerState> {
    if c !in d.ledger then None
    else if d.HasRow(c) then Some(FinalEntry(d.queue[c.job], d.ledger[c], d.epoch))
    else Some(d.ledger[c])
  }

  function Recovered(d: Durable): Durable {
    Durable(map j | j in d.queue && EndRow(d, j).Some? :: EndRow(d, j).value,
            map c | c in d.ledger :: EndEntry(d, c).value,
            d.epoch)
  }

  predicate Settled(d: Durable) {
    forall j | j in d.queue :: Owed(d, j).Nothing?
  }

  /** One write on one row and its entry leaves their end where it was. */
  lemma CellEndStays(row: Row, l: Option<LedgerState>, epoch: nat)
    ensures var w := NextWrite(row, l, epoch);
            var l' := if w.Settle? then Some(w.entry) else l;
            && (w.Settle? ==> l.Some?)
            && FinalRow(row, l, epoch) == (if w.Delete? then None else FinalRow(Written(row, w), l', epoch))
            && (l.Some? ==> FinalEntry(row, l.value, epoch) ==
                            if w.Delete? then l.value else FinalEntry(Written(row, w), l'.value, epoch))
  {
  }

  lemma RepairedCell(d: Durable, s: set<Job>, j: Job)
    requires WellFiled(d) && j in d.queue
    ensures var e := Repair(d, s);
            var w := if j in s then Owed(d, j) else Nothing;
            && (j in e.queue <==> !w.Delete?)
            && (j in e.queue ==> e.queue[j] == Written(d.queue[j], w))
            && e.Entry(d.queue[j].child) == if w.Settle? then Some(w.entry) else d.Entry(d.queue[j].child)
  {
    CellEndStays(d.queue[j], d.Entry(d.queue[j].child), d.epoch);
  }

  lemma RowEndStays(d: Durable, s: set<Job>, j: Job)
    requires WellFiled(d)
    ensures EndRow(Repair(d, s), j) == EndRow(d, j)
  {
    if j in d.queue {
      RepairedCell(d, s, j);
      CellEndStays(d.queue[j], d.Entry(d.queue[j].child), d.epoch);
    }
  }

  lemma EntryEndStays(d: Durable, s: set<Job>, c: Child)
    requires WellFiled(d)
    ensures EndEntry(Repair(d, s), c) == EndEntry(d, c)
  {
    if c.job in d.queue {
      RepairedCell(d, s, c.job);
      CellEndStays(d.queue[c.job], d.Entry(d.queue[c.job].child), d.epoch);
    }
  }

  /** Recovery is confluent: after any write, or any number of writes, on any
      rows, the end of recovery is where it was before. */
  lemma RepairLeavesEnd(d: Durable, s: set<Job>)
    requires WellFiled(d)
    ensures WellFiled(Repair(d, s))
    ensures Recovered(Repair(d, s)) == Recovered(d)
  {
    var e := Repair(d, s);
    forall j | j in d.queue ensures j in e.queue ==> e.queue[j].child == d.queue[j].child {
      RepairedCell(d, s, j);
    }
    forall j ensures EndRow(e, j) == EndRow(d, j) { RowEndStays(d, s, j); }
    forall c ensures EndEntry(e, c) == EndEntry(d, c) { EntryEndStays(d, s, c); }
    assert Recovered(e).queue == Recovered(d).queue;
    assert Recovered(e).ledger == Recovered(d).ledger;
  }

  function RepairAll(d: Durable, writes: seq<set<Job>>): Durable
    decreases |writes|
  {
    if writes == [] then d else RepairAll(Repair(d, writes[0]), writes[1..])
  }

  /** Whatever writes an interrupted recovery made, a later one that runs until
      nothing is owed ends where a single uninterrupted one does. */
  lemma {:induction false} InterruptedRecoveryEndsAlike(d: Durable, writes: seq<set<Job>>)
    requires WellFiled(d)
    ensures WellFiled(RepairAll(d, writes))
    ensures Recovered(RepairAll(d, writes)) == Recovered(d)
    ensures Settled(RepairAll(d, writes)) ==> RepairAll(d, writes) == Recovered(d)
    decreases |writes|
  {
    if writes == [] {
      if Settled(d) { SettledIsTheEnd(d); }
    } else {
      RepairLeavesEnd(d, writes[0]);
      InterruptedRecoveryEndsAlike(Repair(d, writes[0]), writes[1..]);
    }
  }

  /** Recovery has ended exactly when no row is owed a write. */
  lemma SettledIsTheEnd(d: Durable)
    requires WellFiled(d)
    ensures Settled(d) <==> Recovered(d) == d
  {
    if Settled(d) {
      forall j | j in d.queue
        ensures FinalRow(d.queue[j], d.Entry(d.queue[j].child), d.epoch) == Some(d.queue[j])
      {
        assert Owed(d, j).Nothing?;
      }
      assert Recovered(d).queue == d.queue;
      assert Recovered(d).ledger == d.ledger;
    } else {
      var j :| j in d.queue && !Owed(d, j).Nothing?;
      var row, l := d.queue[j], d.Entry(d.queue[j].child);
      if FinalRow(row, l, d.epoch) == Some(row) {
        assert Recovered(d).ledger[row.child] != d.ledger[row.child];
      } else if j in Recovered(d).queue {
        assert Recovered(d).queue[j] != row;
      }
    }
  }

  lemma CellEndIsClean(row: Row, l: Option<LedgerState>, epoch: nat)
    requires FinalRow(row, l, epoch).Some?
    ensures var end := FinalRow(row, l, epoch).value;
            var entry := if l.None? then None else Some(FinalEntry(row, l.value, epoch));
            && end.child == row.child
            && NextWrite(end, entry, epoch).Nothing?
            && !end.state.Intent? && !end.state.Dispatched?
            && (end.state.Reserved? ==> end.epoch == epoch && entry == Some(LedgerState.Reserved))
  {
  }

  /** No row is an intent or dispatched, and every reserved row is of the current
      epoch and reserved in the ledger. */
  predicate Clean(d: Durable) {
    forall j | j in d.queue ::
      var row := d.queue[j];
      && !row.state.Intent? && !row.state.Dispatched?
      && (row.state.Reserved? ==> row.epoch == d.epoch && d.Entry(row.child) == Some(LedgerState.Reserved))
  }

  /** What the end of recovery looks like. */
  lemma EndIsClean(d: Durable)
    requires WellFiled(d)
    ensures Settled(Recovered(d)) && WellFiled(Recovered(d)) && Clean(Recovered(d))
  {
    var e := Recovered(d);
    forall j | j in e.queue
      ensures e.queue[j].child == d.queue[j].child
      ensures Owed(e, j).Nothing?
      ensures !e.queue[j].state.Intent? && !e.queue[j].state.Dispatched?
      ensures e.queue[j].state.Reserved? ==>
                e.queue[j].epoch == d.epoch && e.Entry(e.queue[j].child) == Some(LedgerState.Reserved)
    {
      CellEndIsClean(d.queue[j], d.Entry(d.queue[j].child), d.epoch);
    }
  }
}
