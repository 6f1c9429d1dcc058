/** When each explicit human operation on a decision is granted, and what it then
    leaves: said of the records themselves. */
module DecisionEffects {
  import opened Wrappers
  import opened Memory
  import opened Decisions
  import Lineage

  /** Between one byte and 16 KiB of text that is not all white space. */
  predicate Stated(text: string) {
    |text| <= 16384 && exists i | 0 <= i < |text| :: text[i] != ' ' && (text[i] < '\t' || '\r' < text[i])
  }

  lemma StatedIsBounded(text: string)
    ensures BoundedBody(text) <==> Stated(text)
  {
    if BoundedBody(text) {
      var i :| 0 <= i < |text| && !Space(text[i]);
      assert text[i] != ' ' && (text[i] < '\t' || '\r' < text[i]);
    }
    if Stated(text) {
      var i :| 0 <= i < |text| && text[i] != ' ' && (text[i] < '\t' || '\r' < text[i]);
      assert !Space(text[i]);
    }
  }

  /** The current record of an unprotected decision that is not superseded, in its
      exact scope. */
  predicate Current(s: Store, scope: Scope, id: Id) {
    && id < |s| && s[id].kind.Decision? && s[id].state != Some(Superseded)
    && s[id].scope == scope && !s[id].protectedPolicy
    && forall i | 0 <= i < |s| :: s[i].supersedes != Some(id)
  }

  predicate StillOpen(r: Record) { r.body.Committed? && r.body.commitment.completion.Open? }

  /** A successful native receipt for this commitment. */
  predicate Receipts(s: Store, scope: Scope, id: Id, receipt: Id) {
    && receipt < |s| && (forall i | 0 <= i < |s| :: s[i].supersedes != Some(receipt))
    && s[receipt].origin.System? && s[receipt].kind.Finding? && s[receipt].scope == scope
    && s[receipt].body.Receipt? && s[receipt].body.commitmentId == id && s[receipt].body.succeeded
    && Stated(s[receipt].body.operation)
  }

  /** Whether a person's operation has what it needs. */
  predicate Granted(s: Store, scope: Scope, id: Id, op: Op, now: int)
    requires id < |s|
  {
    match op
    case Transition(_) => true
    case Schedule(dueAt) =>
      && now <= dueAt <= now + 31_536_000
      && (s[id].state == Some(Accepted) || s[id].state == Some(Deferred)) && StillOpen(s[id])
    case ReportCompletion(statement) => Stated(statement) && s[id].body.Committed?
    case ConfirmExecution(receipt) => Receipts(s, scope, id, receipt) && s[id].body.Committed?
    case Revise(text) => Stated(text) && !s[id].body.Committed?
  }

  /** The same promise under the same condition. */
  predicate SamePromise(before: Record, after: Record, dueAt: Option<int>, completion: Completion) {
    && before.body.Committed? && after.state == before.state
    && after.body == Committed(before.body.commitment.(dueAt := dueAt, completion := completion))
  }

  /** What the operation makes of the decision's state and body. */
  predicate Performed(before: Record, after: Record, op: Op) {
    match op
    case Transition(state) => after.state == Some(state) && after.body == before.body
    case Revise(text) => after.state == before.state && after.body == Words(text)
    case Schedule(dueAt) => before.body.Committed? && SamePromise(before, after, Some(dueAt), Open)
    case ReportCompletion(statement) =>
      before.body.Committed? && SamePromise(before, after, before.body.commitment.dueAt, HumanReported(statement))
    case ConfirmExecution(receipt) =>
      before.body.Committed? && SamePromise(before, after, before.body.commitment.dueAt, ReceiptConfirmed(receipt))
  }

  /** A person's revision of that record and of no other, in its scope, saying so;
      it keeps what the record rested on as long as the list has room. */
  predicate Succeeds(s: Store, id: Id, r: Record, now: int)
    requires id < |s|
  {
    && r.kind == s[id].kind && r.origin.Human? && r.scope == s[id].scope && !r.protectedPolicy
    && r.supersedes == Some(id) && r.timestamp == now
    && (|s[id].dependencies| < 63 ==> forall d | d in s[id].dependencies :: d in r.dependencies)
    && LineageOf(r).Some?
    && var l := LineageOf(r).value;
    && l.actor.Human? && l.source == id && l.sourceOrigin == s[id].origin && l.semanticKind == Some(s[id].kind)
  }

  lemma RecordedExactlyWhen(s: Store, origin: Origin, scope: Scope, id: Id, op: Op, now: int)
    requires id < |s|
    ensures var r := RecordOf(s, origin, scope, id, op, now);
            && (r.Some? <==> origin.Human? && DecisionPredecessor(s, scope, id).Some? && Granted(s, scope, id, op, now))
            && (r.Some? ==> Succeeds(s, id, r.value, now) && Performed(s[id], r.value, op))
  {
    match op
    case Transition(_) =>
    case Schedule(_) =>
    case ReportCompletion(statement) => StatedIsBounded(statement);
    case ConfirmExecution(receipt) =>
      if receipt < |s| && s[receipt].body.Receipt? { StatedIsBounded(s[receipt].body.operation); }
    case Revise(text) => StatedIsBounded(text);
  }

  /** In a well-linked store an operation is granted exactly to a person, on the
      current record of an unprotected decision that is not superseded, in its own
      scope, with texts that fit and what the operation itself needs. Then exactly
      its revision is appended: the state, the due time, the completion or the
      words are what was asked for, and everything else of the decision is as it
      was. */
  lemma PerformedExactlyWhen(s: Store, origin: Origin, scope: Scope, id: Id, op: Op, now: int, fits: bool)
    requires WellLinked(s)
    ensures var after := Apply(s, origin, scope, id, op, now, fits);
            && (after.Some? <==> origin.Human? && Current(s, scope, id) && fits && Granted(s, scope, id, op, now))
            && (after.Some? ==>
                  && |after.value| == |s| + 1 && after.value[..|s|] == s
                  && Succeeds(s, id, after.value[|s|], now) && Performed(s[id], after.value[|s|], op))
  {
    if id < |s| {
      RecordedExactlyWhen(s, origin, scope, id, op, now);
      GrantedIfCurrent(s, Request(origin, scope, op, now, fits), id);
    }
  }

  // What a confirmation rests on.

  /** The commitment's confirmation, if it has one, is by a successful native
      receipt of its scope. */
  predicate Evidenced(s: Store, id: Id) {
    id < |s| && s[id].body.Committed? && s[id].body.commitment.completion.ReceiptConfirmed? ==>
      var receipt := s[id].body.commitment.completion.receipt;
      && receipt < |s| && s[receipt].origin.System? && s[receipt].kind.Finding? && s[receipt].scope == s[id].scope
      && s[receipt].body.Receipt? && s[receipt].body.succeeded
  }

  lemma NextIsEvidenced(c: Chain, m: Move)
    requires WellLinked(c.store) && c.current < |c.store| && Evidenced(c.store, c.current)
    ensures Evidenced(Next(c, m).store, Next(c, m).current)
  {
    var n := Next(c, m);
    if m.Ask? {
      var q := m.request;
      PerformedExactlyWhen(c.store, q.origin, q.scope, c.current, q.op, q.now, q.fits);
    }
    assert forall i | 0 <= i < |c.store| :: n.store[i] == c.store[i];
  }

  /** Over any chain, whatever else is appended: a commitment that was not given as
      confirmed is confirmed only by a successful native receipt of its scope,
      never by what a person reported. */
  lemma {:induction false} ConfirmationsHaveReceipts(c: Chain, moves: seq<Move>)
    requires WellLinked(c.store) && c.current < |c.store| && Evidenced(c.store, c.current)
    ensures Evidenced(After(c, moves).store, After(c, moves).current)
    decreases |moves|
  {
    if moves != [] {
      NextIsEvidenced(c, moves[0]);
      LinksAreKept(c, [moves[0]]);
      assert [moves[0]][1..] == [] && After(c, [moves[0]]) == Next(c, moves[0]);
      ConfirmationsHaveReceipts(Next(c, moves[0]), moves[1..]);
    }
  }

  // Corrections.

  /** A freeform correction is recorded exactly for a person, with a stated text, of
      an unprotected record in its exact scope that is no decision. It replaces the
      words and nothing else; an instruction's becomes a correction, and any other
      record keeps its kind. */
  lemma CorrectedExactlyWhen(s: Store, origin: Origin, scope: Scope, id: Id, text: string, now: int)
    ensures var r := Lineage.CorrectionOf(s, origin, scope, id, text, now);
            && (r.Some? <==>
                  && origin.Human? && Stated(text) && id < |s| && s[id].scope == scope
                  && !s[id].protectedPolicy && !s[id].kind.Decision?)
            && (r.Some? ==>
                  && r.value.kind == (if s[id].kind.UserInstruction? then Correction else s[id].kind)
                  && r.value.body == Words(text) && r.value.state == s[id].state && r.value.origin.Human?
                  && r.value.scope == s[id].scope && r.value.supersedes == Some(id) && !r.value.protectedPolicy
                  && LineageOf(r.value).Some? && LineageOf(r.value).value.rationaleAuthor.Human?
                  && LineageOf(r.value).value.rationaleSource.None?)
  {
    StatedIsBounded(text);
  }
}
